/** The per-socket handlers for walking (`location`), drawing (`mapDraw`)
    and erasing (`mapDelete`) on a map. */
module Handlers {
  import opened World

  // ---- location ----

  /** Whether a step onto a room with `link` takes the player through it: a
      player who can edit walks over links while holding SHIFT, and only an
      editor may follow a link to a map that does not exist (yet). */
  predicate Portal(link: Option<Link>, canEdit: bool, shift: bool, targetExists: bool)
  {
    link.Some? && (!canEdit || !shift) && (targetExists || canEdit)
  }

  /** Where a player at `loc` who reports cell (x, y) ends up. `link` is the
      link of the room at (x, y) on the player's map (None when there is no
      room or it has no link) and `targetExists` whether the link's map is
      loaded. */
  function Arrival(loc: Location, x: int, y: int, link: Option<Link>, canEdit: bool, shift: bool,
                   targetExists: bool): (r: Location)
  {
    if Portal(link, canEdit, shift, targetExists) then Location(link.value.mapName, link.value.x, link.value.y)
    else Location(loc.mapName, x, y)
  }

  /** What the `location` handler asks of the engine. */
  function LocationNotices(who: Player, oldMap: string, link: Option<Link>, canEdit: bool, shift: bool,
                           targetExists: bool): (r: seq<Notice>)
  {
    if Portal(link, canEdit, shift, targetExists) then
      [RenderMap(who, link.value.mapName), GetSurrounding(who), UpdateSurrounding(who), RemoveFromMap(who, oldMap)]
    else [UpdateSurrounding(who)]
  }

  /** Without a portal the player stays on the map at the reported cell; with
      one the player lands on the link's target. */
  lemma ArrivalCases(loc: Location, x: int, y: int, link: Option<Link>, canEdit: bool, shift: bool,
                     targetExists: bool)
    ensures var a := Arrival(loc, x, y, link, canEdit, shift, targetExists);
      (link.None? ==> a == Location(loc.mapName, x, y)) &&
      (canEdit && shift ==> a == Location(loc.mapName, x, y)) &&
      (link.Some? && !canEdit && targetExists ==> a == Location(link.value.mapName, link.value.x, link.value.y)) &&
      (link.Some? && canEdit && !shift ==> a == Location(link.value.mapName, link.value.x, link.value.y))
  {
  }

  /** A player who cannot edit never follows a link to a missing map: such a
      step keeps the player on its own map, at the reported cell. */
  lemma VisitorsStayOffMissingMaps(loc: Location, x: int, y: int, link: Option<Link>, shift: bool)
    ensures !Portal(link, false, shift, false)
    ensures Arrival(loc, x, y, link, false, shift, false) == Location(loc.mapName, x, y)
  {
  }

  /** The player is removed from its old map exactly when it goes through a
      portal, and the engine is always told to update the players around it. */
  lemma LeavesOnlyThroughPortal(who: Player, oldMap: string, link: Option<Link>, canEdit: bool, shift: bool,
                                targetExists: bool)
    ensures var r := LocationNotices(who, oldMap, link, canEdit, shift, targetExists);
      (RemoveFromMap(who, oldMap) in r <==> Portal(link, canEdit, shift, targetExists)) &&
      UpdateSurrounding(who) in r
  {
  }

  /** `socket.on('location', ...)`. */
  method OnLocation(player: Player, x: int, y: int, shift: bool, link: Option<Link>, targetExists: bool)
    returns (notices: seq<Notice>)
    modifies player`location
    ensures player.location == Arrival(old(player.location), x, y, link, player.canEdit, shift, targetExists)
    ensures notices == LocationNotices(player, old(player.location.mapName), link, player.canEdit, shift, targetExists)
  {
    player.location := player.location.(x := x, y := y);
    if link.Some? {
      if !player.canEdit || (player.canEdit && !shift) {
        if (!targetExists && player.canEdit) || targetExists {
          var oldMap := player.location.mapName;
          player.location := Location(link.value.mapName, link.value.x, link.value.y);
          notices := [RenderMap(player, link.value.mapName), GetSurrounding(player)];
          notices := notices + [UpdateSurrounding(player), RemoveFromMap(player, oldMap)];
          return;
        }
      }
    }
    notices := [UpdateSurrounding(player)];
  }

  // ---- mapDraw and mapDelete ----

  /** The fields of the player drawing and erasing change: where the cursor
      is, and the object being edited ("" for none). */
  datatype Pen = Pen(location: Location, editing: string)

  /** What a stroke leaves: the pen, and the notices. */
  datatype Stroke = Stroke(pen: Pen, notices: seq<Notice>)

  function PenOf(p: Player): (r: Pen)
    reads p
  {
    Pen(p.location, p.editingObject)
  }

  const ObjectDeletedText: string := "No longer editing object. Object has been deleted."

  /** The two messages a player of the map gets when an object is deleted. */
  function DeleteFor(p: Player, name: string): (r: seq<Notice>)
  {
    [Send(p, ObjectDelete(name)), Send(p, Text(ObjectDeletedText))]
  }

  /** The deletion, announced to every player of the map in roster order
      with the deleted object's name. */
  function DeleteNotices(onMap: seq<Player>, name: string): (r: seq<Notice>)
  {
    if onMap == [] then []
    else DeleteNotices(onMap[..|onMap| - 1], name) + DeleteFor(onMap[|onMap| - 1], name)
  }

  /** The callback as the source writes it: it reads the editing field while
      it clears it, so only the first player of the map gets the name and the
      others get the cleared value. */
  function DeleteNoticesAsWritten(onMap: seq<Player>, name: string): (r: seq<Notice>)
  {
    if onMap == [] then [] else DeleteFor(onMap[0], name) + DeleteNotices(onMap[1..], "")
  }

  /** Every player of the map is told the deleted object's name, and then that
      the editor no longer edits it. */
  lemma {:induction false} DeleteNoticesAt(onMap: seq<Player>, name: string)
    ensures |DeleteNotices(onMap, name)| == 2 * |onMap|
    ensures forall i :: 0 <= i < |onMap| ==>
      DeleteNotices(onMap, name)[2 * i] == Send(onMap[i], ObjectDelete(name)) &&
      DeleteNotices(onMap, name)[2 * i + 1] == Send(onMap[i], Text(ObjectDeletedText))
  {
    if onMap != [] {
      var init := onMap[..|onMap| - 1];
      DeleteNoticesAt(init, name);
      forall i | 0 <= i < |onMap|
        ensures DeleteNotices(onMap, name)[2 * i] == Send(onMap[i], ObjectDelete(name))
        ensures DeleteNotices(onMap, name)[2 * i + 1] == Send(onMap[i], Text(ObjectDeletedText))
      {
        if i < |init| {
          assert onMap[i] == init[i];
        }
      }
    }
  }

  /** With two players on the map the second one is sent the cleared name
      instead of the deleted object's. */
  lemma SecondPlayerLosesName(p: Player, q: Player)
    ensures var w := DeleteNoticesAsWritten([p, q], "crate");
      |w| == 4 && w[2] == Send(q, ObjectDelete(""))
    ensures var c := DeleteNotices([p, q], "crate");
      |c| == 4 && c[2] == Send(q, ObjectDelete("crate"))
  {
    assert [p, q][1..] == [q];
    DeleteNoticesAt([q], "");
    DeleteNoticesAt([p, q], "crate");
  }

  lemma DeleteNoticesSnoc(onMap: seq<Player>, k: nat, name: string)
    requires k < |onMap|
    ensures DeleteNotices(onMap[..k + 1], name) == DeleteNotices(onMap[..k], name) + DeleteFor(onMap[k], name)
  {
    assert onMap[..k + 1][..k] == onMap[..k];
  }

  lemma AsWrittenSnoc(onMap: seq<Player>, k: nat, name: string)
    requires k < |onMap|
    ensures DeleteNoticesAsWritten(onMap[..k + 1], name) ==
            DeleteNoticesAsWritten(onMap[..k], name) + DeleteFor(onMap[k], if k == 0 then name else "")
  {
    if k > 0 {
      assert onMap[..k + 1][1..] == onMap[1..k + 1];
      assert onMap[..k][1..] == onMap[1..k];
      DeleteNoticesSnoc(onMap[1..], k - 1, "");
      assert onMap[1..][..k] == onMap[1..k + 1];
      assert onMap[1..][..k - 1] == onMap[1..k];
    }
  }

  /** The `onObjectDelete` callback as written: the name is read from the
      editing field on every round, after the first round has cleared it. */
  method DeleteCallbackAsWritten(player: Player, onMap: seq<Player>) returns (notices: seq<Notice>)
    modifies player`editingObject
    ensures notices == DeleteNoticesAsWritten(onMap, old(player.editingObject))
    ensures player.editingObject == if onMap == [] then old(player.editingObject) else ""
  {
    notices := [];
    var k := 0;
    while k < |onMap|
      invariant 0 <= k <= |onMap|
      invariant notices == DeleteNoticesAsWritten(onMap[..k], old(player.editingObject))
      invariant player.editingObject == if k == 0 then old(player.editingObject) else ""
    {
      AsWrittenSnoc(onMap, k, old(player.editingObject));
      var name := player.editingObject;
      notices := notices + [Send(onMap[k], ObjectDelete(name))];
      player.editingObject := "";
      notices := notices + [Send(onMap[k], Text(ObjectDeletedText))];
      k := k + 1;
    }
    assert onMap[..|onMap|] == onMap;
  }

  /** The callback with the name taken before the first player is told. */
  method DeleteCallback(player: Player, onMap: seq<Player>) returns (notices: seq<Notice>)
    modifies player`editingObject
    ensures notices == DeleteNotices(onMap, old(player.editingObject))
    ensures player.editingObject == if onMap == [] then old(player.editingObject) else ""
  {
    var name := player.editingObject;
    notices := [];
    for k := 0 to |onMap|
      invariant notices == DeleteNotices(onMap[..k], name)
      invariant player.editingObject == if k == 0 then name else ""
    {
      DeleteNoticesSnoc(onMap, k, name);
      notices := notices + [Send(onMap[k], ObjectDelete(name))];
      player.editingObject := "";
      notices := notices + [Send(onMap[k], Text(ObjectDeletedText))];
    }
    assert onMap[..|onMap|] == onMap;
  }

  /** `mapDraw`: an editor's symbol is drawn at the cursor, which then moves
      one cell right. */
  function DrawStroke(who: Player, canEdit: bool, pen: Pen, symbol: string): (r: Stroke)
  {
    if !canEdit then Stroke(pen, [])
    else
      var at := pen.location;
      Stroke(pen.(location := at.(x := at.x + 1)),
             [MapEdit(at.mapName, Draw(symbol, pen.editing)), MapUpdate(who, at, symbol, pen.editing), UpdateSurrounding(who)])
  }

  /** `mapDelete`: an editor's cell at the cursor is erased, and the cursor
      moves one cell left. When the erase deletes the edited object
      (`deleted`, decided by the map), `told` are the notices of the deletion
      callback, and the editor stops editing the object once anyone was told. */
  function Erase(who: Player, canEdit: bool, onMap: seq<Player>, pen: Pen, deleted: bool, told: seq<Notice>): (r: Stroke)
  {
    if !canEdit then Stroke(pen, [])
    else
      var at := pen.location;
      var editing := if deleted && onMap != [] then "" else pen.editing;
      Stroke(Pen(at.(x := at.x - 1), editing),
             [MapEdit(at.mapName, Undraw(pen.editing))] +
             (if deleted then told else []) +
             [MapUpdateDelete(who, at, editing), UpdateSurrounding(who)])
  }

  /** `mapDelete` as written: the callback sends the name to the first player only. */
  function DeleteStrokeAsWritten(who: Player, canEdit: bool, onMap: seq<Player>, pen: Pen, deleted: bool): (r: Stroke)
  {
    Erase(who, canEdit, onMap, pen, deleted, DeleteNoticesAsWritten(onMap, pen.editing))
  }

  /** `mapDelete` with the corrected callback: every player is sent the name. */
  function DeleteStroke(who: Player, canEdit: bool, onMap: seq<Player>, pen: Pen, deleted: bool): (r: Stroke)
  {
    Erase(who, canEdit, onMap, pen, deleted, DeleteNotices(onMap, pen.editing))
  }

  /** Only editors draw and erase; a draw followed by an erase brings the
      cursor back to where it was, and the erase is asked of the same map at
      the same cell for the same edited object. */
  lemma DrawThenDelete(who: Player, canEdit: bool, onMap: seq<Player>, pen: Pen, symbol: string, deleted: bool)
    ensures !canEdit ==> DrawStroke(who, canEdit, pen, symbol) == Stroke(pen, []) &&
                         DeleteStrokeAsWritten(who, canEdit, onMap, pen, deleted) == Stroke(pen, [])
    ensures canEdit ==>
      var d := DrawStroke(who, canEdit, pen, symbol);
      var e := DeleteStrokeAsWritten(who, canEdit, onMap, d.pen, deleted);
      e.pen.location == pen.location &&
      d.notices[0] == MapEdit(pen.location.mapName, Draw(symbol, pen.editing)) &&
      e.notices[0] == MapEdit(pen.location.mapName, Undraw(pen.editing)) &&
      e.notices[|e.notices| - 2] == MapUpdateDelete(who, pen.location.(x := pen.location.x + 1), e.pen.editing)
  {
  }

  /** As written, when an editor's erase deletes the edited object, the first
      player of the map is sent the object's name and every later player the
      cleared name; the editor edits nothing after. */
  lemma DeletionNamesFirstOnly(who: Player, onMap: seq<Player>, pen: Pen)
    requires onMap != []
    ensures var e := DeleteStrokeAsWritten(who, true, onMap, pen, true);
      e.pen.editing == "" && |e.notices| == 2 * |onMap| + 3 &&
      e.notices[1] == Send(onMap[0], ObjectDelete(pen.editing)) &&
      forall i :: 1 <= i < |onMap| ==> e.notices[1 + 2 * i] == Send(onMap[i], ObjectDelete(""))
  {
    DeleteNoticesAt(onMap[1..], "");
    var e := DeleteStrokeAsWritten(who, true, onMap, pen, true);
    forall i | 1 <= i < |onMap|
      ensures e.notices[1 + 2 * i] == Send(onMap[i], ObjectDelete(""))
    {
      assert onMap[1..][i - 1] == onMap[i];
      assert e.notices[1 + 2 * i] == DeleteNotices(onMap[1..], "")[2 * (i - 1)];
    }
  }

  /** With the corrected callback, when an editor's erase deletes the edited
      object, every player of the map is sent that object's name, and the
      editor edits nothing after. */
  lemma DeletionReachesEveryone(who: Player, onMap: seq<Player>, pen: Pen)
    requires onMap != []
    ensures var e := DeleteStroke(who, true, onMap, pen, true);
      e.pen.editing == "" && |e.notices| == 2 * |onMap| + 3 &&
      forall i :: 0 <= i < |onMap| ==> e.notices[1 + 2 * i] == Send(onMap[i], ObjectDelete(pen.editing))
  {
    DeleteNoticesAt(onMap, pen.editing);
  }

  /** `socket.on('mapDraw', ...)`. */
  method MapDraw(player: Player, symbol: string) returns (notices: seq<Notice>)
    modifies player`location
    ensures Stroke(PenOf(player), notices) == DrawStroke(player, player.canEdit, old(PenOf(player)), symbol)
  {
    notices := [];
    if !player.canEdit { return; }
    var at := player.location;
    notices := [MapEdit(at.mapName, Draw(symbol, player.editingObject))];
    notices := notices + [MapUpdate(player, at, symbol, player.editingObject)];
    player.location := at.(x := at.x + 1);
    notices := notices + [UpdateSurrounding(player)];
  }

  /** `socket.on('mapDelete', ...)` as written, with the deletion callback run
      at once when the map reports the edited object deleted. */
  method MapDelete(player: Player, onMap: seq<Player>, deleted: bool) returns (notices: seq<Notice>)
    modifies player`location, player`editingObject
    ensures Stroke(PenOf(player), notices) ==
            DeleteStrokeAsWritten(player, player.canEdit, onMap, old(PenOf(player)), deleted)
  {
    notices := [];
    if !player.canEdit { return; }
    var at := player.location;
    notices := [MapEdit(at.mapName, Undraw(player.editingObject))];
    if deleted {
      var told := DeleteCallbackAsWritten(player, onMap);
      notices := notices + told;
    }
    notices := notices + [MapUpdateDelete(player, at, player.editingObject)];
    player.location := at.(x := at.x - 1);
    notices := notices + [UpdateSurrounding(player)];
  }

  /** The `mapDelete` handler with the corrected callback. */
  method MapDeleteCorrected(player: Player, onMap: seq<Player>, deleted: bool) returns (notices: seq<Notice>)
    modifies player`location, player`editingObject
    ensures Stroke(PenOf(player), notices) == DeleteStroke(player, player.canEdit, onMap, old(PenOf(player)), deleted)
  {
    notices := [];
    if !player.canEdit { return; }
    var at := player.location;
    notices := [MapEdit(at.mapName, Undraw(player.editingObject))];
    if deleted {
      var told := DeleteCallback(player, onMap);
      notices := notices + told;
    }
    notices := notices + [MapUpdateDelete(player, at, player.editingObject)];
    player.location := at.(x := at.x - 1);
    notices := notices + [UpdateSurrounding(player)];
  }
}
