/** How the movement tick reads an object's `path` and `stops` strings: a
    `'|'`-separated list of `"x,y"` entries. */
module Paths {
  import opened Strings
  import opened World

  /** Pause after arriving at a stop point, and after any other waypoint. */
  const StopPause: int := 30
  const MovePause: int := 1

  /** `path.split('|')`. */
  function Entries(path: string): (r: seq<string>)
    ensures |r| >= 1
  {
    Split(path, '|')
  }

  /** An entry whose first two `','`-separated fields are numerals. */
  predicate IsWaypoint(e: string)
  {
    var f := Split(e, ',');
    |f| >= 2 && Numeral(f[0]) && Numeral(f[1])
  }

  /** `parseInt(e.split(',')[0])`, `parseInt(e.split(',')[1])`. */
  function WaypointOf(e: string): (r: Cell)
    requires IsWaypoint(e)
  {
    var f := Split(e, ',');
    Cell(ParseInt(f[0]), ParseInt(f[1]))
  }

  /** A path every entry of which the tick can parse: the first entry (where
      the index wraps to) is present and every present entry is a waypoint. */
  predicate WellFormed(path: string)
  {
    var es := Entries(path);
    es[0] != "" && forall i :: 0 <= i < |es| ==> es[i] != "" ==> IsWaypoint(es[i])
  }

  /** The index after `index` (unset counts as -1): wraps to 0 past the last
      entry, and also when the entry there is missing or empty. */
  function NextIndex(index: Option<int>, path: string): (r: nat)
    ensures r < |Entries(path)|
    ensures Entries(path)[0] != "" ==> Entries(path)[r] != ""
  {
    var es := Entries(path);
    var current := if index.None? then -1 else index.value;
    var next := current + 1;
    var next' := if next > |es| - 1 then 0 else next;
    if next' < 0 || es[next'] == "" then 0 else next'
  }

  /** The index moves on by one whenever the entry there is present, and
      otherwise restarts at 0. */
  lemma NextIndexMeaning(index: Option<int>, path: string)
    ensures var r := NextIndex(index, path);
      (r != 0 ==> index == Some(r - 1)) &&
      (var n := (if index.None? then -1 else index.value) + 1;
       0 <= n < |Entries(path)| && Entries(path)[n] != "" ==> r == n)
  {
  }

  /** The pause set after arriving at `c`: long when `"x,y"` (as
      `toString` prints it) is among the `'|'`-separated stops. */
  function Pause(stops: string, c: Cell): (r: int)
  {
    if stops != "" && CellText(c) in Split(stops, '|') then StopPause else MovePause
  }

  /** `x.toString() + ',' + y.toString()`. */
  function CellText(c: Cell): (r: string)
  {
    Show(c.x) + "," + Show(c.y)
  }

  function CellTexts(cs: seq<Cell>): (r: seq<string>)
    ensures |r| == |cs|
    ensures forall i :: 0 <= i < |cs| ==> r[i] == CellText(cs[i])
  {
    if cs == [] then [] else [CellText(cs[0])] + CellTexts(cs[1..])
  }

  /** The string form of a sequence of cells, as an editor types it into
      `objpath` or `objstops`. */
  function Encode(cs: seq<Cell>): (r: string)
  {
    Join(CellTexts(cs), "|")
  }

  /** A cell's text parses back to the cell. */
  lemma CellTextDecodes(c: Cell)
    ensures '|' !in CellText(c) && CellText(c) != ""
    ensures IsWaypoint(CellText(c)) && WaypointOf(CellText(c)) == c
  {
    ParseShow(c.x);
    ParseShow(c.y);
    assert CellText(c) == Join([Show(c.x), Show(c.y)], [',']);
    SplitJoin([Show(c.x), Show(c.y)], ',');
  }

  /** Different cells have different texts. */
  lemma CellTextInjective(a: Cell, b: Cell)
    requires CellText(a) == CellText(b)
    ensures a == b
  {
    CellTextDecodes(a);
    CellTextDecodes(b);
  }

  /** Decoding an encoded, non-empty sequence of cells: its entries are the
      cells' texts, it is well formed, and entry i is the i-th cell. */
  lemma DecodeEncode(cs: seq<Cell>)
    requires |cs| >= 1
    ensures Entries(Encode(cs)) == CellTexts(cs)
    ensures WellFormed(Encode(cs))
    ensures forall i :: 0 <= i < |cs| ==> WaypointOf(Entries(Encode(cs))[i]) == cs[i]
  {
    forall i | 0 <= i < |cs| ensures '|' !in CellTexts(cs)[i] {
      CellTextDecodes(cs[i]);
    }
    SplitJoin(CellTexts(cs), '|');
    forall i | 0 <= i < |cs|
      ensures CellTexts(cs)[i] != "" && IsWaypoint(CellTexts(cs)[i])
      ensures WaypointOf(CellTexts(cs)[i]) == cs[i]
    {
      CellTextDecodes(cs[i]);
    }
  }

  /** An object with encoded stops pauses long exactly at those cells; with
      no stops it never does. */
  lemma PauseAtEncodedStops(stops: seq<Cell>, c: Cell)
    ensures Pause(Encode(stops), c) == StopPause <==> c in stops
  {
    if stops != [] {
      DecodeEncode(stops);
      CellTextDecodes(stops[0]);
      assert Encode(stops) != "" by {
        assert Join(Entries(Encode(stops)), "|") == Encode(stops);
      }
      if c in stops {
        var i :| 0 <= i < |stops| && stops[i] == c;
        assert CellTexts(stops)[i] == CellText(c);
      }
      if CellText(c) in CellTexts(stops) {
        var i :| 0 <= i < |stops| && CellTexts(stops)[i] == CellText(c);
        CellTextInjective(stops[i], c);
      }
    }
  }
}
