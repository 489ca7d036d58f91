/** The object movement tick: every second, each pathed, unhalted object on
    each map counts down its pause, steps to its next waypoint, carries the
    players standing on its footprint, and every player on the map is told
    where it went. */
module Movement {
  import opened Strings
  import opened World
  import opened Paths

  /** The fields of an object that the tick writes. */
  datatype Motion = Motion(x: int, y: int, index: Option<int>, pathTick: Option<int>)

  /** An object as the tick sees it: the fields it reads and the ones it writes. */
  datatype View = View(name: string, path: string, stops: string, halt: bool, rooms: seq<Cell>, motion: Motion)

  /** What one object's tick produces: its new motion, the new locations of
      the map's players and the messages sent. */
  datatype Outcome = Outcome(motion: Motion, locs: seq<Location>, notices: seq<Notice>)

  /** The tick acts on an object only when it has a path and is not halted. */
  predicate Movable(path: string, halt: bool)
  {
    path != "" && !halt
  }

  /** The waypoints of an object the tick acts on can be parsed. */
  predicate Parsable(path: string, halt: bool)
  {
    Movable(path, halt) ==> WellFormed(path)
  }

  /** `pathTick` after the countdown; unset counts as 1. */
  function Countdown(pathTick: Option<int>): (r: int)
  {
    (if pathTick.None? then 1 else pathTick.value) - 1
  }

  /** This tick moves the object (its countdown reached 0). */
  predicate Advances(path: string, halt: bool, m: Motion)
  {
    Movable(path, halt) && Countdown(m.pathTick) <= 0
  }

  /** One tick of one object, on its own fields. */
  function Step(path: string, stops: string, halt: bool, m: Motion): (r: Motion)
    requires Parsable(path, halt)
  {
    if !Movable(path, halt) then m
    else
      var t := Countdown(m.pathTick);
      if t > 0 then m.(pathTick := Some(t))
      else
        var i := NextIndex(m.index, path);
        var c := WaypointOf(Entries(path)[i]);
        Motion(c.x, c.y, Some(i), Some(Pause(stops, c)))
  }

  /** The three cases of a tick: an object without a path or halted is left
      alone; otherwise its pause counts down, and when it runs out the object
      moves onto the next present waypoint of its path and takes the pause
      set for that cell. */
  lemma StepCases(path: string, stops: string, halt: bool, m: Motion)
    requires Parsable(path, halt)
    ensures var r := Step(path, stops, halt, m);
      (!Movable(path, halt) ==> r == m) &&
      (Movable(path, halt) && !Advances(path, halt, m) ==>
         r == m.(pathTick := Some(Countdown(m.pathTick))) && r.pathTick.value > 0) &&
      (Advances(path, halt, m) ==>
         r.index.Some? && 0 <= r.index.value < |Entries(path)| && Entries(path)[r.index.value] != "" &&
         r.index.value == NextIndex(m.index, path) &&
         IsWaypoint(Entries(path)[r.index.value]) &&
         Cell(r.x, r.y) == WaypointOf(Entries(path)[r.index.value]) &&
         r.pathTick == Some(Pause(stops, Cell(r.x, r.y))))
  {
  }

  /** `n` ticks of one object in a row. */
  function Run(n: nat, path: string, stops: string, halt: bool, m: Motion): (r: Motion)
    requires Parsable(path, halt)
  {
    if n == 0 then m else Run(n - 1, path, stops, halt, Step(path, stops, halt, m))
  }

  /** Running one more tick is one more Step at the end. */
  lemma {:induction false} RunLast(n: nat, path: string, stops: string, halt: bool, m: Motion)
    requires Parsable(path, halt)
    ensures Run(n + 1, path, stops, halt, m) == Step(path, stops, halt, Run(n, path, stops, halt, m))
  {
    if n > 0 {
      RunLast(n - 1, path, stops, halt, Step(path, stops, halt, m));
    }
  }

  /** A halted or pathless object is left exactly as it is, however many
      ticks pass. */
  lemma {:induction false} IdleForever(n: nat, path: string, stops: string, halt: bool, m: Motion)
    requires !Movable(path, halt)
    ensures Run(n, path, stops, halt, m) == m
  {
    if n > 0 {
      IdleForever(n - 1, path, stops, halt, m);
    }
  }

  /** While the countdown has not run out, ticks only count `pathTick` down:
      the object keeps its cell and its index. */
  lemma {:induction false} Waiting(k: nat, path: string, stops: string, halt: bool, m: Motion)
    requires Movable(path, halt) && WellFormed(path)
    requires m.pathTick.Some? && k < m.pathTick.value
    ensures Run(k, path, stops, halt, m) == m.(pathTick := Some(m.pathTick.value - k))
  {
    if k > 0 {
      var m1 := Step(path, stops, halt, m);
      assert m1 == m.(pathTick := Some(m.pathTick.value - 1));
      Waiting(k - 1, path, stops, halt, m1);
    }
  }

  /** After arriving at a stop point the object stays on its cell for the
      next 29 ticks and moves on the 30th, to the waypoint after the stop. */
  lemma StopPoint(path: string, stops: string, halt: bool, m: Motion)
    requires Advances(path, halt, m) && WellFormed(path)
    requires var a := Step(path, stops, halt, m); a.pathTick == Some(StopPause)
    ensures var a := Step(path, stops, halt, m);
      (forall k :: 1 <= k < StopPause ==>
         var b := Run(k, path, stops, halt, a); b.x == a.x && b.y == a.y && b.index == a.index) &&
      Run(StopPause, path, stops, halt, a).index == Some(NextIndex(a.index, path))
  {
    var a := Step(path, stops, halt, m);
    forall k | 1 <= k < StopPause
      ensures var b := Run(k, path, stops, halt, a); b.x == a.x && b.y == a.y && b.index == a.index
    {
      Waiting(k, path, stops, halt, a);
    }
    Waiting(StopPause - 1, path, stops, halt, a);
    RunLast(StopPause - 1, path, stops, halt, a);
  }

  /** Every entry of the path is present. */
  predicate AllPresent(path: string)
  {
    forall i :: 0 <= i < |Entries(path)| ==> Entries(path)[i] != ""
  }

  /** With every entry present, the index after i is i + 1, and 0 after the last. */
  lemma NextInCycle(i: nat, path: string)
    requires AllPresent(path) && i < |Entries(path)|
    ensures NextIndex(Some(i), path) == (i + 1) % |Entries(path)|
  {
  }

  /** Without stop points, a fresh object on a path of N present waypoints
      moves on every tick and visits the entries in cyclic order: after tick
      k + 1 its index is k mod N and it stands on that waypoint. */
  lemma {:induction false} Cycle(k: nat, path: string, m: Motion)
    requires WellFormed(path) && AllPresent(path)
    requires m.index == None && m.pathTick == None
    ensures var r := Run(k + 1, path, "", false, m);
      r.index == Some(k % |Entries(path)|) && r.pathTick == Some(MovePause) &&
      Cell(r.x, r.y) == WaypointOf(Entries(path)[k % |Entries(path)|])
  {
    var n := |Entries(path)|;
    if k == 0 {
      assert Run(1, path, "", false, m) == Step(path, "", false, m);
    } else {
      Cycle(k - 1, path, m);
      RunLast(k, path, "", false, m);
      NextInCycle((k - 1) % n, path);
      ModSucc(k - 1, n);
    }
  }

  lemma ModSucc(k: nat, n: nat)
    requires n > 0
    ensures (k % n + 1) % n == (k + 1) % n
  {
    var q, r := k / n, k % n;
    assert k == q * n + r;
    if r + 1 < n {
      ModUnique(k + 1, q, r + 1, n);
    } else {
      assert k + 1 == (q + 1) * n;
      ModUnique(k + 1, q + 1, 0, n);
    }
  }

  lemma ModUnique(a: int, q: int, r: int, n: int)
    requires n > 0 && 0 <= r < n && a == q * n + r
    ensures a % n == r
  {
    var d := q - a / n;
    assert d * n == a % n - r;
    MulBound(d, n);
  }

  lemma MulBound(d: int, n: int)
    requires n > 0
    ensures d >= 1 ==> d * n >= n
    ensures d <= -1 ==> d * n <= -n
  {
  }

  /** (p.x, p.y) is the cell footprint offset `rooms[r]` occupied around `at`. */
  predicate OnFootprint(rooms: seq<Cell>, at: Cell, p: Location)
  {
    exists r :: 0 <= r < |rooms| && p.x == at.x + rooms[r].x && p.y == at.y + rooms[r].y
  }

  /** The player is in the rider scan around the object's old cell and stands
      on one of its old footprint cells. */
  predicate Rides(rooms: seq<Cell>, from: Cell, p: Location)
  {
    Within(RiderRadius, from.x, from.y, p.x, p.y) && OnFootprint(rooms, from, p)
  }

  /** Where a player ends up when the object moves `from` -> `to`. */
  function Carry(rooms: seq<Cell>, from: Cell, to: Cell, p: Location): (r: Location)
  {
    if Rides(rooms, from, p) then p.(x := to.x + (p.x - from.x), y := to.y + (p.y - from.y)) else p
  }

  /** A rider keeps its offset from the object, so it stands on the same
      footprint cell around the new position, having been moved by exactly
      the object's displacement; anyone else stays put; nobody changes map. */
  lemma CarryMeaning(rooms: seq<Cell>, from: Cell, to: Cell, p: Location)
    ensures var r := Carry(rooms, from, to, p);
      r.mapName == p.mapName &&
      (Rides(rooms, from, p) ==>
         r.x == p.x + (to.x - from.x) && r.y == p.y + (to.y - from.y) && OnFootprint(rooms, to, r)) &&
      (!Rides(rooms, from, p) ==> r == p)
  {
    if Rides(rooms, from, p) {
      var k :| 0 <= k < |rooms| && p.x == from.x + rooms[k].x && p.y == from.y + rooms[k].y;
      var r := Carry(rooms, from, to, p);
      assert r.x == to.x + rooms[k].x && r.y == to.y + rooms[k].y;
    }
  }

  function CarryAll(rooms: seq<Cell>, from: Cell, to: Cell, locs: seq<Location>): (r: seq<Location>)
    ensures |r| == |locs|
    ensures forall i :: 0 <= i < |locs| ==> r[i] == Carry(rooms, from, to, locs[i])
  {
    if locs == [] then [] else [Carry(rooms, from, to, locs[0])] + CarryAll(rooms, from, to, locs[1..])
  }

  /** The messages for the riders, in roster order: each carried player is
      told its new cell, and its neighbourhood is refreshed. */
  function RiderNotices(roster: seq<Player>, locs: seq<Location>, rooms: seq<Cell>, from: Cell, to: Cell): (r: seq<Notice>)
    requires |roster| == |locs|
  {
    if roster == [] then []
    else
      var n := |roster| - 1;
      var q := Carry(rooms, from, to, locs[n]);
      RiderNotices(roster[..n], locs[..n], rooms, from, to) +
        (if Rides(rooms, from, locs[n]) then [Send(roster[n], PlayerMovement(q.x, q.y)), UpdateSurrounding(roster[n])] else [])
  }

  /** RiderNotices over one more player. */
  lemma RiderNoticesSnoc(roster: seq<Player>, locs: seq<Location>, i: nat, rooms: seq<Cell>, from: Cell, to: Cell)
    requires |roster| == |locs| && i < |roster|
    ensures var q := Carry(rooms, from, to, locs[i]);
      RiderNotices(roster[..i + 1], locs[..i + 1], rooms, from, to) ==
      RiderNotices(roster[..i], locs[..i], rooms, from, to) +
        (if Rides(rooms, from, locs[i]) then [Send(roster[i], PlayerMovement(q.x, q.y)), UpdateSurrounding(roster[i])] else [])
  {
    assert roster[..i + 1][..i] == roster[..i] && locs[..i + 1][..i] == locs[..i];
  }

  /** One object's tick, given its view, the map's roster and their locations. */
  function ObjectTick(v: View, roster: seq<Player>, locs: seq<Location>): (r: Outcome)
    requires Parsable(v.path, v.halt)
    requires |locs| == |roster|
    ensures |r.locs| == |locs|
  {
    var m := Step(v.path, v.stops, v.halt, v.motion);
    if Advances(v.path, v.halt, v.motion) then
      var from, to := Cell(v.motion.x, v.motion.y), Cell(m.x, m.y);
      Outcome(m, CarryAll(v.rooms, from, to, locs),
              RiderNotices(roster, locs, v.rooms, from, to) + ToEach(roster, ObjectMove(v.name, m.x, m.y)))
    else
      Outcome(m, locs, [])
  }

  /** The tick can parse every object's path. */
  predicate AllParsable(views: seq<View>)
  {
    forall i :: 0 <= i < |views| ==> Parsable(views[i].path, views[i].halt)
  }

  /** The objects of one map ticked in order; each object sees the player
      locations the previous ones left. */
  function TickAll(views: seq<View>, roster: seq<Player>, locs: seq<Location>): (r: Outcome)
    requires AllParsable(views)
    requires |locs| == |roster|
    ensures |r.locs| == |locs|
    decreases |views|
  {
    if views == [] then Outcome(Motion(0, 0, None, None), locs, [])
    else
      var n := |views| - 1;
      var prev := TickAll(views[..n], roster, locs);
      var last := ObjectTick(views[n], roster, prev.locs);
      Outcome(last.motion, last.locs, prev.notices + last.notices)
  }

  /** The motions TickAll gives each object. */
  function Motions(views: seq<View>, roster: seq<Player>, locs: seq<Location>): (r: seq<Motion>)
    requires AllParsable(views)
    requires |locs| == |roster|
    ensures |r| == |views|
    decreases |views|
  {
    if views == [] then []
    else
      var n := |views| - 1;
      Motions(views[..n], roster, locs) + [ObjectTick(views[n], roster, TickAll(views[..n], roster, locs).locs).motion]
  }

  /** An object's motion after the map's tick is one `Step` of its own
      motion: the players and the objects before it do not affect it. */
  lemma {:induction false} MotionsAreSteps(views: seq<View>, roster: seq<Player>, locs: seq<Location>)
    requires AllParsable(views) && |locs| == |roster|
    ensures forall i :: 0 <= i < |views| ==>
      Motions(views, roster, locs)[i] == Step(views[i].path, views[i].stops, views[i].halt, views[i].motion)
  {
    if views != [] {
      var n := |views| - 1;
      assert forall i :: 0 <= i < n ==> views[..n][i] == views[i];
      MotionsAreSteps(views[..n], roster, locs);
    }
  }

  /** When no object of the map advances, the tick moves no player and sends
      nothing. */
  lemma {:induction false} QuietTick(views: seq<View>, roster: seq<Player>, locs: seq<Location>)
    requires AllParsable(views) && |locs| == |roster|
    requires forall i :: 0 <= i < |views| ==> !Advances(views[i].path, views[i].halt, views[i].motion)
    ensures TickAll(views, roster, locs).locs == locs && TickAll(views, roster, locs).notices == []
  {
    if views != [] {
      var n := |views| - 1;
      assert forall i :: 0 <= i < n ==> views[..n][i] == views[i];
      QuietTick(views[..n], roster, locs);
    }
  }

  /** The map's tick keeps every player on its map. */
  lemma {:induction false} TickAllKeepsMaps(views: seq<View>, roster: seq<Player>, locs: seq<Location>)
    requires AllParsable(views) && |locs| == |roster|
    ensures forall j :: 0 <= j < |locs| ==> TickAll(views, roster, locs).locs[j].mapName == locs[j].mapName
  {
    if views != [] {
      var n := |views| - 1;
      assert forall i :: 0 <= i < n ==> views[..n][i] == views[i];
      TickAllKeepsMaps(views[..n], roster, locs);
    }
  }

  // ---- Heap snapshots ----

  function MotionOf(o: Obj): (r: Motion)
    reads o
  {
    Motion(o.x, o.y, o.index, o.pathTick)
  }

  function ViewOf(o: Obj): (r: View)
    reads o
  {
    View(o.name, o.path, o.stops, o.halt, o.rooms, MotionOf(o))
  }

  function Views(objs: seq<Obj>): (r: seq<View>)
    reads objs
    ensures |r| == |objs|
  {
    if objs == [] then [] else [ViewOf(objs[0])] + Views(objs[1..])
  }

  lemma {:induction false} ViewsAt(objs: seq<Obj>)
    ensures forall i :: 0 <= i < |objs| ==> Views(objs)[i] == ViewOf(objs[i])
  {
    if objs != [] {
      ViewsAt(objs[1..]);
    }
  }

  function MotionsOf(objs: seq<Obj>): (r: seq<Motion>)
    reads objs
    ensures |r| == |objs|
  {
    if objs == [] then [] else [MotionOf(objs[0])] + MotionsOf(objs[1..])
  }

  lemma {:induction false} MotionsOfAt(objs: seq<Obj>)
    ensures forall i :: 0 <= i < |objs| ==> MotionsOf(objs)[i] == MotionOf(objs[i])
  {
    if objs != [] {
      MotionsOfAt(objs[1..]);
    }
  }

  function Locations(roster: seq<Player>): (r: seq<Location>)
    reads roster
    ensures |r| == |roster|
  {
    if roster == [] then [] else [roster[0].location] + Locations(roster[1..])
  }

  lemma {:induction false} LocationsAt(roster: seq<Player>)
    ensures forall i :: 0 <= i < |roster| ==> Locations(roster)[i] == roster[i].location
  {
    if roster != [] {
      LocationsAt(roster[1..]);
    }
  }

  /** The callback of the rider scan for one player: the first footprint
      offset the player stands on moves them by the object's displacement. */
  method CarryRider(p: Player, rooms: seq<Cell>, from: Cell, to: Cell) returns (notices: seq<Notice>)
    modifies p`location
    ensures p.location == Carry(rooms, from, to, old(p.location))
    ensures notices == if Rides(rooms, from, old(p.location))
                       then [Send(p, PlayerMovement(p.location.x, p.location.y)), UpdateSurrounding(p)]
                       else []
  {
    notices := [];
    if !Within(RiderRadius, from.x, from.y, p.location.x, p.location.y) {
      return;
    }
    var r := 0;
    while r < |rooms|
      invariant 0 <= r <= |rooms|
      invariant forall k :: 0 <= k < r ==> !(p.location.x == from.x + rooms[k].x && p.location.y == from.y + rooms[k].y)
    {
      if p.location.x == from.x + rooms[r].x && p.location.y == from.y + rooms[r].y {
        var relx, rely := p.location.x - from.x, p.location.y - from.y;
        p.location := p.location.(x := to.x + relx, y := to.y + rely);
        notices := [Send(p, PlayerMovement(p.location.x, p.location.y)), UpdateSurrounding(p)];
        return;
      }
      r := r + 1;
    }
  }

  /** The rider scan after its first `i` players: they are carried and have
      been told, the others are where they were. */
  ghost predicate Carried(roster: seq<Player>, locs: seq<Location>, i: nat, rooms: seq<Cell>, from: Cell, to: Cell,
                          notices: seq<Notice>)
    reads roster
  {
    |locs| == |roster| && i <= |roster| &&
    (forall j :: 0 <= j < i ==> roster[j].location == Carry(rooms, from, to, locs[j])) &&
    (forall j :: i <= j < |roster| ==> roster[j].location == locs[j]) &&
    notices == RiderNotices(roster[..i], locs[..i], rooms, from, to)
  }

  /** One turn of the rider scan: player `i` is carried if it rides. */
  method CarryNext(roster: seq<Player>, ghost locs: seq<Location>, i: nat, p: Player, rooms: seq<Cell>, from: Cell, to: Cell,
                   notices: seq<Notice>) returns (notices': seq<Notice>)
    requires Distinct(roster) && i < |roster| && p == roster[i]
    requires Carried(roster, locs, i, rooms, from, to, notices)
    modifies p`location
    ensures Carried(roster, locs, i + 1, rooms, from, to, notices')
  {
    var ns := CarryRider(p, rooms, from, to);
    notices' := notices + ns;
    RiderNoticesSnoc(roster, locs, i, rooms, from, to);
    forall j | 0 <= j < |roster| && j != i
      ensures roster[j].location == old(roster[j].location)
    {
      assert roster[j] != p;
    }
  }

  /** The rider scan around the object's old cell, over the map's roster. */
  method CarryRiders(roster: seq<Player>, rooms: seq<Cell>, from: Cell, to: Cell) returns (notices: seq<Notice>)
    requires Distinct(roster)
    modifies roster`location
    ensures Locations(roster) == CarryAll(rooms, from, to, old(Locations(roster)))
    ensures notices == RiderNotices(roster, old(Locations(roster)), rooms, from, to)
  {
    ghost var locs := Locations(roster);
    LocationsAt(roster);
    notices := [];
    var i := 0;
    while i < |roster|
      invariant Carried(roster, locs, i, rooms, from, to, notices)
    {
      notices := CarryNext(roster, locs, i, roster[i], rooms, from, to, notices);
      i := i + 1;
    }
    assert roster[..i] == roster && locs[..i] == locs;
    LocationsAt(roster);
  }

  /** The first half of the tick for one object: skip it when pathless or
      halted, count down its pause, and when that reaches 0 step to the next
      waypoint and set the next pause. */
  method StepObject(obj: Obj) returns (moved: bool, from: Cell)
    requires Parsable(obj.path, obj.halt)
    modifies obj`x, obj`y, obj`index, obj`pathTick
    ensures MotionOf(obj) == Step(obj.path, obj.stops, obj.halt, old(MotionOf(obj)))
    ensures moved == Advances(obj.path, obj.halt, old(MotionOf(obj)))
    ensures from == Cell(old(obj.x), old(obj.y))
  {
    moved, from := false, Cell(obj.x, obj.y);
    if obj.path == "" || obj.halt {
      return;
    }
    if obj.pathTick.None? {
      obj.pathTick := Some(1);
    }
    obj.pathTick := Some(obj.pathTick.value - 1);
    if obj.pathTick.value > 0 {
      return;
    }
    var next := NextIndex(obj.index, obj.path);
    var c := WaypointOf(Entries(obj.path)[next]);
    obj.x, obj.y := c.x, c.y;
    obj.pathTick := Some(Pause(obj.stops, c));
    obj.index := Some(next);
    moved := true;
  }

  /** ObjectTick of an object whose step does not advance: only its motion changes. */
  lemma ObjectTickStays(v: View, roster: seq<Player>, locs: seq<Location>)
    requires Parsable(v.path, v.halt) && |locs| == |roster|
    requires !Advances(v.path, v.halt, v.motion)
    ensures ObjectTick(v, roster, locs) == Outcome(Step(v.path, v.stops, v.halt, v.motion), locs, [])
  {
  }

  /** ObjectTick of an object that advances `from` -> `to`. */
  lemma ObjectTickMoves(v: View, roster: seq<Player>, locs: seq<Location>, from: Cell, to: Cell)
    requires Parsable(v.path, v.halt) && |locs| == |roster|
    requires Advances(v.path, v.halt, v.motion)
    requires from == Cell(v.motion.x, v.motion.y)
    requires var m := Step(v.path, v.stops, v.halt, v.motion); to == Cell(m.x, m.y)
    ensures ObjectTick(v, roster, locs) ==
            Outcome(Step(v.path, v.stops, v.halt, v.motion), CarryAll(v.rooms, from, to, locs),
                    RiderNotices(roster, locs, v.rooms, from, to) + ToEach(roster, ObjectMove(v.name, to.x, to.y)))
  {
  }

  /** The body of the tick for one object (`map.objects.forEach(obj => ...)`),
      given the roster of the object's map. */
  method MoveObject(obj: Obj, roster: seq<Player>) returns (notices: seq<Notice>)
    requires Parsable(obj.path, obj.halt)
    requires Distinct(roster)
    modifies obj`x, obj`y, obj`index, obj`pathTick, roster`location
    ensures ObjectTick(old(ViewOf(obj)), roster, old(Locations(roster))) ==
            Outcome(MotionOf(obj), Locations(roster), notices)
  {
    ghost var v := ViewOf(obj);
    ghost var locs := Locations(roster);
    var moved, from := StepObject(obj);
    assert Locations(roster) == locs;
    if !moved {
      notices := [];
      ObjectTickStays(v, roster, locs);
      return;
    }
    notices := RideAlong(obj, roster, from, v, locs);
  }

  /** The second half of the tick for an object that has just moved away
      from `from`: carry the riders, then tell the map's players where the
      object is now. */
  method RideAlong(obj: Obj, roster: seq<Player>, from: Cell, ghost v: View, ghost locs: seq<Location>)
    returns (notices: seq<Notice>)
    requires Distinct(roster) && Parsable(v.path, v.halt) && |locs| == |roster|
    requires Advances(v.path, v.halt, v.motion) && from == Cell(v.motion.x, v.motion.y)
    requires MotionOf(obj) == Step(v.path, v.stops, v.halt, v.motion)
    requires obj.name == v.name && obj.rooms == v.rooms && Locations(roster) == locs
    modifies roster`location
    ensures ObjectTick(v, roster, locs) == Outcome(MotionOf(obj), Locations(roster), notices)
  {
    var to := Cell(obj.x, obj.y);
    ObjectTickMoves(v, roster, locs, from, to);
    notices := CarryRiders(roster, obj.rooms, from, to);
    notices := notices + ToEach(roster, ObjectMove(obj.name, obj.x, obj.y));
  }

  /** TickAll and Motions over one more object. */
  lemma TickAllSnoc(views: seq<View>, i: nat, roster: seq<Player>, locs: seq<Location>)
    requires i < |views| && AllParsable(views) && |locs| == |roster|
    ensures var prev := TickAll(views[..i], roster, locs);
      var last := ObjectTick(views[i], roster, prev.locs);
      TickAll(views[..i + 1], roster, locs) == Outcome(last.motion, last.locs, prev.notices + last.notices) &&
      Motions(views[..i + 1], roster, locs) == Motions(views[..i], roster, locs) + [last.motion]
  {
    assert views[..i + 1][..i] == views[..i];
  }

  lemma PrefixSnoc<T>(s: seq<T>, i: nat)
    requires i < |s|
    ensures s[..i + 1] == s[..i] + [s[i]]
  {
  }

  /** The state of a map's tick after its first `i` objects: each object has
      the motion `ms` gives it and its other fields as in `views`; the first
      `i` motions, the players' locations and the messages so far are those
      of TickAll over those objects; the other objects are as they were. */
  ghost predicate Ticked(objs: seq<Obj>, views: seq<View>, ms: seq<Motion>, i: nat,
                         roster: seq<Player>, locs: seq<Location>, notices: seq<Notice>)
    reads objs, roster
  {
    |views| == |objs| && |ms| == |objs| && i <= |objs| && AllParsable(views) && |locs| == |roster| &&
    (forall j :: 0 <= j < |objs| ==> ViewOf(objs[j]) == views[j].(motion := ms[j])) &&
    (forall j :: i <= j < |objs| ==> ms[j] == views[j].motion) &&
    ms[..i] == Motions(views[..i], roster, locs) &&
    Locations(roster) == TickAll(views[..i], roster, locs).locs &&
    notices == TickAll(views[..i], roster, locs).notices
  }

  /** One turn of the map's object loop: object `i` takes its tick. */
  method TickNext(objs: seq<Obj>, i: nat, obj: Obj, roster: seq<Player>, notices: seq<Notice>,
                  ghost views: seq<View>, ghost ms: seq<Motion>, ghost locs: seq<Location>)
    returns (notices': seq<Notice>, ghost ms': seq<Motion>)
    requires Distinct(objs) && Distinct(roster) && i < |objs| && obj == objs[i]
    requires Ticked(objs, views, ms, i, roster, locs, notices)
    modifies obj`x, obj`y, obj`index, obj`pathTick, roster`location
    ensures Ticked(objs, views, ms', i + 1, roster, locs, notices')
  {
    assert ViewOf(obj) == views[i];
    var ns := MoveObject(obj, roster);
    notices' := notices + ns;
    ms' := ms[i := MotionOf(obj)];
    TickAllSnoc(views, i, roster, locs);
    PrefixSnoc(ms', i);
    assert ms'[..i] == ms[..i];
    forall j | 0 <= j < |objs| && j != i
      ensures ViewOf(objs[j]) == views[j].(motion := ms'[j])
    {
      assert objs[j] != obj;
    }
  }

  /** Before the loop: no object has ticked. */
  lemma TickedStart(objs: seq<Obj>, roster: seq<Player>)
    requires AllParsable(Views(objs))
    ensures Ticked(objs, Views(objs), MotionsOf(objs), 0, roster, Locations(roster), [])
  {
    ViewsAt(objs);
    MotionsOfAt(objs);
  }

  /** After the loop: every object has ticked. */
  lemma TickedDone(objs: seq<Obj>, views: seq<View>, ms: seq<Motion>, roster: seq<Player>, locs: seq<Location>,
                   notices: seq<Notice>)
    requires Ticked(objs, views, ms, |objs|, roster, locs, notices)
    ensures forall i :: 0 <= i < |objs| ==> ViewOf(objs[i]) == views[i].(motion := Motions(views, roster, locs)[i])
    ensures Locations(roster) == TickAll(views, roster, locs).locs && notices == TickAll(views, roster, locs).notices
  {
    assert views[..|objs|] == views && ms[..|objs|] == ms;
  }

  /** The tick for one map (`map.objects.forEach(...)`): every object of the
      map in order, over the roster of players on the map. Each object ends
      with the motion TickAll gives it and keeps its other fields. */
  method TickMap(m: GameMap, roster: seq<Player>) returns (notices: seq<Notice>)
    requires Distinct(m.objects) && Distinct(roster)
    requires AllParsable(Views(m.objects))
    requires forall p :: p in roster ==> p.location.mapName == m.name
    modifies m.objects`x, m.objects`y, m.objects`index, m.objects`pathTick, roster`location
    ensures var views := old(Views(m.objects));
      forall i :: 0 <= i < |m.objects| ==>
        ViewOf(m.objects[i]) == views[i].(motion := Motions(views, roster, old(Locations(roster)))[i])
    ensures var views := old(Views(m.objects));
      forall i :: 0 <= i < |m.objects| ==>
        MotionOf(m.objects[i]) == Step(views[i].path, views[i].stops, views[i].halt, views[i].motion)
    ensures forall p :: p in roster ==> p.location.mapName == m.name
    ensures var views := old(Views(m.objects));
      Locations(roster) == TickAll(views, roster, old(Locations(roster))).locs &&
      notices == TickAll(views, roster, old(Locations(roster))).notices
  {
    var objs := m.objects;
    ghost var views := Views(objs);
    ghost var locs := Locations(roster);
    LocationsAt(roster);
    ghost var ms := MotionsOf(objs);
    TickedStart(objs, roster);
    notices := [];
    var i := 0;
    while i < |objs|
      invariant Ticked(objs, views, ms, i, roster, locs, notices)
    {
      notices, ms := TickNext(objs, i, objs[i], roster, notices, views, ms, locs);
      i := i + 1;
    }
    TickedDone(objs, views, ms, roster, locs, notices);
    MotionsAreSteps(views, roster, locs);
    TickAllKeepsMaps(views, roster, locs);
    LocationsAt(roster);
    forall p | p in roster
      ensures p.location.mapName == m.name
    {
      var j :| 0 <= j < |roster| && roster[j] == p;
      assert locs[j].mapName == m.name;
    }
  }
}
