/** The in-memory world the server's event handlers and movement tick work
    on: players, movable objects, maps, and the messages the handlers send. */
module World {

  datatype Option<T> = None | Some(value: T)

  /** A grid cell on some map. */
  datatype Cell = Cell(x: int, y: int)

  /** `player.location`: the map the player is on and the cell there. */
  datatype Location = Location(mapName: string, x: int, y: int)

  /** `room.link`: a portal from a room to a cell on a (possibly missing) map. */
  datatype Link = Link(mapName: string, x: int, y: int)

  /** Payloads of `socket.emit(event, payload)`; the constructor names the event. */
  datatype Event =
    | Text(text: string)
    | ObjectMove(name: string, x: int, y: int)
    | ObjectDelete(name: string)
    | ObjectCreate(name: string)
    | PlayerMovement(x: int, y: int)
    | EditingObject(obj: Option<string>)
    | MapAnimation(x: int, y: int, animation: string)
    | MapLink(x: int, y: int, link: Link)
    | MapFlag(x: int, y: int, flags: seq<string>)
    | MapTitleChange(title: string)
    | StyleUpdate(background: Option<string>)

  /** A change a handler asks of a map (`setAnimation`, `setLink`,
      `toggleFlag`, `setMapTitle`, `createObject`, `draw`, `undraw`); what the
      map does with it is the map's own business. */
  datatype Edit =
    | SetAnimation(x: int, y: int, animation: string)
    | SetLink(x: int, y: int, link: Link)
    | ToggleFlag(x: int, y: int, flag: string)
    | SetTitle(title: string)
    | CreateObject(kind: string, x: int, y: int)
    | Draw(symbol: string, editing: string)
    | Undraw(editing: string)

  /** One entry of the outbox a handler appends to: a message to one player's
      socket, a change asked of a map, or a call into the game engine's
      broadcast helpers, whose own recipients are decided there. */
  datatype Notice =
    | Send(to: Player, event: Event)
    | MapEdit(mapName: string, edit: Edit)
    | UpdateSurrounding(who: Player)
    | GetSurrounding(who: Player)
    | RemoveFromMap(who: Player, mapName: string)
    | RenderMap(who: Player, mapName: string)
    | MapUpdate(who: Player, at: Location, symbol: string, editing: string)
    | MapUpdateDelete(who: Player, at: Location, editing: string)

  /** A connected player. `editingObject` is the name of the object being
      edited, with "" standing for the source's null and false (both falsy). */
  class Player {
    var location: Location
    var canEdit: bool
    var editingObject: string
    var background: Option<string>

    constructor (location: Location, canEdit: bool)
      ensures this.location == location && this.canEdit == canEdit
      ensures editingObject == "" && background == None
    {
      this.location := location;
      this.canEdit := canEdit;
      editingObject := "";
      background := None;
    }
  }

  /** A movable object. `path` and `stops` are `'|'`-separated lists of `"x,y"`
      waypoints ("" when unset); `index` and `pathTick` are None while unset;
      `rooms` is the footprint, as offsets from (x, y). */
  class Obj {
    var name: string
    var x: int
    var y: int
    var path: string
    var stops: string
    var index: Option<int>
    var pathTick: Option<int>
    var halt: bool
    var rooms: seq<Cell>

    constructor (name: string, x: int, y: int, rooms: seq<Cell>)
      ensures this.name == name && this.x == x && this.y == y && this.rooms == rooms
      ensures path == "" && stops == "" && index == None && pathTick == None && !halt
    {
      this.name, this.x, this.y, this.rooms := name, x, y, rooms;
      path, stops := "", "";
      index, pathTick := None, None;
      halt := false;
    }
  }

  /** A map as the movement tick sees it: its name and its objects. */
  class GameMap {
    const name: string
    var objects: seq<Obj>

    constructor (name: string, objects: seq<Obj>)
      ensures this.name == name && this.objects == objects
    {
      this.name, this.objects := name, objects;
    }
  }

  /** The radius of the scan for riders around a moving object. */
  const RiderRadius: int := 50

  function Abs(n: int): (r: nat)
  {
    if n < 0 then -n else n
  }

  /** The proximity scan's test: (px, py) is within `radius` of (cx, cy) in
      Chebyshev distance. */
  predicate Within(radius: int, cx: int, cy: int, px: int, py: int)
  {
    Abs(px - cx) <= radius && Abs(py - cy) <= radius
  }

  /** `doOnMapPlayers(..., true, p => p.socket.emit(ev))`: one message per
      player of the roster, in roster order. */
  function ToEach(roster: seq<Player>, ev: Event): (r: seq<Notice>)
    ensures |r| == |roster|
    ensures forall i :: 0 <= i < |r| ==> r[i] == Send(roster[i], ev)
  {
    if roster == [] then [] else [Send(roster[0], ev)] + ToEach(roster[1..], ev)
  }

  /** The players of a roster are distinct: a scan visits each player once. */
  predicate Distinct<T(==)>(s: seq<T>)
  {
    forall i, j :: 0 <= i < j < |s| ==> s[i] != s[j]
  }
}
