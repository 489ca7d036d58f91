# asciimmo socket handlers and object movement, in Dafny

This project models the server side of asciimmo's per-player socket handlers
and its movement tick, as bound by `SocketManager.bindSocketEvents_Old`:

- `location`: a player reports the cell it walked onto. A room on that cell
  may hold a link to another map. The player either stays on its own map at
  that cell or goes through the link.
- `mapDraw` and `mapDelete`: an editor draws or erases at its cursor, and the
  cursor moves one cell right or left. Erasing the object being edited tells
  every player of the map that the object is gone.
- `runCommand`: a typed line is split into a verb and arguments. It is
  dispatched through eleven verbs: `animate`, `link`, `flag`, `objedit`,
  `objpath`, `objstops`, `objhalt`, `objcreate`, `color`, `maptitle` and
  `help`. All but `color` and `help` are for editors only. `link`, `flag`,
  `objcreate`, `animate` and `maptitle` also check how many arguments they
  get; the other six take any number.
- the once-a-second movement tick: every movable object of a map counts down
  its pause. When the pause runs out, the object steps to the next waypoint
  of its `'|'`-separated path of `"x,y"` entries and sets a long pause at a
  stop point or a short one elsewhere. Players standing on the object's old
  footprint ride along.

Modules:
- `Strings`: the JavaScript string operations the handlers use. They are
  `split`, `join`, `toLowerCase` on ASCII, `parseInt` on numerals and
  `toString` of integers, with their round trips.
- `World`: players, objects and maps. Players and objects are classes whose
  fields the handlers update in place. A handler's output is a sequence of
  `Notice`s: messages to one player's socket, changes asked of a map, and
  calls into the engine's broadcast helpers.
- `Paths`: how the tick reads `path` and `stops`, and the encoding of cells
  as an editor types them.
- `Movement`: one object's step as a function, the rider carry, and the
  imperative tick of one map proved against them.
- `Commands`: the command parser, the dispatch as a function `Respond`, and
  the imperative handler `RunCommand` proved against it.
- `Handlers`: `location`, `mapDraw` and `mapDelete`.

The engine's internals are outside the model; each one becomes a parameter.
The handlers receive:
- the roster of the map's players (`onMap`, `roster`);
- the object at the player's cell (`getObjectAt`);
- what `createObject` returns;
- the flags `toggleFlag` returns;
- the link of the room at the reported cell (`getRoom(x, y).link`, None when
  there is no room or no link);
- whether the link's target map exists;
- whether an erase deleted the edited object.

The changes asked of a map appear as `MapEdit` notices, so the model does not
invent how a map stores them.

## Model

| member | source | states |
|---|---|---|
| Strings.SplitPieces | src/classes/managers/SocketManager.ts:166-167 | no piece of `split(d)` contains `d`, and joining the pieces with `d` gives back the string |
| Strings.SplitJoin | src/classes/managers/SocketManager.ts:166-167 | splitting pieces without `d` joined by `d` gives back the pieces |
| Strings.ParseShow | src/classes/managers/SocketManager.ts:348-350 | the decimal text of any integer is a numeral, holds no `,` or `|`, and `parseInt` reads it back |
| Strings.ShowInjective | src/classes/managers/SocketManager.ts:350 | different integers print differently |
| Strings.Lower | src/classes/managers/SocketManager.ts:190 | lower-casing keeps the length and maps each character by itself |
| Paths.NextIndex | src/classes/managers/SocketManager.ts:334-343 | the next index is always a valid entry index; it points at a present entry when the first entry is present |
| Paths.NextIndexMeaning | src/classes/managers/SocketManager.ts:334-343 | a non-zero next index is the current index plus one; when the entry after the current index is present, that entry is the next one |
| Paths.CellTextDecodes | src/classes/managers/SocketManager.ts:348-350 | the `"x,y"` text of a cell is a non-empty waypoint without `|` that parses back to the cell |
| Paths.CellTextInjective | src/classes/managers/SocketManager.ts:350 | different cells have different texts |
| Paths.DecodeEncode | src/classes/managers/SocketManager.ts:337-349 | an encoded non-empty sequence of cells is a well-formed path whose i-th entry parses to the i-th cell |
| Paths.PauseAtEncodedStops | src/classes/managers/SocketManager.ts:350 | with encoded stops the pause is 30 exactly at the listed cells and 1 elsewhere; with no stops it is always 1 |
| Movement.StepCases | src/classes/managers/SocketManager.ts:320-351 | a pathless or halted object is untouched; while the countdown stays positive only `pathTick` changes; when it runs out the object moves to the next present waypoint and takes that cell's pause |
| Movement.RunLast | src/classes/managers/SocketManager.ts:312-386 | n + 1 ticks are n ticks followed by one step |
| Movement.IdleForever | src/classes/managers/SocketManager.ts:320-322 | a halted or pathless object never changes, however many ticks pass |
| Movement.Waiting | src/classes/managers/SocketManager.ts:328-332 | while the pause lasts, ticks only count it down: the cell and the index stay |
| Movement.StopPoint | src/classes/managers/SocketManager.ts:328-351 | after arriving at a stop point the object stays on its cell and index for 29 ticks and moves on at the 30th |
| Movement.NextInCycle | src/classes/managers/SocketManager.ts:334-343 | with every entry present, the index after i is i + 1 modulo the number of entries |
| Movement.Cycle | src/classes/managers/SocketManager.ts:324-351 | without stop points and on a path with no empty entry, a fresh object visits its waypoints in cyclic order, one per tick, standing on waypoint k mod N after tick k + 1 |
| Movement.MotionsAreSteps | src/classes/managers/SocketManager.ts:318-351 | each object's motion after the map's tick is one `Step` of its own old motion, whatever the players and the objects before it do |
| Movement.QuietTick | src/classes/managers/SocketManager.ts:318-332 | when no object of the map reaches the end of its pause, the map's tick moves no player and sends nothing |
| Movement.TickAllKeepsMaps | src/classes/managers/SocketManager.ts:353-375 | the map's tick keeps every player on its map |
| Movement.CarryMeaning | src/classes/managers/SocketManager.ts:353-375 | a rider moves by exactly the object's displacement and stands on the same footprint cell around the new position; everyone else stays; nobody changes map |
| Movement.CarryAll | src/classes/managers/SocketManager.ts:353-375 | every player's location is carried independently of the others |
| Movement.CarryRider | src/classes/managers/SocketManager.ts:353-375 | the scan callback moves the player as `Carry` says, and tells it its new cell and refreshes its neighbourhood exactly when it rides |
| Movement.CarryRiders | src/classes/managers/SocketManager.ts:353-375 | the scan over the map's roster changes only the players' locations, leaves every location carried and sends the riders' notices in roster order |
| Movement.CarryNext | src/classes/managers/SocketManager.ts:353-375 | one turn of the rider scan preserves `Carried` from i to i + 1 |
| Movement.RideAlong | src/classes/managers/SocketManager.ts:353-383 | after an object has stepped, carrying its riders and announcing its new cell to the map's players completes `ObjectTick`; only the players' locations change |
| Movement.StepObject | src/classes/managers/SocketManager.ts:320-351 | the object's motion fields become `Step` of the old ones, and it reports a move exactly when the step advances |
| Movement.MoveObject | src/classes/managers/SocketManager.ts:318-384 | one object's tick changes only the object's motion fields and the players' locations, and leaves them and the messages as `ObjectTick` of the old state says |
| Movement.TickNext | src/classes/managers/SocketManager.ts:318-384 | one turn of the map's object loop preserves `Ticked` from i to i + 1 |
| Movement.TickMap | src/classes/managers/SocketManager.ts:318-385 | over the roster of the map's players, after the map's tick every object has the motion `TickAll` gives it, which is one `Step` of its old motion, and keeps its other fields; every player stays on the map; the players' locations and the messages are those of `TickAll`, and no other field of a player changes |
| Commands.ParsePieces | src/classes/managers/SocketManager.ts:166-167 | the verb and arguments hold no space, and joined by single spaces they give back the line |
| Commands.ParseUnparse | src/classes/managers/SocketManager.ts:166-167 | a verb and arguments without spaces, joined by spaces, parse back to themselves |
| Commands.HelpListsPermitted | src/classes/managers/SocketManager.ts:288-295 | `help` lists `color` first, and lists exactly the verbs other than itself that the player may use (ten for an editor, one otherwise) |
| Commands.AnnounceOrder | src/classes/managers/SocketManager.ts:170-187 | an announced edit asks the map first, then tells every player of the map in roster order, then tells the issuer |
| Commands.RefusedIsSilent | src/classes/managers/SocketManager.ts:169-297 | a command refused by the gate table (unknown verb, verb not permitted, wrong argument count) changes nothing and sends nothing |
| Commands.AdmittedAnswers | src/classes/managers/SocketManager.ts:169-297 | an admitted command always sends at least one notice |
| Commands.SilentIffRefused | src/classes/managers/SocketManager.ts:169-297 | a command is silent exactly when the gate table refuses it, and then it changes nothing |
| Commands.IgnoredFromNonEditor | src/classes/managers/SocketManager.ts:171-280 | a player who cannot edit gets nothing from any verb except `color` and `help` |
| Commands.WhatChanges | src/classes/managers/SocketManager.ts:201-278 | only `objpath`, `objstops` and `objhalt` change the object, never its name or presence; only `objedit` changes the edited object; only `color` changes the background |
| Commands.HaltTwice | src/classes/managers/SocketManager.ts:244-258 | `objhalt` flips `halt`, so issuing it twice restores the object |
| Commands.EditToggle | src/classes/managers/SocketManager.ts:201-215 | `objedit` clears a set edited object, otherwise takes up the object at the cell or reports none; two in a row from nothing restore the editor |
| Commands.SetThenRead | src/classes/managers/SocketManager.ts:216-243 | after `objpath p` (or `objstops p`), a bare `objpath` (`objstops`) reports `p` |
| Commands.ObjEdit | src/classes/managers/SocketManager.ts:201-215 | the handler's case leaves the editor and messages as `ObjEditReply` says |
| Commands.ObjPath | src/classes/managers/SocketManager.ts:216-229 | the object's path and the messages are as `ObjPathReply` says |
| Commands.ObjStops | src/classes/managers/SocketManager.ts:230-243 | the object's stops and the messages are as `ObjStopsReply` says |
| Commands.ObjHalt | src/classes/managers/SocketManager.ts:244-258 | the object's halt flag and the messages are as `ObjHaltReply` says |
| Commands.Color | src/classes/managers/SocketManager.ts:271-278 | the background becomes the first argument (unset without one), with the three notices `ColorReply` lists |
| Commands.Help | src/classes/managers/SocketManager.ts:288-296 | the list built by pushing the editor verbs one by one is the one `HelpText` states |
| Commands.RunCommand | src/classes/managers/SocketManager.ts:164-298 | the player's fields, the object's fields and the notices after the handler are those of `Respond` on the old state |
| Handlers.ArrivalCases | src/classes/managers/SocketManager.ts:81-107 | with no link, or for an editor holding SHIFT, the player stays on its map at the reported cell; otherwise a link to an existing map, or any link for an editor, takes it to the link's target |
| Handlers.VisitorsStayOffMissingMaps | src/classes/managers/SocketManager.ts:87-89 | a player who cannot edit never follows a link to a map that does not exist |
| Handlers.LeavesOnlyThroughPortal | src/classes/managers/SocketManager.ts:89-106 | the player is removed from its old map exactly when it goes through a link; the players around it are always updated |
| Handlers.OnLocation | src/classes/managers/SocketManager.ts:80-107 | the player's new location is `Arrival` of the old one and the notices are `LocationNotices` |
| Handlers.DeleteNoticesAt | src/classes/managers/SocketManager.ts:142-150 | with the name taken once, every player of the map is sent the deleted object's name and then the deletion text, in roster order |
| Handlers.SecondPlayerLosesName | src/classes/managers/SocketManager.ts:142-150 | as written, the second of two players is sent the cleared name, where the corrected callback sends `"crate"` |
| Handlers.DeleteCallbackAsWritten | src/classes/managers/SocketManager.ts:142-150 | the callback as written sends `DeleteNoticesAsWritten`: the name only to the first player |
| Handlers.DeleteCallback | src/classes/managers/SocketManager.ts:142-150 | the corrected callback sends `DeleteNotices` and clears the edited object when anyone was told |
| Handlers.DrawThenDelete | src/classes/managers/SocketManager.ts:109-157 | drawing and erasing are editor-only; a draw then an erase (as written) brings the cursor back, and both ask the same map for the same edited object |
| Handlers.DeletionNamesFirstOnly | src/classes/managers/SocketManager.ts:137-157 | as written, when an erase deletes the edited object, the first player of the map is sent its name and every later player the cleared name; the editor edits nothing afterwards |
| Handlers.DeletionReachesEveryone | src/classes/managers/SocketManager.ts:137-157 | with the corrected callback, when an erase deletes the edited object, every player of the map is sent its name, and the editor edits nothing afterwards |
| Handlers.MapDraw | src/classes/managers/SocketManager.ts:109-117 | the cursor and the notices are as `DrawStroke` says |
| Handlers.MapDelete | src/classes/managers/SocketManager.ts:137-157 | the handler as written: the cursor, the edited object and the notices are as `DeleteStrokeAsWritten` says |
| Handlers.MapDeleteCorrected | src/classes/managers/SocketManager.ts:137-157 | the handler with the corrected callback: the cursor, the edited object and the notices are as `DeleteStroke` says |

## Left out

- Handlers.OnLocation: assumes the player's own map exists. An editor can be sent through a link to a missing map (lines 90-93). After that the source throws at line 86 on the next `location` report, after setting x and y and before `updateSurroundingPlayers`. The model instead keeps sending `UpdateSurrounding`, so `Handlers.LeavesOnlyThroughPortal`'s "always updated" holds only while the player's map exists.
- Handlers.OnLocation: `targetExists` takes `getMap` to return exactly `null` for a missing map. If it returned `undefined`, the test `newMap !== null` at line 90 would send every player through the link.
- Handlers.MapDraw: assumes the player's own map exists. On a missing map the source throws at line 113, before drawing or moving the cursor.
- Handlers.MapDelete: assumes the player's own map exists. On a missing map the source throws at line 143, before anything is sent.
- Handlers.MapDeleteCorrected: the same assumption as `Handlers.MapDelete`. Line 143 would throw on a missing map.
- Commands.RunCommand: assumes the player's own map exists. On a missing map, each verb that reaches `GameEngine.getMap(playerObj.location.map)` throws there. These calls are at lines 173, 182, 191, 203, 218, 232, 246, 261 and 282.
- The field `editingObject` of `World.Player`: the empty string stands for JavaScript's `null`, `false` and an empty name alike. So the model cannot tell an object named `""` from no object. Wherever the source passes `false` or `null` (to `objectDelete`, `mapUpdateDelete`, `draw` and `undraw`), the model's notices carry `""`.
- Transport only: sockets, `login`, `disconnect`, logging, the one-second timer, the SIGINT save and `Server.ts`. A message to a socket is a `Send` notice.
- `mapWall` and `mapColor` are not modelled. Each returns at once for a player who cannot edit (lines 122 and 132) and otherwise forwards its payload to the map and the engine. `mapSay` forwards the text to the engine. `disconnect` only removes the player.
- The tick's iteration over all maps (`eachMap`) is not modelled. Each map's tick is `Movement.TickMap` over that map's own roster, and maps share no objects.
- The game engine and the maps are not part of this model. Calls into them become parameters or `MapEdit`, `UpdateSurrounding`, `GetSurrounding`, `RemoveFromMap`, `RenderMap`, `MapUpdate` and `MapUpdateDelete` notices. `Within` takes the rider scan to be a square of radius 50 around the object's old cell.
- Movement.TickMap: requires every movable object on the map to have a well-formed path (`Paths.WellFormed`), and the model has no NaN. That requirement is stricter than the code needs in two ways:
  - every present entry must be two plain decimal numerals, so it excludes entries that `parseInt` still reads, such as `" 3,4"` or `"3px,4"`;
  - entries after an empty entry must parse too. A fresh object never reaches them, because its index restarts at 0 at the empty entry. An index kept from an earlier path can reach them, since `objpath` (line 223) replaces the path but keeps the index.
- Commands.RunCommand: requires the two numeric arguments of an admitted `link` to be numerals, for the same reason.
- Commands.ObjPath: an unset path is the empty string. The source would print `undefined` for it at line 221.
- Commands.ObjStops: an unset stops list is the empty string. The source would print `undefined` for it at line 235.
- Strings.ParseShow: coordinates are unbounded integers. The code's numbers are doubles, so the model misses three effects:
  - `parseInt` rounds numerals beyond 2^53;
  - `toString` prints integers of magnitude at least 10^21 in exponent form, which changes the stop-point text at line 350;
  - the coordinate sums at lines 362-363 round.
- Commands.Color: the `styleupdate` payload is taken to carry only the background.
- `objcreate`: the created object is represented by its name, both in the reply and in the `objectCreate` broadcast.
- `Strings.Lower` lower-cases ASCII letters only.
- `mapDelete`: the map's `undraw` is taken to run its deletion callback synchronously, before `mapUpdateDelete`. Whether it runs at all is the `deleted` parameter.
- `mapDraw` and `mapDelete`: whatever else the draw payload carries besides the symbol is not modelled.
- The engine's helpers that take `playerObj.location` by reference are taken to read it when they are called.
- `color` (line 271) and `help` (line 288) have no permission gate, so both are open to every player.
- The `break` at line 372 leaves only the loop over the footprint offsets, so the rider scan carries every player standing on any footprint cell, not only the first one found.

## Findings

| source | as written | input that shows it | evidently intended | confidence | as-written member | corrected member |
|---|---|---|---|---|---|---|
| src/classes/managers/SocketManager.ts:142-150 | the `onObjectDelete` callback reads `playerObj.editingObject` for each player of the map, but clears it in the first round; every player after the first is sent `false` as the deleted object's name (`""` in the model) | two players on the map, editing object `"crate"`: the second player gets `objectDelete` with no name | every player of the map is sent the deleted object's name | not executed | Handlers.DeleteCallbackAsWritten, Handlers.SecondPlayerLosesName, Handlers.MapDelete, Handlers.DeletionNamesFirstOnly | Handlers.DeleteCallback, Handlers.DeleteNoticesAt, Handlers.MapDeleteCorrected, Handlers.DeletionReachesEveryone |
