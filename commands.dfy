/** The `runCommand` handler: a typed line is split into a verb and its
    arguments and dispatched through a fixed table of verbs, each with its
    own permission and arity gate. A command that fails its gate, or whose
    verb is unknown, does nothing at all. */
module Commands {
  import opened Strings
  import opened World

  datatype Command = Command(verb: string, args: seq<string>)

  /** `cmd.split(' ')[0]` and `cmd.split(' ').splice(1)`. */
  function ParseCommand(line: string): (r: Command)
  {
    var words := Split(line, ' ');
    Command(words[0], words[1..])
  }

  /** The verb and the arguments hold no space, and put back together with
      single spaces they give the line. */
  lemma ParsePieces(line: string)
    ensures var c := ParseCommand(line);
      Join([c.verb] + c.args, " ") == line &&
      ' ' !in c.verb && forall i :: 0 <= i < |c.args| ==> ' ' !in c.args[i]
  {
    var words := Split(line, ' ');
    SplitPieces(line, ' ');
    assert [words[0]] + words[1..] == words;
  }

  /** The other half of the round trip: a verb and arguments without spaces,
      joined by single spaces, parse back to themselves. */
  lemma ParseUnparse(verb: string, args: seq<string>)
    requires ' ' !in verb && forall i :: 0 <= i < |args| ==> ' ' !in args[i]
    ensures ParseCommand(Join([verb] + args, " ")) == Command(verb, args)
  {
    var words := [verb] + args;
    assert forall i :: 0 <= i < |words| ==> ' ' !in words[i] by {
      forall i | 0 <= i < |words| ensures ' ' !in words[i] {
        if i > 0 { assert words[i] == args[i - 1]; }
      }
    }
    SplitJoin(words, ' ');
    assert words[1..] == args;
  }

  /** The verbs only a player who can edit may use, in the order `help`
      lists them. */
  const EditorVerbs: seq<string> :=
    ["animate", "link", "flag", "objcreate", "objedit", "objpath", "objstops", "objhalt", "maptitle"]

  /** One of the verbs only an editor may use. */
  predicate EditorVerb(verb: string)
  {
    verb == "animate" || verb == "link" || verb == "flag" || verb == "objcreate" || verb == "objedit" ||
    verb == "objpath" || verb == "objstops" || verb == "objhalt" || verb == "maptitle"
  }

  /** `color` and `help` are open to everyone, the other verbs to editors. */
  predicate Permitted(verb: string, canEdit: bool)
  {
    verb == "color" || verb == "help" || (canEdit && EditorVerb(verb))
  }

  /** The argument counts the verbs demand; the others take any number. */
  predicate ArityOk(verb: string, n: nat)
  {
    if verb == "link" then n == 3
    else if verb == "flag" || verb == "objcreate" then n == 1
    else if verb == "animate" then n >= 2
    else if verb == "maptitle" then n >= 1
    else true
  }

  /** The command passes the gate of its verb. */
  predicate Admits(c: Command, canEdit: bool)
  {
    Permitted(c.verb, canEdit) && ArityOk(c.verb, |c.args|)
  }

  /** The verbs `help` reports. */
  function HelpList(canEdit: bool): (r: seq<string>)
  {
    ["color"] + (if canEdit then EditorVerbs else [])
  }

  /** `help` lists `color` first, and lists exactly the verbs other than
      itself that the player is permitted to use: the nine editor verbs
      only for an editor. */
  lemma HelpListsPermitted(canEdit: bool)
    ensures HelpList(canEdit)[0] == "color"
    ensures |HelpList(canEdit)| == if canEdit then 10 else 1
    ensures forall v :: v in HelpList(canEdit) <==> v != "help" && Permitted(v, canEdit)
  {
  }

  const NoObjectsHere: string := "There are no objects here. Hold SHIFT to see the objects around you."

  /** The fields of the issuing player a command may change. */
  datatype Editor = Editor(editing: string, background: Option<string>)

  /** The fields of the object at the player's cell a command reads or changes. */
  datatype Thing = Thing(name: string, path: string, stops: string, halt: bool)

  /** What a command leaves: the player's fields, the object's fields and the
      messages. */
  datatype Reply = Reply(editor: Editor, thing: Option<Thing>, notices: seq<Notice>)

  /** `parseInt` is applied to the second and third arguments of an admitted
      `link`; they are taken to be numerals. */
  predicate LinkArgsParse(c: Command, canEdit: bool)
  {
    c.verb == "link" && canEdit && |c.args| == 3 ==> Numeral(c.args[1]) && Numeral(c.args[2])
  }

  /** `socket.emit('text', t)` to the issuing player. */
  function Say(who: Player, t: string): (r: Notice)
  {
    Send(who, Text(t))
  }

  /** A verb that asks the map for a change and tells the map about it: the
      change, then the event to every player of the map in roster order,
      then `done` to the issuer. */
  function Announce(who: Player, at: Location, onMap: seq<Player>, edit: Edit, ev: Event, done: string): (r: seq<Notice>)
  {
    [MapEdit(at.mapName, edit)] + ToEach(onMap, ev) + [Say(who, done)]
  }

  /** Every player of the map is told, in roster order, between the change
      asked of the map and the word to the issuer. */
  lemma AnnounceOrder(who: Player, at: Location, onMap: seq<Player>, edit: Edit, ev: Event, done: string)
    ensures var r := Announce(who, at, onMap, edit, ev, done);
      |r| == |onMap| + 2 &&
      r[0] == MapEdit(at.mapName, edit) && r[|onMap| + 1] == Say(who, done) &&
      forall i :: 0 <= i < |onMap| ==> r[i + 1] == Send(onMap[i], ev)
  {
  }

  // ---- The cases of the switch, each with its own gate ----

  /** `animate`: the arguments joined by spaces become the cell's animation. */
  function AnimateNotices(who: Player, at: Location, canEdit: bool, onMap: seq<Player>, args: seq<string>): (r: seq<Notice>)
  {
    if !canEdit || |args| < 2 then []
    else
      var a := Join(args, " ");
      Announce(who, at, onMap, SetAnimation(at.x, at.y, a), MapAnimation(at.x, at.y, a),
               "Your animation has been applied to the map.")
  }

  /** `link`: the cell becomes a portal to map `args[0]` at (`args[1]`, `args[2]`). */
  function LinkNotices(who: Player, at: Location, canEdit: bool, onMap: seq<Player>, args: seq<string>): (r: seq<Notice>)
    requires LinkArgsParse(Command("link", args), canEdit)
  {
    if !canEdit || |args| != 3 then []
    else
      var l := Link(args[0], ParseInt(args[1]), ParseInt(args[2]));
      Announce(who, at, onMap, SetLink(at.x, at.y, l), MapLink(at.x, at.y, l),
               "Your map-link has been applied to the map.")
  }

  /** `flag`: the lower-cased flag is toggled on the cell; `newFlags` is what
      the map reports back. */
  function FlagNotices(who: Player, at: Location, canEdit: bool, onMap: seq<Player>, args: seq<string>,
                       newFlags: seq<string>): (r: seq<Notice>)
  {
    if !canEdit || |args| != 1 then []
    else
      Announce(who, at, onMap, ToggleFlag(at.x, at.y, Lower(args[0])), MapFlag(at.x, at.y, newFlags),
               "Your flag has been applied to the map.")
  }

  /** `objedit`. */
  function ObjEditReply(who: Player, canEdit: bool, ed: Editor, here: Option<Thing>): (r: Reply)
  {
    if !canEdit then Reply(ed, here, [])
    else if ed.editing != "" then
      Reply(ed.(editing := ""), here, [Say(who, "You are no longer editing any objects."), Send(who, EditingObject(None))])
    else if here.Some? then
      var n := here.value.name;
      Reply(ed.(editing := n), here, [Say(who, "You are now editing '" + n + "'."), Send(who, EditingObject(Some(n)))])
    else
      Reply(ed, here, [Say(who, NoObjectsHere)])
  }

  /** `objpath`: reports the path when no argument is given, sets it otherwise. */
  function ObjPathReply(who: Player, canEdit: bool, ed: Editor, here: Option<Thing>, args: seq<string>): (r: Reply)
  {
    if !canEdit then Reply(ed, here, [])
    else if here.None? then Reply(ed, here, [Say(who, NoObjectsHere)])
    else if args == [] then
      Reply(ed, here, [Say(who, "The object path for " + here.value.name + " is: " + here.value.path)])
    else
      Reply(ed, Some(here.value.(path := args[0])), [Say(who, "The object path has been set for " + here.value.name + ".")])
  }

  /** `objstops`: reports the stops when no argument is given, sets them otherwise. */
  function ObjStopsReply(who: Player, canEdit: bool, ed: Editor, here: Option<Thing>, args: seq<string>): (r: Reply)
  {
    if !canEdit then Reply(ed, here, [])
    else if here.None? then Reply(ed, here, [Say(who, NoObjectsHere)])
    else if args == [] then
      Reply(ed, here, [Say(who, "The object stops for " + here.value.name + " are: " + here.value.stops)])
    else
      Reply(ed, Some(here.value.(stops := args[0])), [Say(who, "The object stops have been set for " + here.value.name + ".")])
  }

  /** `objhalt`. */
  function ObjHaltReply(who: Player, canEdit: bool, ed: Editor, here: Option<Thing>): (r: Reply)
  {
    if !canEdit then Reply(ed, here, [])
    else if here.None? then Reply(ed, here, [Say(who, NoObjectsHere)])
    else if here.value.halt then
      Reply(ed, Some(here.value.(halt := false)), [Say(who, "The object " + here.value.name + " has been resumed.")])
    else
      Reply(ed, Some(here.value.(halt := true)), [Say(who, "The object " + here.value.name + " has been halted.")])
  }

  /** `objcreate`: the request to the map, then the outcome to the issuer
      and, on success, the new object to every player of the map. */
  function ObjCreateNotices(who: Player, at: Location, canEdit: bool, onMap: seq<Player>, args: seq<string>,
                            created: Option<string>): (r: seq<Notice>)
  {
    if !canEdit || |args| != 1 then []
    else
      var ask := MapEdit(at.mapName, CreateObject(args[0], at.x, at.y));
      if created.Some? then [ask, Say(who, "An object has been created: " + created.value)] + ToEach(onMap, ObjectCreate(created.value))
      else [ask, Say(who, "The object could not be created.")]
  }

  /** `color`, open to everyone: the background becomes `args[0]` (unset
      without arguments). */
  function ColorReply(who: Player, ed: Editor, here: Option<Thing>, args: seq<string>): (r: Reply)
  {
    var bg := if args == [] then None else Some(args[0]);
    Reply(ed.(background := bg), here,
          [UpdateSurrounding(who), Send(who, StyleUpdate(bg)), Say(who, "Your background color has been changed.")])
  }

  /** `maptitle`: the arguments joined by spaces become the map's title. */
  function MapTitleNotices(who: Player, at: Location, canEdit: bool, onMap: seq<Player>, args: seq<string>): (r: seq<Notice>)
  {
    if !canEdit || |args| < 1 then []
    else
      var t := Join(args, " ");
      Announce(who, at, onMap, SetTitle(t), MapTitleChange(t), "The map title has been changed.")
  }

  /** What `help`, open to everyone, tells the player. */
  function HelpText(canEdit: bool): (r: string)
  {
    "Commands you can use: " + Join(HelpList(canEdit), ", ") + "."
  }

  /** The switch. `who` issues the command standing at `at`, `onMap` are the
      players of that map, `here` is the object at the player's cell
      (`getObjectAt`), and `created` and `newFlags` are what `createObject`
      and `toggleFlag` return. */
  function Respond(who: Player, at: Location, canEdit: bool, onMap: seq<Player>, c: Command,
                   ed: Editor, here: Option<Thing>, created: Option<string>, newFlags: seq<string>): (r: Reply)
    requires LinkArgsParse(c, canEdit)
  {
    var v, args := c.verb, c.args;
    if v == "animate" then Reply(ed, here, AnimateNotices(who, at, canEdit, onMap, args))
    else if v == "link" then Reply(ed, here, LinkNotices(who, at, canEdit, onMap, args))
    else if v == "flag" then Reply(ed, here, FlagNotices(who, at, canEdit, onMap, args, newFlags))
    else if v == "objedit" then ObjEditReply(who, canEdit, ed, here)
    else if v == "objpath" then ObjPathReply(who, canEdit, ed, here, args)
    else if v == "objstops" then ObjStopsReply(who, canEdit, ed, here, args)
    else if v == "objhalt" then ObjHaltReply(who, canEdit, ed, here)
    else if v == "objcreate" then Reply(ed, here, ObjCreateNotices(who, at, canEdit, onMap, args, created))
    else if v == "color" then ColorReply(who, ed, here, args)
    else if v == "maptitle" then Reply(ed, here, MapTitleNotices(who, at, canEdit, onMap, args))
    else if v == "help" then Reply(ed, here, [Say(who, HelpText(canEdit))])
    else Reply(ed, here, [])
  }

  /** A command the table Admits refuses changes nothing and sends nothing:
      an unknown verb, a verb the player may not use, or the wrong number of
      arguments. */
  lemma RefusedIsSilent(who: Player, at: Location, canEdit: bool, onMap: seq<Player>, c: Command,
                        ed: Editor, here: Option<Thing>, created: Option<string>, newFlags: seq<string>)
    requires LinkArgsParse(c, canEdit)
    requires !Admits(c, canEdit)
    ensures Respond(who, at, canEdit, onMap, c, ed, here, created, newFlags) == Reply(ed, here, [])
  {
  }

  /** A command the table admits always answers with at least one message. */
  lemma AdmittedAnswers(who: Player, at: Location, canEdit: bool, onMap: seq<Player>, c: Command,
                        ed: Editor, here: Option<Thing>, created: Option<string>, newFlags: seq<string>)
    requires LinkArgsParse(c, canEdit)
    requires Admits(c, canEdit)
    ensures Respond(who, at, canEdit, onMap, c, ed, here, created, newFlags).notices != []
  {
  }

  /** Together: a command is silent exactly when the table refuses it. */
  lemma SilentIffRefused(who: Player, at: Location, canEdit: bool, onMap: seq<Player>, c: Command,
                         ed: Editor, here: Option<Thing>, created: Option<string>, newFlags: seq<string>)
    requires LinkArgsParse(c, canEdit)
    ensures var r := Respond(who, at, canEdit, onMap, c, ed, here, created, newFlags);
      (r.notices == [] <==> !Admits(c, canEdit)) &&
      (!Admits(c, canEdit) ==> r.editor == ed && r.thing == here)
  {
    if Admits(c, canEdit) {
      AdmittedAnswers(who, at, canEdit, onMap, c, ed, here, created, newFlags);
    } else {
      RefusedIsSilent(who, at, canEdit, onMap, c, ed, here, created, newFlags);
    }
  }

  /** A player who cannot edit gets nothing out of any verb but `color` and
      `help`. */
  lemma IgnoredFromNonEditor(who: Player, at: Location, onMap: seq<Player>, c: Command,
                             ed: Editor, here: Option<Thing>, created: Option<string>, newFlags: seq<string>)
    requires c.verb != "color" && c.verb != "help"
    ensures Respond(who, at, false, onMap, c, ed, here, created, newFlags) == Reply(ed, here, [])
  {
    RefusedIsSilent(who, at, false, onMap, c, ed, here, created, newFlags);
  }

  /** Only `objpath`, `objstops` and `objhalt` touch the object, and never its
      name; only `objedit` changes the edited object and only `color` the
      background. */
  lemma WhatChanges(who: Player, at: Location, canEdit: bool, onMap: seq<Player>, c: Command,
                    ed: Editor, here: Option<Thing>, created: Option<string>, newFlags: seq<string>)
    requires LinkArgsParse(c, canEdit)
    ensures var r := Respond(who, at, canEdit, onMap, c, ed, here, created, newFlags);
      (c.verb != "objpath" && c.verb != "objstops" && c.verb != "objhalt" ==> r.thing == here) &&
      (here.Some? ==> r.thing.Some? && r.thing.value.name == here.value.name) &&
      (here.None? ==> r.thing.None?) &&
      (c.verb != "objedit" ==> r.editor.editing == ed.editing) &&
      (c.verb != "color" ==> r.editor.background == ed.background)
  {
  }

  /** `objhalt` flips `halt`: issued twice it restores the object. */
  lemma HaltTwice(who: Player, at: Location, onMap: seq<Player>, args: seq<string>,
                  ed: Editor, t: Thing, created: Option<string>, newFlags: seq<string>)
    ensures var c := Command("objhalt", args);
      var r1 := Respond(who, at, true, onMap, c, ed, Some(t), created, newFlags);
      var r2 := Respond(who, at, true, onMap, c, r1.editor, r1.thing, created, newFlags);
      r1.thing == Some(t.(halt := !t.halt)) && r2.thing == Some(t) && r2.editor == ed
  {
  }

  /** `objedit` clears the edited object whenever one is set, whatever stands
      at the cell; otherwise it takes up the object at the cell, if any. So
      from nothing, two `objedit`s on an object with a name take it up and
      drop it again. */
  lemma EditToggle(who: Player, at: Location, onMap: seq<Player>, args: seq<string>,
                   ed: Editor, here: Option<Thing>, created: Option<string>, newFlags: seq<string>)
    ensures var c := Command("objedit", args);
      var r1 := Respond(who, at, true, onMap, c, ed, here, created, newFlags);
      var r2 := Respond(who, at, true, onMap, c, r1.editor, r1.thing, created, newFlags);
      (ed.editing != "" ==> r1.editor.editing == "") &&
      (ed.editing == "" && here.Some? ==> r1.editor.editing == here.value.name) &&
      (ed.editing == "" && here.None? ==> r1.editor.editing == "" && r1.notices == [Say(who, NoObjectsHere)]) &&
      (ed.editing == "" && here.Some? && here.value.name != "" ==> r2.editor == ed)
  {
  }

  /** Setting a path with `objpath p ...` and then asking with a bare
      `objpath` reports `p`; the same for `objstops`. */
  lemma SetThenRead(who: Player, at: Location, onMap: seq<Player>, p: string, rest: seq<string>,
                    ed: Editor, t: Thing, created: Option<string>, newFlags: seq<string>)
    ensures var r1 := Respond(who, at, true, onMap, Command("objpath", [p] + rest), ed, Some(t), created, newFlags);
      var r2 := Respond(who, at, true, onMap, Command("objpath", []), r1.editor, r1.thing, created, newFlags);
      r1.thing == Some(t.(path := p)) && r2.thing == r1.thing &&
      r2.notices == [Say(who, "The object path for " + t.name + " is: " + p)]
    ensures var r1 := Respond(who, at, true, onMap, Command("objstops", [p] + rest), ed, Some(t), created, newFlags);
      var r2 := Respond(who, at, true, onMap, Command("objstops", []), r1.editor, r1.thing, created, newFlags);
      r1.thing == Some(t.(stops := p)) && r2.thing == r1.thing &&
      r2.notices == [Say(who, "The object stops for " + t.name + " are: " + p)]
  {
  }

  // ---- The handler on the heap ----

  function EditorOf(p: Player): (r: Editor)
    reads p
  {
    Editor(p.editingObject, p.background)
  }

  function ThingOf(o: Obj?): (r: Option<Thing>)
    reads o
  {
    if o == null then None else Some(Thing(o.name, o.path, o.stops, o.halt))
  }

  /** The object at the player's cell, as a set of objects for frames. */
  function Here(o: Obj?): (r: set<Obj>)
  {
    if o == null then {} else {o}
  }

  method ObjEdit(player: Player, objHere: Obj?) returns (notices: seq<Notice>)
    modifies player`editingObject
    ensures Reply(EditorOf(player), ThingOf(objHere), notices) ==
            ObjEditReply(player, player.canEdit, old(EditorOf(player)), ThingOf(objHere))
  {
    notices := [];
    if !player.canEdit { return; }
    if player.editingObject != "" {
      player.editingObject := "";
      notices := [Say(player, "You are no longer editing any objects."), Send(player, EditingObject(None))];
    } else if objHere != null {
      notices := [Say(player, "You are now editing '" + objHere.name + "'."), Send(player, EditingObject(Some(objHere.name)))];
      player.editingObject := objHere.name;
    } else {
      notices := [Say(player, NoObjectsHere)];
    }
  }

  method ObjPath(player: Player, objHere: Obj?, args: seq<string>) returns (notices: seq<Notice>)
    modifies Here(objHere)`path
    ensures Reply(EditorOf(player), ThingOf(objHere), notices) ==
            ObjPathReply(player, player.canEdit, EditorOf(player), old(ThingOf(objHere)), args)
  {
    notices := [];
    if !player.canEdit { return; }
    if objHere != null {
      if |args| == 0 {
        notices := [Say(player, "The object path for " + objHere.name + " is: " + objHere.path)];
      } else {
        objHere.path := args[0];
        notices := [Say(player, "The object path has been set for " + objHere.name + ".")];
      }
    } else {
      notices := [Say(player, NoObjectsHere)];
    }
  }

  method ObjStops(player: Player, objHere: Obj?, args: seq<string>) returns (notices: seq<Notice>)
    modifies Here(objHere)`stops
    ensures Reply(EditorOf(player), ThingOf(objHere), notices) ==
            ObjStopsReply(player, player.canEdit, EditorOf(player), old(ThingOf(objHere)), args)
  {
    notices := [];
    if !player.canEdit { return; }
    if objHere != null {
      if |args| == 0 {
        notices := [Say(player, "The object stops for " + objHere.name + " are: " + objHere.stops)];
      } else {
        objHere.stops := args[0];
        notices := [Say(player, "The object stops have been set for " + objHere.name + ".")];
      }
    } else {
      notices := [Say(player, NoObjectsHere)];
    }
  }

  method ObjHalt(player: Player, objHere: Obj?) returns (notices: seq<Notice>)
    modifies Here(objHere)`halt
    ensures Reply(EditorOf(player), ThingOf(objHere), notices) ==
            ObjHaltReply(player, player.canEdit, EditorOf(player), old(ThingOf(objHere)))
  {
    notices := [];
    if !player.canEdit { return; }
    if objHere != null {
      if objHere.halt {
        objHere.halt := false;
        notices := [Say(player, "The object " + objHere.name + " has been resumed.")];
      } else {
        objHere.halt := true;
        notices := [Say(player, "The object " + objHere.name + " has been halted.")];
      }
    } else {
      notices := [Say(player, NoObjectsHere)];
    }
  }

  method Color(player: Player, objHere: Obj?, args: seq<string>) returns (notices: seq<Notice>)
    modifies player`background
    ensures Reply(EditorOf(player), ThingOf(objHere), notices) ==
            ColorReply(player, old(EditorOf(player)), ThingOf(objHere), args)
  {
    player.background := if |args| == 0 then None else Some(args[0]);
    notices := [UpdateSurrounding(player), Send(player, StyleUpdate(player.background))];
    notices := notices + [Say(player, "Your background color has been changed.")];
  }

  /** `help`: `color`, then for an editor the editor verbs pushed one by one. */
  method Help(player: Player) returns (notices: seq<Notice>)
    ensures notices == [Say(player, HelpText(player.canEdit))]
  {
    var commands := ["color"];
    if player.canEdit {
      for k := 0 to |EditorVerbs|
        invariant commands == ["color"] + EditorVerbs[..k]
      {
        commands := commands + [EditorVerbs[k]];
      }
      assert EditorVerbs[..|EditorVerbs|] == EditorVerbs;
    }
    notices := [Say(player, "Commands you can use: " + Join(commands, ", ") + ".")];
  }

  /** `socket.on('runCommand', ...)`: `objHere` is what `getObjectAt` returns
      for the player's cell (null when nothing is there). */
  method RunCommand(player: Player, line: string, onMap: seq<Player>, objHere: Obj?,
                    created: Option<string>, newFlags: seq<string>) returns (notices: seq<Notice>)
    requires LinkArgsParse(ParseCommand(line), player.canEdit)
    modifies player`editingObject, player`background, Here(objHere)`path, Here(objHere)`stops, Here(objHere)`halt
    ensures Reply(EditorOf(player), ThingOf(objHere), notices) ==
            Respond(player, player.location, player.canEdit, onMap, ParseCommand(line),
                    old(EditorOf(player)), old(ThingOf(objHere)), created, newFlags)
  {
    var c := ParseCommand(line);
    var command, args := c.verb, c.args;
    var at := player.location;
    notices := [];
    if command == "animate" {
      notices := AnimateNotices(player, at, player.canEdit, onMap, args);
    } else if command == "link" {
      notices := LinkNotices(player, at, player.canEdit, onMap, args);
    } else if command == "flag" {
      notices := FlagNotices(player, at, player.canEdit, onMap, args, newFlags);
    } else if command == "objedit" {
      notices := ObjEdit(player, objHere);
    } else if command == "objpath" {
      notices := ObjPath(player, objHere, args);
    } else if command == "objstops" {
      notices := ObjStops(player, objHere, args);
    } else if command == "objhalt" {
      notices := ObjHalt(player, objHere);
    } else if command == "objcreate" {
      notices := ObjCreateNotices(player, at, player.canEdit, onMap, args, created);
    } else if command == "color" {
      notices := Color(player, objHere, args);
    } else if command == "maptitle" {
      notices := MapTitleNotices(player, at, player.canEdit, onMap, args);
    } else if command == "help" {
      notices := Help(player);
    }
  }
}
