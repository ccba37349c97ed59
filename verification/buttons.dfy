/**
 * One button of a holographic menu as loaded from a menu script: its stored
 * properties, the cached count of command variables, and the `open` action
 * that prepares the hologram request for the rendering plugin.
 */
module Buttons {
  import opened Wrappers
  import opened Text
  import opened CommandVariables
  import opened Audiences
  import opened Geometry

  datatype ButtonType = Title | Button | FirstPage | PreviousPage | NextPage | LastPage

  /** The Java constant name of each type. */
  function TypeName(t: ButtonType): string {
    match t
    case Title => "TITLE"
    case Button => "BUTTON"
    case FirstPage => "FIRST_PAGE"
    case PreviousPage => "PREVIOUS_PAGE"
    case NextPage => "NEXT_PAGE"
    case LastPage => "LAST_PAGE"
  }

  /** EnumUtil.getEnum: the type whose constant name is exactly `name`, or none. */
  function TypeByName(name: string): (r: Option<ButtonType>)
    ensures r.Some? ==> TypeName(r.value) == name
    ensures r.None? ==> forall t :: TypeName(t) != name
  {
    if name == "TITLE" then Some(Title)
    else if name == "BUTTON" then Some(Button)
    else if name == "FIRST_PAGE" then Some(FirstPage)
    else if name == "PREVIOUS_PAGE" then Some(PreviousPage)
    else if name == "NEXT_PAGE" then Some(NextPage)
    else if name == "LAST_PAGE" then Some(LastPage)
    else None
  }

  /** The type read from a script: a missing or unknown name gives BUTTON. */
  function TypeOrDefault(name: Option<string>): (t: ButtonType)
    ensures name.Some? && (exists u :: TypeName(u) == name.value) ==> TypeName(t) == name.value
    ensures name.None? || (forall u :: TypeName(u) != name.value) ==> t == Button
  {
    match name
    case None => Button
    case Some(n) => TypeByName(n).GetOr(Button)
  }

  /** Every type survives being written by name and read back. */
  lemma TypeNameRoundTrip(t: ButtonType)
    ensures TypeByName(TypeName(t)) == Some(t)
    ensures TypeOrDefault(Some(TypeName(t))) == t
  {
  }

  /** The value of the count cache before the first count. */
  const Uncounted := -1

  /**
   * The entries of one button's configuration section, each already read
   * with its type; None is a missing key.
   */
  datatype ButtonSection = ButtonSection(
    labelText: Option<string>,
    typeName: Option<string>,
    command: Option<string>,
    variableMessages: Option<seq<string>>,
    sound: Option<string>,
    permission: Option<string>,
    closeMenu: Option<bool>,
    x: Option<real>,
    y: Option<real>)

  /** What `open` hands to the hologram provider: where, what text, and for whom. */
  datatype HologramRequest<P> = HologramRequest(location: Vec3, text: string, audience: Audience<P>)

  class HButton {
    var labelText: string
    var kind: ButtonType
    var command: Option<string>
    var commandVariables: int
    var varMsgs: seq<string>
    var sound: Option<string>
    var permission: Option<string>
    var closeMenu: bool
    var x: real
    var y: real

    /**
     * The cache holds either Uncounted or a count. Valid() reads only the
     * cache, which no setter's frame includes, so every setter keeps it.
     */
    ghost predicate Valid()
      reads this
    {
      commandVariables >= Uncounted
    }

    constructor (labelText: string, kind: ButtonType, command: Option<string>, varMsgs: seq<string>,
                 sound: Option<string>, permission: Option<string>, closeMenu: bool, x: real, y: real)
      ensures Valid() && commandVariables == Uncounted
      ensures this.labelText == labelText && this.kind == kind && this.command == command && this.varMsgs == varMsgs
      ensures this.sound == sound && this.permission == permission && this.closeMenu == closeMenu
      ensures this.x == x && this.y == y
    {
      this.labelText := labelText;
      this.kind := kind;
      this.command := command;
      this.commandVariables := Uncounted;
      this.varMsgs := varMsgs;
      this.sound := sound;
      this.permission := permission;
      this.closeMenu := closeMenu;
      this.x := x;
      this.y := y;
    }

    /** Loads a button from its configuration section, with the defaults of each missing key. */
    constructor FromSection(section: ButtonSection)
      ensures Valid() && commandVariables == Uncounted
      ensures labelText == section.labelText.GetOr("")
      ensures kind == TypeOrDefault(section.typeName)
      ensures command == section.command && sound == section.sound && permission == section.permission
      ensures varMsgs == section.variableMessages.GetOr([])
      ensures closeMenu == section.closeMenu.GetOr(false)
      ensures x == section.x.GetOr(0.0) && y == section.y.GetOr(0.0)
    {
      labelText := section.labelText.GetOr("");
      var parsed := if section.typeName.Some? then TypeByName(section.typeName.value) else None;
      if parsed.None? {
        kind := Button;
      } else {
        kind := parsed.value;
      }
      command := section.command;
      commandVariables := Uncounted;
      varMsgs := section.variableMessages.GetOr([]);
      sound := section.sound;
      permission := section.permission;
      closeMenu := section.closeMenu.GetOr(false);
      x := section.x.GetOr(0.0);
      y := section.y.GetOr(0.0);
    }

    /** The label with placeholders filled in for player by the placeholder parser. */
    function GetLabel<P>(player: Option<P>, parse: (Option<P>, string) -> string): (text: string)
      reads this
      ensures text == parse(player, labelText)
    {
      parse(player, labelText)
    }

    method SetLabel(labelText: string)
      modifies this`labelText
      ensures this.labelText == labelText
    {
      this.labelText := labelText;
    }

    method SetType(kind: ButtonType)
      modifies this`kind
      ensures this.kind == kind
    {
      this.kind := kind;
    }

    /** Replaces the command but keeps the cached count, which may now be stale. */
    method SetCommand(command: Option<string>)
      modifies this`command
      ensures this.command == command
      ensures commandVariables == old(commandVariables)
    {
      this.command := command;
    }

    /** Looks at the current command, not at the cached count. */
    function HasCommandVariables(): (r: bool)
      reads this
      ensures r <==> command.Some? && AllMarkers(command.value, 1)
    {
      HasVariables(command)
    }

    /**
     * The number of command variables. A null command gives 0 and leaves the
     * cache alone; otherwise a cached count is returned as it is, and the
     * first count scans the markers in order and is stored in the cache.
     */
    method GetCommandVariables() returns (n: int)
      requires Valid()
      modifies this`commandVariables
      ensures Valid() && n >= 0
      ensures command.None? ==> n == 0 && commandVariables == old(commandVariables)
      ensures command.Some? && old(commandVariables) != Uncounted ==>
        n == old(commandVariables) && commandVariables == old(commandVariables)
      ensures command.Some? && old(commandVariables) == Uncounted ==>
        IsVariableCount(command.value, n) && n <= |command.value| && commandVariables == n
    {
      if command.None? {
        return 0;
      }
      if commandVariables != Uncounted {
        return commandVariables;
      }
      var text := command.value;
      commandVariables := 1;
      while true
        invariant 1 <= commandVariables <= |text| + 1
        invariant AllMarkers(text, commandVariables - 1)
        decreases |text| + 1 - commandVariables
      {
        var v := Marker(commandVariables);
        if Contains(text, v) {
          MarkerCountBound(text, commandVariables);
          commandVariables := commandVariables + 1;
        } else {
          commandVariables := commandVariables - 1;
          return commandVariables;
        }
      }
    }

    function GetVariableMessages(): seq<string>
      reads this
    {
      varMsgs
    }

    function GetVariableMessage(i: int): Result<string, IndexError>
      reads this
    {
      VariableMessage(varMsgs, i)
    }

    method SetSound(sound: Option<string>)
      modifies this`sound
      ensures this.sound == sound
    {
      this.sound := sound;
    }

    function HasPermission(): bool
      reads this
    {
      permission.Some?
    }

    method SetPermission(permission: Option<string>)
      modifies this`permission
      ensures this.permission == permission
    {
      this.permission := permission;
    }

    method SetClosingMenu(closeMenu: bool)
      modifies this`closeMenu
      ensures this.closeMenu == closeMenu
    {
      this.closeMenu := closeMenu;
    }

    function GetX(): real
      reads this
    {
      x
    }

    method SetX(x: real)
      modifies this`x
      ensures this.x == x
    {
      this.x := x;
    }

    /** As written, the vertical offset's getter returns the horizontal offset x. */
    function GetY(): (r: real)
      reads this
      ensures r == x
    {
      x
    }

    /** The vertical offset's getter as evidently intended. */
    function GetYIntended(): (r: real)
      reads this
      ensures r == y
    {
      y
    }

    method SetY(y: real)
      modifies this`y
      ensures this.y == y
    {
      this.y := y;
    }

    /** Where the hologram stands for a menu at anchor facing direction. */
    function GetLocation(anchor: Vec3, direction: Vec3): Vec3
      reads this
    {
      Place(anchor, direction, x, y)
    }

    /**
     * The hologram request of `open`: the audience is filtered by the
     * permission check, the label is filled in for the first viewer, and the
     * location comes from the anchor and facing direction.
     */
    method Open<P>(anchor: Vec3, direction: Vec3, viewers: Option<seq<P>>,
                   hasPermission: (P, string) -> bool, parse: (Option<P>, string) -> string)
      returns (request: HologramRequest<P>)
      ensures request.audience == Resolve(viewers, permission, hasPermission)
      ensures request.text == parse(Opener(viewers), labelText)
      ensures request.location == Place(anchor, direction, x, y)
    {
      var allowed: Audience<P> := Unrestricted;
      if viewers.Some? && |viewers.value| != 0 {
        var candidates := viewers.value;
        if HasPermission() {
          var kept: seq<P> := [];
          var i := 0;
          while i < |candidates|
            invariant 0 <= i <= |candidates|
            invariant kept == Permitted(candidates[..i], permission.value, hasPermission)
          {
            if hasPermission(candidates[i], permission.value) {
              kept := kept + [candidates[i]];
            }
            assert candidates[..i + 1][..i] == candidates[..i];
            i := i + 1;
          }
          assert candidates[..i] == candidates;
          allowed := Explicit(kept);
        } else {
          allowed := Explicit(candidates);
        }
      }
      var opener: Option<P> := if viewers.Some? && |viewers.value| != 0 then Some(viewers.value[0]) else None;
      request := HologramRequest(GetLocation(anchor, direction), GetLabel(opener, parse), allowed);
    }
  }

  /**
   * Counting, then replacing the command, then counting again: the second
   * count repeats the first even though it was taken of the old command.
   */
  method StaleCountAfterSetCommand(before: string, after: string) returns (first: int, second: int)
    ensures first >= 0 && IsVariableCount(before, first)
    ensures second == first
  {
    var b := new HButton("", Button, Some(before), [], None, None, false, 0.0, 0.0);
    first := b.GetCommandVariables();
    b.SetCommand(Some(after));
    second := b.GetCommandVariables();
  }

  /**
   * After the command changes, hasCommandVariables follows the new command
   * while the cached count still describes the old one: counting "%v1%"
   * gives 1, and after the command becomes "x" the button reports no
   * variables yet still a count of 1.
   */
  method StaleCountDisagreesWithHasVariables() returns (count: int, has: bool)
    ensures count == 1 && !has
  {
    var b := new HButton("", Button, Some("%v1%"), [], None, None, false, 0.0, 0.0);
    var first := b.GetCommandVariables();
    SingleMarkerExample();
    CountUnique("%v1%", first, 1);
    b.SetCommand(Some("x"));
    has := b.HasCommandVariables();
    count := b.GetCommandVariables();
  }

  /** The getter as written: after setting y, GetY reports x instead. */
  method GetYAfterSetY(x: real, y: real) returns (got: real)
    ensures got == x
  {
    var b := new HButton("", Button, None, [], None, None, false, x, 0.0);
    b.SetY(y);
    got := b.GetY();
  }

  /** The intended getter gives back the vertical offset just set. */
  method GetYIntendedAfterSetY(x: real, y: real) returns (got: real)
    ensures got == y
  {
    var b := new HButton("", Button, None, [], None, None, false, x, 0.0);
    b.SetY(y);
    got := b.GetYIntended();
  }
}
