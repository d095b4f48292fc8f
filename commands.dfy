/**
 * The command registry's data: declared commands, their Discord wire format
 * (`convertCommandToDiscordFormat`), the remote commands Discord reports, the
 * "changes detected" predicate of `compareCommands` with its shallow options
 * equality, and the component callbacks with their `custom_id` patterns.
 */
module Commands {
  import opened Wrappers
  import opened Bits
  import opened Json
  import Text
  import Functions

  /** `ApplicationCommandType`: ChatInput 1, User 2, Message 3. */
  datatype CommandType = ChatInput | UserMenu | MessageMenu

  function TypeCode(t: CommandType): (r: int)
    ensures 1 <= r <= 3
  {
    match t
    case ChatInput => 1
    case UserMenu => 2
    case MessageMenu => 3
  }

  /** The code a command, callback or component runs, by identity. */
  datatype Handler = Method(name: string) | LoggingStub

  /** An option object: its keys and values, each key once, in `Object.keys` order. */
  type OptionObject = seq<(string, Json)>

  /**
   * A declared command as the decorators build it. `options` and `permissions`
   * are null when not given; `callback` is the method the command runs.
   */
  datatype Command = Command(
    kind: CommandType,
    name: string,
    description: string,
    options: Option<seq<OptionObject>>,
    permissions: Option<seq<Functions.Permission>>,
    dmPermission: bool,
    nsfw: bool,
    scopes: seq<string>,
    callback: Option<Handler>,
    autocompleteCallbacks: Option<seq<Handler>>,
    id: Option<string>)

  /** The body `convertCommandToDiscordFormat` builds for a chat-input command. */
  datatype Wire = Wire(
    kind: int,
    name: string,
    defaultMemberPermissions: Option<string>,
    description: string,
    nsfw: bool,
    dmPermission: bool,
    options: Option<seq<OptionObject>>)

  const NoDescription: string := "No description set"

  /** The values of a permission list, as `PermissionFlagsBits` gives them. */
  function PermissionValues(ps: seq<Functions.Permission>): (r: seq<nat>)
    ensures |r| == |ps|
    ensures forall i :: 0 <= i < |ps| ==> r[i] == Functions.FlagValue(ps[i])
  {
    if ps == [] then [] else [Functions.FlagValue(ps[0])] + PermissionValues(ps[1..])
  }

  /**
   * `default_member_permissions`: null for an absent or empty list, otherwise
   * the decimal string of the OR of every permission's bits.
   */
  function DefaultMemberPermissions(ps: Option<seq<Functions.Permission>>): Option<string>
  {
    match ps
    case None => None
    case Some(list) =>
      if |list| == 0 then None else Some(DecimalString(OrAll(0, PermissionValues(list))))
  }

  /** The rendered permission string denotes exactly the bits of the listed permissions. */
  lemma DefaultMemberPermissionsBits(list: seq<Functions.Permission>, i: nat)
    requires |list| > 0
    ensures DefaultMemberPermissions(Some(list)).Some?
    ensures var s := DefaultMemberPermissions(Some(list)).value;
            IsDigits(s) &&
            (TestBit(ParseDecimal(s), i) <==>
               exists k :: 0 <= k < |list| && TestBit(Functions.FlagValue(list[k]), i))
  {
    var vs := PermissionValues(list);
    DecimalRoundTrip(OrAll(0, vs));
    OrAllBits(0, vs, i);
    ZeroHasNoBits(i);
    if exists k :: 0 <= k < |vs| && TestBit(vs[k], i) {
      var k :| 0 <= k < |vs| && TestBit(vs[k], i);
      assert TestBit(Functions.FlagValue(list[k]), i);
    }
  }

  /**
   * `convertCommandToDiscordFormat`: chat-input commands become a wire body with
   * the description defaulting to "No description set" and options present only
   * when set; user and message commands convert to null.
   */
  function Convert(c: Command): (r: Option<Wire>)
    ensures r.Some? <==> c.kind == ChatInput
    ensures r.Some? ==>
              r.value.kind == 1 && r.value.name == c.name
              && (c.description == "" ==> r.value.description == NoDescription)
              && (c.description != "" ==> r.value.description == c.description)
              && r.value.options == c.options
              && r.value.nsfw == c.nsfw && r.value.dmPermission == c.dmPermission
              && (r.value.defaultMemberPermissions.None? <==> c.permissions.None? || c.permissions == Some([]))
  {
    if c.kind == ChatInput then
      Some(Wire(TypeCode(c.kind), c.name, DefaultMemberPermissions(c.permissions),
                if c.description == "" then NoDescription else c.description,
                c.nsfw, c.dmPermission, c.options))
    else None
  }

  /** `commands.map(convert).filter(Boolean)`: the conversions that are not null, in order. */
  function ConvertAll(cs: seq<Command>): (r: seq<Wire>)
    ensures |r| == |ChatInputs(cs)|
    ensures forall i :: 0 <= i < |r| ==> Some(r[i]) == Convert(ChatInputs(cs)[i])
  {
    if cs == [] then []
    else (match Convert(cs[0]) case Some(w) => [w] case None => []) + ConvertAll(cs[1..])
  }

  /** The chat-input commands of a list, in order. */
  function ChatInputs(cs: seq<Command>): (r: seq<Command>)
    ensures |r| <= |cs|
    ensures forall i :: 0 <= i < |r| ==> r[i].kind == ChatInput && r[i] in cs
    ensures forall c :: c in cs && c.kind == ChatInput ==> c in r
  {
    if cs == [] then []
    else (if cs[0].kind == ChatInput then [cs[0]] else []) + ChatInputs(cs[1..])
  }

  /** The filter keeps order: the chat-input commands of a + b are those of a, then those of b. */
  lemma {:induction false} ChatInputsAppend(a: seq<Command>, b: seq<Command>)
    ensures ChatInputs(a + b) == ChatInputs(a) + ChatInputs(b)
  {
    if a != [] {
      assert (a + b)[1..] == a[1..] + b;
      ChatInputsAppend(a[1..], b);
    } else {
      assert a + b == b;
    }
  }

  // ---------------------------------------------------------------- lookups

  /** The index of the first command named `name`, or -1 (`commands.find`). */
  function IndexOfCommand(cs: seq<Command>, name: string): (r: int)
    ensures -1 <= r < |cs|
    ensures r >= 0 ==> cs[r].name == name && forall j :: 0 <= j < r ==> cs[j].name != name
    ensures r == -1 ==> forall j :: 0 <= j < |cs| ==> cs[j].name != name
  {
    if cs == [] then -1
    else if cs[0].name == name then 0
    else
      var k := IndexOfCommand(cs[1..], name);
      if k < 0 then -1 else k + 1
  }

  /** `getCommand(name)`: the first command with that name. */
  function FindCommand(cs: seq<Command>, name: string): (r: Option<Command>)
    ensures r.None? <==> forall j :: 0 <= j < |cs| ==> cs[j].name != name
    ensures r.Some? ==> exists k :: 0 <= k < |cs| && cs[k] == r.value && r.value.name == name
                          && forall j :: 0 <= j < k ==> cs[j].name != name
  {
    var k := IndexOfCommand(cs, name);
    if k < 0 then None else Some(cs[k])
  }

  /** A property of a parsed response: missing, explicitly null, or a value. */
  datatype Field<T> = Absent | Null | Val(v: T)

  /** A command as Discord lists it in a GET or PUT response. */
  datatype RemoteCommand = RemoteCommand(
    id: string,
    name: string,
    kind: int,
    dmPermission: Field<bool>,
    defaultMemberPermissions: Field<string>,
    nsfw: Field<bool>,
    options: Field<seq<OptionObject>>)

  /** `commandList.find(c => c.name === name)`. */
  function FindRemote(rs: seq<RemoteCommand>, name: string): (r: Option<RemoteCommand>)
    ensures r.None? <==> forall j :: 0 <= j < |rs| ==> rs[j].name != name
    ensures r.Some? ==> r.value.name == name && r.value in rs
    ensures r.Some? ==> exists k :: 0 <= k < |rs| && rs[k] == r.value
                          && forall j :: 0 <= j < k ==> rs[j].name != name
  {
    if rs == [] then None
    else if rs[0].name == name then Some(rs[0])
    else
      var t := FindRemote(rs[1..], name);
      if t.Some? then
        var k :| 0 <= k < |rs[1..]| && rs[1..][k] == t.value && forall j :: 0 <= j < k ==> rs[1..][j].name != t.value.name;
        assert rs[k + 1] == t.value;
        t
      else t
  }

  // ---------------------------------------------------------------- options equality

  /**
   * `areObjectsEqual`: the same number of keys, and every key of the first
   * object holds a value `===` the second's. A value parsed from a response is
   * never the same reference as a local array or object.
   */
  predicate ObjectsEqual(o1: OptionObject, o2: OptionObject)
  {
    |o1| == |o2| &&
    forall i :: 0 <= i < |o1| ==>
      match Lookup(o2, o1[i].0)
      case None => false
      case Some(w) => StrictEqualAcross(o1[i].1, w)
  }

  /**
   * `areOptionsEqual`: false when either list is missing or the lengths differ;
   * otherwise the options are compared position by position (the default
   * `sort()` of object arrays keeps their order).
   */
  predicate OptionsEqual(o1: Option<seq<OptionObject>>, o2: Option<seq<OptionObject>>)
  {
    o1.Some? && o2.Some? && |o1.value| == |o2.value| &&
    forall i :: 0 <= i < |o1.value| ==> ObjectsEqual(o1.value[i], o2.value[i])
  }

  /** Shallow equality: an option holding an array or object never equals anything remote. */
  lemma NestedOptionNeverEqual(o1: OptionObject, o2: OptionObject, i: nat)
    requires i < |o1| && !IsPrimitive(o1[i].1)
    ensures !ObjectsEqual(o1, o2)
  {
  }

  /** Options holding only primitive values compare equal to an identical remote copy. */
  lemma PrimitiveOptionsEqual(o: seq<OptionObject>)
    requires forall i, j :: 0 <= i < |o| && 0 <= j < |o[i]| ==> IsPrimitive(o[i][j].1)
    requires forall i :: 0 <= i < |o| ==> DistinctKeys(o[i])
    ensures OptionsEqual(Some(o), Some(o))
  {
    forall i, j | 0 <= i < |o| && 0 <= j < |o[i]|
      ensures Lookup(o[i], o[i][j].0) == Some(o[i][j].1)
    {
      LookupDistinct(o[i], j);
    }
  }

  /** The options a remote command reports, with missing and null both as absent. */
  function RemoteOptions(f: Field<seq<OptionObject>>): Option<seq<OptionObject>>
  {
    match f
    case Val(v) => Some(v)
    case _ => None
  }

  /** `local !== remote` for a boolean property. */
  predicate BoolDiffers(local: bool, remote: Field<bool>)
  {
    remote != Val(local)
  }

  /** `local !== remote` for a string-or-null property. */
  predicate StringDiffers(local: Option<string>, remote: Field<string>)
  {
    match local
    case None => !remote.Null?
    case Some(s) => remote != Val(s)
  }

  /** The checks of `compareCommands` between a converted command and its remote namesake. */
  predicate WireDiffers(w: Wire, m: RemoteCommand)
  {
    w.kind != m.kind
    || BoolDiffers(w.dmPermission, m.dmPermission)
    || StringDiffers(w.defaultMemberPermissions, m.defaultMemberPermissions)
    || BoolDiffers(w.nsfw, m.nsfw)
    || (w.options.Some? && !m.options.Absent? && !OptionsEqual(w.options, RemoteOptions(m.options)))
  }

  /**
   * The callback of `commands.some` for one local command: true when no remote
   * command has its name or a compared property differs. `None` is the
   * TypeError of reading `.type` from the null conversion of a context menu.
   */
  function CommandChanged(c: Command, remote: seq<RemoteCommand>): (r: Option<bool>)
    ensures FindRemote(remote, c.name).None? ==> r == Some(true)
    ensures FindRemote(remote, c.name).Some? ==> (r.None? <==> c.kind != ChatInput)
  {
    match FindRemote(remote, c.name)
    case None => Some(true)
    case Some(m) =>
      match Convert(c)
      case None => None
      case Some(w) => Some(WireDiffers(w, m))
  }

  /** `commands.some(changed)`, stopping at the first true (or at the first TypeError). */
  function SomeChanged(cs: seq<Command>, remote: seq<RemoteCommand>): Option<bool>
    decreases |cs|
  {
    if cs == [] then Some(false)
    else
      match CommandChanged(cs[0], remote)
      case None => None
      case Some(true) => Some(true)
      case Some(false) => SomeChanged(cs[1..], remote)
  }

  /** Command i is the first one found changed: it is changed and every command before it is not. */
  predicate FirstChangedAt(cs: seq<Command>, remote: seq<RemoteCommand>, i: nat)
  {
    i < |cs| && CommandChanged(cs[i], remote) == Some(true)
    && forall j :: 0 <= j < i ==> CommandChanged(cs[j], remote) == Some(false)
  }

  lemma FirstChangedAtTail(cs: seq<Command>, remote: seq<RemoteCommand>, i: nat)
    requires cs != []
    ensures FirstChangedAt(cs, remote, i + 1) <==>
            CommandChanged(cs[0], remote) == Some(false) && FirstChangedAt(cs[1..], remote, i)
  {
    if i + 1 < |cs| {
      assert cs[1..][i] == cs[i + 1];
    }
    if CommandChanged(cs[0], remote) == Some(false) && FirstChangedAt(cs[1..], remote, i) {
      forall j | 0 <= j < i + 1 ensures CommandChanged(cs[j], remote) == Some(false) {
        if j > 0 {
          assert cs[j] == cs[1..][j - 1];
        }
      }
    }
    if FirstChangedAt(cs, remote, i + 1) {
      forall j | 0 <= j < i ensures CommandChanged(cs[1..][j], remote) == Some(false) {
        assert cs[1..][j] == cs[j + 1];
      }
    }
  }

  /** Changes are detected exactly when some command is changed and every command before it is not. */
  lemma {:induction false} SomeChangedTrue(cs: seq<Command>, remote: seq<RemoteCommand>)
    ensures SomeChanged(cs, remote) == Some(true) <==> exists i: nat :: FirstChangedAt(cs, remote, i)
    decreases |cs|
  {
    if cs != [] {
      SomeChangedTrue(cs[1..], remote);
      if CommandChanged(cs[0], remote) == Some(true) {
        assert FirstChangedAt(cs, remote, 0);
      } else if CommandChanged(cs[0], remote) == Some(false) {
        if SomeChanged(cs, remote) == Some(true) {
          var i: nat :| FirstChangedAt(cs[1..], remote, i);
          FirstChangedAtTail(cs, remote, i);
        }
        if exists i: nat :: FirstChangedAt(cs, remote, i) {
          var i: nat :| FirstChangedAt(cs, remote, i);
          assert i > 0;
          FirstChangedAtTail(cs, remote, i - 1);
        }
      }
    }
  }

  /** No changes are detected exactly when every command is unchanged. */
  lemma {:induction false} SomeChangedFalse(cs: seq<Command>, remote: seq<RemoteCommand>)
    ensures SomeChanged(cs, remote) == Some(false) <==>
            forall i :: 0 <= i < |cs| ==> CommandChanged(cs[i], remote) == Some(false)
    decreases |cs|
  {
    if cs != [] {
      SomeChangedFalse(cs[1..], remote);
      if forall i :: 0 <= i < |cs| ==> CommandChanged(cs[i], remote) == Some(false) {
        forall i | 0 <= i < |cs| - 1 ensures CommandChanged(cs[1..][i], remote) == Some(false) {
          assert cs[1..][i] == cs[i + 1];
        }
      }
      if SomeChanged(cs, remote) == Some(false) {
        forall i | 0 <= i < |cs| ensures CommandChanged(cs[i], remote) == Some(false) {
          if i > 0 {
            assert cs[i] == cs[1..][i - 1];
          }
        }
      }
    }
  }

  /** A context menu that exists remotely makes the check fail once it is reached. */
  lemma MenuCommandCrashes(cs: seq<Command>, remote: seq<RemoteCommand>, i: nat)
    requires i < |cs| && cs[i].kind != ChatInput && FindRemote(remote, cs[i].name).Some?
    requires forall j :: 0 <= j < i ==> CommandChanged(cs[j], remote) == Some(false)
    ensures SomeChanged(cs, remote).None?
    decreases i
  {
    if i > 0 {
      assert cs[1..][i - 1] == cs[i];
      forall j | 0 <= j < i - 1 ensures CommandChanged(cs[1..][j], remote) == Some(false) {
        assert cs[1..][j] == cs[j + 1];
      }
      MenuCommandCrashes(cs[1..], remote, i - 1);
    }
  }

  /** The first remote entry with a name is unaffected by entries appended after it. */
  lemma {:induction false} FindRemoteAppend(rs: seq<RemoteCommand>, extra: RemoteCommand, name: string)
    requires extra.name != name
    ensures FindRemote(rs + [extra], name) == FindRemote(rs, name)
    decreases |rs|
  {
    if rs != [] {
      assert (rs + [extra])[1..] == rs[1..] + [extra];
      FindRemoteAppend(rs[1..], extra, name);
    }
  }

  /** A remote command whose name no local command has never affects the result. */
  lemma {:induction false} RemoteOnlyIgnored(cs: seq<Command>, remote: seq<RemoteCommand>, extra: RemoteCommand)
    requires forall i :: 0 <= i < |cs| ==> cs[i].name != extra.name
    ensures SomeChanged(cs, remote + [extra]) == SomeChanged(cs, remote)
    decreases |cs|
  {
    if cs != [] {
      FindRemoteAppend(remote, extra, cs[0].name);
      RemoteOnlyIgnored(cs[1..], remote, extra);
    }
  }

  // ---------------------------------------------------------------- component callbacks

  /** The `custom_id` patterns the extensions register. */
  datatype Pattern =
    | DigitsExactly(prefix: string)   // /^prefix\d+$/
    | DigitsAnywhere(prefix: string)  // /prefix\d+/
    | Anywhere(prefix: string)        // /prefix(.*)/

  predicate AllDigits(s: string)
  {
    |s| > 0 && forall i :: 0 <= i < |s| ==> '0' <= s[i] <= '9'
  }

  /** `RegExp.prototype.test` for the patterns above. */
  predicate Test(p: Pattern, id: string)
  {
    match p
    case DigitsExactly(pre) => |pre| < |id| && id[..|pre|] == pre && AllDigits(id[|pre|..])
    case DigitsAnywhere(pre) =>
      exists i: nat :: i + |pre| < |id| && Text.OccursAt(id, pre, i) && '0' <= id[i + |pre|] <= '9'
    case Anywhere(pre) => Text.Contains(id, pre)
  }

  /** A regular-expression object: two literals with the same source are still two objects. */
  class RegExp {
    const pattern: Pattern

    constructor (pattern: Pattern)
      ensures this.pattern == pattern
    {
      this.pattern := pattern;
    }
  }

  /** `ComponentCallback`: the pattern, the owning extension's name, and the code to run. */
  datatype ComponentCallback = ComponentCallback(customId: RegExp, extension: Option<string>, callback: Option<Handler>)

  /** `new ComponentCallback(custom_id, extension, callback)` keeps what it is given. */
  function NewComponentCallback(customId: RegExp, extension: Option<string>, callback: Option<Handler>): (r: ComponentCallback)
    ensures r.customId == customId && r.extension == extension && r.callback == callback
  {
    ComponentCallback(customId, extension, callback)
  }

  /** The index of the first callback whose pattern matches, or -1. */
  function IndexOfMatch(cbs: seq<ComponentCallback>, id: string): (r: int)
    ensures -1 <= r < |cbs|
    ensures r >= 0 ==> Test(cbs[r].customId.pattern, id)
                       && forall j :: 0 <= j < r ==> !Test(cbs[j].customId.pattern, id)
    ensures r == -1 ==> forall j :: 0 <= j < |cbs| ==> !Test(cbs[j].customId.pattern, id)
  {
    if cbs == [] then -1
    else if Test(cbs[0].customId.pattern, id) then 0
    else
      var k := IndexOfMatch(cbs[1..], id);
      if k < 0 then -1 else k + 1
  }

  /** `getComponentCallback(custom_id)`: the first registered callback whose pattern matches. */
  function FindCallback(cbs: seq<ComponentCallback>, id: string): (r: Option<ComponentCallback>)
    ensures r.None? <==> forall j :: 0 <= j < |cbs| ==> !Test(cbs[j].customId.pattern, id)
    ensures r.Some? ==> exists k :: 0 <= k < |cbs| && cbs[k] == r.value && Test(r.value.customId.pattern, id)
                          && forall j :: 0 <= j < k ==> !Test(cbs[j].customId.pattern, id)
  {
    var k := IndexOfMatch(cbs, id);
    if k < 0 then None else Some(cbs[k])
  }

  /**
   * A callback registered after another with the same pattern is never chosen:
   * the earlier one matches first.
   */
  lemma ShadowedCallback(cbs: seq<ComponentCallback>, i: nat, j: nat, id: string)
    requires i < j < |cbs| && cbs[i].customId.pattern == cbs[j].customId.pattern
    ensures FindCallback(cbs, id) != Some(cbs[j]) || cbs[j] == cbs[i] || exists k :: 0 <= k < i && cbs[k] == cbs[j]
  {
  }

  /** "fav" ids never reach the "unfav" callback and vice versa. */
  lemma FavUnfavDisjoint(id: string)
    ensures Test(DigitsExactly("fav"), id) ==> !Test(DigitsExactly("unfav"), id)
  {
    if Test(DigitsExactly("fav"), id) {
      assert id[0] == id[..3][0] == 'f';
    }
  }
}
