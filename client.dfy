/**
 * The dispatcher and command synchroniser (src/classes/Client.ts): routing an
 * invocation to its command or component callback, comparing the declared
 * commands with the registered ones, pushing them when they changed, and
 * loading the extensions' registries.
 */
module Client {
  import opened Wrappers
  import opened Text
  import opened Json
  import opened Commands
  import opened Discord
  import opened Contexts
  import opened Extensions
  import opened Partition

  /** The text of the reply sent when a command's callback throws; it does not include the error. */
  const UnexpectedErrorCode := "hDFPRERTpb"
  const UnexpectedErrorText := "Uh oh. An unepected error occured. Please join our [Support Server](<https://discord.gg/"
    + UnexpectedErrorCode + ">) and report this error.\n\nError Code: `" + UnexpectedErrorCode + "`"

  /** The fallback reply names its error code. */
  lemma UnexpectedErrorNamesCode()
    ensures Contains(UnexpectedErrorText, UnexpectedErrorCode)
  {
    var k := |UnexpectedErrorText| - |UnexpectedErrorCode| - 1;
    assert OccursAt(UnexpectedErrorText, UnexpectedErrorCode, k);
  }

  /** Where `handleCommand` goes for an invocation. */
  datatype CommandRoute =
    | Crashed          // the context has no command: reading `ctx.command.name` throws
    | NoCommand        // logged: no command with that name
    | NoCallback       // logged: the command has no callback
    | Run(handler: Handler)

  /**
   * The decision of `handleCommand`: the context's command (looked up when the
   * context was built) is looked up again by name in the client's list.
   */
  function RouteCommand(commands: seq<Command>, invoked: Option<Command>): (r: CommandRoute)
    ensures r.Crashed? <==> invoked.None?
    ensures r.NoCommand? <==> invoked.Some? && forall j :: 0 <= j < |commands| ==> commands[j].name != invoked.value.name
    ensures r.Run? ==> exists k :: 0 <= k < |commands| && commands[k].name == invoked.value.name
                          && commands[k].callback == Some(r.handler)
                          && forall j :: 0 <= j < k ==> commands[j].name != invoked.value.name
  {
    match invoked
    case None => Crashed
    case Some(c) =>
      var k := IndexOfCommand(commands, c.name);
      if k < 0 then NoCommand
      else match commands[k].callback
        case None => NoCallback
        case Some(h) => Run(h)
  }

  /**
   * A context built from the client's own list always finds its command again:
   * the "no corresponding command file" branch is reached only by a context
   * whose lookup failed, and that one crashes first.
   */
  lemma ContextCommandFound(commands: seq<Command>, name: string)
    ensures var r := RouteCommand(commands, FindCommand(commands, name));
            !r.NoCommand?
            && (r.Crashed? <==> forall j :: 0 <= j < |commands| ==> commands[j].name != name)
  {
  }

  /** Where `handleButton` and `handleModal` go for a `custom_id`. */
  datatype ComponentRoute = Unhandled | Ran(handler: Handler)

  /** Where `handleAutocomplete` goes for a command name. */
  datatype AutocompleteRoute = NoCommandFile | Autocomplete(command: Command)

  /** The registry and the last list of registered commands fetched from Discord. */
  class Client {
    var commands: seq<Command>
    var componentCallbacks: seq<ComponentCallback>
    var rawCommands: seq<RemoteCommand>

    /** A new client: no commands, no callbacks, no registered commands seen. */
    constructor ()
      ensures commands == [] && componentCallbacks == [] && rawCommands == []
    {
      commands := [];
      componentCallbacks := [];
      rawCommands := [];
    }

    /** `getCommand(name)`: the first command with the name. */
    function GetCommand(name: string): (r: Option<Command>)
      reads this
      ensures r.None? <==> forall j :: 0 <= j < |commands| ==> commands[j].name != name
      ensures r.Some? ==> exists k :: 0 <= k < |commands| && commands[k] == r.value && r.value.name == name
    {
      FindCommand(commands, name)
    }

    /** `getComponentCallback(custom_id)`: the first callback, in registration order, whose pattern matches. */
    function GetComponentCallback(customId: string): (r: Option<ComponentCallback>)
      reads this
      ensures r.None? <==> forall j :: 0 <= j < |componentCallbacks| ==> !Test(componentCallbacks[j].customId.pattern, customId)
      ensures r.Some? ==> exists k :: 0 <= k < |componentCallbacks| && componentCallbacks[k] == r.value
                            && Test(r.value.customId.pattern, customId)
                            && forall j :: 0 <= j < k ==> !Test(componentCallbacks[j].customId.pattern, customId)
    {
      var k := IndexOfMatch(componentCallbacks, customId);
      if k < 0 then None else Some(componentCallbacks[k])
    }

    /**
     * `handleCommand` for a slash command. `handlerDefer` is the callback's own
     * `ctx.defer(...)` call, if it makes one (with its ephemeral option), and
     * `threw` whether the callback then throws; its other sends are not
     * modelled. On a throw exactly one ephemeral reply with the fixed fallback
     * text is sent, whatever the error, and it is a follow-up exactly when the
     * context is deferred by then, by the callback or before it.
     */
    method HandleSlashCommand(ctx: SlashCommandContext, handlerDefer: Option<bool>, threw: bool)
      returns (r: CommandRoute)
      modifies ctx
      ensures r == RouteCommand(commands, ctx.command)
      ensures ctx.defered == (old(ctx.defered) || (r.Run? && handlerDefer.Some?))
      ensures ctx.sent == old(ctx.sent)
                          + (if r.Run? && handlerDefer.Some?
                             then [Response(DeferredChannelMessageWithSource, Message(DeferData(handlerDefer.value)))]
                             else [])
                          + (if r.Run? && threw then [ReplyEffect(ctx.defered, Text(UnexpectedErrorText), true)] else [])
    {
      r := RouteCommand(commands, ctx.command);
      if r.Run? && handlerDefer.Some? {
        ctx.Defer(handlerDefer.value);
      }
      if r.Run? && threw {
        ctx.Reply(Text(UnexpectedErrorText), true);
      }
    }

    /** `handleCommand` for a context-menu command: the same decision, a synchronous fallback reply. */
    method HandleMenuCommand(ctx: ContextMenuContext, threw: bool) returns (r: CommandRoute)
      modifies ctx
      ensures r == RouteCommand(commands, ctx.command)
      ensures ctx.sent == old(ctx.sent) + (if r.Run? && threw then [ReplyEffect(false, Text(UnexpectedErrorText), true)] else [])
    {
      r := RouteCommand(commands, ctx.command);
      if r.Run? && threw {
        ctx.Reply(Text(UnexpectedErrorText), true);
      }
    }

    /**
     * `handleAutocomplete`: the command named by the invocation, if any; the
     * client itself sends nothing (a throw from the command's autocomplete is logged).
     */
    method HandleAutocomplete(ctx: AutocompleteContext) returns (r: AutocompleteRoute)
      ensures r.NoCommandFile? <==> forall j :: 0 <= j < |commands| ==> commands[j].name != ctx.interaction.name
      ensures r.Autocomplete? ==> r.command.name == ctx.interaction.name && r.command in commands
    {
      var found := FindCommand(commands, ctx.interaction.name);
      if found.None? {
        r := NoCommandFile;
      } else {
        r := Autocomplete(found.value);
      }
    }

    /**
     * `handleButton` / `handleModal`: the first matching callback runs; a miss,
     * a callback-less entry or a throw is only logged, and nothing is sent.
     */
    method HandleComponent(customId: string) returns (r: ComponentRoute)
      ensures var k := IndexOfMatch(componentCallbacks, customId);
              r.Unhandled? <==> k < 0 || componentCallbacks[k].callback.None?
      ensures var k := IndexOfMatch(componentCallbacks, customId);
              r.Ran? ==> 0 <= k && componentCallbacks[k].callback == Some(r.handler)
    {
      var callback := GetComponentCallback(customId);
      if callback.None? || callback.value.callback.None? {
        r := Unhandled;
      } else {
        r := Ran(callback.value.callback.value);
      }
    }

    /** `handleButton`: routes by the context's `custom_id`; the context is left untouched. */
    method HandleButton(ctx: ButtonContext) returns (r: ComponentRoute)
      ensures var k := IndexOfMatch(componentCallbacks, ctx.customId);
              (r.Unhandled? <==> k < 0 || componentCallbacks[k].callback.None?)
              && (r.Ran? ==> 0 <= k && componentCallbacks[k].callback == Some(r.handler))
    {
      r := HandleComponent(ctx.customId);
    }

    /** `handleModal`: the same routing as for buttons. */
    method HandleModal(ctx: ModalContext) returns (r: ComponentRoute)
      ensures var k := IndexOfMatch(componentCallbacks, ctx.customId);
              (r.Unhandled? <==> k < 0 || componentCallbacks[k].callback.None?)
              && (r.Ran? ==> 0 <= k && componentCallbacks[k].callback == Some(r.handler))
    {
      r := HandleComponent(ctx.customId);
    }

    /** `areObjectsEqual`: a key loop over the first object. */
    method AreObjectsEqual(o1: OptionObject, o2: OptionObject) returns (r: bool)
      ensures r == ObjectsEqual(o1, o2)
    {
      if |o1| != |o2| {
        return false;
      }
      var i := 0;
      while i < |o1|
        invariant 0 <= i <= |o1|
        invariant forall j :: 0 <= j < i ==>
                    match Lookup(o2, o1[j].0)
                    case None => false
                    case Some(w) => StrictEqualAcross(o1[j].1, w)
      {
        var other := Lookup(o2, o1[i].0);
        if other.None? || !StrictEqualAcross(o1[i].1, other.value) {
          return false;
        }
        i := i + 1;
      }
      return true;
    }

    /** `areOptionsEqual`: missing lists and different lengths are unequal; then an index loop. */
    method AreOptionsEqual(o1: Option<seq<OptionObject>>, o2: Option<seq<OptionObject>>) returns (r: bool)
      ensures r == OptionsEqual(o1, o2)
    {
      if o1.None? || o2.None? {
        return false;
      }
      var xs, ys := o1.value, o2.value;
      if |xs| != |ys| {
        return false;
      }
      var i := 0;
      while i < |xs|
        invariant 0 <= i <= |xs|
        invariant forall j :: 0 <= j < i ==> ObjectsEqual(xs[j], ys[j])
      {
        var same := AreObjectsEqual(xs[i], ys[i]);
        if !same {
          return false;
        }
        i := i + 1;
      }
      return true;
    }

    /**
     * `compareCommands`: a failed GET detects no change and keeps `rawCommands`;
     * otherwise `rawCommands` becomes the fetched list and the result is the
     * "changes detected" predicate (`None` when it throws).
     */
    method CompareCommands(cmds: seq<Command>, get: Option<seq<RemoteCommand>>) returns (r: Option<bool>)
      modifies this
      ensures get.None? ==> r == Some(false) && rawCommands == old(rawCommands)
      ensures get.Some? ==> r == SomeChanged(cmds, get.value) && rawCommands == get.value
      ensures commands == old(commands) && componentCallbacks == old(componentCallbacks)
    {
      if get.None? {
        return Some(false);
      }
      rawCommands := get.value;
      r := SomeChanged(cmds, get.value);
    }

    /**
     * `updateCommands`: nothing is sent unless changes are detected; then one
     * PUT with the non-null conversions; `rawCommands` takes its result only
     * when it succeeds.
     */
    method UpdateCommands(cmds: seq<Command>, get: Option<seq<RemoteCommand>>, put: Option<seq<RemoteCommand>>)
      returns (r: StepResult)
      modifies this
      ensures r == Step(cmds, false, get, put)
      ensures rawCommands == RawAfterStep(old(rawCommands), cmds, false, get, put)
      ensures commands == old(commands) && componentCallbacks == old(componentCallbacks)
    {
      var changed := CompareCommands(cmds, get);
      if changed.None? {
        return Failed;
      }
      if !changed.value {
        return Checked(false);
      }
      var body := ConvertAll(cmds);
      if put.Some? {
        rawCommands := put.value;
      }
      r := Pushed(body, put.Some?);
    }

    /** One scope of `loadCommands`: compare only in dev mode, update otherwise. */
    method SyncScope(scope: Scope, cmds: seq<Command>, devMode: bool, net: Remote) returns (r: StepResult)
      modifies this
      ensures SyncState(rawCommands, r.Failed?) == Advance(SyncState(old(rawCommands), false), (scope, cmds), devMode, net)
      ensures commands == old(commands) && componentCallbacks == old(componentCallbacks)
    {
      if devMode {
        var changed := CompareCommands(cmds, net.Get(scope));
        r := if changed.None? then Failed else Checked(changed.value);
      } else {
        r := UpdateCommands(cmds, net.Get(scope), net.Put(scope));
      }
    }

    /**
     * The partition step for one command: appended to the global list when it
     * has no scopes, otherwise pushed onto each listed guild's list (creating
     * it on first sight).
     */
    static method PartitionCommand(global: seq<Command>, keys: seq<string>, guildOnly: map<string, seq<Command>>, c: Command)
      returns (global': seq<Command>, keys': seq<string>, guildOnly': map<string, seq<Command>>)
      ensures Split(global', keys', guildOnly') == AddCommand(Split(global, keys, guildOnly), c)
    {
      global', keys', guildOnly' := global, keys, guildOnly;
      if |c.scopes| == 0 {
        global' := global + [c];
        return;
      }
      var k := 0;
      while k < |c.scopes|
        invariant 0 <= k <= |c.scopes|
        invariant Split(global', keys', guildOnly') == AddToGuilds(Split(global, keys, guildOnly), c, c.scopes[..k])
      {
        var g := c.scopes[k];
        assert c.scopes[..k + 1][..k] == c.scopes[..k];
        if g in guildOnly' {
          guildOnly' := guildOnly'[g := guildOnly'[g] + [c]];
        } else {
          keys' := keys' + [g];
          guildOnly' := guildOnly'[g := [c]];
        }
        k := k + 1;
      }
      assert c.scopes[..|c.scopes|] == c.scopes;
    }

    /** The partition loop over one extension's commands, continuing the split of the commands before them. */
    static method PartitionList(global: seq<Command>, keys: seq<string>, guildOnly: map<string, seq<Command>>,
                                ghost done: seq<Command>, cs: seq<Command>)
      returns (global': seq<Command>, keys': seq<string>, guildOnly': map<string, seq<Command>>)
      requires Split(global, keys, guildOnly) == SplitOf(done)
      ensures Split(global', keys', guildOnly') == SplitOf(done + cs)
    {
      global', keys', guildOnly' := global, keys, guildOnly;
      var j := 0;
      ghost var seen := done;
      while j < |cs|
        invariant 0 <= j <= |cs| && seen == done + cs[..j]
        invariant Split(global', keys', guildOnly') == SplitOf(seen)
      {
        ghost var next := seen + [cs[j]];
        assert next[..|next| - 1] == seen;
        global', keys', guildOnly' := PartitionCommand(global', keys', guildOnly', cs[j]);
        assert cs[..j + 1] == cs[..j] + [cs[j]];
        seen, j := next, j + 1;
      }
      assert cs[..|cs|] == cs;
    }

    /**
     * The synchronisation step of `loadCommands`: the global scope first, then
     * each guild in first-appearance order, stopping at the first step that throws.
     */
    method SyncAll(global: seq<Command>, keys: seq<string>, guildOnly: map<string, seq<Command>>, devMode: bool, net: Remote)
      returns (failed: bool)
      requires Split(global, keys, guildOnly).Valid()
      modifies this
      ensures var sync := SyncAfter(old(rawCommands), Jobs(Split(global, keys, guildOnly)), devMode, net);
              rawCommands == sync.raw && failed == sync.failed
      ensures commands == old(commands) && componentCallbacks == old(componentCallbacks)
    {
      ghost var jobs := Jobs(Split(global, keys, guildOnly));
      ghost var raw0 := rawCommands;
      var step := SyncScope(Global, global, devMode, net);
      TakeSnoc(jobs, 0);
      SyncAfterSnoc(raw0, [], jobs[0], devMode, net);
      if step.Failed? {
        FailureSticks(raw0, jobs[..1], jobs[1..], devMode, net);
        TakeDrop(jobs, 1);
        return true;
      }
      failed := SyncGuilds(raw0, jobs, keys, guildOnly, devMode, net);
    }

    /** The guild loop of the synchronisation, after the global scope succeeded. */
    method SyncGuilds(ghost raw0: seq<RemoteCommand>, ghost jobs: seq<(Scope, seq<Command>)>,
                      keys: seq<string>, guildOnly: map<string, seq<Command>>, devMode: bool, net: Remote)
      returns (failed: bool)
      requires |jobs| == |keys| + 1 && forall i :: 0 <= i < |keys| ==> keys[i] in guildOnly && jobs[i + 1] == (Guild(keys[i]), guildOnly[keys[i]])
      requires SyncAfter(raw0, jobs[..1], devMode, net) == SyncState(rawCommands, false)
      modifies this
      ensures var sync := SyncAfter(raw0, jobs, devMode, net);
              rawCommands == sync.raw && failed == sync.failed
      ensures commands == old(commands) && componentCallbacks == old(componentCallbacks)
    {
      var n := 0;
      while n < |keys|
        invariant 0 <= n <= |keys|
        invariant SyncAfter(raw0, jobs[..n + 1], devMode, net) == SyncState(rawCommands, false)
        invariant commands == old(commands) && componentCallbacks == old(componentCallbacks)
      {
        TakeSnoc(jobs, n + 1);
        SyncAfterSnoc(raw0, jobs[..n + 1], jobs[n + 1], devMode, net);
        assert jobs[n + 1] == (Guild(keys[n]), guildOnly[keys[n]]);
        var step := SyncScope(Guild(keys[n]), guildOnly[keys[n]], devMode, net);
        if step.Failed? {
          FailureSticks(raw0, jobs[..n + 2], jobs[n + 2..], devMode, net);
          TakeDrop(jobs, n + 2);
          return true;
        }
        n := n + 1;
      }
      TakeDrop(jobs, n + 1);
      return false;
    }

    /** The id step of `loadCommands`: each command takes the id of its first namesake in `rawCommands`. */
    method PropagateIds()
      modifies this
      ensures |commands| == |old(commands)|
      ensures forall m :: 0 <= m < |commands| ==>
                commands[m] == old(commands)[m].(id := IdFor(rawCommands, old(commands)[m].name))
      ensures rawCommands == old(rawCommands) && componentCallbacks == old(componentCallbacks)
    {
      var m := 0;
      while m < |commands|
        invariant 0 <= m <= |commands| && |commands| == |old(commands)|
        invariant rawCommands == old(rawCommands) && componentCallbacks == old(componentCallbacks)
        invariant forall q :: 0 <= q < m ==> commands[q] == old(commands)[q].(id := IdFor(rawCommands, old(commands)[q].name))
        invariant forall q :: m <= q < |commands| ==> commands[q] == old(commands)[q]
      {
        commands := commands[m := commands[m].(id := IdFor(rawCommands, commands[m].name))];
        m := m + 1;
      }
    }

    /**
     * The loading loop of `loadCommands`: collects every extension's commands and
     * components, in order, and splits the commands into the global and
     * per-guild lists.
     */
    method LoadExtensions(exts: seq<Extension>) returns (global: seq<Command>, keys: seq<string>, guildOnly: map<string, seq<Command>>)
      modifies this
      ensures commands == old(commands) + Flatten(CommandLists(exts))
      ensures componentCallbacks == old(componentCallbacks) + Flatten(ComponentLists(exts))
      ensures rawCommands == old(rawCommands)
      ensures Split(global, keys, guildOnly) == SplitOf(Flatten(CommandLists(exts)))
    {
      var loaded, loadedCallbacks;
      loaded, loadedCallbacks, global, keys, guildOnly := CollectExtensions(exts);
      commands := commands + loaded;
      componentCallbacks := componentCallbacks + loadedCallbacks;
    }

    /** The loop of `loadCommands` over the extensions, before anything is stored. */
    static method CollectExtensions(exts: seq<Extension>)
      returns (loaded: seq<Command>, loadedCallbacks: seq<ComponentCallback>,
               global: seq<Command>, keys: seq<string>, guildOnly: map<string, seq<Command>>)
      ensures loaded == Flatten(CommandLists(exts))
      ensures loadedCallbacks == Flatten(ComponentLists(exts))
      ensures Split(global, keys, guildOnly) == SplitOf(loaded)
    {
      var lists, callbacks := CommandLists(exts), ComponentLists(exts);
      loaded, loadedCallbacks := [], [];
      global, keys, guildOnly := [], [], map[];
      var i := 0;
      while i < |exts|
        invariant 0 <= i <= |exts|
        invariant loaded == Flatten(lists[..i]) && loadedCallbacks == Flatten(callbacks[..i])
        invariant Split(global, keys, guildOnly) == SplitOf(loaded)
      {
        FlattenSnoc(lists, i);
        FlattenSnoc(callbacks, i);
        global, keys, guildOnly := PartitionList(global, keys, guildOnly, loaded, lists[i]);
        loaded := loaded + lists[i];
        loadedCallbacks := loadedCallbacks + callbacks[i];
        i := i + 1;
      }
      TakeDrop(lists, |exts|);
      TakeDrop(callbacks, |exts|);
    }

    /**
     * `loadCommands`: loads the extensions, synchronises the global scope and
     * then each guild in first-appearance order, and finally gives every
     * command the id of its first namesake in `rawCommands`. A step that
     * throws aborts the load before the ids are set.
     */
    method LoadCommands(exts: seq<Extension>, devMode: bool, net: Remote) returns (failed: bool)
      modifies this
      ensures componentCallbacks == old(componentCallbacks) + Flatten(ComponentLists(exts))
      ensures var sync := SyncAfter(old(rawCommands), Jobs(SplitOf(Flatten(CommandLists(exts)))), devMode, net);
              rawCommands == sync.raw && failed == sync.failed
      ensures var loaded := old(commands) + Flatten(CommandLists(exts));
              |commands| == |loaded|
              && forall m :: 0 <= m < |loaded| ==>
                   commands[m] == if failed then loaded[m] else loaded[m].(id := IdFor(rawCommands, loaded[m].name))
    {
      var global, keys, guildOnly := LoadExtensions(exts);
      SplitOfValid(Flatten(CommandLists(exts)));
      failed := SyncAll(global, keys, guildOnly, devMode, net);
      if !failed {
        PropagateIds();
      }
    }
  }

  /** Each loaded extension's commands, in map order. */
  function CommandLists(exts: seq<Extension>): (r: seq<seq<Command>>)
    ensures |r| == |exts| && forall k :: 0 <= k < |exts| ==> r[k] == exts[k].commands.Values()
  {
    if exts == [] then [] else [exts[0].commands.Values()] + CommandLists(exts[1..])
  }

  /** Each loaded extension's component callbacks, in map order. */
  function ComponentLists(exts: seq<Extension>): (r: seq<seq<ComponentCallback>>)
    ensures |r| == |exts| && forall k :: 0 <= k < |exts| ==> r[k] == exts[k].components.Values()
  {
    if exts == [] then [] else [exts[0].components.Values()] + ComponentLists(exts[1..])
  }

  /** The lists one after the other. */
  function Flatten<T>(xss: seq<seq<T>>): seq<T>
    decreases |xss|
  {
    if xss == [] then [] else Flatten(xss[..|xss| - 1]) + xss[|xss| - 1]
  }

  lemma FlattenSnoc<T>(xss: seq<seq<T>>, i: nat)
    requires i < |xss|
    ensures Flatten(xss[..i + 1]) == Flatten(xss[..i]) + xss[i]
  {
    assert xss[..i + 1][..i] == xss[..i];
  }
}
