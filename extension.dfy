/**
 * Registration (src/classes/Extension.ts): the `slash_command`,
 * `context_menu` and `persistent_component` decorators fill maps on an
 * extension class's prototype, and the `Extension` constructor copies those
 * maps into the instance.
 */
module Extensions {
  import opened Wrappers
  import opened OrderedMaps
  import opened Commands
  import Functions

  /**
   * The prototype of an extension class: its `commands` and `components` maps
   * (absent until the first decorator creates them) and its methods by name.
   */
  class Prototype {
    var commands: Option<OrderedMap<string, Command>>
    var components: Option<OrderedMap<RegExp, ComponentCallback>>
    var methods: map<string, Handler>

    /** A class body before any decorator has run. */
    constructor (methods: map<string, Handler>)
      ensures this.commands.None? && this.components.None? && this.methods == methods
    {
      this.commands := None;
      this.components := None;
      this.methods := methods;
    }

    predicate Valid()
      reads this
    {
      (commands.Some? ==> commands.value.Valid()) && (components.Some? ==> components.value.Valid())
    }

    function CommandMap(): (r: OrderedMap<string, Command>)
      reads this
      requires Valid()
      ensures r.Valid()
    {
      commands.GetOr(OrderedMap([]))
    }

    function ComponentMap(): (r: OrderedMap<RegExp, ComponentCallback>)
      reads this
      requires Valid()
      ensures r.Valid()
    {
      components.GetOr(OrderedMap([]))
    }
  }

  /** The arguments of `@slash_command`; `None` is an argument left undefined. */
  datatype SlashArgs = SlashArgs(
    name: string,
    description: string,
    options: Option<seq<OptionObject>>,
    defaultMemberPermissions: Option<seq<Functions.Permission>>,
    dmPermission: Option<bool>,
    nsfw: Option<bool>,
    scopes: Option<seq<string>>,
    autocompleteCallbacks: Option<seq<Handler>>,
    integrationTypes: Option<seq<int>>,
    contexts: Option<seq<int>>)

  /**
   * The command `@slash_command` builds: options, permissions and autocomplete
   * callbacks default to null, `dmPermission` and `nsfw` to false, scopes to
   * `[]`; `integration_types` and `contexts` are accepted but not used.
   */
  function SlashCommandFor(args: SlashArgs, body: Handler): (c: Command)
    ensures c.kind == ChatInput && c.name == args.name && c.description == args.description
    ensures c.options == args.options && c.permissions == args.defaultMemberPermissions
    ensures c.dmPermission == (args.dmPermission == Some(true))
    ensures c.nsfw == (args.nsfw == Some(true))
    ensures c.scopes == (if args.scopes.Some? then args.scopes.value else [])
    ensures c.autocompleteCallbacks == args.autocompleteCallbacks
    ensures c.callback == Some(body) && c.id.None?
  {
    Command(ChatInput, args.name, args.description, args.options, args.defaultMemberPermissions,
            args.dmPermission.GetOr(false), args.nsfw.GetOr(false), args.scopes.GetOr([]),
            Some(body), args.autocompleteCallbacks, None)
  }

  /** `integration_types` and `contexts` do not reach the command. */
  lemma SlashCommandIgnoresContexts(args: SlashArgs, body: Handler, it: Option<seq<int>>, cx: Option<seq<int>>)
    ensures SlashCommandFor(args.(integrationTypes := it, contexts := cx), body) == SlashCommandFor(args, body)
  {
  }

  /**
   * `@slash_command` on the method `key`: the command keeps the original method
   * as its callback, is set under its name, and the prototype's method is
   * replaced by a stub that only logs.
   */
  method SlashCommand(target: Prototype, key: string, args: SlashArgs)
    requires target.Valid() && key in target.methods
    modifies target
    ensures target.Valid()
    ensures target.commands == Some(old(target.CommandMap()).Set(args.name, SlashCommandFor(args, old(target.methods)[key])))
    ensures target.methods == old(target.methods)[key := LoggingStub]
    ensures target.components == old(target.components)
  {
    var command := SlashCommandFor(args, target.methods[key]);
    if target.commands.None? {
      target.commands := Some(OrderedMap([]));
    }
    target.methods := target.methods[key := LoggingStub];
    target.commands := Some(target.commands.value.Set(args.name, command));
  }

  /** The arguments of `@context_menu`; `None` is an argument left undefined. */
  datatype MenuArgs = MenuArgs(
    name: string,
    defaultMemberPermissions: Option<seq<Functions.Permission>>,
    dmPermission: Option<bool>,
    nsfw: Option<bool>,
    description: Option<string>,
    scopes: Option<seq<string>>)

  /**
   * The command `@context_menu` builds; `kind` is the menu type the command
   * class assigns (user or message). The description defaults to
   * "No description set".
   */
  function MenuCommandFor(args: MenuArgs, kind: CommandType, body: Handler): (c: Command)
    requires kind != ChatInput
    ensures c.kind == kind && c.name == args.name
    ensures c.description == (if args.description.Some? then args.description.value else NoDescription)
    ensures c.permissions == args.defaultMemberPermissions
    ensures c.dmPermission == (args.dmPermission == Some(true)) && c.nsfw == (args.nsfw == Some(true))
    ensures c.scopes == (if args.scopes.Some? then args.scopes.value else [])
    ensures c.callback == Some(body) && c.options.None? && c.id.None?
  {
    Command(kind, args.name, args.description.GetOr(NoDescription), None, args.defaultMemberPermissions,
            args.dmPermission.GetOr(false), args.nsfw.GetOr(false), args.scopes.GetOr([]),
            Some(body), None, None)
  }

  /** `@context_menu` on the method `key`: sets the command under its name and leaves the method alone. */
  method ContextMenu(target: Prototype, key: string, args: MenuArgs, kind: CommandType)
    requires target.Valid() && key in target.methods && kind != ChatInput
    modifies target
    ensures target.Valid()
    ensures target.commands == Some(old(target.CommandMap()).Set(args.name, MenuCommandFor(args, kind, old(target.methods)[key])))
    ensures target.methods == old(target.methods)
    ensures target.components == old(target.components)
  {
    var command := MenuCommandFor(args, kind, target.methods[key]);
    if target.commands.None? {
      target.commands := Some(OrderedMap([]));
    }
    target.commands := Some(target.commands.value.Set(args.name, command));
  }

  /**
   * `@persistent_component` on the method `key`: the callback is keyed by the
   * pattern object itself, so only the very same RegExp object overwrites.
   */
  method PersistentComponent(target: Prototype, key: string, customId: RegExp, extension: Option<string>)
    requires target.Valid() && key in target.methods
    modifies target
    ensures target.Valid()
    ensures target.components == Some(old(target.ComponentMap()).Set(customId,
              NewComponentCallback(customId, extension, Some(old(target.methods)[key]))))
    ensures target.methods == old(target.methods)
    ensures target.commands == old(target.commands)
  {
    var component := NewComponentCallback(customId, extension, Some(target.methods[key]));
    if target.components.None? {
      target.components := Some(OrderedMap([]));
    }
    target.components := Some(target.components.value.Set(customId, component));
  }

  /**
   * Registering a name twice: the second registration wins, and the name keeps
   * the position of its first registration.
   */
  lemma RepeatedNameOverwrites(m: OrderedMap<string, Command>, name: string, first: Command, second: Command)
    requires m.Valid()
    ensures var m2 := m.Set(name, first).Set(name, second);
            m2.Get(name) == Some(second) && m2.Keys() == m.Set(name, first).Keys()
  {
    GetAfterSet(m.Set(name, first), name, second);
    GetAfterSet(m, name, first);
  }

  /** Two distinct pattern objects never overwrite each other, even with the same source text. */
  lemma DistinctPatternsKept(m: OrderedMap<RegExp, ComponentCallback>, r1: RegExp, c1: ComponentCallback,
                             r2: RegExp, c2: ComponentCallback)
    requires m.Valid() && r1 != r2 && !m.Has(r1) && !m.Has(r2)
    ensures m.Set(r1, c1).Set(r2, c2).entries == m.entries + [(r1, c1), (r2, c2)]
  {
    var m1 := m.Set(r1, c1);
    assert m1.entries == m.entries + [(r1, c1)];
    forall i | 0 <= i < |m1.entries| ensures m1.entries[i].0 != r2 {
      if i < |m.entries| {
        assert m1.entries[i] == m.entries[i];
      }
    }
  }

  /** An extension instance: its name and its own copies of the prototype's maps. */
  class Extension {
    const name: string
    const commands: OrderedMap<string, Command>
    const components: OrderedMap<RegExp, ComponentCallback>

    /**
     * `new Extension(name)` from a subclass: the instance's maps copy the
     * prototype's own maps, in order, or are empty when it has none. The copies
     * are values, so later registrations on the prototype do not reach them.
     */
    constructor (name: string, proto: Prototype)
      requires proto.Valid()
      ensures this.name == name
      ensures this.commands == proto.CommandMap() && this.components == proto.ComponentMap()
      ensures this.commands.Valid() && this.components.Valid()
    {
      this.name := name;
      var commands := OrderedMap([]);
      var components := OrderedMap([]);
      if proto.commands.Some? {
        commands := OrderedMap([] + proto.commands.value.entries);
      }
      if proto.components.Some? {
        components := OrderedMap([] + proto.components.value.entries);
      }
      this.commands := commands;
      this.components := components;
    }
  }
}
