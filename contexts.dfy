/**
 * The reply state machine of the interaction contexts
 * (src/classes/CommandContext.ts, src/classes/ComponentContext.ts): each
 * context logs what it sends; slash-command and button contexts switch from
 * the single interaction response to follow-up posts once deferred.
 */
module Contexts {
  import opened Wrappers
  import opened Bits
  import opened Text
  import opened Json
  import opened Discord
  import opened Commands

  // ---------------------------------------------------------------- reply data

  /** The flags a reply's data starts with. */
  function DataFlags(data: ReplyData): Option<nat>
  {
    match data
    case Text(_) => None
    case Data(d) => d.flags
  }

  /**
   * The data a reply sends: a string becomes `{content}`; an ephemeral reply
   * sets `flags = (flags || 0) | 64`; otherwise the flags are left untouched.
   */
  function Prepare(data: ReplyData, ephemeral: bool): (r: MessageData)
    ensures !ephemeral ==> r.flags == DataFlags(data)
    ensures ephemeral ==> r.flags == Some(Or(DataFlags(data).GetOr(0), Ephemeral))
    ensures data.Text? ==> r.content == Some(data.s) && r.components.None?
    ensures data.Data? ==> r.content == data.d.content && r.components == data.d.components
  {
    var d := match data case Text(s) => MessageData(Some(s), None, None) case Data(d) => d;
    if ephemeral then d.(flags := Some(Or(d.flags.GetOr(0), Ephemeral))) else d
  }

  /** OR-ing in the ephemeral flag sets bit 6 and keeps every other bit as it was. */
  lemma EphemeralKeepsFlags(flags: nat, i: nat)
    ensures TestBit(Or(flags, Ephemeral), i) <==> i == EphemeralBit || TestBit(flags, i)
  {
    OrBits(flags, Ephemeral, i);
    assert Pow2(6) == 64;
    Pow2Bits(6, i);
  }

  /** An ephemeral reply always carries the ephemeral flag and never loses a flag. */
  lemma PreparedEphemeral(data: ReplyData, i: nat)
    ensures TestBit(Prepare(data, true).flags.value, EphemeralBit)
    ensures TestBit(DataFlags(data).GetOr(0), i) ==> TestBit(Prepare(data, true).flags.value, i)
  {
    EphemeralKeepsFlags(DataFlags(data).GetOr(0), i);
    EphemeralKeepsFlags(DataFlags(data).GetOr(0), EphemeralBit);
  }

  /**
   * What `reply` sends from a context that can defer: a follow-up post once
   * deferred, the ChannelMessageWithSource response otherwise.
   */
  function ReplyEffect(defered: bool, data: ReplyData, ephemeral: bool): (r: Sent)
    ensures r.Followup? <==> defered
    ensures r.Response? <==> !defered
    ensures r.Response? ==> r.kind == ChannelMessageWithSource && r.payload.Message?
    ensures (if r.Followup? then r.data else r.payload.data) == Prepare(data, ephemeral)
  {
    if defered then Followup(Prepare(data, ephemeral))
    else Response(ChannelMessageWithSource, Message(Prepare(data, ephemeral)))
  }

  /** The data `defer` sends: empty, with only the ephemeral flag when asked. */
  function DeferData(ephemeral: bool): (r: MessageData)
    ensures r.content.None? && r.components.None?
    ensures ephemeral ==> r.flags == Some(Ephemeral)
    ensures !ephemeral ==> r.flags.None?
  {
    MessageData(None, if ephemeral then Some(Or(0, Ephemeral)) else None, None)
  }

  /** The text `friendlyError` sends: the message, then the support-server template with the error code. */
  function FriendlyText(message: string, code: string): (r: string)
    ensures StartsWith(r, message)
    ensures var tail := "Error Code: `" + code + "`";
            |tail| <= |r| && r[|r| - |tail|..] == tail
  {
    var tail := "Error Code: `" + code + "`";
    var head := message + SupportTemplate + code + ">)\n\n";
    assert (head + tail)[|head + tail| - |tail|..] == tail;
    assert (head + tail)[..|message|] == message;
    head + tail
  }

  const SupportTemplate: string :=
    "\nIf you believe this is an error, join the support server for more help. [Support Server](<https://discord.gg/"

  // ---------------------------------------------------------------- options

  /** `options.find(o => o.name === name)`. */
  function FindOption(options: seq<InvokedOption>, name: string): (r: Option<InvokedOption>)
    ensures r.None? <==> forall i :: 0 <= i < |options| ==> options[i].name != name
    ensures r.Some? ==> r.value.name == name && r.value in options
  {
    if options == [] then None
    else if options[0].name == name then Some(options[0])
    else FindOption(options[1..], name)
  }

  predicate IsSubcommandOrGroup(o: InvokedOption)
  {
    o.kind == Subcommand || o.kind == SubcommandGroup
  }

  /**
   * `getOption(name)`: the top level first; then, only when the first option is
   * a subcommand or group, its options; then, only when that option's first
   * option is a subcommand, that subcommand's options.
   */
  function GetOption(options: seq<InvokedOption>, name: string): Option<InvokedOption>
  {
    var main := FindOption(options, name);
    if main.Some? then main
    else if options == [] || !IsSubcommandOrGroup(options[0]) then None
    else
      var inner := options[0].options.GetOr([]);
      var first := FindOption(inner, name);
      if first.Some? then first
      else if inner == [] || inner[0].kind != Subcommand then None
      else FindOption(inner[0].options.GetOr([]), name)
  }

  /** The option lists `getOption` searches, in order: at most three. */
  function SearchedLevels(options: seq<InvokedOption>): (r: seq<seq<InvokedOption>>)
    ensures 1 <= |r| <= 3 && r[0] == options
  {
    if options == [] || !IsSubcommandOrGroup(options[0]) then [options]
    else
      var inner := options[0].options.GetOr([]);
      if inner == [] || inner[0].kind != Subcommand then [options, inner]
      else [options, inner, inner[0].options.GetOr([])]
  }

  /** The first match in a list of option lists, searched list by list. */
  function FindInLevels(levels: seq<seq<InvokedOption>>, name: string): Option<InvokedOption>
  {
    if levels == [] then None
    else if FindOption(levels[0], name).Some? then FindOption(levels[0], name)
    else FindInLevels(levels[1..], name)
  }

  /** `getOption` is the first match over its (at most three) search levels, and finds nothing deeper. */
  lemma GetOptionSearchesLevels(options: seq<InvokedOption>, name: string)
    ensures GetOption(options, name) == FindInLevels(SearchedLevels(options), name)
    ensures GetOption(options, name).Some? ==> GetOption(options, name).value.name == name
  {
    var levels := SearchedLevels(options);
    if |levels| == 3 {
      var c := levels[2];
      assert levels[1..] == [levels[1], c] && [levels[1], c][1..] == [c] && [c][1..] == [];
      assert FindInLevels([c], name) == FindOption(c, name);
    } else if |levels| == 2 {
      assert levels[1..] == [levels[1]] && [levels[1]][1..] == [];
      assert FindInLevels([levels[1]], name) == FindOption(levels[1], name);
    } else {
      assert levels[1..] == [];
    }
  }

  /** `args`: subcommands and groups contribute their name, every other option its value. */
  function Args(options: seq<InvokedOption>): (r: seq<Option<Json>>)
    ensures |r| == |options|
    ensures forall i :: 0 <= i < |options| ==>
              r[i] == (if IsSubcommandOrGroup(options[i]) then Some(JStr(options[i].name)) else options[i].value)
  {
    seq(|options|, i requires 0 <= i < |options| =>
          if IsSubcommandOrGroup(options[i]) then Some(JStr(options[i].name)) else options[i].value)
  }

  // ---------------------------------------------------------------- command contexts

  predicate HasMemberUserId(m: Option<Member>)
  {
    m.Some? && m.value.user.Some? && m.value.user.value.id != ""
  }

  /** The interaction names an invoking user: through the member, or directly. */
  predicate HasAuthor(i: CommandInteraction)
  {
    HasMemberUserId(i.member) || i.user.Some?
  }

  /** `member?.user?.id || user!.id`. */
  function AuthorId(i: CommandInteraction): (r: string)
    requires HasAuthor(i)
    ensures HasMemberUserId(i.member) ==> r == i.member.value.user.value.id
    ensures !HasMemberUserId(i.member) ==> r == i.user.value.id
  {
    if HasMemberUserId(i.member) then i.member.value.user.value.id else i.user.value.id
  }

  /** `interaction.user || member!.user`. */
  function InvokingUser(user: Option<User>, member: Option<Member>): Option<User>
  {
    if user.Some? then user else if member.Some? then member.value.user else None
  }

  /** A chat-input command invocation being handled. */
  class SlashCommandContext {
    const interaction: CommandInteraction
    const authorID: string
    const command: Option<Command>
    const options: seq<InvokedOption>
    const args: seq<Option<Json>>
    const user: Option<User>
    var defered: bool
    var sent: seq<Sent>

    /**
     * The constructor: the author is the member's user when present, else the
     * user; the command is looked up by name; options default to `[]`; nothing
     * is sent and the context is not deferred.
     */
    constructor (i: CommandInteraction, commands: seq<Command>)
      requires HasAuthor(i)
      ensures interaction == i && authorID == AuthorId(i)
      ensures command == FindCommand(commands, i.name)
      ensures options == i.options.GetOr([]) && args == Args(options)
      ensures user == InvokingUser(i.user, i.member)
      ensures !defered && sent == []
    {
      interaction := i;
      authorID := AuthorId(i);
      command := FindCommand(commands, i.name);
      options := i.options.GetOr([]);
      args := Args(i.options.GetOr([]));
      user := InvokingUser(i.user, i.member);
      defered := false;
      sent := [];
    }

    /** `getOption(name)` on this invocation's options. */
    function Option(name: string): Option<InvokedOption>
    {
      GetOption(options, name)
    }

    /** `reply`: a follow-up once deferred, the channel-message response otherwise. */
    method Reply(data: ReplyData, ephemeral: bool)
      modifies this
      ensures sent == old(sent) + [ReplyEffect(old(defered), data, ephemeral)]
      ensures defered == old(defered)
    {
      sent := sent + [ReplyEffect(defered, data, ephemeral)];
    }

    /**
     * `defer`: sends DeferredChannelMessageWithSource (ephemeral when asked) and
     * marks the context deferred, whatever was sent before.
     */
    method Defer(ephemeral: bool)
      modifies this
      ensures sent == old(sent) + [Response(DeferredChannelMessageWithSource, Message(DeferData(ephemeral)))]
      ensures defered
    {
      sent := sent + [Response(DeferredChannelMessageWithSource, Message(DeferData(ephemeral)))];
      defered := true;
    }

    /** `replyModal`: sends the modal response. */
    method ReplyModal(m: ModalData)
      modifies this
      ensures sent == old(sent) + [Response(Modal, Form(m))]
      ensures defered == old(defered)
    {
      sent := sent + [Response(Modal, Form(m))];
    }

    /** `friendlyError`: an ephemeral reply of the message and the support template. */
    method FriendlyError(message: string, code: string)
      modifies this
      ensures sent == old(sent) + [ReplyEffect(old(defered), Text(FriendlyText(message, code)), true)]
      ensures defered == old(defered)
    {
      Reply(Text(FriendlyText(message, code)), true);
    }
  }

  /** A user or message context-menu invocation being handled; it has no deferred state. */
  class ContextMenuContext {
    const interaction: CommandInteraction
    const authorID: string
    const command: Option<Command>
    const user: Option<User>
    var sent: seq<Sent>

    constructor (i: CommandInteraction, commands: seq<Command>)
      requires HasAuthor(i)
      ensures interaction == i && authorID == AuthorId(i)
      ensures command == FindCommand(commands, i.name)
      ensures user == InvokingUser(i.user, i.member)
      ensures sent == []
    {
      interaction := i;
      authorID := AuthorId(i);
      command := FindCommand(commands, i.name);
      user := InvokingUser(i.user, i.member);
      sent := [];
    }

    /** `reply`: always the channel-message response. */
    method Reply(data: ReplyData, ephemeral: bool)
      modifies this
      ensures sent == old(sent) + [ReplyEffect(false, data, ephemeral)]
    {
      sent := sent + [ReplyEffect(false, data, ephemeral)];
    }

    method ReplyModal(m: ModalData)
      modifies this
      ensures sent == old(sent) + [Response(Modal, Form(m))]
    {
      sent := sent + [Response(Modal, Form(m))];
    }

    method FriendlyError(message: string, code: string)
      modifies this
      ensures sent == old(sent) + [ReplyEffect(false, Text(FriendlyText(message, code)), true)]
    {
      Reply(Text(FriendlyText(message, code)), true);
    }
  }

  /** An autocomplete request being handled. */
  class AutocompleteContext {
    const interaction: CommandInteraction
    const authorID: string
    const command: Option<Command>
    var sent: seq<Sent>

    constructor (i: CommandInteraction, commands: seq<Command>)
      requires HasAuthor(i)
      ensures interaction == i && authorID == AuthorId(i)
      ensures command == FindCommand(commands, i.name)
      ensures sent == []
    {
      interaction := i;
      authorID := AuthorId(i);
      command := FindCommand(commands, i.name);
      sent := [];
    }

    /** `reply({choices})`: the autocomplete-result response with exactly these choices. */
    method Reply(choices: Option<seq<Choice>>)
      modifies this
      ensures sent == old(sent) + [Response(AutocompleteResult, Choices(choices))]
    {
      sent := sent + [Response(AutocompleteResult, Choices(choices))];
    }
  }

  // ---------------------------------------------------------------- component contexts

  /** The data `defer` sends from a button: DeferredMessageUpdate when editing the origin. */
  function ButtonDeferType(editOrigin: bool): (r: ResponseType)
    ensures r == DeferredMessageUpdate <==> editOrigin
    ensures r == DeferredChannelMessageWithSource <==> !editOrigin
  {
    if editOrigin then DeferredMessageUpdate else DeferredChannelMessageWithSource
  }

  /** A button press being handled. */
  class ButtonContext {
    const interaction: ComponentInteraction
    const component: Option<ComponentCallback>
    const user: User
    const authorID: string
    const appPermissions: Option<string>
    const customId: string
    var defered: bool
    var sent: seq<Sent>

    /**
     * The constructor: the callback is the first whose pattern matches the
     * `custom_id` (possibly none); the author is `interaction.user`, falling back
     * to the member's user; the context starts not deferred.
     */
    constructor (i: ComponentInteraction, callbacks: seq<ComponentCallback>)
      requires InvokingUser(i.user, i.member).Some?
      ensures interaction == i && customId == i.customId
      ensures component == FindCallback(callbacks, i.customId)
      ensures user == InvokingUser(i.user, i.member).value && authorID == user.id
      ensures appPermissions == (if i.member.Some? then i.member.value.permissions else None)
      ensures !defered && sent == []
    {
      interaction := i;
      component := FindCallback(callbacks, i.customId);
      var u := InvokingUser(i.user, i.member).value;
      user := u;
      authorID := u.id;
      appPermissions := if i.member.Some? then i.member.value.permissions else None;
      customId := i.customId;
      defered := false;
      sent := [];
    }

    method Reply(data: ReplyData, ephemeral: bool)
      modifies this
      ensures sent == old(sent) + [ReplyEffect(old(defered), data, ephemeral)]
      ensures defered == old(defered)
    {
      sent := sent + [ReplyEffect(defered, data, ephemeral)];
    }

    /**
     * `defer`: DeferredMessageUpdate when `edit_origin` is set, else
     * DeferredChannelMessageWithSource; ephemeral when asked; marks the context deferred.
     */
    method Defer(ephemeral: bool, editOrigin: bool)
      modifies this
      ensures sent == old(sent) + [Response(ButtonDeferType(editOrigin), Message(DeferData(ephemeral)))]
      ensures defered
    {
      sent := sent + [Response(ButtonDeferType(editOrigin), Message(DeferData(ephemeral)))];
      defered := true;
    }

    /** `editOrigin`: edits the message the button belongs to. */
    method EditOrigin(data: MessageData)
      modifies this
      ensures sent == old(sent) + [EditOriginal(data)]
      ensures defered == old(defered)
    {
      sent := sent + [EditOriginal(data)];
    }

    method ReplyModal(m: ModalData)
      modifies this
      ensures sent == old(sent) + [Response(Modal, Form(m))]
      ensures defered == old(defered)
    {
      sent := sent + [Response(Modal, Form(m))];
    }

    method FriendlyError(message: string, code: string)
      modifies this
      ensures sent == old(sent) + [ReplyEffect(old(defered), Text(FriendlyText(message, code)), true)]
      ensures defered == old(defered)
    {
      Reply(Text(FriendlyText(message, code)), true);
    }
  }

  /** A modal submission being handled; it has no deferred state. */
  class ModalContext {
    const interaction: ComponentInteraction
    const component: Option<ComponentCallback>
    const user: User
    const authorID: string
    const customId: string
    var sent: seq<Sent>

    constructor (i: ComponentInteraction, callbacks: seq<ComponentCallback>)
      requires InvokingUser(i.user, i.member).Some?
      ensures interaction == i && customId == i.customId
      ensures component == FindCallback(callbacks, i.customId)
      ensures user == InvokingUser(i.user, i.member).value && authorID == user.id
      ensures sent == []
    {
      interaction := i;
      component := FindCallback(callbacks, i.customId);
      var u := InvokingUser(i.user, i.member).value;
      user := u;
      authorID := u.id;
      customId := i.customId;
      sent := [];
    }

    /** `reply`: always the channel-message response. */
    method Reply(data: ReplyData, ephemeral: bool)
      modifies this
      ensures sent == old(sent) + [ReplyEffect(false, data, ephemeral)]
    {
      sent := sent + [ReplyEffect(false, data, ephemeral)];
    }

    method ReplyModal(m: ModalData)
      modifies this
      ensures sent == old(sent) + [Response(Modal, Form(m))]
    {
      sent := sent + [Response(Modal, Form(m))];
    }
  }
}
