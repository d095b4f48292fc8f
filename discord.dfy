/**
 * The parts of Discord's interaction payloads and responses the bot reads and
 * writes: users, members, channels, invoked options, message data with flags
 * and buttons, autocomplete choices, and the response types.
 */
module Discord {
  import opened Wrappers
  import opened Json
  import Functions

  /** `InteractionResponseType`. */
  datatype ResponseType =
    | Pong
    | ChannelMessageWithSource
    | DeferredChannelMessageWithSource
    | DeferredMessageUpdate
    | AutocompleteResult
    | Modal

  function ResponseCode(t: ResponseType): int
  {
    match t
    case Pong => 1
    case ChannelMessageWithSource => 4
    case DeferredChannelMessageWithSource => 5
    case DeferredMessageUpdate => 6
    case AutocompleteResult => 8
    case Modal => 9
  }

  /** `MessageFlags.Ephemeral` is bit 6, the value 64. */
  const EphemeralBit: nat := 6
  const Ephemeral: nat := 64

  /** `ApplicationCommandOptionType.Subcommand` and `SubcommandGroup`. */
  const Subcommand: int := 1
  const SubcommandGroup: int := 2

  /** `ChannelType.DM` and `ChannelType.GroupDM`. */
  const DMChannel: int := 1
  const GroupDMChannel: int := 3

  /** `InteractionContextType.PrivateChannel`. */
  const PrivateChannelContext: int := 2

  datatype User = User(id: string, username: string, discriminator: string)

  datatype Member = Member(user: Option<User>, permissions: Option<string>)

  datatype Channel = Channel(id: string, kind: int)

  /** An option of an invoked command, with its nested options for subcommands and groups. */
  datatype InvokedOption = InvokedOption(
    name: string,
    kind: int,
    value: Option<Json>,
    options: Option<seq<InvokedOption>>,
    focused: bool)

  /** A message button: its optional label (`caption`) and `custom_id`. */
  datatype Button = Button(caption: Option<string>, customId: string)

  /** An action row (component type 1) holding buttons. */
  datatype ActionRow = ActionRow(components: seq<Button>)

  /** An autocomplete choice. */
  datatype Choice = Choice(name: string, value: string)

  /** `APIInteractionResponseCallbackData`: the fields the bot sets. */
  datatype MessageData = MessageData(content: Option<string>, flags: Option<nat>, components: Option<seq<ActionRow>>)

  /** What a `reply` is handed: a bare string or message data. */
  datatype ReplyData = Text(s: string) | Data(d: MessageData)

  /** A modal form, by its `custom_id` and title. */
  datatype ModalData = ModalData(customId: string, title: string)

  /** The data of an interaction response. */
  datatype Payload =
    | Message(data: MessageData)
    | Choices(choices: Option<seq<Choice>>)
    | Form(modal: ModalData)

  /** What a context sends: the one interaction response, a follow-up post, or an edit of the original message. */
  datatype Sent =
    | Response(kind: ResponseType, payload: Payload)
    | Followup(data: MessageData)
    | EditOriginal(data: MessageData)

  /** The application-command interaction a context is built from. */
  datatype CommandInteraction = CommandInteraction(
    name: string,
    options: Option<seq<InvokedOption>>,
    member: Option<Member>,
    user: Option<User>,
    guildId: Option<string>,
    channel: Option<Channel>,
    context: Option<int>,
    entitlements: seq<Functions.Entitlement>)

  /** The message-component or modal-submit interaction a context is built from. */
  datatype ComponentInteraction = ComponentInteraction(
    customId: string,
    member: Option<Member>,
    user: Option<User>,
    guildId: Option<string>,
    channelId: Option<string>,
    entitlements: seq<Functions.Entitlement>,
    messageComponents: seq<ActionRow>)
}
