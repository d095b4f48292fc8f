/**
 * The HTTP entry point's routing decision (`Server.handleRequest`): which
 * answer a POST to `/interactions` gets, and which client handler it reaches.
 * The Ed25519 check is an input: whether the signature verified.
 */
module Server {

  /** `InteractionType` values. */
  const PingInteraction: int := 1
  const ApplicationCommandInteraction: int := 2
  const MessageComponentInteraction: int := 3
  const AutocompleteInteraction: int := 4
  const ModalSubmitInteraction: int := 5

  /** `ApplicationCommandType` values. */
  const ChatInputCommand: int := 1
  const UserCommand: int := 2
  const MessageCommand: int := 3

  /** What the request handler does with one request. */
  datatype Route =
    | Rejected(status: int, text: string)   // an HTTP error answer; nothing is dispatched
    | PongReply                             // `{ type: Pong }`, the endpoint check
    | SlashDispatch                         // a SlashCommandContext handed to `handleCommand`
    | MenuDispatch                          // a ContextMenuContext handed to `handleCommand`
    | AutocompleteDispatch                  // an AutocompleteContext handed to `handleAutocomplete`
    | NoAction                              // nothing is dispatched and nothing is answered

  predicate Dispatches(r: Route)
  {
    r.SlashDispatch? || r.MenuDispatch? || r.AutocompleteDispatch?
  }

  /**
   * `handleRequest`: no client is a 401 "Invalid request" before the signature
   * is looked at; a bad signature is a 401 "Invalid signature"; a ping is
   * answered with Pong; application commands go by their subtype; autocomplete
   * goes to its handler; everything else (components and modals included) is
   * left unanswered.
   */
  function RouteRequest(hasClient: bool, signatureValid: bool, interactionType: int, commandType: int): (r: Route)
    ensures !hasClient <==> r == Rejected(401, "Invalid request")
    ensures hasClient && !signatureValid <==> r == Rejected(401, "Invalid signature")
    ensures r.Rejected? <==> !hasClient || !signatureValid
    ensures r.PongReply? <==> hasClient && signatureValid && interactionType == PingInteraction
    ensures r.SlashDispatch? <==>
              hasClient && signatureValid && interactionType == ApplicationCommandInteraction
              && commandType == ChatInputCommand
    ensures r.MenuDispatch? <==>
              hasClient && signatureValid && interactionType == ApplicationCommandInteraction
              && (commandType == MessageCommand || commandType == UserCommand)
    ensures r.AutocompleteDispatch? <==>
              hasClient && signatureValid && interactionType == AutocompleteInteraction
  {
    if !hasClient then Rejected(401, "Invalid request")
    else if !signatureValid then Rejected(401, "Invalid signature")
    else if interactionType == PingInteraction then PongReply
    else if interactionType == ApplicationCommandInteraction then
      if commandType == ChatInputCommand then SlashDispatch
      else if commandType == MessageCommand || commandType == UserCommand then MenuDispatch
      else NoAction
    else if interactionType == AutocompleteInteraction then AutocompleteDispatch
    else NoAction
  }

  /** No handler runs on a request that was not authenticated. */
  lemma DispatchNeedsSignature(hasClient: bool, signatureValid: bool, interactionType: int, commandType: int)
    requires Dispatches(RouteRequest(hasClient, signatureValid, interactionType, commandType))
              || RouteRequest(hasClient, signatureValid, interactionType, commandType).PongReply?
    ensures hasClient && signatureValid
  {
  }

  /** Button presses and modal submissions reach no handler: that branch is switched off. */
  lemma ComponentsAndModalsIgnored(interactionType: int, commandType: int)
    requires interactionType == MessageComponentInteraction || interactionType == ModalSubmitInteraction
    ensures RouteRequest(true, true, interactionType, commandType) == NoAction
  {
  }

  /** The command subtype only matters for application commands. */
  lemma SubtypeOnlyForCommands(hasClient: bool, signatureValid: bool, interactionType: int, c1: int, c2: int)
    requires interactionType != ApplicationCommandInteraction
    ensures RouteRequest(hasClient, signatureValid, interactionType, c1)
            == RouteRequest(hasClient, signatureValid, interactionType, c2)
  {
  }
}
