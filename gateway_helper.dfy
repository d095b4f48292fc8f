/**
 * `gatewayValidateAndGenerate` (`src/extensions/_gateway_helper.ts`): the
 * message-link path the gateway process calls. It decides the same way as the
 * TikTok command but returns a record instead of replying, and it first drops
 * messages from channels the guild does not listen to.
 */
module GatewayHelper {
  import opened Wrappers
  import opened Discord
  import opened Contexts
  import opened Commands
  import opened Embed
  import opened Functions
  import opened TikTok

  /** The returned record: the message text, the rows (absent, `null` or a list), and whether it is an error. */
  datatype GatewayResult = GatewayResult(content: string, components: Field<seq<ActionRow>>, error: bool)

  /** `_friendlyError`: the message, then the support-server note with the error code. */
  function ErrorText(message: string, code: string): string
  {
    message + SupportNote + code + ">)\n\nError Code: `" + code + "`"
  }

  const SupportNote: string :=
    "\nIf you believe this is an error, join the support server for more help. [Support Server](<https://discord.gg/"

  /** The gateway's error text is the one `friendlyError` replies with. */
  lemma ErrorTextIsFriendlyText(message: string, code: string)
    ensures ErrorText(message, code) == FriendlyText(message, code)
  {
  }

  /** An error record: the `_friendlyError` text and no components. */
  function ErrorResult(message: string, code: string): GatewayResult
  {
    GatewayResult(ErrorText(message, code), Absent, true)
  }

  /** Only a DM uses the default settings. */
  function GatewayConfig(channel: Option<Channel>, dmConfig: GuildConfig, guildConfig: GuildConfig): GuildConfig
  {
    if channel.Some? && channel.value.kind == DMChannel then dmConfig else guildConfig
  }

  /** The guild listens to a non-empty set of channels and this message's channel is not one of them. */
  predicate Unlistened(channel: Option<Channel>, config: GuildConfig)
  {
    channel.Some? && |config.listenChannels| > 0 && channel.value.id !in config.listenChannels
  }

  /**
   * The decision: an unparsed link is an error; an unlistened channel gets an
   * empty, non-error record; user and unknown links are errors; then the cached
   * short URL, or a fetch whose null result, `Error`, or null short URL is an
   * error; otherwise the URL (a spoiler when the link is one) and, when the
   * guild shows buttons, the button row, else `null`.
   */
  function GatewayValidateAndGenerate(
    linkData: Option<LinkData>, channel: Option<Channel>, userId: string,
    dmConfig: GuildConfig, guildConfig: GuildConfig, existing: Option<string>, fetched: PostFetch): (r: GatewayResult)
    ensures linkData.None? ==> r == ErrorResult(NoTikTokLink, InvalidLinkCode)
    ensures var config := GatewayConfig(channel, dmConfig, guildConfig);
            linkData.Some? && Unlistened(channel, config) ==> r == GatewayResult("", Val([]), false)
    ensures var config := GatewayConfig(channel, dmConfig, guildConfig);
            linkData.Some? && !Unlistened(channel, config) ==>
              (linkData.value.kind == TikTokUser ==> r == ErrorResult(UserLinkText, UserLinkCode))
              && (linkData.value.kind == Unknown ==> r == ErrorResult(NoTikTokLink, InvalidLinkCode))
    ensures var config := GatewayConfig(channel, dmConfig, guildConfig);
            Supported(linkData) && !Unlistened(channel, config) && !UsesCache(existing, config) ==>
              (fetched == NotFound ==> r == ErrorResult(NoTikTokLink, InvalidLinkCode))
              && (fetched.FetchFailed? ==> r == GatewayResult(fetched.message, Absent, true))
              && (fetched == Fetched(None) ==> r == ErrorResult(SomethingWrong, InvalidLinkCode))
    ensures var config := GatewayConfig(channel, dmConfig, guildConfig);
            !r.error <==> linkData.Some? && (Unlistened(channel, config)
                                             || (Supported(linkData) && HasShortUrl(existing, config, fetched)))
    ensures var config := GatewayConfig(channel, dmConfig, guildConfig);
            Supported(linkData) && !Unlistened(channel, config) && HasShortUrl(existing, config, fetched) ==>
              var url := ShortUrl(existing, config, fetched);
              r == GatewayResult(if linkData.value.spoiler then "|| " + url + " ||" else url,
                                 if config.showButtons then Val([PostRow(linkData.value.id, userId)]) else Null,
                                 false)
  {
    if linkData.None? then ErrorResult(NoTikTokLink, InvalidLinkCode)
    else
      var link := linkData.value;
      var config := GatewayConfig(channel, dmConfig, guildConfig);
      if channel.Some? && |config.listenChannels| > 0 && channel.value.id !in config.listenChannels then
        GatewayResult("", Val([]), false)
      else if link.kind == TikTokUser then ErrorResult(UserLinkText, UserLinkCode)
      else if link.kind == Unknown then ErrorResult(NoTikTokLink, InvalidLinkCode)
      else if existing.Some? && config.markdownLinks == Some(false) then
        Success(link, existing.value, config, userId)
      else
        match fetched
        case NotFound => ErrorResult(NoTikTokLink, InvalidLinkCode)
        case FetchFailed(m) => GatewayResult(m, Absent, true)
        case Fetched(u) =>
          if u.None? then ErrorResult(SomethingWrong, InvalidLinkCode)
          else Success(link, u.value, config, userId)
  }

  function Success(link: LinkData, url: string, config: GuildConfig, userId: string): GatewayResult
  {
    GatewayResult(if link.spoiler then "|| " + url + " ||" else url,
                  if config.showButtons then Val([PostRow(link.id, userId)]) else Null,
                  false)
  }

  /** The channel type the TikTok command would see for the same channel. */
  function ChannelType(channel: Option<Channel>): Option<int>
  {
    if channel.Some? then Some(channel.value.kind) else None
  }

  /**
   * Outside the listen filter, the gateway path and the TikTok command (with
   * no spoiler option) agree: the gateway reports an error exactly when the
   * command does not post the link, its error text is the command's friendly
   * error or fetch error text, and on success it carries the same message text
   * and, when buttons are shown, the same row.
   */
  lemma GatewayAgreesWithCommand(
    linkData: Option<LinkData>, channel: Option<Channel>, userId: string, ephemeral: bool,
    dmConfig: GuildConfig, guildConfig: GuildConfig, existing: Option<string>, fetched: PostFetch)
    requires !(linkData.Some? && Unlistened(channel, GatewayConfig(channel, dmConfig, guildConfig)))
    ensures var g := GatewayValidateAndGenerate(linkData, channel, userId, dmConfig, guildConfig, existing, fetched);
            var s := TikTok.ValidateAndGenerate(linkData, false, ephemeral, ChannelType(channel), userId,
                                                dmConfig, guildConfig, existing, fetched);
            (g.error <==> !(s.Reply? && s.data.Data?))
            && (s.FriendlyError? ==> g.content == FriendlyText(s.message, s.code))
            && (s.Reply? && s.data.Text? ==> g.content == s.data.s)
            && (s.Reply? && s.data.Data? ==>
                  Some(g.content) == s.data.d.content
                  && (g.components == Null <==> s.data.d.components == Some([]))
                  && (g.components.Val? ==> Some(g.components.v) == s.data.d.components))
  {
    var config := GatewayConfig(channel, dmConfig, guildConfig);
    assert TikTokConfig(ChannelType(channel), dmConfig, guildConfig) == config;
    var g := GatewayValidateAndGenerate(linkData, channel, userId, dmConfig, guildConfig, existing, fetched);
    var s := TikTok.ValidateAndGenerate(linkData, false, ephemeral, ChannelType(channel), userId,
                                        dmConfig, guildConfig, existing, fetched);
    if linkData.None? {
      assert g == ErrorResult(NoTikTokLink, InvalidLinkCode) && s == FriendlyError(NoTikTokLink, InvalidLinkCode);
      ErrorTextIsFriendlyText(NoTikTokLink, InvalidLinkCode);
    } else if linkData.value.kind == TikTokUser {
      assert g == ErrorResult(UserLinkText, UserLinkCode) && s == FriendlyError(UserLinkText, UserLinkCode);
      ErrorTextIsFriendlyText(UserLinkText, UserLinkCode);
    } else if linkData.value.kind == Unknown {
      assert g == ErrorResult(NoTikTokLink, InvalidLinkCode) && s == FriendlyError(NoTikTokLink, InvalidLinkCode);
      ErrorTextIsFriendlyText(NoTikTokLink, InvalidLinkCode);
    } else if HasShortUrl(existing, config, fetched) {
      var url := ShortUrl(existing, config, fetched);
      assert g == Success(linkData.value, url, config, userId);
      assert MessageContent(linkData.value.spoiler || false, url)
             == if linkData.value.spoiler then "|| " + url + " ||" else url;
    } else if fetched == NotFound {
      assert g == ErrorResult(NoTikTokLink, InvalidLinkCode) && s == FriendlyError(NoTikTokLink, InvalidLinkCode);
      ErrorTextIsFriendlyText(NoTikTokLink, InvalidLinkCode);
    } else if fetched.FetchFailed? {
      assert g == GatewayResult(fetched.message, Absent, true) && s == Reply(Text(fetched.message), true);
    } else {
      assert g == ErrorResult(SomethingWrong, InvalidLinkCode) && s == FriendlyError(SomethingWrong, InvalidLinkCode);
      ErrorTextIsFriendlyText(SomethingWrong, InvalidLinkCode);
    }
  }
}
