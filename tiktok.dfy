/**
 * The TikTok command extension (`src/extensions/tiktok.ts`): the early
 * returns of its `validateAndGenerate`. Its fav / unfav / delete buttons and
 * its tag builder are the same code as the embed extension's and are
 * modelled in `Embed`.
 */
module TikTok {
  import opened Wrappers
  import opened Discord
  import opened Contexts
  import opened Embed
  import opened Functions

  const UserLinkCode: string := "b7ZHXYyeEB"
  const NoTikTokLink: string := "We did not see a valid TikTok link."
  const UserLinkText: string :=
    "At this time, we do not support TikTok user links. Suggest a use case in our support server!"
  const SomethingWrong: string := "Something went wrong. Please try again later."

  /** What `fetchPostInfo` returns: null, an `Error`, or the post with its possibly-null short URL. */
  datatype PostFetch = NotFound | FetchFailed(message: string) | Fetched(qvShortUrl: Option<string>)

  /** Only a DM uses the default settings here (group DMs read the guild's). */
  function TikTokConfig(channelType: Option<int>, dmConfig: GuildConfig, guildConfig: GuildConfig): GuildConfig
  {
    if channelType == Some(DMChannel) then dmConfig else guildConfig
  }

  /** A link of a kind the handler goes on with: parsed, and neither a user link nor of unknown type. */
  predicate Supported(linkData: Option<LinkData>)
  {
    linkData.Some? && linkData.value.kind != TikTokUser && linkData.value.kind != Unknown
  }

  /** The cached short URL is used only when there is one and the guild turned markdown links off. */
  predicate UsesCache(existing: Option<string>, config: GuildConfig)
  {
    existing.Some? && config.markdownLinks == Some(false)
  }

  /** A short URL is at hand: the cached one, or a non-null one from the fetched post. */
  predicate HasShortUrl(existing: Option<string>, config: GuildConfig, fetched: PostFetch)
  {
    UsesCache(existing, config) || (fetched.Fetched? && fetched.qvShortUrl.Some?)
  }

  function ShortUrl(existing: Option<string>, config: GuildConfig, fetched: PostFetch): string
    requires HasShortUrl(existing, config, fetched)
  {
    if UsesCache(existing, config) then existing.value else fetched.qvShortUrl.value
  }

  /** The button row under a post: Info `v_id<id>` and Delete `delete<author>`. */
  function PostRow(id: string, authorId: string): ActionRow
  {
    ActionRow([InfoButton(id), DeleteButton(authorId)])
  }

  /**
   * `validateAndGenerate` of the TikTok command: an unparsed link, a user
   * link and an unknown link each end in their friendly error; then the cached
   * short URL or a fetch (null, an error, or a post without a short URL each
   * end the handler); otherwise the one reply with the URL, a spoiler when the
   * link or the option says so, and the button row when the guild shows buttons.
   * `fetched` is only looked at when the cache is not used.
   */
  function ValidateAndGenerate(
    linkData: Option<LinkData>, spoiler: bool, ephemeral: bool, channelType: Option<int>, authorId: string,
    dmConfig: GuildConfig, guildConfig: GuildConfig, existing: Option<string>, fetched: PostFetch): (r: Answer)
    ensures linkData.None? ==> r == FriendlyError(NoTikTokLink, InvalidLinkCode)
    ensures r == FriendlyError(UserLinkText, UserLinkCode) <==> linkData.Some? && linkData.value.kind == TikTokUser
    ensures linkData.Some? && linkData.value.kind == Unknown ==> r == FriendlyError(NoTikTokLink, InvalidLinkCode)
    ensures !r.Throws?
    ensures var config := TikTokConfig(channelType, dmConfig, guildConfig);
            Supported(linkData) && !UsesCache(existing, config) ==>
              (fetched == NotFound ==> r == FriendlyError(NoTikTokLink, InvalidLinkCode))
              && (fetched.FetchFailed? ==> r == Reply(Text(fetched.message), true))
              && (fetched == Fetched(None) ==> r == FriendlyError(SomethingWrong, InvalidLinkCode))
    ensures var config := TikTokConfig(channelType, dmConfig, guildConfig);
            (r.Reply? && r.data.Data?) <==> Supported(linkData) && HasShortUrl(existing, config, fetched)
    ensures var config := TikTokConfig(channelType, dmConfig, guildConfig);
            Supported(linkData) && HasShortUrl(existing, config, fetched) ==>
              var url := ShortUrl(existing, config, fetched);
              r == Reply(Data(MessageData(Some(MessageContent(linkData.value.spoiler || spoiler, url)), None,
                                          Some(if config.showButtons then [PostRow(linkData.value.id, authorId)] else []))),
                         ephemeral)
  {
    if linkData.None? then FriendlyError(NoTikTokLink, InvalidLinkCode)
    else
      var link := linkData.value;
      var config := TikTokConfig(channelType, dmConfig, guildConfig);
      if link.kind == TikTokUser then FriendlyError(UserLinkText, UserLinkCode)
      else if link.kind == Unknown then FriendlyError(NoTikTokLink, InvalidLinkCode)
      else
        var url: Option<string> :=
          if existing.Some? && config.markdownLinks == Some(false) then existing
          else match fetched
            case NotFound => None
            case FetchFailed(_) => None
            case Fetched(u) => u;
        if fetched == NotFound && !UsesCache(existing, config) then FriendlyError(NoTikTokLink, InvalidLinkCode)
        else if fetched.FetchFailed? && !UsesCache(existing, config) then Reply(Text(fetched.message), true)
        else if url.None? then FriendlyError(SomethingWrong, InvalidLinkCode)
        else
          Reply(Data(MessageData(Some(MessageContent(link.spoiler || spoiler, url.value)), None,
                                 Some(if config.showButtons then [PostRow(link.id, authorId)] else []))), ephemeral)
  }

  /** On the cached path the fetch result plays no part. */
  lemma CacheIgnoresFetch(
    linkData: Option<LinkData>, spoiler: bool, ephemeral: bool, channelType: Option<int>, authorId: string,
    dmConfig: GuildConfig, guildConfig: GuildConfig, existing: Option<string>, f1: PostFetch, f2: PostFetch)
    requires UsesCache(existing, TikTokConfig(channelType, dmConfig, guildConfig))
    ensures ValidateAndGenerate(linkData, spoiler, ephemeral, channelType, authorId, dmConfig, guildConfig, existing, f1)
         == ValidateAndGenerate(linkData, spoiler, ephemeral, channelType, authorId, dmConfig, guildConfig, existing, f2)
  {
  }
}
