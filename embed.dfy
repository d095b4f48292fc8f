/**
 * The link-embedding extension (`src/extensions/embed.ts`): the checks and the
 * reply of `validateAndGenerate`, the button list under an embedded post, the
 * fav / unfav / delete button handlers and the pieces of the info card that
 * are computed rather than fetched (the title cut and the tag links).
 * `src/extensions/tiktok.ts` carries the same button handlers and tag builder
 * line for line; they are modelled once, here.
 */
module Embed {
  import opened Wrappers
  import opened Bits
  import opened Text
  import opened Discord
  import opened Contexts
  import opened Commands
  import Functions

  // ---------------------------------------------------------------- replies

  /** The guild settings the handlers read (a default document in private channels). */
  datatype GuildConfig = GuildConfig(showButtons: bool, markdownLinks: Option<bool>, listenChannels: seq<string>)

  /** How a link handler ends: one `friendlyError`, one `reply`, or a thrown error. */
  datatype Answer =
    | FriendlyError(message: string, code: string)
    | Reply(data: ReplyData, ephemeral: bool)
    | Throws(message: string)

  const InvalidLinkCode: string := "7nVqDXkrHG"
  const ShortUrlCode: string := "WrkKanvMfC"
  const NoSupportedLink: string := "We did not see a valid TikTok or Instagram link."
  const ShortUrlError: string :=
    "Sorry, there was an error creating a short url for that tiktok post. Please join the support server for help. [Support Server](<https://discord.gg/"
    + ShortUrlCode + ">)\n\nError Code: `" + ShortUrlCode + "`"

  const SpoilerTemplate: string := "|| {url} ||"
  const PlainTemplate: string := "{url}"

  /** The template for a reply: the URL slot, inside spoiler bars when asked. */
  function Template(spoiler: bool): string
  {
    if spoiler then SpoilerTemplate else PlainTemplate
  }

  /** The URL slot sits after the opening bars and the space, or at the start. */
  lemma TemplateSlot(spoiler: bool)
    ensures IndexOf(Template(spoiler), "{url}") == if spoiler then 3 else 0
  {
    var t := Template(spoiler);
    if spoiler {
      assert t[0..5][0] == '|' && t[1..6][0] == '|' && t[2..7][0] == ' ';
      assert OccursAt(t, "{url}", 3);
    } else {
      assert OccursAt(t, "{url}", 0);
    }
  }

  /** `messageTemplate.replace("{url}", url)`: the URL, wrapped in spoiler bars when asked. */
  function MessageContent(spoiler: bool, url: string): (r: string)
    ensures spoiler ==> r == "|| " + url + " ||"
    ensures !spoiler ==> r == url
  {
    TemplateSlot(spoiler);
    ReplaceFirst(Template(spoiler), "{url}", url)
  }

  // ---------------------------------------------------------------- the embed reply

  /** The Info button of a post: labelled, with `custom_id` `v_id<id>`. */
  function InfoButton(videoId: string): Button
  {
    Button(Some("Info"), "v_id" + videoId)
  }

  /** The Delete button of a post: no label, `custom_id` `delete<author>`. */
  function DeleteButton(authorId: string): Button
  {
    Button(None, "delete" + authorId)
  }

  /**
   * The buttons under an embedded post: Info unless the post is from Instagram,
   * then Delete unless the command ran in a private channel.
   */
  function PostButtons(videoId: string, authorId: string, privateChannel: bool, instagram: bool): seq<Button>
  {
    (if instagram then [] else [InfoButton(videoId)]) + (if privateChannel then [] else [DeleteButton(authorId)])
  }

  /** Which service a short-URL response's `type` names. */
  datatype Platform = TikTokPost | InstagramPost

  function PlatformOf(kind: string): Option<Platform>
  {
    if StartsWith(kind, "tt_") then Some(TikTokPost)
    else if StartsWith(kind, "ig_") then Some(InstagramPost)
    else None
  }

  /** The short-URL service's answer: HTTP status, `quickvids_url`, the post id and the post type. */
  datatype ShortUrlResponse = ShortUrlResponse(status: int, quickvidsUrl: Option<string>, postId: string, kind: string)

  /** The dumb link check: the text mentions one of the two supported sites. */
  predicate SupportedLink(content: string)
  {
    Contains(content, "tiktok.com") || Contains(content, "instagram.com")
  }

  /** A DM or group DM uses the default settings; anywhere else, the guild's. */
  function EmbedConfig(channelType: Option<int>, dmConfig: GuildConfig, guildConfig: GuildConfig): GuildConfig
  {
    if channelType == Some(DMChannel) || channelType == Some(GroupDMChannel) then dmConfig else guildConfig
  }

  /**
   * The button list as the handler builds it: both buttons, then `pop()` in a
   * private channel and `shift()` for an Instagram post.
   */
  method EmbedButtons(videoId: string, authorId: string, context: Option<int>, instagram: bool) returns (bs: seq<Button>)
    ensures bs == PostButtons(videoId, authorId, context == Some(PrivateChannelContext), instagram)
  {
    bs := [InfoButton(videoId), DeleteButton(authorId)];
    if context == Some(PrivateChannelContext) {
      bs := bs[..|bs| - 1];
    }
    if instagram {
      bs := if bs == [] then [] else bs[1..];
    }
  }

  /**
   * `validateAndGenerate` of the embed command: the site check, then the
   * short-URL status and URL checks, then the post type, then the one reply
   * with the URL and, when the guild shows buttons, one row of buttons.
   */
  method ValidateAndGenerate(
    content: string, spoiler: bool, ephemeral: bool,
    channelType: Option<int>, context: Option<int>, authorId: string,
    dmConfig: GuildConfig, guildConfig: GuildConfig, response: ShortUrlResponse)
    returns (r: Answer)
    ensures !SupportedLink(content) <==> r == FriendlyError(NoSupportedLink, InvalidLinkCode)
    ensures r == FriendlyError(ShortUrlError, ShortUrlCode) <==>
              SupportedLink(content) && (response.status != 200 || response.quickvidsUrl.None?)
    ensures r.Throws? <==>
              SupportedLink(content) && response.status == 200 && response.quickvidsUrl.Some?
              && PlatformOf(response.kind).None?
    ensures r.FriendlyError? || r.Throws? || r.Reply?
    ensures r.Reply? ==>
              var url := response.quickvidsUrl.value;
              var buttons := PostButtons(response.postId, authorId, context == Some(PrivateChannelContext),
                                         PlatformOf(response.kind) == Some(InstagramPost));
              var config := EmbedConfig(channelType, dmConfig, guildConfig);
              r == Reply(Data(MessageData(Some(MessageContent(spoiler, url)), None,
                                          Some(if config.showButtons then [ActionRow(buttons)] else []))), ephemeral)
  {
    if !(Contains(content, "tiktok.com") || Contains(content, "instagram.com")) {
      return FriendlyError(NoSupportedLink, InvalidLinkCode);
    }
    var config := EmbedConfig(channelType, dmConfig, guildConfig);
    if response.status != 200 {
      return FriendlyError(ShortUrlError, ShortUrlCode);
    }
    if response.quickvidsUrl.None? {
      return FriendlyError(ShortUrlError, ShortUrlCode);
    }
    var url := response.quickvidsUrl.value;
    var instagram: bool;
    if StartsWith(response.kind, "tt_") {
      instagram := false;
    } else if StartsWith(response.kind, "ig_") {
      instagram := true;
    } else {
      return Throws("Unknown video type???");
    }
    var buttons := EmbedButtons(response.postId, authorId, context, instagram);
    var rows := if config.showButtons then [ActionRow(buttons)] else [];
    r := Reply(Data(MessageData(Some(MessageContent(spoiler, url)), None, Some(rows))), ephemeral);
  }

  // ---------------------------------------------------------------- fav / unfav

  const RemoveLabel: string := "Remove From Library"
  const AddLabel: string := "Add to Library"

  /** The index of the first button whose `custom_id` is `id`, or the length when there is none. */
  function FirstWithId(bs: seq<Button>, id: string): (k: nat)
    ensures k <= |bs|
    ensures k < |bs| ==> bs[k].customId == id
    ensures forall j :: 0 <= j < k ==> bs[j].customId != id
  {
    if bs == [] then 0
    else if bs[0].customId == id then 0
    else 1 + FirstWithId(bs[1..], id)
  }

  /** An index holding the id, with no earlier one, is the first. */
  lemma FirstWithIdIs(bs: seq<Button>, id: string, k: nat)
    requires k <= |bs|
    requires k < |bs| ==> bs[k].customId == id
    requires forall j :: 0 <= j < k ==> bs[j].customId != id
    ensures FirstWithId(bs, id) == k
  {
  }

  /** A row after the inner loop: its first button with the clicked id replaced, if it has one. */
  function RelabelRow(row: ActionRow, clicked: string, b: Button): ActionRow
  {
    var k := FirstWithId(row.components, clicked);
    if k == |row.components| then row else ActionRow(row.components[k := b])
  }

  /** Every row after the outer loop. */
  function RelabelRows(rows: seq<ActionRow>, clicked: string, b: Button): (r: seq<ActionRow>)
    ensures |r| == |rows|
    ensures forall i :: 0 <= i < |rows| ==> r[i] == RelabelRow(rows[i], clicked, b)
  {
    seq(|rows|, i requires 0 <= i < |rows| => RelabelRow(rows[i], clicked, b))
  }

  /** The inner loop: scan one row and rewrite the first button with the clicked id, then stop. */
  method RelabelFirst(row: ActionRow, clicked: string, b: Button) returns (r: ActionRow)
    ensures r == RelabelRow(row, clicked, b)
  {
    var cs := row.components;
    var k := 0;
    while k < |cs|
      invariant k <= |cs|
      invariant forall j :: 0 <= j < k ==> cs[j].customId != clicked
    {
      if cs[k].customId == clicked {
        FirstWithIdIs(cs, clicked, k);
        return ActionRow(cs[k := b]);
      }
      k := k + 1;
    }
    FirstWithIdIs(cs, clicked, |cs|);
    r := row;
  }

  /** The two nested loops over the message's rows, editing each row in place. */
  method RelabelInPlace(rows: array<ActionRow>, clicked: string, b: Button)
    modifies rows
    ensures rows[..] == RelabelRows(old(rows[..]), clicked, b)
  {
    for i := 0 to rows.Length
      invariant forall j :: 0 <= j < i ==> rows[j] == RelabelRow(old(rows[j]), clicked, b)
      invariant forall j :: i <= j < rows.Length ==> rows[j] == old(rows[j])
    {
      var row := RelabelFirst(rows[i], clicked, b);
      rows[i] := row;
    }
  }

  /** `custom_id.replace(prefix, "")` on an id that starts with the prefix drops the prefix. */
  lemma ReplacePrefix(s: string, p: string)
    requires StartsWith(s, p)
    ensures ReplaceFirst(s, p, "") == s[|p|..]
  {
    assert OccursAt(s, p, 0);
    assert IndexOf(s, p) == 0;
  }

  /** The list `insertUserFavorite` leaves behind on an account. */
  function AfterInsert(favs: Option<seq<string>>, id: string): Option<seq<string>>
  {
    if favs.Some? && id in favs.value then favs else Some(Functions.Inserted(favs, id))
  }

  /** The list `removeUserFavorite` leaves behind on an account. */
  function AfterRemove(favs: Option<seq<string>>, id: string): Option<seq<string>>
  {
    if favs.Some? && id in favs.value then Some(Functions.Without(favs.value, id)) else favs
  }

  /** The message's rows as an array, to be edited in place. */
  method RowsOf(msg: seq<ActionRow>) returns (rows: array<ActionRow>)
    ensures fresh(rows) && rows[..] == msg
  {
    rows := new ActionRow[|msg|](i requires 0 <= i < |msg| => msg[i]);
  }

  /**
   * The `fav` button (`/^fav\d+$/`): defer as an ephemeral origin edit; stop if
   * the premium wall says no; otherwise add the id to the clicker's favourites,
   * turn the first matching button of every row into "Remove From Library" /
   * `unfav<id>`, and edit the original message with the rows.
   */
  method Fav(ctx: ButtonContext, paid: bool, account: Functions.Account?)
    requires Test(DigitsExactly("fav"), ctx.customId)
    modifies ctx, account
    ensures var id := ctx.customId[3..];
            var deferred := Response(DeferredMessageUpdate, Message(DeferData(true)));
            var edited := RelabelRows(ctx.interaction.messageComponents, ctx.customId,
                                      Button(Some(RemoveLabel), "unfav" + id));
            ctx.sent == old(ctx.sent) + [deferred] + (if paid then [EditOriginal(MessageData(None, None, Some(edited)))] else [])
    ensures ctx.defered
    ensures account != null ==>
              account.favorites == if paid then AfterInsert(old(account.favorites), ctx.customId[3..]) else old(account.favorites)
    ensures account != null ==> account.logUsageData == old(account.logUsageData) && account.logs == old(account.logs)
  {
    ctx.Defer(true, true);
    ReplacePrefix(ctx.customId, "fav");
    var id := ReplaceFirst(ctx.customId, "fav", "");
    if !paid {
      return;
    }
    var _ := Functions.InsertUserFavorite(account, id);
    var rows := RowsOf(ctx.interaction.messageComponents);
    RelabelInPlace(rows, ctx.customId, Button(Some(RemoveLabel), "unfav" + id));
    ctx.EditOrigin(MessageData(None, None, Some(rows[..])));
  }

  /**
   * The `unfav` button (`/^unfav\d+$/`): the mirror of `fav`, removing the id
   * and turning the button back into "Add to Library" / `fav<id>`.
   */
  method Unfav(ctx: ButtonContext, paid: bool, account: Functions.Account?)
    requires Test(DigitsExactly("unfav"), ctx.customId)
    modifies ctx, account
    ensures var id := ctx.customId[5..];
            var deferred := Response(DeferredMessageUpdate, Message(DeferData(true)));
            var edited := RelabelRows(ctx.interaction.messageComponents, ctx.customId,
                                      Button(Some(AddLabel), "fav" + id));
            ctx.sent == old(ctx.sent) + [deferred] + (if paid then [EditOriginal(MessageData(None, None, Some(edited)))] else [])
    ensures ctx.defered
    ensures account != null ==>
              account.favorites == if paid then AfterRemove(old(account.favorites), ctx.customId[5..]) else old(account.favorites)
    ensures account != null ==> account.logUsageData == old(account.logUsageData) && account.logs == old(account.logs)
  {
    ctx.Defer(true, true);
    ReplacePrefix(ctx.customId, "unfav");
    var id := ReplaceFirst(ctx.customId, "unfav", "");
    if !paid {
      return;
    }
    var _ := Functions.RemoveUserFavorite(account, id);
    var rows := RowsOf(ctx.interaction.messageComponents);
    RelabelInPlace(rows, ctx.customId, Button(Some(AddLabel), "fav" + id));
    ctx.EditOrigin(MessageData(None, None, Some(rows[..])));
  }

  /** No button of any row has the given `custom_id`. */
  predicate NoButtonWithId(rows: seq<ActionRow>, id: string)
  {
    forall i, j :: 0 <= i < |rows| && 0 <= j < |rows[i].components| ==> rows[i].components[j].customId != id
  }

  /** Every button with the given `custom_id` carries the given label. */
  predicate LabelledAs(rows: seq<ActionRow>, id: string, caption: string)
  {
    forall i, j :: 0 <= i < |rows| && 0 <= j < |rows[i].components| && rows[i].components[j].customId == id ==>
      rows[i].components[j].caption == Some(caption)
  }

  lemma FavThenUnfavRow(row: ActionRow, digits: string)
    requires forall j :: 0 <= j < |row.components| ==> row.components[j].customId != "unfav" + digits
    requires forall j :: 0 <= j < |row.components| && row.components[j].customId == "fav" + digits ==>
               row.components[j].caption == Some(AddLabel)
    ensures RelabelRow(RelabelRow(row, "fav" + digits, Button(Some(RemoveLabel), "unfav" + digits)),
                       "unfav" + digits, Button(Some(AddLabel), "fav" + digits)) == row
  {
    var cs := row.components;
    var k := FirstWithId(cs, "fav" + digits);
    if k < |cs| {
      var cs' := cs[k := Button(Some(RemoveLabel), "unfav" + digits)];
      FirstWithIdIs(cs', "unfav" + digits, k);
      assert cs'[k := Button(Some(AddLabel), "fav" + digits)] == cs;
    } else {
      FirstWithIdIs(cs, "unfav" + digits, |cs|);
    }
  }

  /**
   * Pressing fav and then unfav on the info card puts every row back as it was:
   * the button is again `fav<id>` labelled "Add to Library" (the card has no
   * `unfav<id>` button to begin with, and its fav button carries that label).
   */
  lemma FavThenUnfavRestores(rows: seq<ActionRow>, digits: string)
    requires NoButtonWithId(rows, "unfav" + digits)
    requires LabelledAs(rows, "fav" + digits, AddLabel)
    ensures RelabelRows(RelabelRows(rows, "fav" + digits, Button(Some(RemoveLabel), "unfav" + digits)),
                        "unfav" + digits, Button(Some(AddLabel), "fav" + digits)) == rows
  {
    var once := RelabelRows(rows, "fav" + digits, Button(Some(RemoveLabel), "unfav" + digits));
    var twice := RelabelRows(once, "unfav" + digits, Button(Some(AddLabel), "fav" + digits));
    forall i | 0 <= i < |rows|
      ensures twice[i] == rows[i]
    {
      FavThenUnfavRow(rows[i], digits);
    }
  }

  /** Only the first button with the clicked id in each row changes; every other button stays. */
  lemma RelabelTouchesOnlyFirst(rows: seq<ActionRow>, clicked: string, b: Button, i: nat, j: nat)
    requires i < |rows| && j < |rows[i].components|
    ensures var r := RelabelRows(rows, clicked, b)[i];
            |r.components| == |rows[i].components|
            && r.components[j] == (if j == FirstWithId(rows[i].components, clicked) then b else rows[i].components[j])
  {
  }

  // ---------------------------------------------------------------- delete

  const CannotDelete: string := "You cannot delete someone else's message."

  /** What pressing Delete leads to. */
  datatype DeleteOutcome =
    | Refused   // the ephemeral refusal is replied
    | Deleted   // the message is deleted
    | Threw     // `BigInt` rejected the permissions string

  /** The permission test passes: no permissions string, an empty one, or one with bit 13 set. */
  predicate MayManageMessages(permissions: Option<string>)
  {
    permissions.None? || permissions == Some("")
    || (IsDigits(permissions.value) && TestBit(ParseDecimal(permissions.value), 13))
  }

  /**
   * The `delete` button (`/delete\d+/`): only the author named in the
   * `custom_id` who also holds Manage Messages (or whose member carries no
   * permissions string) gets the message deleted; anybody else is told off.
   */
  method Delete(ctx: ButtonContext) returns (r: DeleteOutcome)
    modifies ctx
    ensures var id := ReplaceFirst(ctx.customId, "delete", "");
            var perms := ctx.appPermissions;
            (r == Deleted <==> ctx.authorID == id && MayManageMessages(perms))
            && (r == Threw <==> ctx.authorID == id && perms.Some? && perms.value != "" && !IsDigits(perms.value))
    ensures r == Refused ==> ctx.sent == old(ctx.sent) + [ReplyEffect(old(ctx.defered), Text(CannotDelete), true)]
    ensures r != Refused ==> ctx.sent == old(ctx.sent)
    ensures ctx.defered == old(ctx.defered)
  {
    var id := ReplaceFirst(ctx.customId, "delete", "");
    if ctx.authorID != id {
      ctx.Reply(Text(CannotDelete), true);
      return Refused;
    }
    var allowed := Functions.HasPermission(Functions.ManageMessages, ctx.appPermissions);
    if allowed.None? {
      return Threw;
    }
    if ctx.appPermissions.Some? && ctx.appPermissions.value != "" {
      Functions.HasNamedPermission(13, ctx.appPermissions.value);
    }
    if !allowed.value {
      ctx.Reply(Text(CannotDelete), true);
      return Refused;
    }
    r := Deleted;
  }

  // ---------------------------------------------------------------- info card

  /** The card title: a cleaned description over 256 characters keeps its first 253 and gains "...". */
  function TruncateTitle(cleaned: string): (r: string)
    ensures |cleaned| <= 256 ==> r == cleaned
    ensures |cleaned| > 256 ==> |r| == 256 && r[..253] == cleaned[..253] && r[253..] == "..."
  {
    if |cleaned| > 256 then cleaned[..253] + "..." else cleaned
  }

  /** A title already short enough is left alone, so cutting twice is cutting once. */
  lemma TruncateTitleIdempotent(cleaned: string)
    ensures TruncateTitle(TruncateTitle(cleaned)) == TruncateTitle(cleaned)
    ensures |TruncateTitle(cleaned)| <= 256
  {
  }

  /** The markdown link for one hashtag, followed by a space. */
  function TagLink(tag: string): (r: string)
    ensures |r| == 2 * |tag| + 31
    ensures r[|r| - 1] == ' '
  {
    "[`#" + tag + "`](https://tiktok.com/tag/" + tag + ") "
  }

  /** `s.slice(0, -1)`: all but the last character ("" stays ""). */
  function DropLast(s: string): (r: string)
    ensures |r| == if s == [] then 0 else |s| - 1
  {
    if s == [] then [] else s[..|s| - 1]
  }

  /** Every tag's link, concatenated. */
  function Links(tags: seq<string>): string
  {
    if tags == [] then [] else TagLink(tags[0]) + Links(tags[1..])
  }

  /**
   * The tag string the loop builds from `acc` onwards: a link is appended while
   * `length + link + 1 < 1024`; the first link that does not fit ends the loop,
   * dropping the last character and adding " ...".
   */
  function TagsFrom(acc: string, tags: seq<string>): string
    decreases |tags|
  {
    if tags == [] then acc
    else
      var link := TagLink(tags[0]);
      if |acc| + |link| + 1 < 1024 then TagsFrom(acc + link, tags[1..])
      else DropLast(acc) + " ..."
  }

  /** The tag loop of the info card. */
  method BuildTags(hashtags: seq<string>) returns (tags: string)
    ensures tags == TagsFrom("", hashtags)
  {
    tags := "";
    var i := 0;
    while i < |hashtags|
      invariant i <= |hashtags|
      invariant TagsFrom(tags, hashtags[i..]) == TagsFrom("", hashtags)
    {
      var link := TagLink(hashtags[i]);
      if |tags| + |link| + 1 < 1024 {
        tags := tags + link;
      } else {
        tags := DropLast(tags) + " ...";
        return;
      }
      i := i + 1;
    }
  }

  /** Sequence concatenation regrouped, for the tag-string proofs below. */
  lemma Assoc<T>(a: seq<T>, b: seq<T>, c: seq<T>)
    ensures a + (b + c) == (a + b) + c
  {
  }

  /** The links of the first k + 1 tags are the first tag's link and the links of the next k. */
  lemma LinksCons(tags: seq<string>, k: nat)
    requires k < |tags|
    ensures Links(tags[..k + 1]) == TagLink(tags[0]) + Links(tags[1..][..k])
  {
    assert tags[..k + 1][0] == tags[0] && tags[..k + 1][1..] == tags[1..][..k];
  }

  /**
   * The tag string is either every link, or the links of a prefix of the tags
   * that stopped at the first link that did not fit, cut by one character and
   * followed by " ...".
   */
  lemma {:induction false} TagsShape(acc: string, tags: seq<string>)
    ensures TagsFrom(acc, tags) == acc + Links(tags)
            || exists k :: 0 <= k < |tags|
                 && |acc + Links(tags[..k])| + |TagLink(tags[k])| + 1 >= 1024
                 && TagsFrom(acc, tags) == DropLast(acc + Links(tags[..k])) + " ..."
    decreases |tags|
  {
    if tags != [] {
      var link := TagLink(tags[0]);
      if |acc| + |link| + 1 < 1024 {
        var rest := tags[1..];
        TagsShape(acc + link, rest);
        Assoc(acc, link, Links(rest));
        if TagsFrom(acc + link, rest) != (acc + link) + Links(rest) {
          var k :| 0 <= k < |rest|
                   && |(acc + link) + Links(rest[..k])| + |TagLink(rest[k])| + 1 >= 1024
                   && TagsFrom(acc + link, rest) == DropLast((acc + link) + Links(rest[..k])) + " ...";
          LinksCons(tags, k);
          Assoc(acc, link, Links(rest[..k]));
          assert tags[k + 1] == rest[k];
        }
      } else {
        assert tags[..0] == [];
        assert acc + Links(tags[..0]) == acc;
      }
    }
  }

  /** Starting from at most 1022 characters, the loop ends with at most 1025. */
  lemma {:induction false} TagsFromBound(acc: string, tags: seq<string>)
    requires |acc| <= 1022
    ensures |TagsFrom(acc, tags)| <= 1025
    decreases |tags|
  {
    if tags != [] && |acc| + |TagLink(tags[0])| + 1 < 1024 {
      TagsFromBound(acc + TagLink(tags[0]), tags[1..]);
    }
  }

  /** The info card's tag field never exceeds 1025 characters. */
  lemma TagsBound(tags: seq<string>)
    ensures |TagsFrom("", tags)| <= 1025
  {
    TagsFromBound("", tags);
  }

  /** A tag of n letters. */
  function Letters(n: nat): (r: string)
    ensures |r| == n
  {
    seq(n, _ => 'a')
  }

  /**
   * Ten tags whose links fill exactly 1022 characters (six of 36 letters, four
   * of 35), then one more: the field comes out at 1025 characters, one over
   * Discord's 1024-character limit for an embed field value.
   */
  lemma TagsCanReach1025()
    ensures var tags := [Letters(36), Letters(36), Letters(36), Letters(36), Letters(36), Letters(36),
                         Letters(35), Letters(35), Letters(35), Letters(35), Letters(1)];
            |TagsFrom("", tags)| == 1025
  {
    var a := Letters(36);
    var b := Letters(35);
    var tags := [a, a, a, a, a, a, b, b, b, b, Letters(1)];
    var la := TagLink(a);
    var lb := TagLink(b);
    assert |la| == 103 && |lb| == 101;
    var acc: string := "";
    var i := 0;
    while i < 10
      invariant 0 <= i <= 10
      invariant |acc| == (if i <= 6 then 103 * i else 618 + 101 * (i - 6))
      invariant TagsFrom(acc, tags[i..]) == TagsFrom("", tags)
    {
      assert tags[i..][0] == tags[i] && tags[i..][1..] == tags[i + 1..];
      acc := acc + TagLink(tags[i]);
      i := i + 1;
    }
    assert |acc| == 1022;
    assert tags[10..] == [Letters(1)];
    assert TagsFrom(acc, [Letters(1)]) == DropLast(acc) + " ...";
  }

  /**
   * The tag string with room kept for the closing " ...": a link is appended
   * only while the string could still be cut and closed within 1024 characters.
   */
  function CappedTagsFrom(acc: string, tags: seq<string>): string
    decreases |tags|
  {
    if tags == [] then acc
    else
      var link := TagLink(tags[0]);
      if |acc| + |link| + 3 <= 1024 then CappedTagsFrom(acc + link, tags[1..])
      else DropLast(acc) + " ..."
  }

  /** The corrected loop. */
  method BuildCappedTags(hashtags: seq<string>) returns (tags: string)
    ensures tags == CappedTagsFrom("", hashtags)
  {
    tags := "";
    var i := 0;
    while i < |hashtags|
      invariant i <= |hashtags|
      invariant CappedTagsFrom(tags, hashtags[i..]) == CappedTagsFrom("", hashtags)
    {
      var link := TagLink(hashtags[i]);
      if |tags| + |link| + 3 <= 1024 {
        tags := tags + link;
      } else {
        tags := DropLast(tags) + " ...";
        return;
      }
      i := i + 1;
    }
  }

  lemma {:induction false} CappedTagsFromBound(acc: string, tags: seq<string>)
    requires |acc| <= 1021
    ensures |CappedTagsFrom(acc, tags)| <= 1024
    decreases |tags|
  {
    if tags != [] && |acc| + |TagLink(tags[0])| + 3 <= 1024 {
      CappedTagsFromBound(acc + TagLink(tags[0]), tags[1..]);
    }
  }

  /** The corrected field always fits Discord's 1024-character limit. */
  lemma CappedTagsBound(tags: seq<string>)
    ensures |CappedTagsFrom("", tags)| <= 1024
  {
    CappedTagsFromBound("", tags);
  }

  /** Where both fit comfortably, the corrected loop builds the same string as the original. */
  lemma {:induction false} CappedAgreesWhenShort(acc: string, tags: seq<string>)
    requires |acc + Links(tags)| <= 1021
    ensures CappedTagsFrom(acc, tags) == TagsFrom(acc, tags) == acc + Links(tags)
    decreases |tags|
  {
    if tags != [] {
      assert acc + Links(tags) == (acc + TagLink(tags[0])) + Links(tags[1..]);
      CappedAgreesWhenShort(acc + TagLink(tags[0]), tags[1..]);
    }
  }
}
