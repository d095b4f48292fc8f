/**
 * The magic-mention extension (`src/extensions/magicmention.ts`): linking a
 * TikTok account to a Discord user through a code placed in the TikTok bio,
 * and the list of guilds a linked user wants to be mentioned in. The
 * `MagicMentionUsers` collection is a store of records in insertion order;
 * `findOne` returns the first match. SHA-256, base64 decoding and the TikTok
 * user lookup are inputs.
 */
module MagicMention {
  import opened Wrappers
  import opened Bits
  import opened Text
  import opened Discord
  import opened Contexts
  import Functions

  // ---------------------------------------------------------------- the verification code

  /**
   * `genCode`: the first four hex digits of the SHA-256 digest, mod 90000, plus
   * 10000. Four hex digits are below 65536, so the modulus never bites and the
   * code lies in [10000, 75535].
   */
  function GenCode(digest: string): (r: nat)
    requires |digest| >= 4 && IsHex(digest[..4])
    ensures 10000 <= r <= 75535
    ensures r == ParseHex(digest[..4]) + 10000
  {
    ParseHexBound(digest[..4]);
    assert Pow16(4) == 65536;
    ParseHex(digest[..4]) % 90000 + 10000
  }

  // ---------------------------------------------------------------- the store

  /** A `MagicMentionUsers` document. */
  datatype MentionUser = MentionUser(discordId: string, secUid: string, uid: string, guilds: seq<string>)

  /** The first record for a Discord user, or -1. */
  function FirstByDiscord(us: seq<MentionUser>, id: string): (k: int)
    ensures -1 <= k < |us|
    ensures k >= 0 ==> us[k].discordId == id
    ensures forall j :: 0 <= j < |us| && (k < 0 || j < k) ==> us[j].discordId != id
  {
    if us == [] then -1
    else if us[0].discordId == id then 0
    else
      var k := FirstByDiscord(us[1..], id);
      if k < 0 then -1 else k + 1
  }

  /** The first record linked to a TikTok account, or -1. */
  function FirstBySecUid(us: seq<MentionUser>, secUid: string): (k: int)
    ensures -1 <= k < |us|
    ensures k >= 0 ==> us[k].secUid == secUid
    ensures forall j :: 0 <= j < |us| && (k < 0 || j < k) ==> us[j].secUid != secUid
  {
    if us == [] then -1
    else if us[0].secUid == secUid then 0
    else
      var k := FirstBySecUid(us[1..], secUid);
      if k < 0 then -1 else k + 1
  }

  /** `deleteOne({ discord_id })`: the first record of the user is gone, the rest keep their order. */
  function DeleteByDiscord(us: seq<MentionUser>, id: string): seq<MentionUser>
  {
    var k := FirstByDiscord(us, id);
    if k < 0 then us else us[..k] + us[k + 1..]
  }

  /** One record per Discord user and one per TikTok account. */
  ghost predicate Consistent(us: seq<MentionUser>)
  {
    forall i, j :: 0 <= i < j < |us| ==> us[i].discordId != us[j].discordId && us[i].secUid != us[j].secUid
  }

  /** The collection of linked users. */
  class MentionStore {
    var users: seq<MentionUser>

    constructor (users: seq<MentionUser>)
      ensures this.users == users
    {
      this.users := users;
    }

    /** `deleteOne({ discord_id: id })`. */
    method DeleteOne(id: string)
      modifies this
      ensures users == DeleteByDiscord(old(users), id)
      ensures Consistent(old(users)) ==> Consistent(users)
    {
      var k := FirstByDiscord(users, id);
      if k >= 0 {
        users := users[..k] + users[k + 1..];
      }
    }

    /** `existing.save()` of a changed document found at index k. */
    method Save(k: nat, u: MentionUser)
      requires k < |users|
      modifies this
      ensures users == old(users)[k := u]
    {
      users := users[k := u];
    }

    /** `MagicMentionUsers.create(u)`. */
    method Create(u: MentionUser)
      modifies this
      ensures users == old(users) + [u]
    {
      users := users + [u];
    }
  }

  // ---------------------------------------------------------------- guild lists

  /** The guild list after enabling: unchanged when present, else the guild appended once. */
  function Enabled(guilds: seq<string>, g: string): (r: seq<string>)
    ensures g in r
    ensures forall x :: x in r <==> x in guilds || x == g
    ensures g in guilds ==> r == guilds
    ensures g !in guilds ==> |r| == |guilds| + 1 && r[..|guilds|] == guilds
  {
    if g in guilds then guilds else guilds + [g]
  }

  /** The guild list after disabling: unchanged when absent, else without any occurrence. */
  function Disabled(guilds: seq<string>, g: string): (r: seq<string>)
    ensures g !in r
    ensures forall x :: x in r <==> x in guilds && x != g
    ensures g !in guilds ==> r == guilds
  {
    if g in guilds then Functions.Without(guilds, g) else guilds
  }

  /** Enabling twice is enabling once; disabling twice is disabling once. */
  lemma EnableDisableIdempotent(guilds: seq<string>, g: string)
    ensures Enabled(Enabled(guilds, g), g) == Enabled(guilds, g)
    ensures Disabled(Disabled(guilds, g), g) == Disabled(guilds, g)
  {
  }

  /** Enabling a guild that was not in the list and then disabling it restores the list. */
  lemma EnableThenDisable(guilds: seq<string>, g: string)
    requires g !in guilds
    ensures Disabled(Enabled(guilds, g), g) == guilds
  {
    Functions.InsertThenRemove(guilds, g);
  }

  // ---------------------------------------------------------------- enable / disable

  const NotLinkedStart: string := "You have not linked your TikTok account to your Discord account.\nUse "
  const NotLinkedEnd: string := " command to link your account."
  const FeatureOff: string :=
    "This server has not enabled this feature for their server. Ask a server moderator to enable it in the config."
  const AlreadyEnabled: string := "You have already enabled your mentions for this server."
  const NowEnabled: string := "You have successfully enabled your mentions for this server."
  const NotEnabled: string := "You have not enabled your mentions for this server."
  const NowDisabled: string := "You have successfully disabled your mentions for this server."

  /** The "not linked" reply; `linkMention` is how the link subcommand is mentioned. */
  function NotLinked(linkMention: string): string
  {
    NotLinkedStart + linkMention + NotLinkedEnd
  }

  /** A guild id that is present and not empty (`!ctx.guildId` is false). */
  predicate InGuild(guildId: Option<string>)
  {
    guildId.Some? && guildId.value != ""
  }

  /**
   * `handleEnableCmd`: the premium wall, then silence outside a guild, then the
   * server's feature switch, then the user's record; an already listed guild
   * is refused, otherwise the guild is appended and saved. Every reply is ephemeral.
   */
  method HandleEnable(ctx: SlashCommandContext, store: MentionStore, paid: bool, mentionMagic: bool, linkMention: string)
    returns (reply: Option<string>)
    modifies ctx, store
    ensures var g := ctx.interaction.guildId;
            var k := FirstByDiscord(old(store.users), ctx.authorID);
            reply == (if !paid || !InGuild(g) then None
                      else if !mentionMagic then Some(FeatureOff)
                      else if k < 0 then Some(NotLinked(linkMention))
                      else if g.value in old(store.users)[k].guilds then Some(AlreadyEnabled)
                      else Some(NowEnabled))
            && store.users == (if reply == Some(NowEnabled)
                               then old(store.users)[k := old(store.users)[k].(guilds := Enabled(old(store.users)[k].guilds, g.value))]
                               else old(store.users))
    ensures ctx.sent == old(ctx.sent) + (if reply.Some? then [ReplyEffect(old(ctx.defered), Text(reply.value), true)] else [])
    ensures Consistent(old(store.users)) ==> Consistent(store.users)
  {
    if !paid {
      return None;
    }
    var g := ctx.interaction.guildId;
    if g.None? || g.value == "" {
      return None;
    }
    if !mentionMagic {
      reply := Some(FeatureOff);
    } else {
      var k := FirstByDiscord(store.users, ctx.authorID);
      if k < 0 {
        reply := Some(NotLinked(linkMention));
      } else if g.value in store.users[k].guilds {
        reply := Some(AlreadyEnabled);
      } else {
        var u := store.users[k];
        store.Save(k, u.(guilds := u.guilds + [g.value]));
        reply := Some(NowEnabled);
      }
    }
    ctx.Reply(Text(reply.value), true);
  }

  /**
   * `handleDisableCmd`: silence outside a guild, then the user's record; a
   * guild not in the list is refused, otherwise every occurrence is removed
   * and saved.
   */
  method HandleDisable(ctx: SlashCommandContext, store: MentionStore, linkMention: string)
    returns (reply: Option<string>)
    modifies ctx, store
    ensures var g := ctx.interaction.guildId;
            var k := FirstByDiscord(old(store.users), ctx.authorID);
            reply == (if !InGuild(g) then None
                      else if k < 0 then Some(NotLinked(linkMention))
                      else if g.value !in old(store.users)[k].guilds then Some(NotEnabled)
                      else Some(NowDisabled))
            && store.users == (if reply == Some(NowDisabled)
                               then old(store.users)[k := old(store.users)[k].(guilds := Disabled(old(store.users)[k].guilds, g.value))]
                               else old(store.users))
    ensures ctx.sent == old(ctx.sent) + (if reply.Some? then [ReplyEffect(old(ctx.defered), Text(reply.value), true)] else [])
    ensures Consistent(old(store.users)) ==> Consistent(store.users)
  {
    var g := ctx.interaction.guildId;
    if g.None? || g.value == "" {
      return None;
    }
    var k := FirstByDiscord(store.users, ctx.authorID);
    if k < 0 {
      reply := Some(NotLinked(linkMention));
    } else if g.value !in store.users[k].guilds {
      reply := Some(NotEnabled);
    } else {
      var u := store.users[k];
      store.Save(k, u.(guilds := Functions.Without(u.guilds, g.value)));
      reply := Some(NowDisabled);
    }
    ctx.Reply(Text(reply.value), true);
  }

  // ---------------------------------------------------------------- linking

  /** A TikTok user as `fetchUser` returns it: the ids, the handle and the bio. */
  datatype TikTokUser = TikTokUser(secUid: string, uid: string, uniqueId: string, signature: string)

  const CantFindSentinel: string := "QUICKVIDS:CANT_FIND"
  const StartSearchSentinel: string := "ERROR:start_search"
  const UnlinkSentinel: string := "QUICKVIDS:UNLINK"

  /** The bytes every `sec_uid` decodes to first: "1.0.0", then 1, 0, 0, 0. */
  const SecUidPrefix: string := "1.0.0\U{1}\U{0}\U{0}\U{0}"

  const CantFindCode: string := "adwpQcyHvm"
  const BadSecUidCode: string := "3E9hetCUcc"
  const CodeMissingCode: string := "A2kZmqwKuu"

  /** How linking (the link subcommand or the Verify button) ends. */
  datatype LinkOutcome =
    | Walled                  // the premium wall said no; nothing is replied here
    | CantFind                // the autocomplete could not find the user
    | StartSearch             // the autocomplete placeholder was sent
    | Unlinked                // the user's record was deleted
    | BadSecUid               // the value does not decode to a sec_uid
    | UserMissing             // the TikTok lookup found nobody
    | NeedsCode(code: nat)    // the bio lacks the code: the verification card is sent
    | CodeMissing(code: nat)  // (Verify button) the bio still lacks the code
    | AlreadyYours            // this TikTok account is already linked to this user
    | LinkedElsewhere         // this TikTok account is linked to another user
    | Linked                  // the user's record now holds the TikTok account

  /** The last step shared by the link subcommand and the Verify button. */
  function AfterLink(us: seq<MentionUser>, discordId: string, user: TikTokUser): (r: seq<MentionUser>)
  {
    var k := FirstByDiscord(us, discordId);
    if k >= 0 then us[k := us[k].(secUid := user.secUid, uid := user.uid)]
    else us + [MentionUser(discordId, user.secUid, user.uid, [])]
  }

  /**
   * The conflict rules: an account already linked is reported (to its owner
   * or to anybody else) and nothing is written; otherwise the user's record
   * takes the account, or a new record is created.
   */
  method LinkAccount(store: MentionStore, discordId: string, user: TikTokUser) returns (r: LinkOutcome)
    modifies store
    ensures var j := FirstBySecUid(old(store.users), user.secUid);
            (j >= 0 && old(store.users)[j].discordId == discordId ==> r == AlreadyYours && store.users == old(store.users))
            && (j >= 0 && old(store.users)[j].discordId != discordId ==> r == LinkedElsewhere && store.users == old(store.users))
            && (j < 0 ==> r == Linked && store.users == AfterLink(old(store.users), discordId, user))
    ensures Consistent(old(store.users)) ==> Consistent(store.users)
  {
    var j := FirstBySecUid(store.users, user.secUid);
    if j >= 0 {
      if store.users[j].discordId == discordId {
        return AlreadyYours;
      }
      return LinkedElsewhere;
    }
    var k := FirstByDiscord(store.users, discordId);
    if k >= 0 {
      var u := store.users[k];
      store.Save(k, u.(secUid := user.secUid, uid := user.uid));
    } else {
      store.Create(MentionUser(discordId, user.secUid, user.uid, []));
    }
    r := Linked;
  }

  /** After a successful link, exactly one record holds the TikTok account, and it is the user's. */
  lemma LinkedOwner(us: seq<MentionUser>, discordId: string, user: TikTokUser)
    requires Consistent(us) && FirstBySecUid(us, user.secUid) < 0
    ensures var after := AfterLink(us, discordId, user);
            var j := FirstBySecUid(after, user.secUid);
            Consistent(after) && j >= 0 && after[j].discordId == discordId
            && FirstByDiscord(after, discordId) == j
  {
    var after := AfterLink(us, discordId, user);
    var k := FirstByDiscord(us, discordId);
    if k >= 0 {
      assert after[k].secUid == user.secUid;
      assert FirstBySecUid(after, user.secUid) == k;
      assert FirstByDiscord(after, discordId) == k;
    } else {
      var n := |us|;
      assert after[n].secUid == user.secUid && after[n].discordId == discordId;
      assert FirstBySecUid(after, user.secUid) == n;
      assert FirstByDiscord(after, discordId) == n;
    }
  }

  const CantFindText: string :=
    "Sorry we couldn't find your TikTok account, come join our [Support Server](<https://discord.gg/"
    + CantFindCode + ">)\n\nError Code: `" + CantFindCode + "`"
  const StartSearchText: string := "Oops! Use the command again, but this time, start typing a username."
  const UnlinkedText: string := "You have successfully unlinked your TikTok account from your Discord account."
  const BadSecUidText: string :=
    "Please make sure to use the autocomplete menu, or if it's not working, join our [Support Server](<https://discord.gg/"
    + BadSecUidCode + ">)\n\nError Code: `" + BadSecUidCode + "`"
  const AlreadyYoursText: string := "You have already linked this account to your Discord account."
  const LinkedElsewhereText: string := "This TikTok account is already linked to another Discord account."

  const CodeMissingStart: string := "We still can't find the code in your bio, please make sure you added `"
  const CodeMissingEnd: string :=
    "` to your bio and try again. (Bio changes can take a few minutes)\n\nIf you are still having issues, come join our [Support Server](<https://discord.gg/"
    + CodeMissingCode + ">)\n\nError Code: `" + CodeMissingCode + "`"

  /** The row under the verification card: one Verify button carrying the sec_uid. */
  function VerifyRow(secUid: string): ActionRow
  {
    ActionRow([Button(Some("Verify"), "verify" + secUid)])
  }

  /** What each outcome replies (embeds are not part of the model: cards show as their component rows). */
  function LinkReply(o: LinkOutcome, secUid: string): ReplyData
  {
    match o
    case Walled => Text("")
    case CantFind => Text(CantFindText)
    case StartSearch => Text(StartSearchText)
    case Unlinked => Text(UnlinkedText)
    case BadSecUid => Text(BadSecUidText)
    case UserMissing => Text(CantFindText)
    case NeedsCode(_) => Data(MessageData(None, None, Some([VerifyRow(secUid)])))
    case CodeMissing(code) =>
      Text(CodeMissingStart + DecimalString(code) + CodeMissingEnd)
    case AlreadyYours => Text(AlreadyYoursText)
    case LinkedElsewhere => Text(LinkedElsewhereText)
    case Linked => Data(MessageData(None, None, Some([])))
  }

  /**
   * `handleLinkCmd`: after the premium wall, the three autocomplete sentinels
   * are handled before any decoding (only UNLINK writes: it deletes the
   * user's record); a value that does not decode to a sec_uid is refused; a
   * user the lookup cannot find is refused; a bio without the code gets the
   * verification card; otherwise the conflict rules decide. `decoded` is the
   * base64 decoding of the value, `digest` the SHA-256 hex digest of the
   * found user's sec_uid followed by the author's id.
   */
  method HandleLink(ctx: SlashCommandContext, store: MentionStore, paid: bool, value: string, decoded: string,
                    found: Option<TikTokUser>, digest: string)
    returns (r: LinkOutcome)
    requires |digest| == 64 && IsHex(digest)
    modifies ctx, store
    ensures !paid ==> r == Walled && store.users == old(store.users) && ctx.sent == old(ctx.sent)
    ensures paid && value == CantFindSentinel ==> r == CantFind && store.users == old(store.users)
    ensures paid && value == StartSearchSentinel ==> r == StartSearch && store.users == old(store.users)
    ensures paid && value == UnlinkSentinel ==> r == Unlinked && store.users == DeleteByDiscord(old(store.users), ctx.authorID)
    ensures paid && value !in {CantFindSentinel, StartSearchSentinel, UnlinkSentinel} ==>
              (!StartsWith(decoded, SecUidPrefix) ==> r == BadSecUid && store.users == old(store.users))
              && (StartsWith(decoded, SecUidPrefix) && found.None? ==> r == UserMissing && store.users == old(store.users))
              && (StartsWith(decoded, SecUidPrefix) && found.Some? ==>
                    var code := GenCode(digest);
                    (!Contains(found.value.signature, DecimalString(code)) ==> r == NeedsCode(code) && store.users == old(store.users))
                    && (Contains(found.value.signature, DecimalString(code)) ==>
                          var j := FirstBySecUid(old(store.users), found.value.secUid);
                          (j >= 0 && old(store.users)[j].discordId == ctx.authorID ==> r == AlreadyYours && store.users == old(store.users))
                          && (j >= 0 && old(store.users)[j].discordId != ctx.authorID ==> r == LinkedElsewhere && store.users == old(store.users))
                          && (j < 0 ==> r == Linked)))
    ensures r == Linked ==> found.Some? && store.users == AfterLink(old(store.users), ctx.authorID, found.value)
    ensures r != Walled ==>
              ctx.sent == old(ctx.sent) + [ReplyEffect(old(ctx.defered), LinkReply(r, if found.Some? then found.value.secUid else ""), true)]
    ensures Consistent(old(store.users)) ==> Consistent(store.users)
  {
    if !paid {
      return Walled;
    }
    if value == CantFindSentinel {
      r := CantFind;
    } else if value == StartSearchSentinel {
      r := StartSearch;
    } else if value == UnlinkSentinel {
      store.DeleteOne(ctx.authorID);
      r := Unlinked;
    } else if !StartsWith(decoded, SecUidPrefix) {
      r := BadSecUid;
    } else if found.None? {
      r := UserMissing;
    } else {
      var code := GenCode(digest);
      if !Contains(found.value.signature, DecimalString(code)) {
        r := NeedsCode(code);
      } else {
        r := LinkAccount(store, ctx.authorID, found.value);
      }
    }
    ctx.Reply(LinkReply(r, if found.Some? then found.value.secUid else ""), true);
  }

  /** `custom_id.slice(6)`: what follows "verify". */
  function SecUidOf(customId: string): string
  {
    if |customId| <= 6 then "" else customId[6..]
  }

  /**
   * The Verify button (`/verify(.*)/`): looks the sec_uid after "verify" up,
   * re-checks the bio for the code and applies the same conflict rules.
   */
  method Verify(ctx: ButtonContext, store: MentionStore, found: Option<TikTokUser>, digest: string)
    returns (r: LinkOutcome)
    requires |digest| == 64 && IsHex(digest)
    modifies ctx, store
    ensures found.None? ==> r == UserMissing && store.users == old(store.users)
    ensures found.Some? && !Contains(found.value.signature, DecimalString(GenCode(digest))) ==>
              r == CodeMissing(GenCode(digest)) && store.users == old(store.users)
    ensures found.Some? && Contains(found.value.signature, DecimalString(GenCode(digest))) ==>
              var j := FirstBySecUid(old(store.users), found.value.secUid);
              (j >= 0 && old(store.users)[j].discordId == ctx.authorID ==> r == AlreadyYours && store.users == old(store.users))
              && (j >= 0 && old(store.users)[j].discordId != ctx.authorID ==> r == LinkedElsewhere && store.users == old(store.users))
              && (j < 0 ==> r == Linked)
    ensures r == Linked ==> found.Some? && store.users == AfterLink(old(store.users), ctx.authorID, found.value)
    ensures ctx.sent == old(ctx.sent) + [ReplyEffect(old(ctx.defered), LinkReply(r, SecUidOf(ctx.customId)), true)]
    ensures ctx.defered == old(ctx.defered)
    ensures Consistent(old(store.users)) ==> Consistent(store.users)
  {
    if found.None? {
      r := UserMissing;
    } else {
      var code := GenCode(digest);
      if !Contains(found.value.signature, DecimalString(code)) {
        r := CodeMissing(code);
      } else {
        r := LinkAccount(store, ctx.authorID, found.value);
      }
    }
    ctx.Reply(LinkReply(r, SecUidOf(ctx.customId)), true);
  }

  // ---------------------------------------------------------------- the mention command

  /** The subcommand `mention` runs. */
  datatype MentionSub = LinkSub | ViewSub | EnableSub | DisableSub | NoSub

  /** `mention`: the first of link, view, enable and disable that `getOption` finds, in that order. */
  function MentionRoute(options: seq<InvokedOption>): (r: MentionSub)
    ensures r == LinkSub <==> GetOption(options, "link").Some?
    ensures r == ViewSub <==> GetOption(options, "link").None? && GetOption(options, "view").Some?
    ensures r == EnableSub <==>
              GetOption(options, "link").None? && GetOption(options, "view").None? && GetOption(options, "enable").Some?
    ensures r == DisableSub <==>
              GetOption(options, "link").None? && GetOption(options, "view").None?
              && GetOption(options, "enable").None? && GetOption(options, "disable").Some?
  {
    if GetOption(options, "link").Some? then LinkSub
    else if GetOption(options, "view").Some? then ViewSub
    else if GetOption(options, "enable").Some? then EnableSub
    else if GetOption(options, "disable").Some? then DisableSub
    else NoSub
  }

  /** A subcommand invoked on its own is routed to its handler. */
  lemma SubcommandRouted(name: string, sub: MentionSub)
    requires (name, sub) in {("link", LinkSub), ("view", ViewSub), ("enable", EnableSub), ("disable", DisableSub)}
    ensures MentionRoute([InvokedOption(name, Subcommand, None, None, false)]) == sub
  {
    var o := InvokedOption(name, Subcommand, None, None, false);
    assert FindOption([o], name) == Some(o);
  }

  // ---------------------------------------------------------------- autocomplete

  const StartTyping: Choice := Choice("Start typing a username!", StartSearchSentinel)
  const UnlinkChoice: Choice := Choice("--> Want to unlink your TikTok account?", UnlinkSentinel)
  const NoUsersChoice: Choice := Choice("No users found | Make sure you are NOT using the Nickname", CantFindSentinel)
  const CantFindChoice: Choice := Choice("--> Can't find who you are looking for?", CantFindSentinel)

  /**
   * The username autocomplete: with no focused option or fewer than two
   * characters typed, the start-typing placeholder, plus the unlink choice
   * exactly when the user is linked; otherwise the looked-up user (named with
   * its handle and the rendered follower count) or the two cannot-find choices.
   */
  function UsernameChoices(focused: Option<string>, linked: bool, found: Option<TikTokUser>, followers: string)
    : (r: seq<Choice>)
    ensures (focused.None? || |focused.value| < 2) ==>
              |r| == (if linked then 2 else 1) && r[0] == StartTyping && (UnlinkChoice in r <==> linked)
    ensures focused.Some? && |focused.value| >= 2 && found.None? ==> r == [NoUsersChoice, CantFindChoice]
    ensures focused.Some? && |focused.value| >= 2 && found.Some? ==>
              |r| == 1 && r[0].value == found.value.secUid
              && r[0].name == "@" + found.value.uniqueId + " | " + followers + " Followers"
  {
    if focused.None? || |focused.value| < 2 then
      [StartTyping] + (if linked then [UnlinkChoice] else [])
    else if found.None? then [NoUsersChoice, CantFindChoice]
    else [Choice("@" + found.value.uniqueId + " | " + followers + " Followers", found.value.secUid)]
  }

  /** Every choice the autocomplete offers is a sentinel the link subcommand handles before decoding, or a sec_uid. */
  lemma ChoicesAreHandled(focused: Option<string>, linked: bool, found: Option<TikTokUser>, followers: string, c: Choice)
    requires c in UsernameChoices(focused, linked, found, followers)
    ensures c.value in {CantFindSentinel, StartSearchSentinel, UnlinkSentinel} || (found.Some? && c.value == found.value.secUid)
  {
  }
}
