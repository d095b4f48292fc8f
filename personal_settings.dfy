/**
 * The `privacy` command (`src/extensions/personal_settings.ts`): the policy
 * link, and the usage-data opt-in with its three choices, the last of which
 * also scrubs the user's embed logs. The account lookup is an input; the
 * embed-log collection is a store keyed by document id.
 */
module PersonalSettings {
  import opened Wrappers
  import opened Json
  import opened Discord
  import opened Contexts
  import Functions

  // ---------------------------------------------------------------- embed logs

  /** A `DiscordEmbedLogs` document, reduced to the two fields the deletion touches. */
  datatype EmbedLog = EmbedLog(userId: Option<string>, channelId: string)

  /** A log with its user forgotten: no `user_id`, channel "unknown". */
  function Scrub(l: EmbedLog): (r: EmbedLog)
    ensures r.userId.None? && r.channelId == "unknown"
  {
    l.(userId := None, channelId := "unknown")
  }

  /** The logs once every document whose id is listed has been scrubbed; ids with no document are skipped. */
  function ScrubbedLogs(logs: map<string, EmbedLog>, ids: seq<string>): (r: map<string, EmbedLog>)
    ensures r.Keys == logs.Keys
  {
    map k | k in logs :: if k in ids then Scrub(logs[k]) else logs[k]
  }

  /** Scrubbing forgets the user on every listed log and touches no other log. */
  lemma ScrubbedLogsForget(logs: map<string, EmbedLog>, ids: seq<string>, k: string)
    requires k in logs
    ensures k in ids ==> ScrubbedLogs(logs, ids)[k].userId.None? && ScrubbedLogs(logs, ids)[k].channelId == "unknown"
    ensures k !in ids ==> ScrubbedLogs(logs, ids)[k] == logs[k]
  {
  }

  /** Scrubbing the same logs again changes nothing, and an empty list scrubs nothing. */
  lemma ScrubbedLogsIdempotent(logs: map<string, EmbedLog>, ids: seq<string>)
    ensures ScrubbedLogs(ScrubbedLogs(logs, ids), ids) == ScrubbedLogs(logs, ids)
    ensures ScrubbedLogs(logs, []) == logs
  {
  }

  /** The `DiscordEmbedLogs` collection. */
  class EmbedLogStore {
    var logs: map<string, EmbedLog>

    constructor (logs: map<string, EmbedLog>)
      ensures this.logs == logs
    {
      this.logs := logs;
    }

    /**
     * The deletion loop: every listed id is looked up (`findById`), skipped
     * when missing, otherwise scrubbed and saved.
     */
    method ScrubAll(ids: seq<string>)
      modifies this
      ensures logs == ScrubbedLogs(old(logs), ids)
    {
      for i := 0 to |ids|
        invariant logs == ScrubbedLogs(old(logs), ids[..i])
      {
        var id := ids[i];
        assert ids[..i + 1] == ids[..i] + [id];
        if id in logs {
          logs := logs[id := Scrub(logs[id])];
        }
      }
      assert ids[..|ids|] == ids;
    }
  }

  // ---------------------------------------------------------------- the usage-data choice

  /** What the `collect` option asks for. */
  datatype UsageChoice = Report | OptIn | OptOut | Delete | Unrecognised

  /** The `switch` on `collect`: no option reports; the three values select; any other value matches no case. */
  function ChoiceOf(collect: Option<InvokedOption>): (c: UsageChoice)
    ensures c == Report <==> collect.None?
    ensures c == OptIn <==> collect.Some? && collect.value.value == Some(JStr("yes"))
    ensures c == OptOut <==> collect.Some? && collect.value.value == Some(JStr("no"))
    ensures c == Delete <==> collect.Some? && collect.value.value == Some(JStr("delete"))
  {
    match collect
    case None => Report
    case Some(o) =>
      if o.value == Some(JStr("yes")) then OptIn
      else if o.value == Some(JStr("no")) then OptOut
      else if o.value == Some(JStr("delete")) then Delete
      else Unrecognised
  }

  /** What the usage-data handler works on: the opt-in flag, the account's log ids and the logs themselves. */
  datatype UsageData = UsageData(optedIn: bool, logIds: seq<string>, logs: map<string, EmbedLog>)

  /**
   * The state after a choice: opting in sets the flag; opting out clears it;
   * deleting clears it, forgets the log ids and scrubs those logs; reporting
   * and an unrecognised value change nothing.
   */
  function AfterChoice(c: UsageChoice, d: UsageData): (r: UsageData)
    ensures c in {Report, Unrecognised} ==> r == d
    ensures c == OptIn ==> r.optedIn
    ensures c in {OptOut, Delete} ==> !r.optedIn
    ensures c != Delete ==> r.logIds == d.logIds && r.logs == d.logs
    ensures c == Delete ==> r.logIds == [] && r.logs.Keys == d.logs.Keys
  {
    match c
    case Report => d
    case Unrecognised => d
    case OptIn => d.(optedIn := true)
    case OptOut => d.(optedIn := false)
    case Delete => UsageData(false, [], ScrubbedLogs(d.logs, d.logIds))
  }

  /** Repeating a choice is the same as making it once. */
  lemma AfterChoiceIdempotent(c: UsageChoice, d: UsageData)
    ensures AfterChoice(c, AfterChoice(c, d)) == AfterChoice(c, d)
  {
    if c == Delete {
      ScrubbedLogsIdempotent(ScrubbedLogs(d.logs, d.logIds), []);
    }
  }

  /** Only the last of two choices decides the flag, whenever it sets one. */
  lemma LastChoiceWins(c1: UsageChoice, c2: UsageChoice, d: UsageData)
    requires c2 in {OptIn, OptOut, Delete}
    ensures AfterChoice(c2, AfterChoice(c1, d)).optedIn == AfterChoice(c2, d).optedIn
  {
  }

  /** After a deletion no log the account referenced still names a user, and the account references none. */
  lemma DeleteForgets(d: UsageData, k: string)
    requires k in d.logIds && k in d.logs
    ensures AfterChoice(Delete, d).logs[k].userId.None?
    ensures AfterChoice(Delete, d).logIds == [] && !AfterChoice(Delete, d).optedIn
  {
    ScrubbedLogsForget(d.logs, d.logIds, k);
  }

  const FetchError: string := "An error occurred while fetching your account data. Please try again later."
  const ReportStart: string := "You are currently: "
  const ReportEnd: string :=
    " \n\n**We take your privacy seriously.**\nYour data is not public. Usage data provides statistics like total videos converted and total users. Please consider sharing your usage data with us to help improve our app. View the policy command for more information on how we handle your privacy."
  const OptedInText: string := "You have opted in to data collection. Thank you for your support! \U{1F389}"
  const OptedOutText: string := "You have opted out of data collection. We respect your privacy. \U{1F6E1}\U{FE0F}"
  const DeletedText: string :=
    "You have opted out of data collection and your usage data has been deleted. We respect your privacy. \U{1F6E1}\U{FE0F}"
  const PolicyText: string := "Our Privacy Policy can be found at https://quickvids.app/privacy"

  /** The current state as reported. */
  function StateReport(optedIn: bool): string
  {
    ReportStart + (if optedIn then "Opted-in" else "Opted-out") + ReportEnd
  }

  /** The reply to a choice, given the flag before it; an unrecognised value gets none. */
  function UsageReply(c: UsageChoice, optedIn: bool): (r: Option<string>)
    ensures r.None? <==> c == Unrecognised
  {
    match c
    case Report => Some(StateReport(optedIn))
    case OptIn => Some(OptedInText)
    case OptOut => Some(OptedOutText)
    case Delete => Some(DeletedText)
    case Unrecognised => None
  }

  /** The replies after the ephemeral defer: follow-ups, so not themselves ephemeral. */
  function FollowupsOf(reply: Option<string>): seq<Sent>
  {
    if reply.Some? then [ReplyEffect(true, Text(reply.value), false)] else []
  }

  /** The ephemeral defer every usage-data invocation starts with. */
  const EphemeralDefer: Sent := Response(DeferredChannelMessageWithSource, Message(DeferData(true)))

  /**
   * `handleUsageDataCmd`: defer ephemerally; without an account, the fetch
   * error; otherwise apply the `collect` choice to the account and the logs
   * and reply as a follow-up.
   */
  method HandleUsageData(ctx: SlashCommandContext, account: Functions.Account?, store: EmbedLogStore)
    returns (reply: Option<string>)
    modifies ctx, account, store
    ensures ctx.defered
    ensures ctx.sent == old(ctx.sent) + [EphemeralDefer] + FollowupsOf(reply)
    ensures account == null ==> reply == Some(FetchError) && store.logs == old(store.logs)
    ensures account != null ==>
              var c := ChoiceOf(GetOption(ctx.options, "collect"));
              reply == UsageReply(c, old(account.logUsageData))
              && UsageData(account.logUsageData, account.logs, store.logs)
                 == AfterChoice(c, UsageData(old(account.logUsageData), old(account.logs), old(store.logs)))
              && account.favorites == old(account.favorites)
  {
    ctx.Defer(true);
    var c := ChoiceOf(GetOption(ctx.options, "collect"));
    if account == null {
      reply := Some(FetchError);
    } else {
      reply := UsageReply(c, account.logUsageData);
      match c {
        case Report =>
        case Unrecognised =>
        case OptIn =>
          account.logUsageData := true;
        case OptOut =>
          account.logUsageData := false;
        case Delete =>
          account.logUsageData := false;
          store.ScrubAll(account.logs);
          account.logs := [];
      }
    }
    if reply.Some? {
      ctx.Reply(Text(reply.value), false);
    }
  }

  // ---------------------------------------------------------------- the privacy command

  /** Where `privacy` goes. */
  datatype PrivacyRoute = PolicyRoute | UsageRoute | Silent

  /** `privacy_cmd`: the policy subcommand first, then the usage group, else nothing. */
  function PrivacyRouteOf(options: seq<InvokedOption>): (r: PrivacyRoute)
    ensures r == PolicyRoute <==> GetOption(options, "policy").Some?
    ensures r == UsageRoute <==> GetOption(options, "policy").None? && GetOption(options, "usage").Some?
  {
    if GetOption(options, "policy").Some? then PolicyRoute
    else if GetOption(options, "usage").Some? then UsageRoute
    else Silent
  }

  /** `privacy_cmd`: the policy link as an ephemeral reply, the usage-data handler, or no reply. */
  method Privacy(ctx: SlashCommandContext, account: Functions.Account?, store: EmbedLogStore)
    returns (route: PrivacyRoute)
    modifies ctx, account, store
    ensures route == PrivacyRouteOf(ctx.options)
    ensures route == PolicyRoute ==> ctx.sent == old(ctx.sent) + [ReplyEffect(old(ctx.defered), Text(PolicyText), true)]
    ensures route == Silent ==> ctx.sent == old(ctx.sent)
    ensures route != UsageRoute ==>
              store.logs == old(store.logs)
              && (account != null ==>
                    account.logUsageData == old(account.logUsageData) && account.logs == old(account.logs)
                    && account.favorites == old(account.favorites))
    ensures route == UsageRoute ==>
              ctx.defered
              && ctx.sent == old(ctx.sent) + [EphemeralDefer]
                 + FollowupsOf(if account == null then Some(FetchError)
                               else UsageReply(ChoiceOf(GetOption(ctx.options, "collect")), old(account.logUsageData)))
    ensures route == UsageRoute && account != null ==>
              UsageData(account.logUsageData, account.logs, store.logs)
              == AfterChoice(ChoiceOf(GetOption(ctx.options, "collect")),
                             UsageData(old(account.logUsageData), old(account.logs), old(store.logs)))
              && account.favorites == old(account.favorites)
  {
    route := PrivacyRouteOf(ctx.options);
    if route == PolicyRoute {
      ctx.Reply(Text(PolicyText), true);
    } else if route == UsageRoute {
      var _ := HandleUsageData(ctx, account, store);
    }
  }

  /** A usage invocation (the `usage` group, its `data` subcommand, a `collect` value) reaches the choice it names. */
  lemma UsageInvocationChoice(value: string)
    ensures var collect := InvokedOption("collect", 3, Some(JStr(value)), None, false);
            var data := InvokedOption("data", Subcommand, None, Some([collect]), false);
            var usage := InvokedOption("usage", SubcommandGroup, None, Some([data]), false);
            PrivacyRouteOf([usage]) == UsageRoute
            && GetOption([usage], "collect") == Some(collect)
            && (value == "delete" ==> ChoiceOf(GetOption([usage], "collect")) == Delete)
  {
    var collect := InvokedOption("collect", 3, Some(JStr(value)), None, false);
    var data := InvokedOption("data", Subcommand, None, Some([collect]), false);
    var usage := InvokedOption("usage", SubcommandGroup, None, Some([data]), false);
    assert FindOption([usage], "usage") == Some(usage);
    assert FindOption([collect], "collect") == Some(collect);
  }
}
