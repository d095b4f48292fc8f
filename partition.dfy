/**
 * The specification of `loadCommands` (src/classes/Client.ts): how declared
 * commands are split into a global list and per-guild lists, and what the
 * per-scope synchronisation leaves in `rawCommands`.
 */
module Partition {
  import opened Wrappers
  import opened Commands

  /** The global list, the guild ids in first-appearance order, and each guild's list. */
  datatype Split = Split(global: seq<Command>, keys: seq<string>, guilds: map<string, seq<Command>>)
  {
    /** The guild ids are distinct and are exactly the keys of the dictionary. */
    ghost predicate Valid()
    {
      (forall i, j :: 0 <= i < j < |keys| ==> keys[i] != keys[j])
      && (forall g :: g in guilds <==> g in keys)
    }
  }

  const EmptySplit: Split := Split([], [], map[])

  /** `if (!(guildId in guildOnly)) guildOnly[guildId] = []; guildOnly[guildId].push(command)`. */
  function AddToGuild(p: Split, c: Command, g: string): Split
  {
    if g in p.guilds then p.(guilds := p.guilds[g := p.guilds[g] + [c]])
    else p.(keys := p.keys + [g], guilds := p.guilds[g := [c]])
  }

  /** The effect of the scope loop of one command, over the first scopes in order. */
  function AddToGuilds(p: Split, c: Command, scopes: seq<string>): Split
    decreases |scopes|
  {
    if scopes == [] then p
    else AddToGuild(AddToGuilds(p, c, scopes[..|scopes| - 1]), c, scopes[|scopes| - 1])
  }

  /** One command: global when it has no scopes, else into each listed guild. */
  function AddCommand(p: Split, c: Command): Split
  {
    if |c.scopes| == 0 then p.(global := p.global + [c]) else AddToGuilds(p, c, c.scopes)
  }

  /** The split after the given commands, in order. */
  function SplitOf(cs: seq<Command>): Split
    decreases |cs|
  {
    if cs == [] then EmptySplit else AddCommand(SplitOf(cs[..|cs| - 1]), cs[|cs| - 1])
  }

  /** A guild id is recorded once, when it is first seen, and the dictionary's keys stay exactly the recorded ids. */
  lemma AddToGuildValid(p: Split, c: Command, g: string)
    requires p.Valid()
    ensures AddToGuild(p, c, g).Valid()
  {
  }

  lemma {:induction false} AddToGuildsValid(p: Split, c: Command, scopes: seq<string>)
    requires p.Valid()
    ensures AddToGuilds(p, c, scopes).Valid()
    decreases |scopes|
  {
    if scopes != [] {
      AddToGuildsValid(p, c, scopes[..|scopes| - 1]);
      AddToGuildValid(AddToGuilds(p, c, scopes[..|scopes| - 1]), c, scopes[|scopes| - 1]);
    }
  }

  /** A scoped command's scope loop never touches the global list. */
  lemma {:induction false} AddToGuildsKeepsGlobal(p: Split, c: Command, scopes: seq<string>)
    ensures AddToGuilds(p, c, scopes).global == p.global
    decreases |scopes|
  {
    if scopes != [] {
      AddToGuildsKeepsGlobal(p, c, scopes[..|scopes| - 1]);
    }
  }

  /** Every split the partition builds lists each guild once and has a list for exactly those guilds. */
  lemma {:induction false} SplitOfValid(cs: seq<Command>)
    ensures SplitOf(cs).Valid()
    decreases |cs|
  {
    if cs != [] {
      SplitOfValid(cs[..|cs| - 1]);
      if |cs[|cs| - 1].scopes| > 0 {
        AddToGuildsValid(SplitOf(cs[..|cs| - 1]), cs[|cs| - 1], cs[|cs| - 1].scopes);
      }
    }
  }

  // ---------------------------------------------------------------- reference definitions

  /** The commands without scopes, in order. */
  function Unscoped(cs: seq<Command>): seq<Command>
    decreases |cs|
  {
    if cs == [] then []
    else Unscoped(cs[..|cs| - 1]) + (if |cs[|cs| - 1].scopes| == 0 then [cs[|cs| - 1]] else [])
  }

  /** How often g occurs in a list. */
  function Count(xs: seq<string>, g: string): nat
    decreases |xs|
  {
    if xs == [] then 0 else Count(xs[..|xs| - 1], g) + (if xs[|xs| - 1] == g then 1 else 0)
  }

  function Repeat(c: Command, n: nat): (r: seq<Command>)
    ensures |r| == n && forall i :: 0 <= i < n ==> r[i] == c
  {
    if n == 0 then [] else Repeat(c, n - 1) + [c]
  }

  /** The commands for guild g: each command once per occurrence of g in its scopes, in order. */
  function ForGuild(cs: seq<Command>, g: string): seq<Command>
    decreases |cs|
  {
    if cs == [] then []
    else ForGuild(cs[..|cs| - 1], g) + Repeat(cs[|cs| - 1], Count(cs[|cs| - 1].scopes, g))
  }

  /** Some command lists guild g. */
  predicate Scoped(cs: seq<Command>, g: string)
  {
    exists i :: 0 <= i < |cs| && g in cs[i].scopes
  }

  lemma {:induction false} CountZero(xs: seq<string>, g: string)
    ensures Count(xs, g) == 0 <==> g !in xs
    decreases |xs|
  {
    if xs != [] {
      CountZero(xs[..|xs| - 1], g);
      assert xs == xs[..|xs| - 1] + [xs[|xs| - 1]];
    }
  }

  /** The list guild g has so far (none yet reads as empty). */
  function ListOf(p: Split, g: string): seq<Command>
  {
    if g in p.guilds then p.guilds[g] else []
  }

  lemma AddToGuildEffect(p: Split, c: Command, h: string, g: string)
    ensures var r := AddToGuild(p, c, h);
            (g in r.guilds <==> g in p.guilds || g == h)
            && ListOf(r, g) == ListOf(p, g) + (if g == h then [c] else [])
  {
  }

  /** The scope loop of one command adds it to guild g once per occurrence of g and touches nothing else. */
  lemma {:induction false} AddToGuildsEffect(p: Split, c: Command, scopes: seq<string>, g: string)
    ensures var r := AddToGuilds(p, c, scopes);
            (g in r.guilds <==> g in p.guilds || g in scopes)
            && ListOf(r, g) == ListOf(p, g) + Repeat(c, Count(scopes, g))
    decreases |scopes|
  {
    if scopes != [] {
      var init := scopes[..|scopes| - 1];
      var last := scopes[|scopes| - 1];
      AddToGuildsEffect(p, c, init, g);
      assert scopes == init + [last];
      var q := AddToGuilds(p, c, init);
      assert AddToGuilds(p, c, scopes) == AddToGuild(q, c, last);
      AddToGuildEffect(q, c, last, g);
      assert Count(scopes, g) == Count(init, g) + (if last == g then 1 else 0);
      if last == g {
        assert Repeat(c, Count(scopes, g)) == Repeat(c, Count(init, g)) + [c];
        assert ListOf(p, g) + Repeat(c, Count(scopes, g)) == ListOf(p, g) + Repeat(c, Count(init, g)) + [c];
      }
    }
  }

  /** The partition's global list is exactly the unscoped commands, in order. */
  lemma {:induction false} GlobalIsUnscoped(cs: seq<Command>)
    ensures SplitOf(cs).global == Unscoped(cs)
    decreases |cs|
  {
    if cs != [] {
      GlobalIsUnscoped(cs[..|cs| - 1]);
      AddToGuildsKeepsGlobal(SplitOf(cs[..|cs| - 1]), cs[|cs| - 1], cs[|cs| - 1].scopes);
    }
  }

  /**
   * A guild's list is exactly the commands listing it, once per listing, in
   * order; a guild has a list exactly when some command lists it.
   */
  lemma {:induction false} GuildListIsForGuild(cs: seq<Command>, g: string)
    ensures g in SplitOf(cs).guilds <==> Scoped(cs, g)
    ensures g in SplitOf(cs).guilds ==> SplitOf(cs).guilds[g] == ForGuild(cs, g)
    ensures g !in SplitOf(cs).guilds ==> ForGuild(cs, g) == []
    decreases |cs|
  {
    if cs != [] {
      var init := cs[..|cs| - 1];
      var c := cs[|cs| - 1];
      GuildListIsForGuild(init, g);
      var p := SplitOf(init);
      CountZero(c.scopes, g);
      if |c.scopes| > 0 {
        AddToGuildsEffect(p, c, c.scopes, g);
      }
      if Scoped(cs, g) {
        var i :| 0 <= i < |cs| && g in cs[i].scopes;
        if i < |cs| - 1 {
          assert init[i] == cs[i];
        }
      }
      if Scoped(init, g) {
        var i :| 0 <= i < |init| && g in init[i].scopes;
        assert cs[i] == init[i];
      }
    }
  }

  /** A scoped command never reaches the global list. */
  lemma {:induction false} ScopedNeverGlobal(cs: seq<Command>, c: Command)
    requires |c.scopes| > 0
    ensures c !in Unscoped(cs)
    decreases |cs|
  {
    if cs != [] {
      ScopedNeverGlobal(cs[..|cs| - 1], c);
    }
  }

  // ---------------------------------------------------------------- synchronisation

  /** Where a command list is registered: globally or in one guild. */
  datatype Scope = Global | Guild(id: string)

  /** The scopes in the order `loadCommands` synchronises them, with their lists. */
  function Jobs(p: Split): (r: seq<(Scope, seq<Command>)>)
    ensures |r| == |p.keys| + 1 && r[0] == (Global, p.global)
    ensures forall i :: 0 <= i < |p.keys| ==>
              r[i + 1] == (Guild(p.keys[i]), if p.keys[i] in p.guilds then p.guilds[p.keys[i]] else [])
  {
    [(Global, p.global)]
    + seq(|p.keys|, i requires 0 <= i < |p.keys| =>
            (Guild(p.keys[i]), if p.keys[i] in p.guilds then p.guilds[p.keys[i]] else []))
  }

  /** The responses Discord gives: the GET and PUT result for each scope (`None` is a failed request). */
  datatype Remote = Remote(get: map<Scope, seq<RemoteCommand>>, put: map<Scope, seq<RemoteCommand>>)
  {
    function Get(s: Scope): Option<seq<RemoteCommand>> { if s in get then Some(get[s]) else None }
    function Put(s: Scope): Option<seq<RemoteCommand>> { if s in put then Some(put[s]) else None }
  }

  /** What one scope's step did. */
  datatype StepResult =
    | Failed                                 // compareCommands threw
    | Checked(changes: bool)                 // compared only (dev mode, or nothing to update)
    | Pushed(body: seq<Wire>, accepted: bool) // a PUT was sent

  /**
   * The outcome of `compareCommands` (dev mode) or `updateCommands` for one
   * scope: a failed GET detects no change; a PUT is sent only when changes
   * are detected, with the non-null conversions as its body.
   */
  function Step(cmds: seq<Command>, devMode: bool, get: Option<seq<RemoteCommand>>, put: Option<seq<RemoteCommand>>): StepResult
  {
    match get
    case None => Checked(false)
    case Some(list) =>
      match SomeChanged(cmds, list)
      case None => Failed
      case Some(changed) =>
        if devMode || !changed then Checked(changed) else Pushed(ConvertAll(cmds), put.Some?)
  }

  /**
   * A failed GET detects no change; a PUT is sent exactly when, outside dev
   * mode, the GET succeeds and changes are detected, and then its body is the
   * non-null conversions; the step throws exactly when the check throws.
   */
  lemma StepCases(cmds: seq<Command>, devMode: bool, get: Option<seq<RemoteCommand>>, put: Option<seq<RemoteCommand>>)
    ensures var r := Step(cmds, devMode, get, put);
            (get.None? ==> r == Checked(false))
            && (r.Pushed? ==> r.body == ConvertAll(cmds) && (r.accepted <==> put.Some?))
            && (r.Pushed? <==> !devMode && get.Some? && SomeChanged(cmds, get.value) == Some(true))
            && (r.Failed? <==> get.Some? && SomeChanged(cmds, get.value).None?)
  {
  }

  /** `rawCommands` after one scope's step: the GET result, replaced by the PUT result when that succeeds. */
  function RawAfterStep(raw: seq<RemoteCommand>, cmds: seq<Command>, devMode: bool,
                        get: Option<seq<RemoteCommand>>, put: Option<seq<RemoteCommand>>): seq<RemoteCommand>
  {
    match get
    case None => raw
    case Some(list) =>
      if Step(cmds, devMode, get, put).Pushed? && put.Some? then put.value else list
  }

  /** The state after synchronising the given scopes in order: `rawCommands` and whether a step threw. */
  datatype SyncState = SyncState(raw: seq<RemoteCommand>, failed: bool)

  lemma TakeSnoc<T>(s: seq<T>, n: nat)
    requires n < |s|
    ensures s[..n + 1] == s[..n] + [s[n]]
  {
  }

  lemma TakeDrop<T>(s: seq<T>, n: nat)
    requires n <= |s|
    ensures s[..n] + s[n..] == s && s[..|s|] == s
  {
  }

  /** The state after one more scope: nothing happens once a step has thrown. */
  function Advance(prev: SyncState, job: (Scope, seq<Command>), devMode: bool, net: Remote): SyncState
  {
    var (scope, cmds) := job;
    if prev.failed then prev
    else
      SyncState(RawAfterStep(prev.raw, cmds, devMode, net.Get(scope), net.Put(scope)),
                Step(cmds, devMode, net.Get(scope), net.Put(scope)).Failed?)
  }

  function SyncAfter(raw: seq<RemoteCommand>, jobs: seq<(Scope, seq<Command>)>, devMode: bool, net: Remote): (r: SyncState)
    decreases |jobs|
  {
    if jobs == [] then SyncState(raw, false)
    else Advance(SyncAfter(raw, jobs[..|jobs| - 1], devMode, net), jobs[|jobs| - 1], devMode, net)
  }

  lemma SyncAfterSnoc(raw: seq<RemoteCommand>, jobs: seq<(Scope, seq<Command>)>, job: (Scope, seq<Command>), devMode: bool, net: Remote)
    ensures SyncAfter(raw, jobs + [job], devMode, net) == Advance(SyncAfter(raw, jobs, devMode, net), job, devMode, net)
  {
    assert (jobs + [job])[..|jobs + [job]| - 1] == jobs;
  }

  /**
   * `rawCommands` is overwritten per scope: when the last scope's GET succeeds
   * and nothing threw, it holds that scope's list (or its PUT result) and nothing
   * from earlier scopes.
   */
  lemma LastScopeWins(raw: seq<RemoteCommand>, jobs: seq<(Scope, seq<Command>)>, devMode: bool, net: Remote)
    requires jobs != [] && !SyncAfter(raw, jobs, devMode, net).failed
    requires net.Get(jobs[|jobs| - 1].0).Some?
    ensures var (scope, cmds) := jobs[|jobs| - 1];
            SyncAfter(raw, jobs, devMode, net).raw == RawAfterStep([], cmds, devMode, net.Get(scope), net.Put(scope))
  {
  }

  /** A step that throws stops the synchronisation: later scopes are not visited and `rawCommands` stays. */
  lemma {:induction false} FailureSticks(raw: seq<RemoteCommand>, jobs: seq<(Scope, seq<Command>)>, more: seq<(Scope, seq<Command>)>,
                                         devMode: bool, net: Remote)
    requires SyncAfter(raw, jobs, devMode, net).failed
    ensures SyncAfter(raw, jobs + more, devMode, net) == SyncAfter(raw, jobs, devMode, net)
    decreases |more|
  {
    if more == [] {
      assert jobs + more == jobs;
    } else {
      assert (jobs + more)[..|jobs + more| - 1] == jobs + more[..|more| - 1];
      FailureSticks(raw, jobs, more[..|more| - 1], devMode, net);
    }
  }

  /** The id a command receives: that of the first remote command with its name, if any. */
  function IdFor(raw: seq<RemoteCommand>, name: string): (r: Option<string>)
    ensures r.None? <==> forall j :: 0 <= j < |raw| ==> raw[j].name != name
    ensures r.Some? ==> exists k :: 0 <= k < |raw| && raw[k].id == r.value && raw[k].name == name
                          && forall j :: 0 <= j < k ==> raw[j].name != name
  {
    match FindRemote(raw, name)
    case None => None
    case Some(m) => Some(m.id)
  }
}
