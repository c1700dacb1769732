/** packages/fixtures/replay/mock-daemon-client.ts: subscriptions that resume
    from cursors the client keeps between sessions. */
module MockDaemonClient {
  import opened Sorting
  import opened EventStream
  import opened Json

  // ----- the client object

  function Scope(channel: Option<string>): Event -> bool {
    (e: Event) => channel.None? || channel.value == "" || e.channel == channel.value
  }

  /** The events a reaction handed to the subscriber: none or one. */
  function Handed(before: Session, after: Session): seq<Event> {
    if 0 <= Given(before) < Given(after) && Given(before) < |after.plan| then [after.plan[Given(before)]] else []
  }

  /** A new session hands out its first event at once or not yet. */
  lemma StartHands(events: seq<Event>, speed: Speed, from: Cursors, startWall: int, now: int)
    ensures var s := Start(events, speed, from, startWall, now);
            && (s.phase == InCallback ==> s.next < |s.plan|)
            && Handed(Fresh(events, speed, from, startWall), s)
            == if s.phase == InCallback then [s.plan[s.next]] else []
  {
    StartConsistent(events, speed, from, startWall, now);
  }

  lemma AdvancedOne(c: Cursors, e: Event)
    ensures AdvancedAll(c, []) == c
    ensures AdvancedAll(c, [e]) == Advanced(c, e)
  {
    assert [e][..0] == [];
    assert AdvancedAll(c, [e]) == Advanced(AdvancedAll(c, []), e);
  }

  // ----- the client as a value, with all of its sessions

  datatype Subscription = Subscription(session: Session, channel: Option<string>)

  datatype Client = Client(scenario: seq<Event>, cursors: Cursors, subs: seq<Subscription>, log: seq<Event>)

  datatype Stimulus =
    | Subscribe(channel: Option<string>, from: Option<Cursors>, speed: Speed, startWall: int, now: int)
    | Swap(events: seq<Event>)
    | Signalled(i: nat, signal: Signal)

  function Observed(c: Client, before: Session, after: Session): Client {
    c.(cursors := AdvancedAll(c.cursors, Handed(before, after)), log := c.log + Handed(before, after))
  }

  function Next(c: Client, a: Stimulus): Client {
    match a
    case Subscribe(channel, fromCursors, speed, startWall, now) =>
      var from := if fromCursors.Some? then fromCursors.value else c.cursors;
      var events := Filtered(c.scenario, Scope(channel));
      var s := Start(events, speed, from, startWall, now);
      Observed(c, Fresh(events, speed, from, startWall), s).(subs := c.subs + [Subscription(s, channel)])
    case Swap(events) => c.(scenario := events, cursors := map[])
    case Signalled(i, signal) =>
      if i >= |c.subs| then c
      else
        var s := c.subs[i].session;
        Observed(c, s, React(s, signal)).(subs := c.subs[i := c.subs[i].(session := React(s, signal))])
  }

  // ----- the client as an object

  ghost function SubsOf(sessions: seq<ReplaySession>, channels: seq<Option<string>>): (r: seq<Subscription>)
    requires |sessions| == |channels|
    reads sessions
    ensures |r| == |sessions| && forall i | 0 <= i < |r| :: r[i] == Subscription(sessions[i].State(), channels[i])
  {
    if sessions == [] then []
    else
      var n := |sessions| - 1;
      SubsOf(sessions[..n], channels[..n]) + [Subscription(sessions[n].State(), channels[n])]
  }

  class MockDaemonClient {
    var scenario: seq<Event>
    var cursors: Cursors
    /** What the callers of `subscribe` received, over all sessions. */
    var log: seq<Event>
    /** The sessions subscribed so far and their channels; the object itself keeps
        no hold of them. */
    ghost var sessions: seq<ReplaySession>
    ghost var channels: seq<Option<string>>

    ghost predicate Valid()
      reads this, sessions
    {
      && |sessions| == |channels|
      && (forall i, j | 0 <= i < j < |sessions| :: sessions[i] != sessions[j])
      && (forall i | 0 <= i < |sessions| :: Consistent(sessions[i].State()))
    }

    /** The client and its sessions as a value. */
    ghost function State(): Client
      requires |sessions| == |channels|
      reads this, sessions
    {
      Client(scenario, cursors, SubsOf(sessions, channels), log)
    }

    constructor (events: seq<Event>)
      ensures Valid() && State() == Client(events, map[], [], [])
    {
      scenario, cursors, log, sessions, channels := events, map[], [], [], [];
    }

    /** The subscriber `subscribe` wraps around the caller's callback. */
    method OnEvent(e: Event)
      modifies this`cursors, this`log
      ensures cursors == Advanced(old(cursors), e) && log == old(log) + [e]
    {
      cursors := cursors[e.channel := Max(CursorAt(cursors, e.channel), e.seqNo)];
      log := log + [e];
    }

    method Subscribe(channel: Option<string>, fromCursors: Option<Cursors>, speed: Speed, startWall: int, now: int)
        returns (session: ReplaySession)
      requires Valid()
      modifies this`cursors, this`log, this`sessions, this`channels
      ensures fresh(session) && Valid() && sessions == old(sessions) + [session]
      ensures State() == Next(old(State()), Stimulus.Subscribe(channel, fromCursors, speed, startWall, now))
    {
      hide AdvancedAll, SubsOf, Start, Fresh, Handed, Filtered, Consistent;
      ghost var c := State();
      session := Open(channel, fromCursors, speed, startWall, now);
      ghost var from := if fromCursors.Some? then fromCursors.value else c.cursors;
      StartConsistent(Filtered(scenario, Scope(channel)), speed, from, startWall, now);
      sessions, channels := sessions + [session], channels + [channel];
      assert SubsOf(sessions, channels) == c.subs + [Subscription(session.State(), channel)];
    }

    method Open(channel: Option<string>, fromCursors: Option<Cursors>, speed: Speed, startWall: int, now: int)
        returns (session: ReplaySession)
      modifies this`cursors, this`log
      ensures fresh(session)
      ensures var from := if fromCursors.Some? then fromCursors.value else old(cursors);
              var events := Filtered(scenario, Scope(channel));
              && session.State() == Start(events, speed, from, startWall, now)
              && log == old(log) + Handed(Fresh(events, speed, from, startWall), session.State())
              && cursors == AdvancedAll(old(cursors), Handed(Fresh(events, speed, from, startWall), session.State()))
    {
      var events := if channel.Some? && channel.value != "" then Filtered(scenario, Scope(channel)) else scenario;
      if channel.None? || channel.value == "" { FilteredAll(scenario, Scope(channel)); }
      var from := if fromCursors.Some? then fromCursors.value else cursors;
      session := new ReplaySession(events, speed, from, startWall, now);
      StartHands(events, speed, from, startWall, now);
      if session.phase == InCallback {
        AdvancedOne(cursors, session.plan[session.next]);
        OnEvent(session.plan[session.next]);
      }
    }

    /** Session `i` of this client reacts to a signal; an event it hands out goes
        through `OnEvent`. */
    method Dispatch(session: ReplaySession, ghost i: nat, signal: Signal)
      requires Valid() && i < |sessions| && session == sessions[i]
      modifies this`cursors, this`log, session
      ensures Valid() && sessions == old(sessions)
      ensures State() == Next(old(State()), Signalled(i, signal))
    {
      hide AdvancedAll, SubsOf, React, Handed, Consistent;
      ghost var c := State();
      ReactConsistent(session.State(), signal);
      Hear(session, signal);
      assert SubsOf(sessions, channels) == c.subs[i := Subscription(session.State(), channels[i])];
    }

    method Hear(session: ReplaySession, signal: Signal)
      requires Consistent(session.State())
      modifies this`cursors, this`log, session
      ensures session.State() == React(old(session.State()), signal)
      ensures log == old(log) + Handed(old(session.State()), session.State())
      ensures cursors == AdvancedAll(old(cursors), Handed(old(session.State()), session.State()))
    {
      ghost var s := session.State();
      ReactConsistent(s, signal);
      match signal {
        case Cancel =>
          session.CancelSession();
          return;
        case Woke =>
          if session.phase != Sleeping { return; }
          session.SleepEnds();
        case Settled(ok, now) =>
          if session.phase != InCallback { return; }
          session.CallbackSettles(ok, now);
      }
      if session.phase == InCallback {
        AdvancedOne(cursors, session.plan[session.next]);
        OnEvent(session.plan[session.next]);
      }
    }

    method SwapScenario(events: seq<Event>)
      requires Valid()
      modifies this`scenario, this`cursors
      ensures Valid() && sessions == old(sessions)
      ensures State() == Next(old(State()), Swap(events))
    {
      scenario := events;
      cursors := map[];
      assert SubsOf(sessions, channels) == old(SubsOf(sessions, channels));
    }
  }

  // ----- runs of the client

  function Run(c: Client, stimuli: seq<Stimulus>): Client
    decreases |stimuli|
  {
    if stimuli == [] then c else Run(Next(c, stimuli[0]), stimuli[1..])
  }

  /** A session that may still hand out events. */
  predicate Live(s: Session) {
    s.phase != Done && !s.canceled
  }

  predicate NoneLive(c: Client) {
    forall i | 0 <= i < |c.subs| :: !Live(c.subs[i].session)
  }

  predicate InTurn(c: Client, a: Stimulus) {
    match a
    case Subscribe(_, from, _, _, _) => (from.None? || from.value == c.cursors) && NoneLive(c)
    case Swap(_) => false
    case Signalled(_, _) => true
  }

  /** One session at a time: nobody subscribes while a session may still hand out
      events, every subscription resumes from the client's own cursors, and the
      scenario stays. */
  predicate OneAtATime(c: Client, stimuli: seq<Stimulus>)
    decreases |stimuli|
  {
    stimuli != [] ==> InTurn(c, stimuli[0]) && OneAtATime(Next(c, stimuli[0]), stimuli[1..])
  }

  predicate Unscoped(channel: Option<string>) {
    channel.None? || channel.value == ""
  }

  /** The subscriptions made since there were `base` of them have no filter. */
  predicate AllUnscoped(c: Client, base: nat) {
    forall i | base <= i < |c.subs| :: Unscoped(c.subs[i].channel)
  }

  function OnChannel(ch: string): Event -> bool {
    (e: Event) => e.channel == ch
  }

  // ----- what one hand-over does to the plan that is left

  /** The log and the plan that is left make up the full replay: channel by
      channel, and as a whole if `whole`. */
  ghost predicate Accounts(full: seq<Event>, log: seq<Event>, left: seq<Event>, whole: bool) {
    && (forall ch :: OnChannels(log, left, ch) == Filtered(full, OnChannel(ch)))
    && (whole ==> log + left == full)
  }

  function OnChannels(log: seq<Event>, left: seq<Event>, ch: string): seq<Event> {
    Filtered(log, OnChannel(ch)) + Filtered(left, OnChannel(ch))
  }

  lemma {:induction false} FilteredIncreases(plan: seq<Event>, keep: Event -> bool)
    requires ChannelsIncrease(plan)
    ensures ChannelsIncrease(Filtered(plan, keep))
  {
    var rel := (a: Event, b: Event) => a.channel == b.channel ==> a.seqNo < b.seqNo;
    var kept := Filtered(plan, keep);
    FilteredSorted(plan, keep, rel);
    forall i, j | 0 <= i < j < |kept| && kept[i].channel == kept[j].channel
      ensures kept[i].seqNo < kept[j].seqNo
    {
      assert rel(kept[i], kept[j]);
    }
  }

  lemma OneDropped(front: seq<Event>, e: Event, back: seq<Event>, keep: Event -> bool)
    requires (forall x | x in front :: keep(x)) && !keep(e) && (forall x | x in back :: keep(x))
    ensures Filtered(front + ([e] + back), keep) == front + back
  {
    FilteredAll(front, keep);
    FilteredAll(back, keep);
    FilteredCons(e, back, keep);
    FilteredAppend(front, [e] + back, keep);
  }

  lemma LaterOnChannel(plan: seq<Event>, i: nat, x: Event)
    requires i < |plan| && ChannelsIncrease(plan) && x in plan[i + 1..] && x.channel == plan[i].channel
    ensures x.seqNo > plan[i].seqNo
  {
    var j :| 0 <= j < |plan[i + 1..]| && plan[i + 1..][j] == x;
    assert plan[i + 1 + j] == x;
  }

  /** Handing out `plan[i]`, the first event of its channel, takes exactly that
      event off the plan. */
  lemma TakenOff(plan: seq<Event>, front: seq<Event>, e: Event, back: seq<Event>, cursors: Cursors)
    requires plan == front + ([e] + back) && ChannelsIncrease(plan)
    requires forall x | x in plan :: After(cursors)(x)
    requires forall x | x in front :: x.channel != e.channel
    ensures Filtered(plan, After(Advanced(cursors, e))) == front + back
  {
    var keep := After(Advanced(cursors, e));
    assert plan[|front|] == e && plan[|front| + 1..] == back;
    forall x | x in front ensures keep(x) {
      assert x in plan;
      assert After(cursors)(x);
    }
    forall x | x in back ensures keep(x) {
      assert x in plan;
      assert After(cursors)(x);
      if x.channel == e.channel { LaterOnChannel(plan, |front|, x); }
    }
    assert !keep(e);
    OneDropped(front, e, back, keep);
  }

  lemma ChannelAccount(log: seq<Event>, front: seq<Event>, e: Event, back: seq<Event>, ch: string)
    requires forall x | x in front :: x.channel != e.channel
    ensures OnChannels(log + [e], front + back, ch) == OnChannels(log, front + ([e] + back), ch)
  {
    hide Filtered;
    var p := OnChannel(ch);
    FilteredAppend(log, [e], p);
    FilteredAppend(front, back, p);
    FilteredAppend(front, [e] + back, p);
    FilteredCons(e, back, p);
    FilteredOne(e, p);
    var l, f, b := Filtered(log, p), Filtered(front, p), Filtered(back, p);
    if e.channel == ch {
      FilteredNone(front, p);
      assert (l + [e]) + ([] + b) == l + ([] + ([e] + b));
    } else {
      assert (l + []) + (f + b) == l + (f + b);
    }
  }

  lemma AccountMoves(full: seq<Event>, log: seq<Event>, front: seq<Event>, e: Event, back: seq<Event>, whole: bool)
    requires Accounts(full, log, front + ([e] + back), whole)
    requires forall x | x in front :: x.channel != e.channel
    requires whole ==> front == []
    ensures Accounts(full, log + [e], front + back, whole)
  {
    forall ch
      ensures OnChannels(log + [e], front + back, ch) == Filtered(full, OnChannel(ch))
    {
      ChannelAccount(log, front, e, back, ch);
    }
    if whole { assert log + [e] + (front + back) == log + (front + ([e] + back)); }
  }

  /** The running session's next event within the plan that is left. */
  lemma NextInLeft(left: seq<Event>, channel: Option<string>, rest: seq<Event>)
      returns (front: seq<Event>, e: Event, back: seq<Event>)
    requires rest != [] && rest == Filtered(left, Scope(channel))
    ensures left == front + ([e] + back) && e == rest[0]
    ensures forall x | x in front :: x.channel != e.channel
    ensures Unscoped(channel) ==> front == []
    ensures rest[1..] == Filtered(front + back, Scope(channel))
  {
    hide Filtered;
    var i := FirstKept(left, Scope(channel));
    front, e, back := left[..i], left[i], left[i + 1..];
    assert left == front + ([e] + back);
    assert rest[1..] == Filtered(back, Scope(channel));
    forall x | x in front ensures !Scope(channel)(x) {
      var j :| 0 <= j < |front| && front[j] == x;
      assert left[j] == x;
    }
    FilteredNone(front, Scope(channel));
    FilteredAppend(front, back, Scope(channel));
    if Unscoped(channel) { assert Scope(channel)(left[0]); }
  }

  /** Handing out the next event of the running session keeps the account, and
      the session keeps tracking its part of the plan that is left. */
  lemma HandOver(full: seq<Event>, log: seq<Event>, left: seq<Event>, cursors: Cursors,
                 channel: Option<string>, rest: seq<Event>, whole: bool)
    requires Accounts(full, log, left, whole) && ChannelsIncrease(left)
    requires forall x | x in left :: After(cursors)(x)
    requires rest != [] && rest == Filtered(left, Scope(channel))
    requires whole ==> Unscoped(channel)
    ensures var left' := Filtered(left, After(Advanced(cursors, rest[0])));
            Accounts(full, log + [rest[0]], left', whole) && rest[1..] == Filtered(left', Scope(channel))
  {
    var front, e, back := NextInLeft(left, channel, rest);
    TakenOff(left, front, e, back, cursors);
    AccountMoves(full, log, front, e, back, whole);
  }

  // ----- runs

  function Left(c: Client): seq<Event> {
    Plan(c.scenario, c.cursors)
  }

  /** What is left of a session's plan is what the cursors leave of its scope. */
  ghost predicate Tracks(s: Session, channel: Option<string>, left: seq<Event>) {
    Consistent(s) && s.plan[Given(s)..] == Filtered(left, Scope(channel))
  }

  /** What has been received since `c0`. */
  function Since(c0: Client, c: Client): seq<Event> {
    if |c0.log| <= |c.log| then c.log[|c0.log|..] else []
  }

  /** The invariant of one-at-a-time runs from `c0`. */
  ghost predicate Inv(c0: Client, c: Client) {
    && |c0.subs| <= |c.subs| && |c0.log| <= |c.log|
    && ChannelsIncrease(Left(c))
    && Accounts(Left(c0), Since(c0, c), Left(c), AllUnscoped(c, |c0.subs|))
    && AllConsistent(c)
    && (forall i | 0 <= i < |c.subs| - 1 :: !Live(c.subs[i].session))
    && if |c.subs| == |c0.subs| then NoneLive(c)
       else Tracks(c.subs[|c.subs| - 1].session, c.subs[|c.subs| - 1].channel, Left(c))
  }

  ghost predicate AllConsistent(c: Client) {
    forall i | 0 <= i < |c.subs| :: Consistent(c.subs[i].session)
  }

  lemma LeftAfter(c: Client, e: Event)
    ensures Plan(c.scenario, Advanced(c.cursors, e)) == Filtered(Left(c), After(Advanced(c.cursors, e)))
    ensures forall x | x in Left(c) :: After(c.cursors)(x)
  {
    PlanFromLater(c.scenario, c.cursors, Advanced(c.cursors, e));
    PlanMembers(c.scenario, c.cursors);
  }

  lemma PlanScoped(events: seq<Event>, cursors: Cursors, channel: Option<string>)
    ensures Plan(Filtered(events, Scope(channel)), cursors) == Filtered(Plan(events, cursors), Scope(channel))
  {
    EventOrder();
    FilteredSwap(events, Scope(channel), After(cursors));
    SortFiltered(Filtered(events, After(cursors)), Scope(channel), EventLe);
  }

  lemma NothingHanded(c: Client, before: Session, after: Session)
    requires Given(after) == Given(before)
    ensures Observed(c, before, after) == c
  {
    assert c.log + [] == c.log;
  }

  lemma AccountsWeaker(full: seq<Event>, log: seq<Event>, left: seq<Event>, strong: bool, weak: bool)
    requires Accounts(full, log, left, strong) && (weak ==> strong)
    ensures Accounts(full, log, left, weak)
  {
  }

  /** One reaction `before` -> `after` of the session that is running. */
  lemma ReactionKeeps(c0: Client, c: Client, channel: Option<string>, before: Session, after: Session, whole: bool)
    requires |c0.log| <= |c.log|
    requires ChannelsIncrease(Left(c)) && Accounts(Left(c0), Since(c0, c), Left(c), whole)
    requires 0 <= Given(before) <= |before.plan| && before.plan[Given(before)..] == Filtered(Left(c), Scope(channel))
    requires Consistent(after) && after.plan == before.plan && Given(before) <= Given(after) <= Given(before) + 1
    requires whole ==> Unscoped(channel)
    ensures var r := Observed(c, before, after);
            && |c0.log| <= |r.log|
            && ChannelsIncrease(Left(r)) && Accounts(Left(c0), Since(c0, r), Left(r), whole)
            && Tracks(after, channel, Left(r))
  {
    var r := Observed(c, before, after);
    if Given(after) == Given(before) {
      NothingHanded(c, before, after);
    } else {
      var rest := before.plan[Given(before)..];
      var e := rest[0];
      LeftAfter(c, e);
      HandOver(Left(c0), Since(c0, c), Left(c), c.cursors, channel, rest, whole);
      FilteredIncreases(Left(c), After(Advanced(c.cursors, e)));
      AdvancedOne(c.cursors, e);
      assert r.cursors == Advanced(c.cursors, e);
      assert Since(c0, r) == Since(c0, c) + [e];
      assert rest[1..] == after.plan[Given(after)..];
    }
  }

  lemma UnscopedBefore(c: Client, channel: Option<string>, r: Client, base: nat)
    requires |r.subs| == |c.subs| + 1 && r.subs[..|c.subs|] == c.subs && r.subs[|c.subs|].channel == channel
        && base <= |c.subs|
    ensures AllUnscoped(r, base) <==> AllUnscoped(c, base) && Unscoped(channel)
  {
    assert forall i | 0 <= i < |c.subs| :: r.subs[..|c.subs|][i] == r.subs[i];
  }

  lemma SubscribeKeeps(c0: Client, c: Client, a: Stimulus)
    requires Inv(c0, c) && NoneLive(c) && a.Subscribe? && (a.from.None? || a.from.value == c.cursors)
    ensures Inv(c0, Next(c, a))
  {
    hide Plan, LoopTop, Accounts, ChannelsIncrease, AdvancedAll, Filtered, Consistent;
    var events := Filtered(c.scenario, Scope(a.channel));
    var before := Fresh(events, a.speed, c.cursors, a.startWall);
    var after := Start(events, a.speed, c.cursors, a.startWall, a.now);
    StartConsistent(events, a.speed, c.cursors, a.startWall, a.now);
    PlanScoped(c.scenario, c.cursors, a.channel);
    assert before.plan[0..] == before.plan;
    var r := Next(c, a);
    assert r.subs == c.subs + [Subscription(after, a.channel)];
    var whole := AllUnscoped(c, |c0.subs|) && Unscoped(a.channel);
    AccountsWeaker(Left(c0), Since(c0, c), Left(c), AllUnscoped(c, |c0.subs|), whole);
    ReactionKeeps(c0, c, a.channel, before, after, whole);
    UnscopedBefore(c, a.channel, r, |c0.subs|);
    assert Left(r) == Left(Observed(c, before, after)) && Since(c0, r) == Since(c0, Observed(c, before, after));
  }

  /** A session that is no longer live changes nothing but itself. */
  lemma DeadSignalKeeps(c0: Client, c: Client, i: nat, signal: Signal)
    requires Inv(c0, c) && i < |c.subs| && (i < |c.subs| - 1 || |c.subs| == |c0.subs|)
    ensures Inv(c0, Next(c, Signalled(i, signal)))
  {
    hide Plan, React, Accounts, ChannelsIncrease, AdvancedAll, Filtered, Consistent;
    var r := Next(c, Signalled(i, signal));
    var before := c.subs[i].session;
    ReactConsistent(before, signal);
    NothingHanded(c, before, React(before, signal));
    assert r == c.(subs := c.subs[i := Subscription(React(before, signal), c.subs[i].channel)]);
    SameScopes(c, r, |c0.subs|);
    assert Left(r) == Left(c) && Since(c0, r) == Since(c0, c);
  }

  lemma LastSignalKeeps(c0: Client, c: Client, signal: Signal)
    requires Inv(c0, c) && |c.subs| > |c0.subs|
    ensures Inv(c0, Next(c, Signalled(|c.subs| - 1, signal)))
  {
    hide Plan, React, Accounts, ChannelsIncrease, AdvancedAll, Filtered, Consistent;
    var i := |c.subs| - 1;
    var before, after := c.subs[i].session, React(c.subs[i].session, signal);
    var seen := Observed(c, before, after);
    var r := seen.(subs := c.subs[i := Subscription(after, c.subs[i].channel)]);
    assert r == Next(c, Signalled(i, signal));
    ReactConsistent(before, signal);
    ReactionKeeps(c0, c, c.subs[i].channel, before, after, AllUnscoped(c, |c0.subs|));
    SameScopes(c, r, |c0.subs|);
    LastReplaced(c0, c, seen, r, after);
  }

  lemma LastReplaced(c0: Client, c: Client, seen: Client, r: Client, after: Session)
    requires Inv(c0, c) && |c.subs| > |c0.subs| && |c0.log| <= |seen.log| && seen.scenario == c.scenario
    requires r == seen.(subs := c.subs[|c.subs| - 1 := Subscription(after, c.subs[|c.subs| - 1].channel)])
    requires ChannelsIncrease(Left(seen))
    requires Accounts(Left(c0), Since(c0, seen), Left(seen), AllUnscoped(r, |c0.subs|))
    requires Tracks(after, c.subs[|c.subs| - 1].channel, Left(seen))
    ensures Inv(c0, r)
  {
    assert Left(r) == Left(seen) && Since(c0, r) == Since(c0, seen);
    assert r.subs[|r.subs| - 1] == Subscription(after, c.subs[|c.subs| - 1].channel);
  }

  lemma SameScopes(c: Client, r: Client, base: nat)
    requires |r.subs| == |c.subs| && forall j | 0 <= j < |c.subs| :: r.subs[j].channel == c.subs[j].channel
    ensures AllUnscoped(r, base) == AllUnscoped(c, base)
  {
    if !AllUnscoped(c, base) {
      var j :| base <= j < |c.subs| && !Unscoped(c.subs[j].channel);
      assert !Unscoped(r.subs[j].channel);
    }
    if !AllUnscoped(r, base) {
      var j :| base <= j < |c.subs| && !Unscoped(r.subs[j].channel);
      assert !Unscoped(c.subs[j].channel);
    }
  }

  lemma StepKeeps(c0: Client, c: Client, a: Stimulus)
    requires Inv(c0, c) && InTurn(c, a)
    ensures Inv(c0, Next(c, a))
  {
    if a.Subscribe? {
      SubscribeKeeps(c0, c, a);
    } else {
      SignalKeeps(c0, c, a.i, a.signal);
    }
  }

  lemma SignalKeeps(c0: Client, c: Client, i: nat, signal: Signal)
    requires Inv(c0, c)
    ensures Inv(c0, Next(c, Signalled(i, signal)))
  {
    hide Accounts, ChannelsIncrease, React, Plan, Consistent, Filtered, Tracks, Handed;
    if i >= |c.subs| {
      assert Next(c, Signalled(i, signal)) == c;
    } else if i == |c.subs| - 1 && |c.subs| > |c0.subs| {
      LastSignalKeeps(c0, c, signal);
    } else {
      DeadSignalKeeps(c0, c, i, signal);
    }
  }

  lemma {:induction false} RunKeeps(c0: Client, c: Client, stimuli: seq<Stimulus>)
    requires Inv(c0, c) && OneAtATime(c, stimuli)
    ensures Inv(c0, Run(c, stimuli))
    decreases |stimuli|
  {
    if stimuli != [] {
      StepKeeps(c0, c, stimuli[0]);
      RunKeeps(c0, Next(c, stimuli[0]), stimuli[1..]);
    }
  }

  /** The session has handed out its whole plan.  It does so before it would report
      onEnd; the subscriber the client wraps around a callback has no onEnd. */
  predicate HandedAll(s: Session) {
    Given(s) == |s.plan|
  }

  lemma EndedHandedAll(s: Session)
    requires Consistent(s) && OnEnd in s.calls
    ensures HandedAll(s)
  {
  }

  /** On every channel within the filter, `received` is all of `full`. */
  ghost predicate InFull(received: seq<Event>, full: seq<Event>, channel: Option<string>) {
    forall ch | Unscoped(channel) || channel.value == ch ::
      Filtered(received, OnChannel(ch)) == Filtered(full, OnChannel(ch))
  }

  /** When the last session has nothing left, neither have its channels. */
  lemma NothingOnChannel(s: Session, channel: Option<string>, left: seq<Event>, ch: string)
    requires Tracks(s, channel, left) && HandedAll(s) && (Unscoped(channel) || channel.value == ch)
    ensures Filtered(left, OnChannel(ch)) == []
  {
    hide Consistent;
    FilteredMembers(left, Scope(channel));
    assert Filtered(left, Scope(channel)) == [];
    assert forall x | x in left :: !Scope(channel)(x);
    FilteredNone(left, OnChannel(ch));
  }

  lemma ChannelsComplete(full: seq<Event>, received: seq<Event>, left: seq<Event>, whole: bool, s: Session,
      channel: Option<string>)
    requires Accounts(full, received, left, whole) && Tracks(s, channel, left) && HandedAll(s)
    ensures InFull(received, full, channel)
  {
    hide Tracks, HandedAll, Filtered;
    forall ch | Unscoped(channel) || channel.value == ch
      ensures Filtered(received, OnChannel(ch)) == Filtered(full, OnChannel(ch))
    {
      NothingOnChannel(s, channel, left, ch);
      assert OnChannels(received, left, ch) == Filtered(full, OnChannel(ch));
      assert Filtered(received, OnChannel(ch)) + [] == Filtered(received, OnChannel(ch));
    }
  }

  /** Exactly once.  Start with any client none of whose sessions is live, any
      scenario and any cursors; subscribe, cancel anywhere, let callbacks fail,
      resubscribe, as often as wanted, one session at a time.  If sequence
      numbers are unique on each channel and agree with the timestamps, then on
      every channel the deliveries so far followed by what the cursors leave are
      the uninterrupted replay: nothing is lost and nothing comes twice.  Without
      channel filters this holds for the whole stream in order.  Once the last
      session has handed out its plan, the deliveries on the channels it covers are
      the uninterrupted replay there, and without filters all of it. */
  lemma ExactlyOnce(c: Client, stimuli: seq<Stimulus>)
    requires NoneLive(c) && AllConsistent(c) && OneAtATime(c, stimuli)
    requires Pairwise(Filtered(c.scenario, After(c.cursors)), Agree)
    ensures var full, r := Plan(c.scenario, c.cursors), Run(c, stimuli);
            && c.log <= r.log && |c.subs| <= |r.subs|
            && var received := r.log[|c.log|..];
               && (forall ch :: OnChannels(received, Left(r), ch) == Filtered(full, OnChannel(ch)))
               && (AllUnscoped(r, |c.subs|) ==> received + Left(r) == full)
               && (|r.subs| > |c.subs| && HandedAll(r.subs[|r.subs| - 1].session)
                   ==> InFull(received, full, r.subs[|r.subs| - 1].channel))
               && (AllUnscoped(r, |c.subs|) && |r.subs| > |c.subs| && HandedAll(r.subs[|r.subs| - 1].session)
                   ==> received == full)
  {
    hide Plan, React, Run, OneAtATime, Pairwise, Filtered, OnChannels, ChannelsIncrease, Tracks;
    StartInv(c);
    RunKeeps(c, c, stimuli);
    LogGrows(c, stimuli);
    var r := Run(c, stimuli);
    if |r.subs| > |c.subs| && HandedAll(r.subs[|r.subs| - 1].session) {
      var last := r.subs[|r.subs| - 1];
      ChannelsComplete(Left(c), Since(c, r), Left(r), AllUnscoped(r, |c.subs|), last.session, last.channel);
    }
    if AllUnscoped(r, |c.subs|) && |r.subs| > |c.subs| && HandedAll(r.subs[|r.subs| - 1].session) {
      NothingLeft(r.subs[|r.subs| - 1].session, r.subs[|r.subs| - 1].channel, Left(r));
      var received := Since(c, r);
      assert received + [] == received;
    }
  }

  lemma StartInv(c: Client)
    requires NoneLive(c) && AllConsistent(c) && Pairwise(Filtered(c.scenario, After(c.cursors)), Agree)
    ensures Inv(c, c)
  {
    AgreeIff(c.scenario, c.cursors);
    assert Since(c, c) == [] && [] + Left(c) == Left(c);
  }

  lemma NothingLeft(s: Session, channel: Option<string>, left: seq<Event>)
    requires Tracks(s, channel, left) && HandedAll(s) && Unscoped(channel)
    ensures left == []
  {
    FilteredAll(left, Scope(channel));
  }

  lemma {:induction false} LogGrows(c: Client, stimuli: seq<Stimulus>)
    ensures c.log <= Run(c, stimuli).log
    decreases |stimuli|
  {
    if stimuli != [] { LogGrows(Next(c, stimuli[0]), stimuli[1..]); }
  }

  // ----- what the hypotheses are for

  /** After `swapScenario`, a fresh subscription replays the new scenario in full
      exactly when no cursor covers one of its events. */
  lemma FullReplayIff(events: seq<Event>, cursors: Cursors)
    ensures Plan(events, cursors) == Plan(events, map[])
       <==> forall e | e in events && e.seqNo > 0 :: e.seqNo > CursorAt(cursors, e.channel)
  {
    PlanMembers(events, cursors);
    PlanMembers(events, map[]);
    if forall e | e in events && e.seqNo > 0 :: e.seqNo > CursorAt(cursors, e.channel) {
      FilteredAgree(events, After(cursors), After(map[]));
    } else {
      var e :| e in events && e.seqNo > 0 && e.seqNo <= CursorAt(cursors, e.channel);
      assert e in Plan(events, map[]) && e !in Plan(events, cursors);
    }
  }

  /** If nothing is live at the swap, the new scenario is delivered exactly once,
      from its beginning: the cursors are empty and stay so until a new
      subscription. */
  lemma SwapWhenQuiet(c: Client, events: seq<Event>, stimuli: seq<Stimulus>)
    requires NoneLive(c) && AllConsistent(c) && OneAtATime(Next(c, Swap(events)), stimuli)
    requires Pairwise(Filtered(events, After(map[])), Agree)
    ensures var full, r := Plan(events, map[]), Run(Next(c, Swap(events)), stimuli);
            && c.log <= r.log && |c.subs| <= |r.subs|
            && var received := r.log[|c.log|..];
               && (forall ch :: OnChannels(received, Left(r), ch) == Filtered(full, OnChannel(ch)))
               && (AllUnscoped(r, |c.subs|) ==> received + Left(r) == full)
               && (|r.subs| > |c.subs| && HandedAll(r.subs[|r.subs| - 1].session)
                   ==> InFull(received, full, r.subs[|r.subs| - 1].channel))
               && (AllUnscoped(r, |c.subs|) && |r.subs| > |c.subs| && HandedAll(r.subs[|r.subs| - 1].session)
                   ==> received == full)
  {
    hide Plan, Run, OneAtATime, Pairwise, Filtered, OnChannels, Consistent;
    ExactlyOnce(Next(c, Swap(events)), stimuli);
  }

  /** A session still running at the swap goes on writing the old scenario's
      cursors, so the new scenario's event `b` is never delivered. */
  lemma SwapWhileLive(a1: Event, a2: Event, b: Event)
    requires a1.channel == a2.channel == b.channel && 0 < a1.seqNo < a2.seqNo && a1.ts <= a2.ts
        && 0 < b.seqNo <= a2.seqNo
    ensures var r := Run(Client([a1, a2], map[], [], []), [
              Subscribe(None, None, Instant, 0, 0), Swap([b]), Signalled(0, Settled(true, 0)),
              Subscribe(None, None, Instant, 0, 0)]);
            r.log == [a1, a2] && |r.subs| == 2 && r.subs[1].session.calls == [OnEnd]
  {
    var c := Client([a1, a2], map[], [], []);
    var s1 := Subscribe(None, None, Instant, 0, 0);
    TwoSteps(c, a1, a2, s1);
    var c1 := Next(c, s1);
    var c2 := Next(c1, Swap([b]));
    var c3 := Next(c2, Signalled(0, Settled(true, 0)));
    SecondAfterSwap(c2, a1, a2);
    NothingOfB(c3, b, s1);
    var rest := [Swap([b]), Signalled(0, Settled(true, 0)), s1];
    ThreeMore(c1, rest);
    assert Run(c, [s1] + rest) == Run(c1, rest);
  }

  lemma ThreeMore(c: Client, stimuli: seq<Stimulus>)
    requires |stimuli| == 3
    ensures Run(c, stimuli) == Next(Next(Next(c, stimuli[0]), stimuli[1]), stimuli[2])
  {
    hide Next;
    var c1, c2, c3 := Next(c, stimuli[0]), Next(Next(c, stimuli[0]), stimuli[1]),
        Next(Next(Next(c, stimuli[0]), stimuli[1]), stimuli[2]);
    assert Run(c3, stimuli[1..][1..][1..]) == c3;
    assert Run(c2, stimuli[1..][1..]) == c3;
    assert Run(c1, stimuli[1..]) == c3;
  }

  lemma SecondAfterSwap(c: Client, a1: Event, a2: Event)
    requires c.log == [a1] && c.cursors == map[] && |c.subs| == 1
    requires c.subs[0].session
        == Session([a1, a2], Instant, 0, map[], Advanced(map[], a1), 0, InCallback, false, [OnEvent(a1)])
    ensures var r := Next(c, Signalled(0, Settled(true, 0)));
            r.log == [a1, a2] && r.cursors == Advanced(map[], a2) && |r.subs| == 1 && r.scenario == c.scenario
  {
    AdvancedOne(map[], a2);
    assert [a1] + [a2] == [a1, a2];
  }

  lemma NothingOfB(c: Client, b: Event, s: Stimulus)
    requires c.scenario == [b] && b.seqNo <= CursorAt(c.cursors, b.channel)
    requires s == Subscribe(None, None, Instant, 0, 0)
    ensures var r := Next(c, s);
            r.log == c.log && |r.subs| == |c.subs| + 1 && r.subs[|c.subs|].session.calls == [OnEnd]
  {
    FilteredOne(b, Scope(None));
    FilteredOne(b, After(c.cursors));
    assert Plan([b], c.cursors) == [];
    assert c.log + [] == c.log;
  }

  lemma TwoSteps(c: Client, a1: Event, a2: Event, s1: Stimulus)
    requires c == Client([a1, a2], map[], [], []) && s1 == Subscribe(None, None, Instant, 0, 0)
    requires a1.channel == a2.channel && 0 < a1.seqNo < a2.seqNo && a1.ts <= a2.ts
    ensures var c1 := Next(c, s1);
            && c1.log == [a1] && c1.cursors == Advanced(map[], a1) && |c1.subs| == 1
            && c1.subs[0].session
                == Session([a1, a2], Instant, 0, map[], Advanced(map[], a1), 0, InCallback, false, [OnEvent(a1)])
  {
    FilteredAll([a1, a2], Scope(None));
    FilteredAll([a1, a2], After(map[]));
    assert [a1, a2][1..] == [a2];
    assert Sort([a2], EventLe) == [a2];
    assert Plan([a1, a2], map[]) == [a1, a2];
    AdvancedOne(map[], a1);
  }

  /** Two sessions at once share the cursors but not their plans: `a2` comes
      twice. */
  lemma OverlapRepeats(a1: Event, a2: Event)
    requires a1.channel == a2.channel && 0 < a1.seqNo < a2.seqNo && a1.ts <= a2.ts
    ensures var s := Subscribe(None, None, Instant, 0, 0);
            Run(Client([a1, a2], map[], [], []), [s, s, Signalled(0, Settled(true, 0))]).log == [a1, a2, a2]
  {
    var c := Client([a1, a2], map[], [], []);
    var s := Subscribe(None, None, Instant, 0, 0);
    TwoSteps(c, a1, a2, s);
    var c1 := Next(c, s);
    FilteredAll([a1, a2], Scope(None));
    assert [a1, a2][1..] == [a2] && [a2][1..] == [];
    assert Filtered([a2], After(c1.cursors)) == [a2];
    assert Filtered([a1, a2], After(c1.cursors)) == [a2];
    assert Sort([a2], EventLe) == [a2];
    assert Plan([a1, a2], c1.cursors) == [a2];
    AdvancedOne(c1.cursors, a2);
    var c2 := Next(c1, s);
    assert c2.log == [a1, a2] && c2.subs[0] == c1.subs[0];
    var c3 := Next(c2, Signalled(0, Settled(true, 0)));
    assert c3.log == [a1, a2, a2];
    ThreeMore(c, [s, s, Signalled(0, Settled(true, 0))]);
  }
}
