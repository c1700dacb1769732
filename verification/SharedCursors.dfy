/** packages/fixtures/replay/mock-daemon-client.ts: what can go wrong when a
    session is still live while the client subscribes again or swaps its scenario,
    and exactly when. */
module SharedCursors {
  import opened Sorting
  import opened EventStream
  import opened Json
  import opened MockDaemonClient

  predicate SignalsOnly(stimuli: seq<Stimulus>) {
    forall k | 0 <= k < |stimuli| :: stimuli[k].Signalled?
  }

  /** What a session has not handed out yet. */
  function Rest(s: Session): seq<Event> {
    if 0 <= Given(s) <= |s.plan| then s.plan[Given(s)..] else []
  }

  lemma HandedSlice(s: Session, signal: Signal)
    requires Consistent(s)
    ensures var r := React(s, signal);
            && Consistent(r) && r.plan == s.plan && 0 <= Given(s) <= Given(r) <= |s.plan|
            && Handed(s, r) == s.plan[Given(s)..Given(r)]
            && (!Live(s) ==> !Live(r) && Given(r) == Given(s))
  {
    hide React, AdvancedAll;
    ReactConsistent(s, signal);
  }

  lemma {:induction false} RunAppend(c: Client, a: seq<Stimulus>, b: seq<Stimulus>)
    ensures Run(c, a + b) == Run(Run(c, a), b)
    decreases |a|
  {
    hide Next;
    if a == [] {
      assert a + b == b;
    } else {
      assert (a + b)[0] == a[0] && (a + b)[1..] == a[1..] + b;
      RunAppend(Next(c, a[0]), a[1..], b);
    }
  }

  // ----- letting a session run to its end

  /** Not cancelled, and done only with its whole plan handed out. */
  predicate Going(s: Session) {
    !s.canceled && (s.phase == Done ==> Given(s) == |s.plan|)
  }

  lemma GoesOn(s: Session)
    requires Consistent(s) && Going(s) && s.phase != Done
    ensures Going(React(s, NextSignal(s))) && Awaited(s, NextSignal(s))
  {
    hide AdvancedAll;
    ReactConsistent(s, NextSignal(s));
  }

  lemma {:induction false} Drive(c: Client, k: nat) returns (stimuli: seq<Stimulus>)
    requires AllConsistent(c) && k < |c.subs| && Going(c.subs[k].session)
    ensures SignalsOnly(stimuli)
    ensures var r := Run(c, stimuli);
            && |r.subs| == |c.subs| && AllConsistent(r)
            && (forall j | 0 <= j < |c.subs| && j != k :: r.subs[j] == c.subs[j])
            && r.log == c.log + Rest(c.subs[k].session)
    decreases StepsLeft(c.subs[k].session)
  {
    var s := c.subs[k].session;
    StepsNat(s);
    if s.phase == Done {
      stimuli := [];
      assert c.log + [] == c.log;
    } else {
      var signal := NextSignal(s);
      var next := Next(c, Signalled(k, signal));
      DriveStep(c, k, signal);
      var more := Drive(next, k);
      stimuli := [Signalled(k, signal)] + more;
      assert stimuli[1..] == more;
      assert Run(c, stimuli) == Run(next, more);
    }
  }

  lemma DriveStep(c: Client, k: nat, signal: Signal)
    requires AllConsistent(c) && k < |c.subs| && Going(c.subs[k].session) && c.subs[k].session.phase != Done
    requires signal == NextSignal(c.subs[k].session)
    ensures var next := Next(c, Signalled(k, signal));
            && |next.subs| == |c.subs| && AllConsistent(next) && Going(next.subs[k].session)
            && (forall j | 0 <= j < |c.subs| && j != k :: next.subs[j] == c.subs[j])
            && next.log + Rest(next.subs[k].session) == c.log + Rest(c.subs[k].session)
            && StepsLeft(next.subs[k].session) < StepsLeft(c.subs[k].session)
  {
    hide React, AdvancedAll, Consistent, Handed;
    var s := c.subs[k].session;
    var r := React(s, signal);
    GoesOn(s);
    Progress(s, signal);
    HandedSlice(s, signal);
    assert s.plan[Given(s)..] == s.plan[Given(s)..Given(r)] + s.plan[Given(r)..];
    assert c.log + s.plan[Given(s)..Given(r)] + s.plan[Given(r)..] == c.log + s.plan[Given(s)..];
  }

  // ----- two sessions at once

  ghost predicate Repeats(received: seq<Event>) {
    exists e :: multiset(received)[e] > 1
  }

  /** Some run of the sessions there are hands the client's callers an event twice
      since `c`. */
  ghost predicate MayRepeat(c: Client, later: Client) {
    exists stimuli :: SignalsOnly(stimuli) && Repeats(Since(c, Run(later, stimuli)))
  }

  /** `c` is reached from `c0` by a subscription with plan `plan` and signals: what
      was received since is what session `i` and the new one handed out. */
  ghost predicate Paired(c0: Client, i: nat, plan: seq<Event>, c: Client) {
    var n := |c0.subs|;
    && i < n && |c.subs| == n + 1 && AllConsistent(c) && c0.log <= c.log
    && c.subs[n].session.plan == plan && c.subs[i].session.plan == c0.subs[i].session.plan
    && 0 <= Given(c.subs[n].session) <= |plan|
    && 0 <= Given(c0.subs[i].session) <= Given(c.subs[i].session) <= |c.subs[i].session.plan|
    && (forall j | 0 <= j < n && j != i :: !Live(c.subs[j].session))
    && multiset(c.log[|c0.log|..]) == HandedOut(c0, i, plan, c)
  }

  /** What the two sessions handed out. */
  ghost function HandedOut(c0: Client, i: nat, plan: seq<Event>, c: Client): multiset<Event>
    requires i < |c0.subs| && |c.subs| == |c0.subs| + 1
    requires 0 <= Given(c.subs[|c0.subs|].session) <= |plan|
    requires 0 <= Given(c0.subs[i].session) <= Given(c.subs[i].session) <= |c.subs[i].session.plan|
  {
    multiset(c.subs[i].session.plan[Given(c0.subs[i].session)..Given(c.subs[i].session)])
    + multiset(plan[..Given(c.subs[|c0.subs|].session)])
  }

  lemma PairedSignal(c0: Client, i: nat, plan: seq<Event>, c: Client, k: nat, signal: Signal)
    requires Paired(c0, i, plan, c)
    ensures Paired(c0, i, plan, Next(c, Signalled(k, signal)))
  {
    hide React, AdvancedAll, Consistent, Handed, Live, HandedOut;
    if k < |c.subs| {
      var s := c.subs[k].session;
      var r := Next(c, Signalled(k, signal));
      HandedSlice(s, signal);
      var handed := Handed(s, React(s, signal));
      assert r.log[|c0.log|..] == c.log[|c0.log|..] + handed;
      assert r.subs == c.subs[k := Subscription(React(s, signal), c.subs[k].channel)];
      HandedOutMore(c0, i, plan, c, k, React(s, signal), r);
    }
  }

  lemma HandedOutMore(c0: Client, i: nat, plan: seq<Event>, c: Client, k: nat, after: Session, r: Client)
    requires i < |c0.subs| && |c.subs| == |c0.subs| + 1 && k < |c.subs|
    requires c.subs[|c0.subs|].session.plan == plan
    requires 0 <= Given(c.subs[|c0.subs|].session) <= |plan|
    requires 0 <= Given(c0.subs[i].session) <= Given(c.subs[i].session) <= |c.subs[i].session.plan|
    requires r.subs == c.subs[k := Subscription(after, c.subs[k].channel)]
    requires after.plan == c.subs[k].session.plan
    requires 0 <= Given(c.subs[k].session) <= Given(after) <= |after.plan|
    requires k == i || k == |c0.subs| || Given(after) == Given(c.subs[k].session)
    ensures HandedOut(c0, i, plan, r)
         == HandedOut(c0, i, plan, c) + multiset(after.plan[Given(c.subs[k].session)..Given(after)])
  {
    hide Given;
    var a, b, d := Given(c0.subs[i].session), Given(c.subs[k].session), Given(after);
    if k == i {
      assert after.plan[a..d] == after.plan[a..b] + after.plan[b..d];
    } else if k == |c0.subs| {
      assert plan[..d] == plan[..b] + plan[b..d];
    } else {
      assert after.plan[b..d] == [];
    }
  }

  lemma {:induction false} PairedRun(c0: Client, i: nat, plan: seq<Event>, c: Client, stimuli: seq<Stimulus>)
    requires Paired(c0, i, plan, c) && SignalsOnly(stimuli)
    ensures Paired(c0, i, plan, Run(c, stimuli))
    decreases |stimuli|
  {
    hide Paired, Next;
    if stimuli != [] {
      PairedSignal(c0, i, plan, c, stimuli[0].i, stimuli[0].signal);
      PairedRun(c0, i, plan, Next(c, stimuli[0]), stimuli[1..]);
    }
  }

  /** Exactly one session is live. */
  ghost predicate OnlyLive(c: Client, i: nat) {
    i < |c.subs| && Live(c.subs[i].session) && forall j | 0 <= j < |c.subs| && j != i :: !Live(c.subs[j].session)
  }

  /** What a subscription adds to the client. */
  lemma Subscribed(c: Client, channel: Option<string>, from: Option<Cursors>, speed: Speed, startWall: int, now: int)
    ensures var start := if from.Some? then from.value else c.cursors;
            var events := Filtered(c.scenario, Scope(channel));
            var r := Next(c, Subscribe(channel, from, speed, startWall, now));
            var s := Start(events, speed, start, startWall, now);
            && r.subs == c.subs + [Subscription(s, channel)]
            && Consistent(s) && Going(s) && s.plan == Plan(events, start) && 0 <= Given(s) <= |s.plan|
            && r.log == c.log + s.plan[..Given(s)]
  {
    hide AdvancedAll, Filtered, Plan, Scope;
    var start := if from.Some? then from.value else c.cursors;
    var events := Filtered(c.scenario, Scope(channel));
    StartConsistent(events, speed, start, startWall, now);
    StartHands(events, speed, start, startWall, now);
    var s := Start(events, speed, start, startWall, now);
    assert Handed(Fresh(events, speed, start, startWall), s) == s.plan[..Given(s)];
  }

  lemma PairedStart(c: Client, i: nat, s: Session, channel: Option<string>, r: Client)
    requires AllConsistent(c) && OnlyLive(c, i) && Consistent(s) && 0 <= Given(s) <= |s.plan|
    requires r.subs == c.subs + [Subscription(s, channel)] && r.log == c.log + s.plan[..Given(s)]
    ensures Paired(c, i, s.plan, r)
  {
    hide AdvancedAll;
    assert r.log[|c.log|..] == s.plan[..Given(s)];
    var g := Given(c.subs[i].session);
    assert c.subs[i].session.plan[g..g] == [];
    assert HandedOut(c, i, s.plan, r) == multiset([]) + multiset(s.plan[..Given(s)]);
  }

  lemma {:induction false} IncreasingOnce(plan: seq<Event>, e: Event)
    requires ChannelsIncrease(plan)
    ensures multiset(plan)[e] == if e in plan then 1 else 0
  {
    if plan != [] {
      var n := |plan| - 1;
      assert plan == plan[..n] + [plan[n]];
      IncreasingOnce(plan[..n], e);
      forall k | 0 <= k < n
        ensures plan[..n][k] != plan[n]
      {
        if plan[k].channel == plan[n].channel { assert plan[k].seqNo < plan[n].seqNo; }
      }
    }
  }

  lemma PartOnce(plan: seq<Event>, k: nat, e: Event)
    requires ChannelsIncrease(plan) && k <= |plan|
    ensures multiset(plan[..k])[e] <= if e in plan then 1 else 0
  {
    IncreasingOnce(plan, e);
    assert plan == plan[..k] + plan[k..];
  }

  /** Subscribing while a session is live makes a repeated event possible exactly
      when that session still has to hand out an event of the new one's plan. */
  lemma OverlapIff(c: Client, i: nat, channel: Option<string>, from: Option<Cursors>, speed: Speed, startWall: int,
      now: int)
    requires AllConsistent(c) && OnlyLive(c, i) && ChannelsIncrease(Rest(c.subs[i].session))
    requires Pairwise(Filtered(c.scenario, After(if from.Some? then from.value else c.cursors)), Agree)
    ensures var plan := Plan(Filtered(c.scenario, Scope(channel)), if from.Some? then from.value else c.cursors);
            MayRepeat(c, Next(c, Subscribe(channel, from, speed, startWall, now)))
            <==> exists e :: e in Rest(c.subs[i].session) && e in plan
  {
    hide Next, Plan, Filtered, Paired, Consistent, ChannelsIncrease, Pairwise, Run;
    var start := if from.Some? then from.value else c.cursors;
    var plan := Plan(Filtered(c.scenario, Scope(channel)), start);
    var later := Next(c, Subscribe(channel, from, speed, startWall, now));
    Subscribed(c, channel, from, speed, startWall, now);
    PairedStart(c, i, later.subs[|c.subs|].session, channel, later);
    if e :| e in Rest(c.subs[i].session) && e in plan {
      var stimuli := DriveBoth(c, i, later, plan);
      CountBoth(Rest(c.subs[i].session), plan, e);
      assert SignalsOnly(stimuli) && Repeats(Since(c, Run(later, stimuli)));
    } else {
      AgreeIff(c.scenario, start);
      PlanScoped(c.scenario, start, channel);
      FilteredIncreases(Plan(c.scenario, start), Scope(channel));
      forall stimuli | SignalsOnly(stimuli)
        ensures !Repeats(Since(c, Run(later, stimuli)))
      {
        PairedRun(c, i, plan, later, stimuli);
        NoRepeat(c, i, plan, Run(later, stimuli));
      }
    }
  }

  lemma CountBoth(a: seq<Event>, b: seq<Event>, e: Event)
    requires e in a && e in b
    ensures (multiset(a) + multiset(b))[e] > 1
  {
    assert e in multiset(a) && e in multiset(b);
  }

  /** Both sessions run to their ends. */
  lemma DriveBoth(c: Client, i: nat, later: Client, plan: seq<Event>) returns (stimuli: seq<Stimulus>)
    requires AllConsistent(c) && OnlyLive(c, i) && Paired(c, i, plan, later) && |later.subs| == |c.subs| + 1
    requires later.subs[i] == c.subs[i] && Going(later.subs[|c.subs|].session)
    requires 0 <= Given(later.subs[|c.subs|].session) <= |plan|
        && later.log == c.log + plan[..Given(later.subs[|c.subs|].session)]
    ensures SignalsOnly(stimuli)
    ensures multiset(Since(c, Run(later, stimuli))) == multiset(Rest(c.subs[i].session)) + multiset(plan)
  {
    hide Next, Consistent, Run;
    var n := |c.subs|;
    var first := Drive(later, i);
    var mid := Run(later, first);
    var second := Drive(mid, n);
    stimuli := first + second;
    RunAppend(later, first, second);
    var r := Run(mid, second);
    var given := plan[..Given(later.subs[n].session)];
    assert r.log == c.log + (given + Rest(c.subs[i].session) + Rest(later.subs[n].session));
    assert Since(c, r) == given + Rest(c.subs[i].session) + Rest(later.subs[n].session);
    assert plan == given + Rest(later.subs[n].session);
  }

  lemma NoRepeat(c: Client, i: nat, plan: seq<Event>, r: Client)
    requires Paired(c, i, plan, r)
    requires ChannelsIncrease(Rest(c.subs[i].session)) && ChannelsIncrease(plan)
    requires forall e :: !(e in Rest(c.subs[i].session) && e in plan)
    ensures !Repeats(Since(c, r))
  {
    hide ChannelsIncrease, AllConsistent, Live;
    var rest := Rest(c.subs[i].session);
    var a, b := Given(c.subs[i].session), Given(r.subs[i].session);
    assert r.subs[i].session.plan[a..b] == rest[..b - a];
    forall e
      ensures multiset(Since(c, r))[e] <= 1
    {
      PartOnce(rest, b - a, e);
      PartOnce(plan, Given(r.subs[|c.subs|].session), e);
    }
  }

  // ----- a swap while sessions are live

  /** Some live session still has to hand out `e`. */
  ghost predicate Pending(c: Client, e: Event) {
    exists j | 0 <= j < |c.subs| :: Live(c.subs[j].session) && e in Rest(c.subs[j].session)
  }

  /** `c` is reached from `c0` by signals: its cursors are moved by what was
      received since, and that was pending. */
  ghost predicate Traced(c0: Client, c: Client) {
    && |c.subs| == |c0.subs| && AllConsistent(c) && c.scenario == c0.scenario && c0.log <= c.log
    && c.cursors == AdvancedAll(c0.cursors, c.log[|c0.log|..])
    && (forall j | 0 <= j < |c0.subs| :: Onward(c0.subs[j].session, c.subs[j].session))
    && (forall e | e in c.log[|c0.log|..] :: Pending(c0, e))
  }

  ghost predicate Onward(s: Session, r: Session) {
    && r.plan == s.plan && 0 <= Given(s) <= Given(r) && (!Live(s) ==> !Live(r) && Given(r) == Given(s))
  }

  lemma TracedSignal(c0: Client, c: Client, k: nat, signal: Signal)
    requires Traced(c0, c)
    ensures Traced(c0, Next(c, Signalled(k, signal)))
  {
    hide React, AdvancedAll, Consistent, Handed, Live;
    if k < |c.subs| {
      var s := c.subs[k].session;
      var r := Next(c, Signalled(k, signal));
      HandedSlice(s, signal);
      var handed := Handed(s, React(s, signal));
      assert r.log[|c0.log|..] == c.log[|c0.log|..] + handed;
      AdvancedAllAppend(c0.cursors, c.log[|c0.log|..], handed);
      assert Onward(c0.subs[k].session, s);
      forall e | e in handed
        ensures Pending(c0, e)
      {
        StillPending(c0.subs[k].session, s, React(s, signal), e);
      }
    }
  }

  lemma StillPending(first: Session, s: Session, r: Session, e: Event)
    requires Onward(first, s) && 0 <= Given(s) <= Given(r) <= |s.plan| && e in s.plan[Given(s)..Given(r)]
    requires !Live(s) ==> Given(r) == Given(s)
    ensures Live(first) && e in Rest(first)
  {
    var k :| 0 <= k < Given(r) - Given(s) && s.plan[Given(s)..Given(r)][k] == e;
    assert Rest(first)[Given(s) - Given(first) + k] == e;
  }

  lemma {:induction false} TracedRun(c0: Client, c: Client, stimuli: seq<Stimulus>)
    requires Traced(c0, c) && SignalsOnly(stimuli)
    ensures Traced(c0, Run(c, stimuli))
    decreases |stimuli|
  {
    hide Traced, Next;
    if stimuli != [] {
      TracedSignal(c0, c, stimuli[0].i, stimuli[0].signal);
      TracedRun(c0, Next(c, stimuli[0]), stimuli[1..]);
    }
  }

  lemma TracedStart(c: Client)
    requires AllConsistent(c)
    ensures Traced(c, c)
  {
    assert c.log[|c.log|..] == [];
  }

  /** Whatever the sessions that were live at the swap still do, the whole of the
      new scenario is left for the next subscription. */
  ghost predicate SwapIsClean(c: Client, events: seq<Event>) {
    forall stimuli | SignalsOnly(stimuli) :: Left(Run(Next(c, Swap(events)), stimuli)) == Plan(events, map[])
  }

  /** A swap is clean exactly when every event of the new scenario is beyond every
      event of its channel that a live session still has to hand out. */
  lemma SwapIsCleanIff(c: Client, events: seq<Event>)
    requires AllConsistent(c)
    ensures SwapIsClean(c, events)
       <==> forall e, b | Pending(c, e) && b in events && b.channel == e.channel && b.seqNo > 0 :: b.seqNo > e.seqNo
  {
    hide Plan, Run, Consistent, Traced, Pending;
    var swapped := Next(c, Swap(events));
    TracedStart(swapped);
    if forall e, b | Pending(c, e) && b in events && b.channel == e.channel && b.seqNo > 0 :: b.seqNo > e.seqNo {
      forall stimuli | SignalsOnly(stimuli)
        ensures Left(Run(swapped, stimuli)) == Plan(events, map[])
      {
        TracedRun(swapped, swapped, stimuli);
        CleanAfter(c, swapped, Run(swapped, stimuli), events);
      }
    } else {
      var e, b :| Pending(c, e) && b in events && b.channel == e.channel && 0 < b.seqNo <= e.seqNo;
      var stimuli := Spoils(c, swapped, events, e, b);
      assert SignalsOnly(stimuli);
    }
  }

  lemma CleanAfter(c: Client, swapped: Client, r: Client, events: seq<Event>)
    requires swapped == c.(scenario := events, cursors := map[]) && Traced(swapped, r)
    requires forall e, b | Pending(c, e) && b in events && b.channel == e.channel && b.seqNo > 0 :: b.seqNo > e.seqNo
    ensures Left(r) == Plan(events, map[])
  {
    hide Plan, AdvancedAll, Rest, Live;
    var received := r.log[|swapped.log|..];
    forall b | b in events && b.seqNo > 0
      ensures b.seqNo > CursorAt(r.cursors, b.channel)
    {
      CursorMeaning(map[], received, b.channel);
      if CursorAt(r.cursors, b.channel) > 0 {
        var e :| e in received && e.channel == b.channel && e.seqNo == CursorAt(r.cursors, b.channel);
        assert Pending(swapped, e);
        assert Pending(c, e);
      }
    }
    FullReplayIff(events, r.cursors);
  }

  /** Running the session that owes `e` to its end leaves `b` covered. */
  lemma Spoils(c: Client, swapped: Client, events: seq<Event>, e: Event, b: Event) returns (stimuli: seq<Stimulus>)
    requires swapped == c.(scenario := events, cursors := map[]) && AllConsistent(c)
    requires Pending(c, e) && b in events && b.channel == e.channel && 0 < b.seqNo <= e.seqNo
    ensures SignalsOnly(stimuli) && Left(Run(swapped, stimuli)) != Plan(events, map[])
  {
    hide Plan, Run, AdvancedAll, Rest;
    var k :| 0 <= k < |c.subs| && Live(c.subs[k].session) && e in Rest(c.subs[k].session);
    stimuli := Drive(swapped, k);
    TracedStart(swapped);
    TracedRun(swapped, swapped, stimuli);
    var r := Run(swapped, stimuli);
    var received := r.log[|swapped.log|..];
    assert received == Rest(c.subs[k].session);
    CursorMeaning(map[], received, e.channel);
    FullReplayIff(events, r.cursors);
  }

  // ----- what a subscription is for

  /** A new session will hand out the scenario's events beyond the cursors it starts
      from, and with a channel only those of the channel. */
  lemma SubscriptionPlan(
      c: Client, channel: Option<string>, from: Option<Cursors>, speed: Speed, startWall: int, now: int, e: Event)
    ensures var r := Next(c, Subscribe(channel, from, speed, startWall, now));
            var start := if from.Some? then from.value else c.cursors;
            && |r.subs| == |c.subs| + 1
            && (e in r.subs[|c.subs|].session.plan
                <==> && e in c.scenario
                     && (channel.None? || channel.value == "" || e.channel == channel.value)
                     && e.seqNo > if e.channel in start then start[e.channel] else 0)
  {
    hide Plan, Filtered, AdvancedAll;
    var start := if from.Some? then from.value else c.cursors;
    Subscribed(c, channel, from, speed, startWall, now);
    PlanMembers(Filtered(c.scenario, Scope(channel)), start);
    FilteredMembers(c.scenario, Scope(channel));
  }

  /** Over every run of signals, a session with a channel gives its callback events
      of that channel only. */
  lemma FilteredCalls(
      c: Client, ch: string, from: Option<Cursors>, speed: Speed, startWall: int, now: int, stimuli: seq<Stimulus>)
    requires AllConsistent(c) && ch != "" && SignalsOnly(stimuli)
    ensures var r := Run(Next(c, Subscribe(Some(ch), from, speed, startWall, now)), stimuli);
            && |r.subs| == |c.subs| + 1
            && forall e | OnEvent(e) in r.subs[|c.subs|].session.calls ::
                 e.channel == ch && e in c.scenario
  {
    hide Plan, Run, AdvancedAll, Filtered, Start;
    var subscribed := Next(c, Subscribe(Some(ch), from, speed, startWall, now));
    Subscribed(c, Some(ch), from, speed, startWall, now);
    TracedStart(subscribed);
    TracedRun(subscribed, subscribed, stimuli);
    var r := Run(subscribed, stimuli);
    var s := r.subs[|c.subs|].session;
    assert Onward(subscribed.subs[|c.subs|].session, s);
    forall e | OnEvent(e) in s.calls
      ensures e.channel == ch && e in c.scenario
    {
      CalledFromPlan(s, e);
      SubscriptionPlan(c, Some(ch), from, speed, startWall, now, e);
    }
  }

  lemma CalledFromPlan(s: Session, e: Event)
    requires Consistent(s) && OnEvent(e) in s.calls
    ensures e in s.plan
  {
    hide AdvancedAll;
    var i :| 0 <= i < |s.calls| && s.calls[i] == OnEvent(e);
    assert i < Given(s) && s.calls[i] == OnEvent(s.plan[i]);
  }

  /** And whatever is received while only that session is signalled, its first event
      included, is of that channel. */
  lemma FilteredLog(
      c: Client, ch: string, from: Option<Cursors>, speed: Speed, startWall: int, now: int, signals: seq<Signal>)
    requires AllConsistent(c) && ch != ""
    ensures var r := Run(Next(c, Subscribe(Some(ch), from, speed, startWall, now)), AllTo(|c.subs|, signals));
            c.log <= r.log && forall e | e in r.log[|c.log|..] :: e.channel == ch && e in c.scenario
  {
    var subscribed := Next(c, Subscribe(Some(ch), from, speed, startWall, now));
    Subscribed(c, Some(ch), from, speed, startWall, now);
    hide *;
    assert AllConsistent(subscribed) by { SubscribedConsistent(c, Some(ch), from, speed, startWall, now); }
    LogFromPlan(subscribed, |c.subs|, signals);
    var r := Run(subscribed, AllTo(|c.subs|, signals));
    var s := subscribed.subs[|c.subs|].session;
    var tail := r.log[|subscribed.log|..];
    assert r.log == c.log + (s.plan[..Given(s)] + tail);
    forall e | e in r.log[|c.log|..]
      ensures e.channel == ch && e in c.scenario
    {
      assert e in s.plan;
      SubscriptionPlan(c, Some(ch), from, speed, startWall, now, e);
    }
  }

  lemma SubscribedConsistent(
      c: Client, channel: Option<string>, from: Option<Cursors>, speed: Speed, startWall: int, now: int)
    requires AllConsistent(c)
    ensures AllConsistent(Next(c, Subscribe(channel, from, speed, startWall, now)))
  {
    hide Plan, AdvancedAll, Filtered, Start, Next, Consistent;
    Subscribed(c, channel, from, speed, startWall, now);
  }

  function AllTo(i: nat, signals: seq<Signal>): (r: seq<Stimulus>)
    ensures |r| == |signals| && forall k | 0 <= k < |r| :: r[k] == Signalled(i, signals[k])
  {
    seq(|signals|, k requires 0 <= k < |signals| => Signalled(i, signals[k]))
  }

  lemma {:induction false} LogFromPlan(c: Client, i: nat, signals: seq<Signal>)
    requires AllConsistent(c) && i < |c.subs|
    ensures c.log <= Run(c, AllTo(i, signals)).log
    ensures forall e | e in Run(c, AllTo(i, signals)).log[|c.log|..] :: e in c.subs[i].session.plan
    decreases |signals|
  {
    hide React, AdvancedAll, Consistent, Handed;
    if signals != [] {
      var s := c.subs[i].session;
      var next := Next(c, Signalled(i, signals[0]));
      HandedSlice(s, signals[0]);
      LogFromPlan(next, i, signals[1..]);
      assert AllTo(i, signals)[1..] == AllTo(i, signals[1..]);
      var r := Run(next, AllTo(i, signals[1..]));
      var handed := Handed(s, React(s, signals[0]));
      assert r.log[|c.log|..] == handed + r.log[|next.log|..];
    }
  }
}
