/** When a paced session delivers its events (packages/fixtures/replay/event-stream.ts),
    given a sleeper that sleeps exactly as long as asked and the time each
    callback takes. */
module Pacing {
  import opened Sorting
  import opened EventStream

  /** Total time of the callbacks `j`, ..., `n - 1`. */
  function Busy(took: seq<nat>, j: nat, n: nat): nat
    requires j <= n <= |took|
  {
    if j == n then 0 else Busy(took, j, n - 1) + took[n - 1]
  }

  /** The max-plus law: event `n` waits for the latest of the events up to it to
      be due and for the callbacks from there on. */
  ghost predicate MaxPlus(plan: seq<Event>, speed: Speed, took: seq<nat>, n: nat, t: int)
    requires n < |plan| == |took|
  {
    && (forall j | 0 <= j <= n :: t >= Target(plan, speed, j) + Busy(took, j, n))
    && (exists j | 0 <= j <= n :: t == Target(plan, speed, j) + Busy(took, j, n))
  }

  lemma MaxPlusFirst(plan: seq<Event>, speed: Speed, took: seq<nat>)
    requires 0 < |plan| == |took|
    ensures Target(plan, speed, 0) == 0 && MaxPlus(plan, speed, took, 0, 0)
  {
    assert Target(plan, speed, 0) + Busy(took, 0, 0) == 0;
  }

  lemma MaxPlusNext(plan: seq<Event>, speed: Speed, took: seq<nat>, n: nat, t: int)
    requires n + 1 < |plan| == |took| && MaxPlus(plan, speed, took, n, t)
    ensures MaxPlus(plan, speed, took, n + 1, Max(t + took[n], Target(plan, speed, n + 1)))
  {
    var t' := Max(t + took[n], Target(plan, speed, n + 1));
    forall j | 0 <= j <= n + 1
      ensures t' >= Target(plan, speed, j) + Busy(took, j, n + 1)
    {
      if j <= n { assert t >= Target(plan, speed, j) + Busy(took, j, n); }
    }
    var j :| 0 <= j <= n && t == Target(plan, speed, j) + Busy(took, j, n);
    var k := if t' == t + took[n] then j else n + 1;
    assert t' == Target(plan, speed, k) + Busy(took, k, n + 1);
  }

  /** The deliveries so far are on schedule, and the clock, `offset` after the
      start, stands where the phase says. */
  ghost predicate Timed(s: Session, took: seq<nat>, times: seq<int>, offset: int) {
    && Consistent(s) && !s.canceled && s.speed != Instant && |took| == |s.plan|
    && |times| == Given(s)
    && (forall n | 0 <= n < |times| :: MaxPlus(s.plan, s.speed, took, n, times[n]))
    && (s.phase == Sleeping ==>
          0 < s.next && offset == times[s.next - 1] + took[s.next - 1] < Target(s.plan, s.speed, s.next))
    && (s.phase == InCallback ==> offset == times[s.next])
    && (s.phase == Done ==> |times| == |s.plan|)
  }

  lemma TimedStart(events: seq<Event>, speed: Speed, from: Cursors, took: seq<nat>, startWall: int)
    requires speed != Instant && |took| == |Plan(events, from)|
    ensures var s := Start(events, speed, from, startWall, startWall);
            Timed(s, took, if s.phase == InCallback then [0] else [], 0)
  {
    hide MaxPlus, AdvancedAll;
    StartConsistent(events, speed, from, startWall, startWall);
    if Plan(events, from) != [] { MaxPlusFirst(Plan(events, from), speed, took); }
  }

  lemma TimedWoke(s: Session, took: seq<nat>, times: seq<int>, offset: int)
    requires Timed(s, took, times, offset) && s.phase == Sleeping
    ensures Timed(React(s, Woke), took, times + [Target(s.plan, s.speed, s.next)], Target(s.plan, s.speed, s.next))
    ensures StepsLeft(React(s, Woke)) < StepsLeft(s)
  {
    hide MaxPlus, AdvancedAll, Target;
    ReactConsistent(s, Woke);
    MaxPlusNext(s.plan, s.speed, took, s.next - 1, times[s.next - 1]);
  }

  lemma TimedSettled(s: Session, took: seq<nat>, times: seq<int>, offset: int)
    requires Timed(s, took, times, offset) && s.phase == InCallback
    ensures var later := offset + took[s.next];
            var r := React(s, Settled(true, s.startWall + later));
            && Timed(r, took, if r.phase == InCallback then times + [later] else times, later)
            && StepsLeft(r) < StepsLeft(s)
  {
    hide MaxPlus, AdvancedAll, Target;
    var later := offset + took[s.next];
    ReactConsistent(s, Settled(true, s.startWall + later));
    if s.next + 1 < |s.plan| { MaxPlusNext(s.plan, s.speed, took, s.next, times[s.next]); }
  }

  /** Runs a session to its end on an exact clock.  `times[n]` is when event `n`
      was handed out, counted from the session's start. */
  method DeliverAll(events: seq<Event>, speed: Speed, from: Cursors, took: seq<nat>, startWall: int)
      returns (times: seq<int>)
    requires speed != Instant && |took| == |Plan(events, from)|
    ensures |times| == |Plan(events, from)|
    ensures forall n | 0 <= n < |times| :: MaxPlus(Plan(events, from), speed, took, n, times[n])
  {
    hide Timed, React, Start, MaxPlus, Target, StepsLeft;
    var session := new ReplaySession(events, speed, from, startWall, startWall);
    TimedStart(events, speed, from, took, startWall);
    StartConsistent(events, speed, from, startWall, startWall);
    var clock := startWall;
    times := if session.phase == InCallback then [0] else [];
    while session.phase != Done
      invariant fresh(session) && session.plan == Plan(events, from) && session.speed == speed
          && session.startWall == startWall
      invariant Timed(session.State(), took, times, clock - startWall)
      decreases StepsLeft(session.State())
    {
      var n := session.next;
      TimedMeans(session.State(), took, times, clock - startWall);
      if session.phase == Sleeping {
        TimedWoke(session.State(), took, times, clock - startWall);
        var sleepMs := Target(session.plan, speed, n) - (clock - startWall);
        clock := clock + sleepMs;
        session.SleepEnds();
        times := times + [clock - startWall];
      } else {
        TimedSettled(session.State(), took, times, clock - startWall);
        clock := clock + took[n];
        session.CallbackSettles(true, clock);
        if session.phase == InCallback { times := times + [clock - startWall]; }
      }
    }
    TimedMeans(session.State(), took, times, clock - startWall);
  }

  lemma TimedMeans(s: Session, took: seq<nat>, times: seq<int>, offset: int)
    requires Timed(s, took, times, offset)
    ensures s.phase != Done ==> s.next < |s.plan| && 0 < StepsLeft(s)
    ensures s.phase == Done ==> |times| == |s.plan| == |took|
    ensures s.phase == Done ==> forall n | 0 <= n < |s.plan| :: MaxPlus(s.plan, s.speed, took, n, times[n])
  {
  }

  lemma PlanSorted(events: seq<Event>, from: Cursors)
    ensures SortedBy(Plan(events, from), EventLe)
  {
    EventOrder();
    SortSorted(Filtered(events, After(from)), EventLe);
  }

  /** No event is early, and an event is late by no more than the time spent in
      callbacks since the start. */
  lemma NeverEarlyNorDrifting(events: seq<Event>, from: Cursors, speed: Speed, took: seq<nat>, n: nat, t: int)
    requires n < |Plan(events, from)| == |took| && MaxPlus(Plan(events, from), speed, took, n, t)
    ensures 0 <= t - Target(Plan(events, from), speed, n) <= Busy(took, 0, n)
  {
    hide Plan, Target, Sort, Filtered;
    var plan := Plan(events, from);
    assert t >= Target(plan, speed, n) + Busy(took, n, n);
    var j :| 0 <= j <= n && t == Target(plan, speed, j) + Busy(took, j, n);
    PlanSorted(events, from);
    assert j == n || EventLe(plan[j], plan[n]);
    TargetsGrow(plan, speed, j, n);
    BusyShrinks(took, j, n);
  }

  lemma TargetsGrow(plan: seq<Event>, speed: Speed, j: nat, n: nat)
    requires j <= n < |plan| && plan[j].ts <= plan[n].ts
    ensures Target(plan, speed, j) <= Target(plan, speed, n)
  {
    match speed
    case X1 =>
    case X10 =>
    case X100 =>
    case Instant =>
  }

  lemma {:induction false} BusyShrinks(took: seq<nat>, j: nat, n: nat)
    requires j <= n <= |took|
    ensures Busy(took, j, n) <= Busy(took, 0, n)
  {
    if j < n { BusyShrinks(took, j, n - 1); }
  }
}
