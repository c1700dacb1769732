/** packages/fixtures/replay/event-stream.ts: replaying a fixture's events to a
    subscriber, resumable from per-channel cursors.

    The asynchronous delivery loop is cut at its two awaits, the sleep and the
    subscriber's callback.  Between two awaits nothing else can run, so each
    piece is one atomic reaction.  `Session` is the value of a session between
    reactions and `ReplaySession` the object that performs them. */
module EventStream {
  import opened Sorting
  import Json

  datatype Event = Event(channel: string, seqNo: nat, ts: int, kind: string, payload: Json.Value)

  // ----- cursors

  type Cursors = map<string, nat>

  function Max(a: int, b: int): int {
    if a < b then b else a
  }

  function CursorAt(c: Cursors, channel: string): nat {
    if channel in c then c[channel] else 0
  }

  function Advanced(c: Cursors, e: Event): Cursors {
    c[e.channel := Max(CursorAt(c, e.channel), e.seqNo)]
  }

  function AdvancedAll(c: Cursors, es: seq<Event>): Cursors {
    if es == [] then c else Advanced(AdvancedAll(c, es[..|es| - 1]), es[|es| - 1])
  }

  /** Pointwise maximum, an absent cursor counting as 0. */
  function Join(a: Cursors, b: Cursors): Cursors {
    map ch | ch in a.Keys + b.Keys :: Max(CursorAt(a, ch), CursorAt(b, ch)) as nat
  }

  method DeriveCursors(events: seq<Event>) returns (cursors: Cursors)
    ensures cursors == AdvancedAll(map[], events)
    ensures forall e | e in events :: e.channel in cursors && e.seqNo <= cursors[e.channel]
    ensures forall ch | ch in cursors && cursors[ch] > 0 ::
              exists e | e in events :: e.channel == ch && e.seqNo == cursors[ch]
  {
    cursors := map[];
    for i := 0 to |events|
      invariant cursors == AdvancedAll(map[], events[..i])
    {
      var e := events[i];
      assert events[..i + 1] == events[..i] + [e];
      cursors := cursors[e.channel := Max(CursorAt(cursors, e.channel), e.seqNo)];
    }
    assert events[..|events|] == events;
    forall e | e in events
      ensures e.channel in cursors && e.seqNo <= cursors[e.channel]
    {
      CursorMeaning(map[], events, e.channel);
    }
    forall ch | ch in cursors && cursors[ch] > 0
      ensures exists e | e in events :: e.channel == ch && e.seqNo == cursors[ch]
    {
      CursorMeaning(map[], events, ch);
    }
  }

  /** A cursor is the largest sequence number seen on its channel. */
  lemma {:induction false} CursorMeaning(c: Cursors, es: seq<Event>, ch: string)
    ensures var r := AdvancedAll(c, es);
            && CursorAt(r, ch) >= CursorAt(c, ch)
            && (ch in r <==> ch in c || exists e | e in es :: e.channel == ch)
            && (forall e | e in es && e.channel == ch :: e.seqNo <= CursorAt(r, ch))
            && (CursorAt(r, ch) == CursorAt(c, ch)
                || exists e | e in es :: e.channel == ch && e.seqNo == CursorAt(r, ch))
  {
    if es != [] {
      var front, last := es[..|es| - 1], es[|es| - 1];
      CursorMeaning(c, front, ch);
      assert es == front + [last];
      assert forall e :: e in es <==> e in front || e == last;
    }
  }

  lemma JoinAdvanced(a: Cursors, b: Cursors, e: Event)
    ensures Join(a, Advanced(b, e)) == Advanced(Join(a, b), e)
  {
  }

  /** The session's cursors are always the starting cursors joined with what
      `deriveCursors` gives for the delivered events. */
  lemma {:induction false} AdvancedAllIsJoin(c: Cursors, es: seq<Event>)
    ensures AdvancedAll(c, es) == Join(c, AdvancedAll(map[], es))
  {
    if es != [] {
      AdvancedAllIsJoin(c, es[..|es| - 1]);
      JoinAdvanced(c, AdvancedAll(map[], es[..|es| - 1]), es[|es| - 1]);
    }
  }

  lemma {:induction false} AdvancedAllAppend(c: Cursors, es: seq<Event>, fs: seq<Event>)
    ensures AdvancedAll(c, es + fs) == AdvancedAll(AdvancedAll(c, es), fs)
  {
    if fs == [] {
      assert es + fs == es;
    } else {
      AdvancedAllAppend(c, es, fs[..|fs| - 1]);
      assert (es + fs)[..|es + fs| - 1] == es + fs[..|fs| - 1];
    }
  }

  // ----- what a session will deliver, and in which order

  function After(c: Cursors): Event -> bool {
    (e: Event) => e.seqNo > CursorAt(c, e.channel)
  }

  predicate EventLe(a: Event, b: Event) {
    a.ts < b.ts || (a.ts == b.ts && a.seqNo <= b.seqNo)
  }

  function Plan(events: seq<Event>, from: Cursors): seq<Event> {
    Sort(Filtered(events, After(from)), EventLe)
  }

  // ----- the session

  datatype Speed = X1 | X10 | X100 | Instant

  function Factor(speed: Speed): (f: nat)
    ensures f > 0
  {
    match speed case X1 => 1 case X10 => 10 case X100 => 100 case Instant => 1
  }

  datatype Phase = Sleeping | InCallback | Done

  /** The calls made on the subscriber. */
  datatype Call = OnEvent(event: Event) | OnEnd | OnCancel

  datatype Session = Session(
    plan: seq<Event>, speed: Speed, startWall: int, from: Cursors,
    cursors: Cursors, next: nat, phase: Phase, canceled: bool, calls: seq<Call>)

  /** What wakes a session up: its sleep ending, its callback settling (with the
      time at which the loop goes on), or a call to `cancel`. */
  datatype Signal = Woke | Settled(ok: bool, now: int) | Cancel

  function Finish(s: Session, call: Call): Session {
    s.(phase := Done, calls := s.calls + [call])
  }

  /** When event `n` is due, as an offset from the start of the session. */
  function Target(plan: seq<Event>, speed: Speed, n: nat): int
    requires n < |plan|
  {
    (plan[n].ts - plan[0].ts) / Factor(speed)
  }

  function Deliver(s: Session): Session
    requires s.next < |s.plan|
  {
    if s.canceled then Finish(s, OnCancel)
    else s.(cursors := Advanced(s.cursors, s.plan[s.next]),
            phase := InCallback,
            calls := s.calls + [OnEvent(s.plan[s.next])])
  }

  function LoopTop(s: Session, now: int): Session {
    if s.next >= |s.plan| then Finish(s, OnEnd)
    else if s.canceled then Finish(s, OnCancel)
    else if s.speed != Instant && Target(s.plan, s.speed, s.next) - (now - s.startWall) > 0 then
      s.(phase := Sleeping)
    else Deliver(s)
  }

  function Fresh(events: seq<Event>, speed: Speed, from: Cursors, startWall: int): Session {
    Session(Plan(events, from), speed, startWall, from, from, 0, Sleeping, false, [])
  }

  function Start(events: seq<Event>, speed: Speed, from: Cursors, startWall: int, now: int): Session {
    LoopTop(Fresh(events, speed, from, startWall), now)
  }

  /** A signal that does not fit the phase has no effect. */
  function React(s: Session, signal: Signal): Session {
    match signal
    case Cancel => s.(canceled := true)
    case Woke => if s.phase == Sleeping && s.next < |s.plan| then Deliver(s) else s
    case Settled(ok, now) =>
      if s.phase != InCallback then s
      else if !ok then Finish(s, OnCancel)
      else LoopTop(s.(next := s.next + 1), now)
  }

  function ReactAll(s: Session, signals: seq<Signal>): Session
    decreases |signals|
  {
    if signals == [] then s else ReactAll(React(s, signals[0]), signals[1..])
  }

  class ReplaySession {
    const plan: seq<Event>
    const speed: Speed
    const startWall: int
    const from: Cursors
    var cursors: Cursors
    var next: nat
    var phase: Phase
    var canceled: bool
    var calls: seq<Call>

    function State(): Session
      reads this
    {
      Session(plan, speed, startWall, from, cursors, next, phase, canceled, calls)
    }

    constructor (events: seq<Event>, speed: Speed, fromCursors: Cursors, startWall: int, now: int)
      ensures State() == Start(events, speed, fromCursors, startWall, now)
    {
      var filtered := Filtered(events, After(fromCursors));
      plan := Sort(filtered, EventLe);
      this.speed, this.startWall, from := speed, startWall, fromCursors;
      cursors, next, phase, canceled, calls := fromCursors, 0, Sleeping, false, [];
      new;
      RunLoop(now);
    }

    /** From the top of the loop to the next await or return. */
    method RunLoop(now: int)
      modifies this`cursors, this`phase, this`calls
      ensures State() == LoopTop(old(State()), now)
    {
      if next >= |plan| {
        calls, phase := calls + [OnEnd], Done;
        return;
      }
      if canceled {
        calls, phase := calls + [OnCancel], Done;
        return;
      }
      if speed != Instant {
        var eventOffset := plan[next].ts - plan[0].ts;
        var wallOffset := now - startWall;
        var sleepMs := eventOffset / Factor(speed) - wallOffset;
        if sleepMs > 0 {
          phase := Sleeping;
          return;
        }
      }
      Hand();
    }

    /** The second cancellation check, the cursor update and the callback. */
    method Hand()
      requires next < |plan|
      modifies this`cursors, this`phase, this`calls
      ensures State() == Deliver(old(State()))
    {
      if canceled {
        calls, phase := calls + [OnCancel], Done;
        return;
      }
      var event := plan[next];
      cursors := cursors[event.channel := Max(CursorAt(cursors, event.channel), event.seqNo)];
      calls := calls + [OnEvent(event)];
      phase := InCallback;
    }

    method SleepEnds()
      requires phase == Sleeping && next < |plan|
      modifies this`cursors, this`phase, this`calls
      ensures State() == React(old(State()), Woke)
    {
      Hand();
    }

    method CallbackSettles(ok: bool, now: int)
      requires phase == InCallback
      modifies this`cursors, this`phase, this`calls, this`next
      ensures State() == React(old(State()), Settled(ok, now))
    {
      if !ok {
        calls, phase := calls + [OnCancel], Done;
        return;
      }
      next := next + 1;
      RunLoop(now);
    }

    method CancelSession()
      modifies this`canceled
      ensures State() == React(old(State()), Cancel)
    {
      canceled := true;
    }
  }

  // ----- what every reaction keeps

  /** How many events were handed to the subscriber. */
  function Given(s: Session): int {
    if s.phase == Done then |s.calls| - 1 else |s.calls|
  }

  ghost predicate Consistent(s: Session) {
    var d := Given(s);
    && 0 <= d <= |s.plan|
    && (forall i | 0 <= i < d :: s.calls[i] == OnEvent(s.plan[i]))
    && s.cursors == AdvancedAll(s.from, s.plan[..d])
    && (s.phase == Sleeping ==> d == s.next < |s.plan|)
    && (s.phase == InCallback ==> d == s.next + 1)
    && (s.phase == Done ==> s.calls[d] == OnCancel || (s.calls[d] == OnEnd && d == |s.plan|))
  }

  lemma DeliverConsistent(s: Session)
    requires s.next < |s.plan| && Consistent(s.(phase := Sleeping))
    ensures Consistent(Deliver(s))
  {
    assert s.plan[..s.next + 1] == s.plan[..s.next] + [s.plan[s.next]];
  }

  lemma StartConsistent(events: seq<Event>, speed: Speed, from: Cursors, startWall: int, now: int)
    ensures var s := Start(events, speed, from, startWall, now);
            && Consistent(s) && 0 <= Given(s) <= 1
            && s.plan == Plan(events, from) && s.from == from && s.speed == speed && s.startWall == startWall
  {
    var s := Fresh(events, speed, from, startWall);
    if s.plan != [] { DeliverConsistent(s); }
  }

  /** One reaction keeps the bookkeeping, never takes a call back, makes no call
      once the session is done, and hands out no event once it is cancelled. */
  lemma ReactConsistent(s: Session, signal: Signal)
    requires Consistent(s)
    ensures Follows(s, React(s, signal))
  {
    hide AdvancedAll, Advanced, Consistent, LoopTop, Deliver, Follows;
    StaysConsistent(s);
    match signal
    case Cancel => CancelConsistent(s);
    case Woke => if s.phase == Sleeping { WokeConsistent(s); }
    case Settled(ok, now) => if s.phase == InCallback { SettledConsistent(s, ok, now); }
  }

  /** `r` is the state after one reaction of `s`. */
  ghost predicate Follows(s: Session, r: Session) {
    && 0 <= Given(s) <= |s.plan|
    && Consistent(r) && r.plan == s.plan && r.from == s.from && s.calls <= r.calls
    && (s.phase == Done ==> r.phase == Done && r.calls == s.calls)
    && (s.canceled ==> r.canceled && Given(r) == Given(s) && r.cursors == s.cursors)
    && Given(s) <= Given(r) <= Given(s) + 1
  }

  lemma StaysConsistent(s: Session)
    requires Consistent(s)
    ensures Follows(s, s)
  {
    hide AdvancedAll;
  }

  lemma CancelConsistent(s: Session)
    requires Consistent(s)
    ensures Follows(s, s.(canceled := true))
  {
    hide AdvancedAll;
  }

  lemma WokeConsistent(s: Session)
    requires Consistent(s) && s.phase == Sleeping
    ensures Follows(s, Deliver(s))
  {
    hide AdvancedAll, Advanced;
    DeliverConsistent(s);
  }

  lemma SettledConsistent(s: Session, ok: bool, now: int)
    requires Consistent(s) && s.phase == InCallback
    ensures Follows(s, React(s, Settled(ok, now)))
  {
    hide AdvancedAll, Advanced;
    if ok && s.next + 1 < |s.plan| { DeliverConsistent(s.(next := s.next + 1)); }
  }

  lemma {:induction false} ReactAllConsistent(s: Session, signals: seq<Signal>)
    requires Consistent(s)
    ensures var r := ReactAll(s, signals);
            && Consistent(r) && r.plan == s.plan && r.from == s.from && s.calls <= r.calls
            && (s.phase == Done ==> r.calls == s.calls)
            && (s.canceled ==> Given(r) == Given(s))
    decreases |signals|
  {
    if signals != [] {
      ReactConsistent(s, signals[0]);
      ReactAllConsistent(React(s, signals[0]), signals[1..]);
    }
  }

  /** Every run of a session, cancelled or failing wherever it may be: the
      subscriber saw a prefix of the plan in order, then at most one of
      onEnd/onCancel, onEnd only after the whole plan, and nothing afterwards;
      the cursors tell exactly what was handed out. */
  lemma SessionRun(events: seq<Event>, speed: Speed, from: Cursors, startWall: int, now: int, signals: seq<Signal>)
    ensures var plan := Plan(events, from);
            var s := ReactAll(Start(events, speed, from, startWall, now), signals);
            && 0 <= Given(s) <= |plan|
            && (forall i | 0 <= i < Given(s) :: s.calls[i] == OnEvent(plan[i]))
            && (s.phase == Done <==> s.calls != [] && !s.calls[|s.calls| - 1].OnEvent?)
            && (s.phase == Done ==> s.calls[Given(s)] == OnCancel || (s.calls[Given(s)] == OnEnd && Given(s) == |plan|))
            && s.cursors == Join(from, AdvancedAll(map[], plan[..Given(s)]))
  {
    StartConsistent(events, speed, from, startWall, now);
    var s0 := Start(events, speed, from, startWall, now);
    ReactAllConsistent(s0, signals);
    AdvancedAllIsJoin(from, s0.plan[..Given(ReactAll(s0, signals))]);
  }

  /** No callback begins after `cancel()`, whatever happens later. */
  lemma NothingAfterCancel(s: Session, later: seq<Signal>)
    requires Consistent(s)
    ensures var r := ReactAll(React(s, Cancel), later);
            forall i | |s.calls| <= i < |r.calls| :: !r.calls[i].OnEvent?
  {
    ReactConsistent(s, Cancel);
    ReactAllConsistent(React(s, Cancel), later);
  }

  /** A cancelled session that completes reports onCancel, except when the last
      event's callback was already running and settles well: then it is onEnd. */
  lemma CancelledOutcome(s: Session, signal: Signal)
    requires Consistent(s) && s.canceled && s.phase != Done
    requires React(s, signal).phase == Done
    ensures React(s, signal).calls
         == s.calls + [if signal.Settled? && signal.ok && Given(s) == |s.plan| then OnEnd else OnCancel]
  {
  }

  /** What the session is waiting for. */
  predicate Awaited(s: Session, signal: Signal) {
    (s.phase == Sleeping && signal.Woke?) || (s.phase == InCallback && signal.Settled?)
  }

  /** Every awaited signal brings the session closer to completion, and no other
      takes it further away. */
  lemma Progress(s: Session, signal: Signal)
    requires Consistent(s)
    ensures 0 <= StepsLeft(React(s, signal)) <= StepsLeft(s)
    ensures Awaited(s, signal) ==> StepsLeft(React(s, signal)) < StepsLeft(s)
  {
  }

  /** How many of the signals were awaited when they came. */
  function AwaitedIn(s: Session, signals: seq<Signal>): nat
    decreases |signals|
  {
    if signals == [] then 0
    else (if Awaited(s, signals[0]) then 1 else 0) + AwaitedIn(React(s, signals[0]), signals[1..])
  }

  /** An upper bound on the signals a session can still await. */
  function StepsLeft(s: Session): int {
    match s.phase
    case Done => 0
    case InCallback => 2 * (|s.plan| - s.next) - 1
    case Sleeping => 2 * (|s.plan| - s.next)
  }

  lemma StepsNat(s: Session)
    requires Consistent(s)
    ensures 0 <= StepsLeft(s) <= 2 * |s.plan| && (StepsLeft(s) == 0 <==> s.phase == Done)
  {
  }

  lemma {:induction false} Advances(s: Session, signals: seq<Signal>)
    requires Consistent(s)
    ensures 0 <= StepsLeft(ReactAll(s, signals)) <= StepsLeft(s) - AwaitedIn(s, signals)
    decreases |signals|
  {
    hide Consistent, React, Awaited, StepsLeft;
    if signals == [] {
      StepsNat(s);
    } else {
      ReactConsistent(s, signals[0]);
      Progress(s, signals[0]);
      Advances(React(s, signals[0]), signals[1..]);
    }
  }

  /** No run awaits more than twice as many signals as its plan has events. */
  lemma AwaitsAtMost(events: seq<Event>, speed: Speed, from: Cursors, startWall: int, now: int, signals: seq<Signal>)
    ensures AwaitedIn(Start(events, speed, from, startWall, now), signals) <= 2 * |Plan(events, from)|
  {
    hide Start, Plan, AwaitedIn;
    StartConsistent(events, speed, from, startWall, now);
    var s := Start(events, speed, from, startWall, now);
    StepsNat(s);
    Advances(s, signals);
  }

  /** What a session awaits is always one of two signals. */
  function NextSignal(s: Session): Signal {
    if s.phase == Sleeping then Woke else Settled(true, 0)
  }

  /** Every session that has not been cancelled can be brought to its end, where it
      has handed out its whole plan and reported onEnd; a cancelled one ends too. */
  lemma {:induction false} CanComplete(s: Session) returns (signals: seq<Signal>)
    requires Consistent(s)
    ensures ReactAll(s, signals).phase == Done
    ensures !s.canceled && s.phase != Done ==> OnEnd in ReactAll(s, signals).calls
    decreases StepsLeft(s)
  {
    StepsNat(s);
    if s.phase == Done {
      signals := [];
    } else {
      var signal := NextSignal(s);
      var next := React(s, signal);
      ReactConsistent(s, signal);
      Progress(s, signal);
      NextGoesOn(s);
      var more := CanComplete(next);
      signals := [signal] + more;
      assert signals[1..] == more && ReactAll(s, signals) == ReactAll(next, more);
      if next.phase == Done { ReactAllConsistent(next, more); }
    }
  }

  lemma NextGoesOn(s: Session)
    requires Consistent(s) && s.phase != Done
    ensures Awaited(s, NextSignal(s))
    ensures var r := React(s, NextSignal(s));
            !s.canceled ==> !r.canceled && (r.phase == Done ==> OnEnd in r.calls && Given(r) == |r.plan|)
  {
    var r := React(s, NextSignal(s));
    if r.phase == Done && !s.canceled { assert r.calls[|r.calls| - 1] == OnEnd; }
  }

  /** How many of the signals a session had waited for: each one that was awaited,
      and each one that came when nothing was left to await. */
  function HeardIn(s: Session, signals: seq<Signal>): nat
    decreases |signals|
  {
    if signals == [] then 0
    else
      (if Awaited(s, signals[0]) || s.phase == Done then 1 else 0) + HeardIn(React(s, signals[0]), signals[1..])
  }

  lemma {:induction false} Finishes(s: Session, signals: seq<Signal>)
    requires Consistent(s) && HeardIn(s, signals) >= StepsLeft(s)
    ensures ReactAll(s, signals).phase == Done
    decreases |signals|
  {
    hide Consistent, React, Awaited, StepsLeft;
    StepsNat(s);
    if s.phase == Done {
      ReactAllConsistent(s, signals);
      DoneStays(s, signals);
    } else if signals != [] {
      ReactConsistent(s, signals[0]);
      Progress(s, signals[0]);
      Finishes(React(s, signals[0]), signals[1..]);
    }
  }

  lemma {:induction false} DoneStays(s: Session, signals: seq<Signal>)
    requires s.phase == Done
    ensures ReactAll(s, signals).phase == Done
    decreases |signals|
  {
    if signals != [] { DoneStays(React(s, signals[0]), signals[1..]); }
  }

  /** A session whose sleeps end and whose callbacks settle does complete: once it
      has heard twice as many signals as its plan has events, it has reported
      exactly one of onEnd and onCancel, once and as the last thing. */
  lemma Completes(events: seq<Event>, speed: Speed, from: Cursors, startWall: int, now: int, signals: seq<Signal>)
    requires HeardIn(Start(events, speed, from, startWall, now), signals) >= 2 * |Plan(events, from)|
    ensures var s := ReactAll(Start(events, speed, from, startWall, now), signals);
            && s.phase == Done && s.calls != [] && s.calls[|s.calls| - 1] in [OnEnd, OnCancel]
            && forall i | 0 <= i < |s.calls| - 1 :: s.calls[i].OnEvent?
  {
    hide Start, ReactAll, Plan, HeardIn;
    StartConsistent(events, speed, from, startWall, now);
    var s0 := Start(events, speed, from, startWall, now);
    StepsNat(s0);
    Finishes(s0, signals);
    ReactAllConsistent(s0, signals);
  }

  /** Every run can be continued until it has heard that many. */
  lemma {:induction false} HearsEnough(s: Session, n: nat) returns (signals: seq<Signal>)
    requires Consistent(s)
    ensures HeardIn(s, signals) >= n
    decreases n
  {
    if n == 0 {
      signals := [];
    } else {
      var signal := NextSignal(s);
      ReactConsistent(s, signal);
      var more := HearsEnough(React(s, signal), n - 1);
      signals := [signal] + more;
      assert signals[1..] == more;
    }
  }

  // ----- resuming from the cursors a session left

  lemma EventOrder()
    ensures TotalPreorder(EventLe)
  {
  }

  function Alike(e: Event): Event -> bool {
    (x: Event) => x.ts == e.ts && x.seqNo == e.seqNo
  }

  /** The plan is a permutation of the events beyond the cursors, ordered by time
      and then by number; events alike in both keep their stored order. */
  lemma PlanOrdered(events: seq<Event>, from: Cursors, e: Event)
    ensures multiset(Plan(events, from)) == multiset(Filtered(events, After(from)))
    ensures SortedBy(Plan(events, from), EventLe)
    ensures Filtered(Plan(events, from), Alike(e)) == Filtered(Filtered(events, After(from)), Alike(e))
  {
    var later := Filtered(events, After(from));
    EventOrder();
    SortMultiset(later, EventLe);
    SortSorted(later, EventLe);
    SortStable(later, e, EventLe);
    hide TotalPreorder, SortedBy, Sort, Filtered;
    assert forall x :: Alike(e)(x) == Tied(e, EventLe)(x);
    FilteredAgree(Plan(events, from), Alike(e), Tied(e, EventLe));
    FilteredAgree(later, Alike(e), Tied(e, EventLe));
  }

  lemma PlanMembers(events: seq<Event>, from: Cursors)
    ensures forall e :: e in Plan(events, from) <==> e in events && After(from)(e)
  {
    SortMembers(Filtered(events, After(from)), EventLe);
    FilteredMembers(events, After(from));
  }

  /** A session started from later cursors has the earlier session's plan, less
      what those cursors cover. */
  lemma PlanFromLater(events: seq<Event>, from: Cursors, later: Cursors)
    requires forall ch :: CursorAt(from, ch) <= CursorAt(later, ch)
    ensures Plan(events, later) == Filtered(Plan(events, from), After(later))
  {
    EventOrder();
    SortFiltered(Filtered(events, After(from)), After(later), EventLe);
    FilteredTwice(events, After(from), After(later));
  }

  /** Replaying from the cursors derived from the events delivers nothing. */
  lemma NothingAfterAll(events: seq<Event>)
    ensures Plan(events, AdvancedAll(map[], events)) == []
  {
    var c := AdvancedAll(map[], events);
    forall e | e in events
      ensures !After(c)(e)
    {
      CursorMeaning(map[], events, e.channel);
    }
    FilteredNone(events, After(c));
  }

  /** In plan order, sequence numbers grow on every channel. */
  ghost predicate ChannelsIncrease(plan: seq<Event>) {
    forall i, j | 0 <= i < j < |plan| && plan[i].channel == plan[j].channel :: plan[i].seqNo < plan[j].seqNo
  }

  /** Two events of one channel have different sequence numbers, and their
      timestamps do not contradict them. */
  predicate Agree(a: Event, b: Event) {
    a.channel == b.channel ==>
      && a.seqNo != b.seqNo
      && (a.seqNo < b.seqNo ==> a.ts <= b.ts)
      && (b.seqNo < a.seqNo ==> b.ts <= a.ts)
  }

  /** The condition on the plan, restated on the events as they are stored. */
  lemma AgreeIff(events: seq<Event>, from: Cursors)
    ensures Pairwise(Filtered(events, After(from)), Agree) <==> ChannelsIncrease(Plan(events, from))
  {
    EventOrder();
    var plan := Plan(events, from);
    SortPairwise(Filtered(events, After(from)), EventLe, Agree);
    SortSorted(Filtered(events, After(from)), EventLe);
    if ChannelsIncrease(plan) {
      forall i, j | 0 <= i < j < |plan|
        ensures Agree(plan[i], plan[j])
      {
        assert EventLe(plan[i], plan[j]);
      }
    }
    if Pairwise(plan, Agree) {
      forall i, j | 0 <= i < j < |plan| && plan[i].channel == plan[j].channel
        ensures plan[i].seqNo < plan[j].seqNo
      {
        assert EventLe(plan[i], plan[j]) && Agree(plan[i], plan[j]);
      }
    }
  }

  /** What a session stopped after `k` events and a fresh one from its cursors
      deliver between them. */
  function StopAndResume(events: seq<Event>, from: Cursors, k: nat): seq<Event>
    requires k <= |Plan(events, from)|
  {
    var done := Plan(events, from)[..k];
    done + Plan(events, AdvancedAll(from, done))
  }

  /** Stopping anywhere and resuming from the cursors gives the uninterrupted
      replay, exactly when the sequence numbers are unique on each channel and
      agree with the timestamps. */
  lemma ResumeIff(events: seq<Event>, from: Cursors)
    ensures (forall k | 0 <= k <= |Plan(events, from)| :: StopAndResume(events, from, k) == Plan(events, from))
       <==> Pairwise(Filtered(events, After(from)), Agree)
  {
    var plan := Plan(events, from);
    AgreeIff(events, from);
    PlanMembers(events, from);
    if ChannelsIncrease(plan) {
      forall k | 0 <= k <= |plan|
        ensures StopAndResume(events, from, k) == plan
      {
        ResumeAt(events, from, k);
      }
    } else {
      var i, j :| 0 <= i < j < |plan| && plan[i].channel == plan[j].channel && plan[i].seqNo >= plan[j].seqNo;
      ResumeLoses(events, from, i, j);
    }
  }

  lemma ResumeSplit(events: seq<Event>, from: Cursors, k: nat)
    requires k <= |Plan(events, from)|
    ensures var plan := Plan(events, from);
            var c := AdvancedAll(from, plan[..k]);
            Plan(events, c) == Filtered(plan[k..], After(c))
  {
    var plan := Plan(events, from);
    var c := AdvancedAll(from, plan[..k]);
    forall ch
      ensures CursorAt(from, ch) <= CursorAt(c, ch)
    {
      CursorMeaning(from, plan[..k], ch);
    }
    PlanFromLater(events, from, c);
    forall e | e in plan[..k]
      ensures !After(c)(e)
    {
      CursorMeaning(from, plan[..k], e.channel);
    }
    FilteredNone(plan[..k], After(c));
    FilteredAppend(plan[..k], plan[k..], After(c));
    assert plan == plan[..k] + plan[k..];
  }

  lemma ResumeAt(events: seq<Event>, from: Cursors, k: nat)
    requires k <= |Plan(events, from)| && ChannelsIncrease(Plan(events, from))
    ensures StopAndResume(events, from, k) == Plan(events, from)
  {
    hide Plan, Filtered, AdvancedAll;
    var plan := Plan(events, from);
    var c := AdvancedAll(from, plan[..k]);
    ResumeSplit(events, from, k);
    PlanMembers(events, from);
    forall e | e in plan[k..]
      ensures After(c)(e)
    {
      var j :| k <= j < |plan| && plan[j] == e;
      assert e in plan;
      CursorMeaning(from, plan[..k], e.channel);
    }
    FilteredAll(plan[k..], After(c));
    assert plan == plan[..k] + plan[k..];
  }

  lemma ResumeLoses(events: seq<Event>, from: Cursors, i: nat, j: nat)
    requires i < j < |Plan(events, from)|
    requires var plan := Plan(events, from);
             plan[i].channel == plan[j].channel && plan[i].seqNo >= plan[j].seqNo
    ensures |StopAndResume(events, from, i + 1)| < |Plan(events, from)|
  {
    var plan := Plan(events, from);
    var c := AdvancedAll(from, plan[..i + 1]);
    ResumeSplit(events, from, i + 1);
    CursorMeaning(from, plan[..i + 1], plan[i].channel);
    assert plan[..i + 1][i] == plan[i];
    assert plan[i + 1..][j - i - 1] == plan[j];
    FilteredShorter(plan[i + 1..], plan[j], After(c));
  }

  /** Two events whose numbers contradict their times: stopping after the first and
      resuming loses the second. */
  lemma ResumeCanLose(a: Event, b: Event)
    requires a.channel == b.channel && a.ts < b.ts && 0 < b.seqNo < a.seqNo
    ensures Plan([a, b], map[]) == [a, b] && StopAndResume([a, b], map[], 1) == [a]
  {
    FilteredAll([a, b], After(map[]));
    assert [a, b][1..] == [b] && [b][1..] == [];
    assert Sort([b], EventLe) == [b];
    assert Plan([a, b], map[]) == [a, b];
    assert [a, b][..1] == [a] && [a][..0] == [];
    ResumeSplit([a, b], map[], 1);
    var c := AdvancedAll(map[], [a]);
    assert c == Advanced(AdvancedAll(map[], []), a);
    FilteredOne(b, After(c));
    assert [a] + [] == [a];
  }

  // ----- how the loop reacts, in its own words

  /** A callback that fails ends the session there and then, whatever comes later:
      onCancel is the last call, and the cursors stay. */
  lemma FailureEnds(s: Session, now: int, later: seq<Signal>)
    requires Consistent(s) && s.phase == InCallback
    ensures var r := ReactAll(React(s, Settled(false, now)), later);
            r.phase == Done && r.calls == s.calls + [OnCancel] && r.cursors == s.cursors
  {
    var failed := React(s, Settled(false, now));
    ReactConsistent(s, Settled(false, now));
    DoneUnchanged(failed, later);
  }

  lemma {:induction false} DoneUnchanged(s: Session, later: seq<Signal>)
    requires s.phase == Done
    ensures var r := ReactAll(s, later);
            r.phase == Done && r.calls == s.calls && r.cursors == s.cursors
    decreases |later|
  {
    if later != [] { DoneUnchanged(React(s, later[0]), later[1..]); }
  }

  /** Neither cancelled nor failed. */
  predicate Smooth(signals: seq<Signal>) {
    forall k | 0 <= k < |signals| :: signals[k] != Cancel && (signals[k].Settled? ==> signals[k].ok)
  }

  /** A run in which nothing is cancelled and no callback fails never reports
      onCancel. */
  lemma {:induction false} SmoothRun(s: Session, signals: seq<Signal>)
    requires !s.canceled && OnCancel !in s.calls && Smooth(signals)
    ensures !ReactAll(s, signals).canceled && OnCancel !in ReactAll(s, signals).calls
    decreases |signals|
  {
    if signals != [] {
      assert signals[0] != Cancel;
      SmoothRun(React(s, signals[0]), signals[1..]);
    }
  }

  lemma SmoothSession(
      events: seq<Event>, speed: Speed, from: Cursors, startWall: int, now: int, signals: seq<Signal>)
    requires Smooth(signals)
    ensures OnCancel !in ReactAll(Start(events, speed, from, startWall, now), signals).calls
  {
    SmoothRun(Start(events, speed, from, startWall, now), signals);
  }

  /** The plan in order: by timestamp, and at the same time by number. */
  lemma PlanByTime(events: seq<Event>, from: Cursors, i: nat, j: nat)
    requires i < j < |Plan(events, from)|
    ensures var a, b := Plan(events, from)[i], Plan(events, from)[j];
            a.ts < b.ts || (a.ts == b.ts && a.seqNo <= b.seqNo)
  {
    PlanOrdered(events, from, Plan(events, from)[i]);
    assert EventLe(Plan(events, from)[i], Plan(events, from)[j]);
  }

  /** An event is due when its offset from the first one, divided by 1, 10 or 100,
      has gone by. */
  lemma DueWhen(plan: seq<Event>, speed: Speed, n: nat)
    requires n < |plan|
    ensures var offset, due := plan[n].ts - plan[0].ts, Target(plan, speed, n);
            && (speed == X1 ==> due == offset)
            && (speed == X10 ==> 10 * due <= offset < 10 * due + 10)
            && (speed == X100 ==> 100 * due <= offset < 100 * due + 100)
  {
  }

  /** After a callback, the session goes on with the next event at once if that is
      due, instant or not, and otherwise sleeps. */
  lemma GoesOnOrSleeps(s: Session, now: int)
    requires Consistent(s) && s.phase == InCallback && !s.canceled && s.next + 1 < |s.plan|
    ensures var r, n := React(s, Settled(true, now)), s.next + 1;
            && r.next == n
            && (if s.speed == Instant || now - s.startWall >= Target(s.plan, s.speed, n)
                then r.phase == InCallback && r.calls == s.calls + [OnEvent(s.plan[n])]
                else r.phase == Sleeping && r.calls == s.calls && r.cursors == s.cursors)
  {
    hide AdvancedAll, Target;
  }
}
