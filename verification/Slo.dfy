/** packages/slo/src/assertions.ts: asserting that observed samples meet a
    declared service-level target. */
module Slo {
  import opened Sorting
  import opened Results
  import opened Percentile

  datatype Direction = MaxAllowed | MinRequired

  datatype Target =
    | PercentileTarget(percentile: Number, numeric: real, direction: Direction)
    | BooleanTarget(expected: bool)

  datatype SloTarget = SloTarget(id: string, target: Target)

  datatype Assertion = Assertion(target: SloTarget, observed: real, threshold: real, passed: bool, sampleCount: nat)

  datatype SloError =
    | UnknownTarget(id: string)
    | NotAPercentile(id: string)
    | TooFewSamples(id: string, wanted: nat, got: nat)
    | NoPercentile(error: PercentileError)
    | Breached(id: string, observed: real, threshold: real)

  /** `registry.targets.find(t => t.id === id)` */
  function FindTarget(registry: seq<SloTarget>, id: string): Result<SloTarget, SloError> {
    if registry == [] then Err(UnknownTarget(id))
    else if registry[0].id == id then Ok(registry[0])
    else FindTarget(registry[1..], id)
  }

  predicate Within(observed: real, threshold: real, direction: Direction) {
    if direction == MaxAllowed then observed <= threshold else observed >= threshold
  }

  function ExpectSlo(registry: seq<SloTarget>, id: string, samples: seq<Number>, minSamples: nat)
    : Result<Assertion, SloError>
  {
    match FindTarget(registry, id)
    case Err(e) => Err(e)
    case Ok(target) =>
      if target.target.BooleanTarget? then Err(NotAPercentile(id))
      else if |samples| < minSamples then Err(TooFewSamples(id, minSamples, |samples|))
      else
        match PercentileOf(samples, target.target.percentile)
        case Err(e) => Err(NoPercentile(e))
        case Ok(observed) =>
          if Within(observed, target.target.numeric, target.target.direction) then
            Ok(Assertion(target, observed, target.target.numeric, true, |samples|))
          else Err(Breached(id, observed, target.target.numeric))
  }

  /** The samples an outcome is about: within the threshold, whatever the
      direction. */
  function CountWithin(samples: seq<Number>, threshold: real, direction: Direction): nat {
    if direction == MaxAllowed then CountAtMost(FiniteOf(samples), threshold)
    else CountAtLeast(FiniteOf(samples), threshold)
  }

  /** The number of finite samples a pass guarantees to be within the threshold. */
  function Guaranteed(p: real, n: nat, direction: Direction): int {
    var rank := p / 100.0 * (n - 1) as real;
    if direction == MaxAllowed then rank.Floor + 1 else n - Ceil(rank)
  }

  /** The number that would have made a breach impossible. */
  function Sufficient(p: real, n: nat, direction: Direction): int {
    var rank := p / 100.0 * (n - 1) as real;
    if direction == MaxAllowed then Ceil(rank) + 1 else n - rank.Floor
  }

  lemma GuaranteedIs(p: real, n: nat, direction: Direction)
    ensures Guaranteed(p, n, direction)
         == if direction == MaxAllowed then Rank(p, n).Floor + 1 else n - Ceil(Rank(p, n))
    ensures Sufficient(p, n, direction)
         == if direction == MaxAllowed then Ceil(Rank(p, n)) + 1 else n - Rank(p, n).Floor
  {
    RankMeans(p, n);
  }

  /** A pass speaks for at least `Guaranteed` of the finite samples. */
  lemma PassCounts(registry: seq<SloTarget>, id: string, samples: seq<Number>, minSamples: nat)
    requires ExpectSlo(registry, id, samples, minSamples).Ok?
    ensures var t := ExpectSlo(registry, id, samples, minSamples).value.target.target;
            && t.PercentileTarget? && t.percentile.Finite?
            && CountWithin(samples, t.numeric, t.direction)
               >= Guaranteed(t.percentile.r, |FiniteOf(samples)|, t.direction)
  {
    var t := ExpectSlo(registry, id, samples, minSamples).value.target.target;
    hide Guaranteed, Sufficient, Rank;
    GuaranteedIs(t.percentile.r, |FiniteOf(samples)|, t.direction);
    CountsBelow(samples, t.percentile, t.numeric);
    CountsAbove(samples, t.percentile, t.numeric);
  }

  /** A breach means that fewer than `Sufficient` of them are within it. */
  lemma BreachCounts(registry: seq<SloTarget>, id: string, samples: seq<Number>, minSamples: nat)
    requires ExpectSlo(registry, id, samples, minSamples).Err?
        && ExpectSlo(registry, id, samples, minSamples).error.Breached?
    requires FindTarget(registry, id).Ok?
    ensures var t := FindTarget(registry, id).value.target;
            && t.PercentileTarget? && t.percentile.Finite?
            && CountWithin(samples, t.numeric, t.direction)
               < Sufficient(t.percentile.r, |FiniteOf(samples)|, t.direction)
  {
    var t := FindTarget(registry, id).value.target;
    hide Guaranteed, Sufficient, Rank;
    GuaranteedIs(t.percentile.r, |FiniteOf(samples)|, t.direction);
    CountsBelow(samples, t.percentile, t.numeric);
    CountsAbove(samples, t.percentile, t.numeric);
  }

  predicate IsWhole(rank: real, p: real, n: nat) {
    rank == p / 100.0 * (n - 1) as real && rank == rank.Floor as real
  }

  lemma GuaranteedAtWhole(p: real, n: nat, direction: Direction, rank: real)
    requires IsWhole(rank, p, n)
    ensures Guaranteed(p, n, direction) == if direction == MaxAllowed then rank.Floor + 1 else n - rank.Floor
    ensures Sufficient(p, n, direction) == Guaranteed(p, n, direction)
  {
  }

  lemma PassOrBreach(registry: seq<SloTarget>, id: string, samples: seq<Number>, minSamples: nat)
    requires FindTarget(registry, id).Ok? && FindTarget(registry, id).value.target.PercentileTarget?
    requires |samples| >= minSamples && PercentileOf(samples, FindTarget(registry, id).value.target.percentile).Ok?
    ensures var r := ExpectSlo(registry, id, samples, minSamples);
            if r.Ok? then r.value.target == FindTarget(registry, id).value else r.error.Breached?
  {
  }

  /** When the rank is whole, an assertion that gets as far as comparing passes
      exactly when enough samples are within the threshold. */
  lemma PassIffCounted(registry: seq<SloTarget>, id: string, samples: seq<Number>, minSamples: nat, rank: real)
    requires FindTarget(registry, id).Ok? && FindTarget(registry, id).value.target.PercentileTarget?
    requires |samples| >= minSamples && PercentileOf(samples, FindTarget(registry, id).value.target.percentile).Ok?
    requires IsWhole(rank, FindTarget(registry, id).value.target.percentile.r, |FiniteOf(samples)|)
    ensures var t := FindTarget(registry, id).value.target;
            ExpectSlo(registry, id, samples, minSamples).Ok?
            <==> CountWithin(samples, t.numeric, t.direction)
                 >= if t.direction == MaxAllowed then rank.Floor + 1 else |FiniteOf(samples)| - rank.Floor
  {
    var t := FindTarget(registry, id).value.target;
    GuaranteedAtWhole(t.percentile.r, |FiniteOf(samples)|, t.direction, rank);
    PassOrBreach(registry, id, samples, minSamples);
    hide *;
    if ExpectSlo(registry, id, samples, minSamples).Ok? {
      PassCounts(registry, id, samples, minSamples);
    } else {
      BreachCounts(registry, id, samples, minSamples);
    }
  }

  /** A target that caps a percentile caps every smaller one, and a target that
      demands a minimum demands it of every greater one. */
  lemma PassCarriesOver(registry: seq<SloTarget>, id: string, other: string, samples: seq<Number>, minSamples: nat)
    requires ExpectSlo(registry, id, samples, minSamples).Ok?
    requires FindTarget(registry, other).Ok?
    requires var t := ExpectSlo(registry, id, samples, minSamples).value.target.target;
             var u := FindTarget(registry, other).value.target;
             && u.PercentileTarget? && u.percentile.Finite? && Allowed(u.percentile.r) && t.PercentileTarget?
                 && t.percentile.Finite?
             && u.numeric == t.numeric && u.direction == t.direction
             && (if t.direction == MaxAllowed then u.percentile.r <= t.percentile.r
                 else t.percentile.r <= u.percentile.r)
    ensures ExpectSlo(registry, other, samples, minSamples).Ok?
  {
    var t := ExpectSlo(registry, id, samples, minSamples).value.target.target;
    var u := FindTarget(registry, other).value.target;
    if t.direction == MaxAllowed {
      assert PercentileOf(samples, u.percentile).Ok?;
      MonotoneInP(samples, u.percentile.r, t.percentile.r);
    } else {
      MonotoneInP(samples, t.percentile.r, u.percentile.r);
    }
  }

  /** Worse samples never turn a breach into a pass. */
  lemma WorseStaysBreached(registry: seq<SloTarget>, id: string, better: seq<Number>, worse: seq<Number>,
      minSamples: nat)
    requires ExpectSlo(registry, id, worse, minSamples).Ok?
    requires var d := ExpectSlo(registry, id, worse, minSamples).value.target.target;
             if d.PercentileTarget? && d.direction == MaxAllowed then Pointwise(better, worse)
             else Pointwise(worse, better)
    ensures ExpectSlo(registry, id, better, minSamples).Ok?
  {
    var t := ExpectSlo(registry, id, worse, minSamples).value.target.target;
    if t.direction == MaxAllowed {
      FinitePointwise(better, worse, 0.0);
      MonotoneInSamples(better, worse, t.percentile);
    } else {
      MonotoneInSamples(worse, better, t.percentile);
    }
  }

  /** An assertion that gets past its sample gate promises as many finite samples,
      whatever the gate, exactly when every sample is finite: the gate counts all
      samples, and the percentile then uses the finite ones. */
  lemma GateIff(registry: seq<SloTarget>, id: string, samples: seq<Number>)
    requires ExpectSlo(registry, id, samples, 0).Ok?
    ensures (forall minSamples: nat | ExpectSlo(registry, id, samples, minSamples).Ok? ::
        |FiniteOf(samples)| >= minSamples)
       <==> forall x | x in samples :: x.Finite?
  {
    FiniteShorter(samples);
    assert ExpectSlo(registry, id, samples, |samples|).Ok?;
    assert forall minSamples: nat | ExpectSlo(registry, id, samples, minSamples).Ok? :: minSamples <= |samples|;
  }

  lemma {:induction false} FiniteShorter(samples: seq<Number>)
    ensures |FiniteOf(samples)| <= |samples|
    ensures |FiniteOf(samples)| == |samples| <==> forall x | x in samples :: x.Finite?
  {
    if samples != [] {
      var n := |samples| - 1;
      FiniteShorter(samples[..n]);
      assert samples == samples[..n] + [samples[n]];
      assert samples[n] in samples;
    }
  }

  /** One finite sample among three satisfies a gate of three. */
  lemma GateCountsNonFinite(registry: seq<SloTarget>, id: string)
    requires FindTarget(registry, id) == Ok(SloTarget(id, PercentileTarget(Finite(95.0), 10.0, MaxAllowed)))
    ensures ExpectSlo(registry, id, [NonFinite, Finite(5.0), NonFinite], 3).Ok?
  {
    var samples := [NonFinite, Finite(5.0), NonFinite];
    assert samples[..2][..1][..0] == [] && samples[..2][..1] == [NonFinite] && samples[..2] == [NonFinite, Finite(5.0)];
    assert FiniteOf([NonFinite]) == [];
    assert FiniteOf(samples[..2]) == [5.0];
    assert FiniteOf(samples) == [5.0];
    RankInRange(95.0, 1);
    SortMultiset([5.0], RealLe);
    SingleSample([5.0], 95.0);
  }

  // ----- outcomes

  /** The target is the first one declared under the id. */
  lemma {:induction false} FindTargetMeans(registry: seq<SloTarget>, id: string) returns (i: nat)
    ensures match FindTarget(registry, id)
            case Ok(t) =>
              i < |registry| && registry[i] == t && t.id == id && forall j | 0 <= j < i :: registry[j].id != id
            case Err(e) => e == UnknownTarget(id) && forall j | 0 <= j < |registry| :: registry[j].id != id
  {
    i := 0;
    if registry != [] && registry[0].id != id {
      var k := FindTargetMeans(registry[1..], id);
      assert forall j | 1 <= j < |registry| :: registry[j] == registry[1..][j - 1];
      i := k + 1;
    }
  }

  /** What a call answers for a target that is declared. */
  lemma OutcomeMeans(registry: seq<SloTarget>, id: string, samples: seq<Number>, minSamples: nat, t: SloTarget)
    requires FindTarget(registry, id) == Ok(t)
    ensures var r := ExpectSlo(registry, id, samples, minSamples);
            if t.target.BooleanTarget? then r == Err(NotAPercentile(id))
            else if |samples| < minSamples then r == Err(TooFewSamples(id, minSamples, |samples|))
            else match PercentileOf(samples, t.target.percentile)
              case Err(e) => r == Err(NoPercentile(e))
              case Ok(v) =>
                var met := if t.target.direction == MaxAllowed then v <= t.target.numeric else t.target.numeric <= v;
                if met then r == Ok(Assertion(t, v, t.target.numeric, true, |samples|))
                else r == Err(Breached(id, v, t.target.numeric))
  {
    hide PercentileOf;
  }
}
