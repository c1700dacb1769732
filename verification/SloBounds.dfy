/** The counts that a pass and a breach of packages/slo/src/assertions.ts guarantee
    are the best possible. */
module SloBounds {
  import opened Sorting
  import opened Results
  import opened Percentile
  import opened Slo

  // ----- samples on two levels

  function Levels(low: nat, n: nat, lo: real, hi: real): (r: seq<real>)
    ensures |r| == n && forall i | 0 <= i < n :: r[i] == if i < low then lo else hi
  {
    seq(n, i requires 0 <= i < n => if i < low then lo else hi)
  }

  function Samples(r: seq<real>): (samples: seq<Number>)
    ensures |samples| == |r| && forall i | 0 <= i < |r| :: samples[i] == Finite(r[i])
  {
    seq(|r|, i requires 0 <= i < |r| => Finite(r[i]))
  }

  lemma SamplesFinite(r: seq<real>)
    ensures FiniteOf(Samples(r)) == r
  {
    FiniteAll(Samples(r));
  }

  lemma LevelsSorted(low: nat, n: nat, lo: real, hi: real)
    requires low <= n && lo <= hi
    ensures Sort(Levels(low, n, lo, hi), RealLe) == Levels(low, n, lo, hi)
  {
    SortFixpoint(Levels(low, n, lo, hi), RealLe);
  }

  lemma LevelsCount(low: nat, n: nat, lo: real, hi: real, keep: real -> bool)
    requires low <= n
    ensures |Filtered(Levels(low, n, lo, hi), keep)| == (if keep(lo) then low else 0)
        + (if keep(hi) then n - low else 0)
  {
    var r := Levels(low, n, lo, hi);
    assert r == r[..low] + r[low..];
    FilteredAppend(r[..low], r[low..], keep);
    if keep(lo) { FilteredAll(r[..low], keep); } else { FilteredNone(r[..low], keep); }
    if keep(hi) { FilteredAll(r[low..], keep); } else { FilteredNone(r[low..], keep); }
  }

  /** The percentile of two levels, where the rank lies among the low ones, among
      the high ones, or between the last low and the first high one. */
  lemma LevelsPercentile(low: nat, n: nat, lo: real, hi: real, p: real)
    requires low <= n && n > 0 && lo <= hi && Allowed(p)
    ensures var rank, v := Rank(p, n), PercentileOf(Samples(Levels(low, n, lo, hi)), Finite(p));
            && InRange(rank, n) && v.Ok?
            && (Ceil(rank) < low ==> v.value == lo)
            && (rank.Floor >= low ==> v.value == hi)
            && (rank.Floor < low <= Ceil(rank) ==> v.value == Along(lo, hi - lo, rank - rank.Floor as real))
  {
    hide Sort, Rank, FiniteOf, Samples, Levels, Along;
    var r := Levels(low, n, lo, hi);
    SamplesFinite(r);
    LevelsSorted(low, n, lo, hi);
    RankInRange(p, n);
    CeilInRange(Rank(p, n), n);
    CeilMeans(Rank(p, n));
    Level(lo, Rank(p, n) - Rank(p, n).Floor as real);
    Level(hi, Rank(p, n) - Rank(p, n).Floor as real);
  }

  lemma Level(x: real, f: real)
    ensures Along(x, x - x, f) == x
  {
  }

  lemma UnitStep(x: real, f: real)
    ensures Along(x - f, (x + (1.0 - f)) - (x - f), f) == x
  {
  }

  // ----- the bounds are attained

  function Registry(id: string, p: real, threshold: real, direction: Direction): seq<SloTarget> {
    [SloTarget(id, PercentileTarget(Finite(p), threshold, direction))]
  }

  /** For every percentile and every number of samples, some samples pass with just
      as many within the threshold as a pass guarantees. */
  lemma GuaranteeAttained(id: string, p: real, n: nat, x: real, direction: Direction) returns (samples: seq<Number>)
    requires Allowed(p) && n > 0
    ensures |samples| == n && forall s | s in samples :: s.Finite?
    ensures ExpectSlo(Registry(id, p, x, direction), id, samples, 0).Ok?
    ensures CountWithin(samples, x, direction) == Guaranteed(p, n, direction)
  {
    hide Rank, PercentileOf, Levels, FiniteOf, Along, Filtered, Guaranteed, Sufficient;
    GuaranteedIs(p, n, direction);
    var rank := Rank(p, n);
    RankInRange(p, n);
    CeilInRange(rank, n);
    var f := rank - rank.Floor as real;
    var low, lo, hi := rank.Floor + 1, x - f, x + (1.0 - f);
    if direction == MinRequired && f == 0.0 { low, lo, hi := rank.Floor, x - 1.0, x; }
    samples := Samples(Levels(low, n, lo, hi));
    SamplesFinite(Levels(low, n, lo, hi));
    LevelsPercentile(low, n, lo, hi, p);
    UnitStep(x, f);
    LevelsCount(low, n, lo, hi, AtMost(x));
    LevelsCount(low, n, lo, hi, AtLeast(x));
  }

  /** And some breach it with one less than would have made a breach impossible. */
  lemma SufficiencyAttained(id: string, p: real, n: nat, x: real, direction: Direction) returns (samples: seq<Number>)
    requires Allowed(p) && n > 0
    ensures |samples| == n && forall s | s in samples :: s.Finite?
    ensures ExpectSlo(Registry(id, p, x, direction), id, samples, 0).Err?
    ensures ExpectSlo(Registry(id, p, x, direction), id, samples, 0).error.Breached?
    ensures CountWithin(samples, x, direction) == Sufficient(p, n, direction) - 1
  {
    hide Rank, PercentileOf, Levels, FiniteOf, Along, Filtered, Guaranteed, Sufficient;
    GuaranteedIs(p, n, direction);
    var rank := Rank(p, n);
    RankInRange(p, n);
    CeilInRange(rank, n);
    var low, lo, hi := Ceil(rank), x, x + 1.0;
    if direction == MinRequired { low, lo, hi := rank.Floor + 1, x - 1.0, x; }
    samples := Samples(Levels(low, n, lo, hi));
    SamplesFinite(Levels(low, n, lo, hi));
    LevelsPercentile(low, n, lo, hi, p);
    OneStep(lo, hi, rank - rank.Floor as real);
    LevelsCount(low, n, lo, hi, AtMost(x));
    LevelsCount(low, n, lo, hi, AtLeast(x));
  }

  lemma OneStep(lo: real, hi: real, f: real)
    requires hi == lo + 1.0
    ensures Along(lo, hi - lo, f) == lo + f
  {
  }
}
