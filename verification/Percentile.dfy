/** packages/slo/src/percentile.ts: linearly interpolated percentiles, over the
    real numbers. */
module Percentile {
  import opened Sorting
  import opened Results

  /** A JavaScript number: finite, or one of the infinities and NaN. */
  datatype Number = Finite(r: real) | NonFinite

  datatype PercentileError = BadPercentile(p: Number) | NoSamples

  predicate RealLe(x: real, y: real) {
    x <= y
  }

  function FiniteOf(samples: seq<Number>): seq<real> {
    if samples == [] then []
    else
      var before := FiniteOf(samples[..|samples| - 1]);
      if samples[|samples| - 1].Finite? then before + [samples[|samples| - 1].r] else before
  }

  function Rank(p: real, n: nat): real {
    p / 100.0 * (n - 1) as real
  }

  predicate InRange(rank: real, n: nat) {
    0.0 <= rank <= (n - 1) as real
  }

  /** `Math.ceil` */
  function Ceil(x: real): int {
    if x.Floor as real == x then x.Floor else x.Floor + 1
  }

  lemma CeilMeans(x: real)
    ensures Ceil(x) as real - 1.0 < x <= Ceil(x) as real
    ensures x.Floor <= Ceil(x) <= x.Floor + 1
  {
  }

  lemma RankInRange(p: real, n: nat)
    requires 0.0 < p <= 100.0 && n > 0
    ensures InRange(Rank(p, n), n)
  {
    Product(p / 100.0, 1.0, (n - 1) as real);
    Product(0.0, p / 100.0, (n - 1) as real);
  }

  lemma Product(x: real, y: real, z: real)
    requires x <= y && z >= 0.0
    ensures x * z <= y * z
  {
  }

  lemma ProductRight(x: real, y: real, z: real)
    requires x <= y && z >= 0.0
    ensures z * x <= z * y
  {
    Product(x, y, z);
    assert z * x == x * z && z * y == y * z;
  }

  lemma CeilInRange(rank: real, n: nat)
    requires InRange(rank, n)
    ensures 0 <= rank.Floor <= Ceil(rank) < n
  {
    CeilMeans(rank);
  }

  function Along(start: real, distance: real, fraction: real): real {
    start + distance * fraction
  }

  /** The value at a fractional rank of a list in order. */
  function Interpolated(sorted: seq<real>, rank: real): real
    requires InRange(rank, |sorted|)
  {
    CeilInRange(rank, |sorted|);
    var lower, upper := rank.Floor, Ceil(rank);
    if lower == upper then sorted[lower]
    else Along(sorted[lower], sorted[upper] - sorted[lower], rank - lower as real)
  }

  function PercentileOf(samples: seq<Number>, p: Number): Result<real, PercentileError> {
    if p.NonFinite? || p.r <= 0.0 || p.r > 100.0 then Err(BadPercentile(p))
    else
      var finite := FiniteOf(samples);
      if finite == [] then Err(NoSamples)
      else
        SortMultiset(finite, RealLe);
        RankInRange(p.r, |finite|);
        Ok(Interpolated(Sort(finite, RealLe), Rank(p.r, |finite|)))
  }

  method ComputePercentile(samples: seq<Number>, p: Number) returns (r: Result<real, PercentileError>)
    ensures r == PercentileOf(samples, p)
  {
    hide Sort, InRange;
    if p.NonFinite? || p.r <= 0.0 || p.r > 100.0 {
      return Err(BadPercentile(p));
    }
    var finite: seq<real> := [];
    for i := 0 to |samples|
      invariant finite == FiniteOf(samples[..i])
    {
      assert samples[..i + 1][..i] == samples[..i];
      if samples[i].Finite? { finite := finite + [samples[i].r]; }
    }
    assert samples[..|samples|] == samples;
    if |finite| == 0 { return Err(NoSamples); }
    SortMultiset(finite, RealLe);
    RankInRange(p.r, |finite|);
    var sorted := Sort(finite, RealLe);
    var rank := p.r / 100.0 * (|sorted| - 1) as real;
    assert rank == Rank(p.r, |finite|);
    if |finite| == 1 {
      SingleSample(finite, p.r);
      return Ok(finite[0]);
    }
    CeilInRange(rank, |sorted|);
    var lower, upper := rank.Floor, Ceil(rank);
    if lower == upper { return Ok(sorted[lower]); }
    var fraction := rank - lower as real;
    return Ok(Along(sorted[lower], sorted[upper] - sorted[lower], fraction));
  }

  lemma SingleSample(finite: seq<real>, p: real)
    requires |finite| == 1 && |Sort(finite, RealLe)| == 1 && InRange(Rank(p, 1), 1)
    ensures Interpolated(Sort(finite, RealLe), Rank(p, 1)) == finite[0]
  {
    assert finite[1..] == [] && Sort(finite[1..], RealLe) == [];
  }

  // ----- order statistics by counting

  function AtMost(x: real): real -> bool {
    y => y <= x
  }

  function AtLeast(x: real): real -> bool {
    y => y >= x
  }

  function CountAtMost(s: seq<real>, x: real): nat {
    |Filtered(s, AtMost(x))|
  }

  function CountAtLeast(s: seq<real>, x: real): nat {
    |Filtered(s, AtLeast(x))|
  }

  lemma RealOrder()
    ensures TotalPreorder(RealLe) && Antisymmetric(RealLe)
  {
  }

  lemma SortedAt(t: seq<real>, k: nat)
    requires SortedBy(t, RealLe) && k < |t|
    ensures forall y | y in t[..k] :: y <= t[k]
    ensures forall y | y in t[k..] :: y >= t[k]
  {
    assert forall i | 0 <= i < k :: RealLe(t[i], t[k]);
    assert forall i | k < i < |t| :: RealLe(t[k], t[i]);
  }

  lemma CountSorted(t: seq<real>, k: nat, keep: real -> bool)
    requires k < |t|
    ensures (forall y | y in t[..k + 1] :: keep(y)) ==> |Filtered(t, keep)| > k
    ensures (forall y | y in t[k..] :: !keep(y)) ==> |Filtered(t, keep)| <= k
    ensures (forall y | y in t[k..] :: keep(y)) ==> |Filtered(t, keep)| >= |t| - k
    ensures (forall y | y in t[..k + 1] :: !keep(y)) ==> |Filtered(t, keep)| < |t| - k
  {
    assert t == t[..k + 1] + t[k + 1..] && t == t[..k] + t[k..];
    FilteredAppend(t[..k + 1], t[k + 1..], keep);
    FilteredAppend(t[..k], t[k..], keep);
    if forall y | y in t[..k + 1] :: keep(y) { FilteredAll(t[..k + 1], keep); }
    if forall y | y in t[..k + 1] :: !keep(y) { FilteredNone(t[..k + 1], keep); }
    if forall y | y in t[k..] :: keep(y) { FilteredAll(t[k..], keep); }
    if forall y | y in t[k..] :: !keep(y) { FilteredNone(t[k..], keep); }
  }

  lemma CountAt(t: seq<real>, k: nat, x: real)
    requires SortedBy(t, RealLe) && k < |t|
    ensures t[k] <= x <==> CountAtMost(t, x) > k
    ensures t[k] >= x <==> CountAtLeast(t, x) >= |t| - k
  {
    SortedAt(t, k);
    hide SortedBy, Filtered;
    assert t[..k + 1] == t[..k] + [t[k]];
    CountSorted(t, k, AtMost(x));
    CountSorted(t, k, AtLeast(x));
  }

  lemma CountShuffled(s: seq<real>, x: real)
    ensures CountAtMost(Sort(s, RealLe), x) == CountAtMost(s, x)
    ensures CountAtLeast(Sort(s, RealLe), x) == CountAtLeast(s, x)
  {
    RealOrder();
    SortFiltered(s, AtMost(x), RealLe);
    SortFiltered(s, AtLeast(x), RealLe);
    SortMultiset(Filtered(s, AtMost(x)), RealLe);
    SortMultiset(Filtered(s, AtLeast(x)), RealLe);
  }

  /** The k-th smallest sample is at most x exactly when more than k samples
      are, and at least x exactly when all but k are. */
  lemma OrderStatistic(s: seq<real>, k: nat, x: real)
    requires k < |s|
    ensures |Sort(s, RealLe)| == |s|
    ensures Sort(s, RealLe)[k] <= x <==> CountAtMost(s, x) > k
    ensures Sort(s, RealLe)[k] >= x <==> CountAtLeast(s, x) >= |s| - k
  {
    RealOrder();
    SortMultiset(s, RealLe);
    SortSorted(s, RealLe);
    CountAt(Sort(s, RealLe), k, x);
    CountShuffled(s, x);
  }

  // ----- interpolation

  lemma AlongBetween(a: real, d: real, f: real)
    requires d >= 0.0 && 0.0 <= f <= 1.0
    ensures a <= Along(a, d, f) <= a + d
  {
    Share(d, f);
    assert Along(a, d, f) == a + d * f;
  }

  lemma Share(d: real, f: real)
    requires d >= 0.0 && 0.0 <= f <= 1.0
    ensures 0.0 <= d * f <= d
  {
    assert d * (1.0 - f) >= 0.0;
    assert d * (1.0 - f) == d - d * f;
  }

  lemma AlongSteeper(a: real, d: real, f: real, g: real)
    requires d >= 0.0 && f <= g
    ensures Along(a, d, f) <= Along(a, d, g)
  {
    ProductRight(f, g, d);
  }

  lemma InterpolatedBetween(sorted: seq<real>, rank: real)
    requires SortedBy(sorted, RealLe) && InRange(rank, |sorted|)
    ensures 0 <= rank.Floor <= Ceil(rank) < |sorted|
    ensures sorted[rank.Floor] <= Interpolated(sorted, rank) <= sorted[Ceil(rank)]
  {
    CeilInRange(rank, |sorted|);
    var lower, upper := rank.Floor, Ceil(rank);
    if lower < upper {
      assert RealLe(sorted[lower], sorted[upper]);
      AlongBetween(sorted[lower], sorted[upper] - sorted[lower], rank - lower as real);
    }
  }

  lemma InterpolatedMonotone(sorted: seq<real>, r: real, q: real)
    requires SortedBy(sorted, RealLe) && InRange(r, |sorted|) && InRange(q, |sorted|) && r <= q
    ensures Interpolated(sorted, r) <= Interpolated(sorted, q)
  {
    CeilInRange(r, |sorted|);
    CeilInRange(q, |sorted|);
    if r.Floor == q.Floor {
      if Ceil(q) > q.Floor {
        assert RealLe(sorted[q.Floor], sorted[Ceil(q)]);
        AlongSteeper(sorted[q.Floor], sorted[Ceil(q)] - sorted[q.Floor], r - r.Floor as real, q - q.Floor as real);
        if Ceil(r) == r.Floor { AlongBetween(sorted[q.Floor], sorted[Ceil(q)] - sorted[q.Floor], q - q.Floor as real); }
      }
    } else {
      InterpolatedBetween(sorted, r);
      InterpolatedBetween(sorted, q);
      if Ceil(r) < q.Floor { assert RealLe(sorted[Ceil(r)], sorted[q.Floor]); }
    }
  }

  lemma AlongWeighted(a: real, b: real, d: real, f: real, g: real)
    requires d == b - a && g == 1.0 - f
    ensures Along(a, d, f) == a * g + b * f
  {
    assert d * f == b * f - a * f;
    assert a * g == a - a * f;
  }

  lemma Weighted(a: real, b: real, c: real, d: real, f: real, g: real)
    requires a <= c && b <= d && f >= 0.0 && g >= 0.0
    ensures a * g + b * f <= c * g + d * f
  {
    Product(a, c, g);
    Product(b, d, f);
  }

  lemma AlongMonotone(a: real, b: real, c: real, d: real, f: real)
    requires a <= c && b <= d && 0.0 <= f <= 1.0
    ensures Along(a, b - a, f) <= Along(c, d - c, f)
  {
    hide Along;
    var g := 1.0 - f;
    AlongWeighted(a, b, b - a, f, g);
    AlongWeighted(c, d, d - c, f, g);
    Weighted(a, b, c, d, f, g);
  }

  lemma InterpolatedPointwise(s: seq<real>, t: seq<real>, rank: real)
    requires |s| == |t| && InRange(rank, |s|)
    requires forall k | 0 <= k < |s| :: s[k] <= t[k]
    ensures Interpolated(s, rank) <= Interpolated(t, rank)
  {
    CeilInRange(rank, |s|);
    hide Along;
    AlongMonotone(s[rank.Floor], s[Ceil(rank)], t[rank.Floor], t[Ceil(rank)], rank - rank.Floor as real);
  }

  // ----- the laws of percentiles

  lemma SortedFinite(samples: seq<Number>)
    ensures |Sort(FiniteOf(samples), RealLe)| == |FiniteOf(samples)|
    ensures SortedBy(Sort(FiniteOf(samples), RealLe), RealLe)
  {
    RealOrder();
    SortMultiset(FiniteOf(samples), RealLe);
    SortSorted(FiniteOf(samples), RealLe);
  }

  predicate Allowed(p: real) {
    0.0 < p <= 100.0
  }

  /** A percentile exists exactly when it lies in (0, 100] and some sample is
      finite. */
  lemma DefinedIff(samples: seq<Number>, p: Number)
    ensures PercentileOf(samples, p).Ok? <==> p.Finite? && Allowed(p.r) && exists x | x in samples :: x.Finite?
  {
    FiniteMembers(samples);
    var f := FiniteOf(samples);
    if f != [] {
      assert f[0] in f;
      assert Finite(f[0]) in samples;
    }
    if x :| x in samples && x.Finite? { assert x.r in f; }
  }

  lemma {:induction false} FiniteMembers(samples: seq<Number>)
    ensures forall r :: r in FiniteOf(samples) <==> Finite(r) in samples
  {
    if samples != [] {
      var n := |samples| - 1;
      FiniteMembers(samples[..n]);
      assert samples == samples[..n] + [samples[n]];
    }
  }

  lemma RankMonotone(p: real, q: real, n: nat)
    requires p <= q && n > 0
    ensures Rank(p, n) <= Rank(q, n)
  {
    assert p / 100.0 <= q / 100.0;
    Product(p / 100.0, q / 100.0, (n - 1) as real);
  }

  lemma MonotoneInP(samples: seq<Number>, p: real, q: real)
    requires Allowed(p) && Allowed(q) && p <= q && PercentileOf(samples, Finite(p)).Ok?
    ensures PercentileOf(samples, Finite(q)).Ok?
    ensures PercentileOf(samples, Finite(p)).value <= PercentileOf(samples, Finite(q)).value
  {
    hide Interpolated, Rank, InRange, Sort, SortedBy;
    var n := |FiniteOf(samples)|;
    SortedFinite(samples);
    RankInRange(p, n);
    RankInRange(q, n);
    RankMonotone(p, q, n);
    InterpolatedMonotone(Sort(FiniteOf(samples), RealLe), Rank(p, n), Rank(q, n));
  }

  lemma {:induction false} FiniteCount(samples: seq<Number>, r: real)
    ensures multiset(FiniteOf(samples))[r] == multiset(samples)[Finite(r)]
  {
    if samples != [] {
      var n := |samples| - 1;
      FiniteCount(samples[..n], r);
      assert samples == samples[..n] + [samples[n]];
    }
  }

  /** The order of the samples does not matter. */
  lemma OrderIrrelevant(a: seq<Number>, b: seq<Number>, p: Number)
    requires multiset(a) == multiset(b)
    ensures PercentileOf(a, p) == PercentileOf(b, p)
  {
    var f, g := FiniteOf(a), FiniteOf(b);
    forall r
      ensures multiset(f)[r] == multiset(g)[r]
    {
      FiniteCount(a, r);
      FiniteCount(b, r);
    }
    assert multiset(f) == multiset(g);
    assert |f| == |multiset(f)| && |g| == |multiset(g)|;
    RealOrder();
    SortEqualIff(f, g, RealLe);
  }

  ghost predicate Pointwise(a: seq<Number>, b: seq<Number>) {
    && |a| == |b|
    && forall i | 0 <= i < |a| :: a[i].Finite? == b[i].Finite? && (a[i].Finite? ==> a[i].r <= b[i].r)
  }

  lemma {:induction false} FinitePointwise(a: seq<Number>, b: seq<Number>, x: real)
    requires Pointwise(a, b)
    ensures |FiniteOf(a)| == |FiniteOf(b)|
    ensures CountAtMost(FiniteOf(b), x) <= CountAtMost(FiniteOf(a), x)
  {
    if a != [] {
      var n := |a| - 1;
      FinitePointwise(a[..n], b[..n], x);
      if a[n].Finite? {
        FilteredAppend(FiniteOf(a[..n]), [a[n].r], AtMost(x));
        FilteredAppend(FiniteOf(b[..n]), [b[n].r], AtMost(x));
        FilteredOne(a[n].r, AtMost(x));
        FilteredOne(b[n].r, AtMost(x));
      }
    }
  }

  lemma SortedPointwise(a: seq<Number>, b: seq<Number>, k: nat)
    requires Pointwise(a, b) && k < |FiniteOf(a)|
    ensures |Sort(FiniteOf(a), RealLe)| == |Sort(FiniteOf(b), RealLe)| == |FiniteOf(a)| == |FiniteOf(b)|
    ensures Sort(FiniteOf(a), RealLe)[k] <= Sort(FiniteOf(b), RealLe)[k]
  {
    FinitePointwise(a, b, 0.0);
    SortedFinite(a);
    SortedFinite(b);
    var x := Sort(FiniteOf(b), RealLe)[k];
    FinitePointwise(a, b, x);
    OrderStatistic(FiniteOf(a), k, x);
    OrderStatistic(FiniteOf(b), k, x);
  }

  /** Growing samples never lower a percentile. */
  lemma MonotoneInSamples(a: seq<Number>, b: seq<Number>, p: Number)
    requires Pointwise(a, b) && PercentileOf(a, p).Ok?
    ensures PercentileOf(b, p).Ok?
    ensures PercentileOf(a, p).value <= PercentileOf(b, p).value
  {
    FinitePointwise(a, b, 0.0);
    SortedFinite(a);
    SortedFinite(b);
    var s, t := Sort(FiniteOf(a), RealLe), Sort(FiniteOf(b), RealLe);
    forall k | 0 <= k < |s|
      ensures s[k] <= t[k]
    {
      SortedPointwise(a, b, k);
    }
    RankInRange(p.r, |s|);
    InterpolatedPointwise(s, t, Rank(p.r, |s|));
  }

  /** A percentile lies between two samples, and at 100 it is the greatest. */
  lemma Bounded(samples: seq<Number>, p: Number)
    requires PercentileOf(samples, p).Ok?
    ensures exists x | x in samples :: x.Finite? && x.r <= PercentileOf(samples, p).value
    ensures exists x | x in samples :: x.Finite? && x.r >= PercentileOf(samples, p).value
    ensures p.r == 100.0 ==> Finite(PercentileOf(samples, p).value) in samples
    ensures p.r == 100.0 ==> forall x | x in samples && x.Finite? :: x.r <= PercentileOf(samples, p).value
  {
    SortedFinite(samples);
    var s := Sort(FiniteOf(samples), RealLe);
    var rank := Rank(p.r, |s|);
    RankInRange(p.r, |s|);
    InterpolatedBetween(s, rank);
    SortMembers(FiniteOf(samples), RealLe);
    FiniteMembers(samples);
    assert s[rank.Floor] in s && s[Ceil(rank)] in s;
    assert Finite(s[rank.Floor]) in samples && Finite(s[Ceil(rank)]) in samples;
    if p.r == 100.0 {
      assert rank == (|s| - 1) as real;
      forall x | x in samples && x.Finite?
        ensures x.r <= s[|s| - 1]
      {
        assert x.r in s;
        var i :| 0 <= i < |s| && s[i] == x.r;
        assert i == |s| - 1 || RealLe(s[i], s[|s| - 1]);
      }
    }
  }

  /** How many samples a percentile speaks for.  When its rank is whole the two
      bounds meet. */
  lemma CountsBelow(samples: seq<Number>, p: Number, x: real)
    requires PercentileOf(samples, p).Ok?
    ensures var n := |FiniteOf(samples)|; var rank := Rank(p.r, n); var count := CountAtMost(FiniteOf(samples), x);
            && (PercentileOf(samples, p).value <= x ==> count >= rank.Floor + 1)
            && (PercentileOf(samples, p).value > x ==> count <= Ceil(rank))
  {
    var f := FiniteOf(samples);
    var rank := Rank(p.r, |f|);
    SortedFinite(samples);
    RankInRange(p.r, |f|);
    InterpolatedBetween(Sort(f, RealLe), rank);
    OrderStatistic(f, rank.Floor, x);
    OrderStatistic(f, Ceil(rank), x);
  }

  lemma CountsAbove(samples: seq<Number>, p: Number, x: real)
    requires PercentileOf(samples, p).Ok?
    ensures var n := |FiniteOf(samples)|; var rank := Rank(p.r, n); var count := CountAtLeast(FiniteOf(samples), x);
            && (PercentileOf(samples, p).value >= x ==> count >= n - Ceil(rank))
            && (PercentileOf(samples, p).value < x ==> count < n - rank.Floor)
  {
    var f := FiniteOf(samples);
    var rank := Rank(p.r, |f|);
    SortedFinite(samples);
    RankInRange(p.r, |f|);
    InterpolatedBetween(Sort(f, RealLe), rank);
    OrderStatistic(f, rank.Floor, x);
    OrderStatistic(f, Ceil(rank), x);
  }

  // ----- the value, written out

  /** `s` lists the finite samples in order. */
  ghost predicate Ordered(s: seq<real>, samples: seq<Number>) {
    && (forall r :: multiset(s)[r] == multiset(samples)[Finite(r)])
    && (forall i, j | 0 <= i < j < |s| :: s[i] <= s[j])
  }

  lemma OrderedIsSort(s: seq<real>, samples: seq<Number>)
    requires Ordered(s, samples)
    ensures Sort(FiniteOf(samples), RealLe) == s && |FiniteOf(samples)| == |s|
  {
    var f := FiniteOf(samples);
    forall r
      ensures multiset(f)[r] == multiset(s)[r]
    {
      FiniteCount(samples, r);
    }
    assert multiset(f) == multiset(s);
    assert |f| == |multiset(f)| && |s| == |multiset(s)|;
    assert SortedBy(s, RealLe);
    RealOrder();
    hide Sort, FiniteOf;
    SortForgets(f, s, RealLe);
    SortFixpoint(s, RealLe);
  }

  /** Between the samples at `k` and `k + 1`, the percentile is at the fraction by
      which the rank exceeds `k`. */
  lemma ValueMeans(samples: seq<Number>, p: real, s: seq<real>, rank: real, k: nat)
    requires Ordered(s, samples) && s != [] && 0.0 < p <= 100.0
    requires rank == p / 100.0 * (|s| - 1) as real && k as real <= rank < k as real + 1.0
    ensures PercentileOf(samples, Finite(p)).Ok? && k < |s|
    ensures k + 1 == |s| ==> PercentileOf(samples, Finite(p)).value == s[k]
    ensures k + 1 < |s| ==>
              PercentileOf(samples, Finite(p)).value == s[k] + (s[k + 1] - s[k]) * (rank - k as real)
  {
    RankIs(p, |s|, rank);
    hide *;
    ValueAtRank(samples, p, s);
    InterpolatedAt(s, rank, k);
    if k + 1 < |s| { AlongMeans(s[k], s[k + 1] - s[k], rank - k as real); }
  }

  lemma RankIs(p: real, n: nat, rank: real)
    requires rank == p / 100.0 * (n - 1) as real
    ensures Rank(p, n) == rank
  {
  }

  lemma ValueAtRank(samples: seq<Number>, p: real, s: seq<real>)
    requires Ordered(s, samples) && s != [] && 0.0 < p <= 100.0
    ensures InRange(Rank(p, |s|), |s|)
    ensures PercentileOf(samples, Finite(p)) == Ok(Interpolated(s, Rank(p, |s|)))
  {
    OrderedIsSort(s, samples);
    RankInRange(p, |s|);
    hide Sort, FiniteOf, Ordered, Rank, Interpolated, InRange;
  }

  lemma AlongMeans(a: real, d: real, f: real)
    ensures Along(a, d, f) == a + d * f
  {
  }

  lemma InterpolatedAt(s: seq<real>, rank: real, k: nat)
    requires InRange(rank, |s|) && k as real <= rank < k as real + 1.0
    ensures k < |s|
    ensures k + 1 == |s| ==> Interpolated(s, rank) == s[k]
    ensures k + 1 < |s| ==> Interpolated(s, rank) == Along(s[k], s[k + 1] - s[k], rank - k as real)
  {
    CeilMeans(rank);
    if k + 1 < |s| && rank == k as real { AlongNothing(s[k], s[k + 1] - s[k]); }
  }

  lemma AlongNothing(a: real, d: real)
    ensures Along(a, d, 0.0) == a
  {
  }

  // ----- evenly spaced samples

  function Stepped(first: real, step: real, i: nat): real {
    first + step * i as real
  }

  function Spaced(first: real, step: real, n: nat): (samples: seq<Number>)
    ensures |samples| == n && forall i | 0 <= i < n :: samples[i] == Finite(Stepped(first, step, i))
  {
    seq(n, i requires 0 <= i < n => Finite(Stepped(first, step, i)))
  }

  lemma {:induction false} FiniteAll(samples: seq<Number>)
    requires forall x | x in samples :: x.Finite?
    ensures |FiniteOf(samples)| == |samples| && forall i | 0 <= i < |samples| :: FiniteOf(samples)[i] == samples[i].r
  {
    if samples != [] {
      var n := |samples| - 1;
      assert samples == samples[..n] + [samples[n]];
      assert samples[n] in samples && samples[n].Finite?;
      FiniteAll(samples[..n]);
      var f, before := FiniteOf(samples), FiniteOf(samples[..n]);
      assert f == before + [samples[n].r] && |before| == |samples[..n]| == n;
      forall i | 0 <= i < n + 1
        ensures f[i] == samples[i].r
      {
        if i < n { assert f[i] == before[i] && before[i] == samples[..n][i].r; }
      }
    }
  }

  lemma SpacedSorted(first: real, step: real, n: nat)
    requires step >= 0.0
    ensures Sort(FiniteOf(Spaced(first, step, n)), RealLe) == FiniteOf(Spaced(first, step, n))
    ensures |FiniteOf(Spaced(first, step, n))| == n
    ensures forall i | 0 <= i < n :: FiniteOf(Spaced(first, step, n))[i] == Stepped(first, step, i)
  {
    FiniteAll(Spaced(first, step, n));
    var f := FiniteOf(Spaced(first, step, n));
    forall i, j | 0 <= i < j < n
      ensures RealLe(f[i], f[j])
    {
      ProductRight(i as real, j as real, step);
    }
    SortFixpoint(f, RealLe);
  }

  /** Interpolation is linear: the percentile of evenly spaced samples, in any
      order, is at the rank itself. */
  lemma LinearOnSpaced(samples: seq<Number>, first: real, step: real, p: real)
    requires samples != [] && step >= 0.0 && Allowed(p)
    requires multiset(samples) == multiset(Spaced(first, step, |samples|))
    ensures PercentileOf(samples, Finite(p)).Ok?
    ensures PercentileOf(samples, Finite(p)).value == first + step * (p / 100.0 * (|samples| - 1) as real)
  {
    hide *;
    var n := |samples|;
    OrderIrrelevant(samples, Spaced(first, step, n), Finite(p));
    SpacedPercentile(first, step, n, p);
    RankMeans(p, n);
  }

  lemma RankMeans(p: real, n: nat)
    ensures Rank(p, n) == p / 100.0 * (n - 1) as real
  {
  }

  lemma SpacedPercentile(first: real, step: real, n: nat, p: real)
    requires n > 0 && step >= 0.0 && Allowed(p)
    ensures PercentileOf(Spaced(first, step, n), Finite(p)).Ok?
    ensures PercentileOf(Spaced(first, step, n), Finite(p)).value == first + step * Rank(p, n)
  {
    hide Sort, Rank, Interpolated, FiniteOf, Spaced, InRange;
    SpacedSorted(first, step, n);
    RankInRange(p, n);
    SpacedInterpolated(FiniteOf(Spaced(first, step, n)), first, step, Rank(p, n));
  }

  lemma SpacedInterpolated(sorted: seq<real>, first: real, step: real, rank: real)
    requires InRange(rank, |sorted|) && forall i | 0 <= i < |sorted| :: sorted[i] == Stepped(first, step, i)
    ensures Interpolated(sorted, rank) == first + step * rank
  {
    CeilInRange(rank, |sorted|);
    CeilMeans(rank);
    var lower, upper := rank.Floor, Ceil(rank);
    if lower < upper {
      OnLine(first, step, lower as real, rank, sorted[lower], sorted[upper]);
    } else {
      assert rank == lower as real;
    }
  }

  lemma OnLine(first: real, step: real, lower: real, rank: real, x: real, y: real)
    requires x == first + step * lower && y == first + step * (lower + 1.0)
    ensures Along(x, y - x, rank - lower) == first + step * rank
  {
    assert step * (lower + 1.0) == step * lower + step;
    assert y - x == step;
    assert step * (rank - lower) == step * rank - step * lower;
  }
}
