// The go.gc_pause_ns gauge: the total pause time estimated from a histogram whose outer edges may
// be infinite, as those of the runtime's pause histogram are.
module RuntimeMetrics {

  // float64 without rounding: real numbers, the infinities, and not-a-number.
  datatype Float = NegInf | Finite(r: real) | PosInf | NaN

  function Add(a: Float, b: Float): Float {
    if a.NaN? || b.NaN? then NaN
    else if a.Finite? && b.Finite? then Finite(a.r + b.r)
    else if a.Finite? then b
    else if b.Finite? || a == b then a
    else NaN
  }

  function Half(a: Float): Float {
    if a.Finite? then Finite(a.r / 2.0) else a
  }

  // A count times a value; zero times an infinity is not a number.
  function Times(k: nat, a: Float): Float {
    if a.Finite? then Finite(k as real * a.r) else if k == 0 then NaN else a
  }

  function InNanos(a: Float): Float {
    if a.Finite? then Finite(a.r * 1000000000.0) else a
  }

  function Midpoint(buckets: seq<Float>, i: nat): Float
    requires i + 1 < |buckets|
  {
    Half(Add(buckets[i], buckets[i + 1]))
  }

  // The bucket loop on the histogram's counts and edges.
  method GcPauseNs(counts: seq<nat>, buckets: seq<Float>) returns (ns: Float)
    ensures ns == InNanos(MidpointSum(counts, buckets, |counts|))
  {
    var total := Finite(0.0);
    var i := 0;
    while i < |counts|
      invariant 0 <= i <= |counts| && total == MidpointSum(counts, buckets, i)
    {
      if counts[i] != 0 && i + 1 < |buckets| {
        total := Add(total, Times(counts[i], Midpoint(buckets, i)));
      }
      i := i + 1;
    }
    ns := InNanos(total);
  }

  // The sum over the first n buckets of count times midpoint, skipping the buckets that are empty or
  // have no upper edge.
  function MidpointSum(counts: seq<nat>, buckets: seq<Float>, n: nat): Float
    requires n <= |counts|
  {
    if n == 0 then Finite(0.0)
    else
      var before := MidpointSum(counts, buckets, n - 1);
      if counts[n - 1] != 0 && n < |buckets| then Add(before, Times(counts[n - 1], Midpoint(buckets, n - 1)))
      else before
  }

  // Both edges of bucket i are finite.
  predicate Bounded(buckets: seq<Float>, i: nat) {
    i + 1 < |buckets| && buckets[i].Finite? && buckets[i + 1].Finite?
  }

  // Every bucket that has an upper edge and counts something is bounded.
  ghost predicate UnboundedAreEmpty(counts: seq<nat>, buckets: seq<Float>, n: nat)
    requires n <= |counts|
  {
    forall i :: 0 <= i < n && counts[i] != 0 && i + 1 < |buckets| ==> Bounded(buckets, i)
  }

  // For any edges at all, the sum is finite if and only if the unbounded buckets are empty.
  lemma {:induction false} FiniteIff(counts: seq<nat>, buckets: seq<Float>, n: nat)
    requires n <= |counts|
    ensures MidpointSum(counts, buckets, n).Finite? <==> UnboundedAreEmpty(counts, buckets, n)
  {
    if n > 0 {
      FiniteIff(counts, buckets, n - 1);
      if counts[n - 1] != 0 && n < |buckets| {
        assert Midpoint(buckets, n - 1).Finite? <==> Bounded(buckets, n - 1);
      }
    }
  }

  // The same sum without the test of the count.
  function UnguardedSum(counts: seq<nat>, buckets: seq<Float>, n: nat): Float
    requires n <= |counts|
  {
    if n == 0 then Finite(0.0)
    else
      var before := UnguardedSum(counts, buckets, n - 1);
      if n < |buckets| then Add(before, Times(counts[n - 1], Midpoint(buckets, n - 1))) else before
  }

  // What the test is for: without it a single empty unbounded bucket makes the sum not a number.
  lemma {:induction false} GuardIsNeeded(counts: seq<nat>, buckets: seq<Float>, n: nat, i: nat)
    requires i < n <= |counts| && counts[i] == 0 && i + 1 < |buckets| && !Bounded(buckets, i)
    ensures UnguardedSum(counts, buckets, n).NaN?
  {
    if i < n - 1 {
      GuardIsNeeded(counts, buckets, n - 1, i);
    }
  }

  // Edges that increase: only the first can be -Inf and only the last +Inf.
  ghost predicate Increasing(buckets: seq<Float>) {
    forall i :: 0 <= i < |buckets| - 1 ==> Below(buckets[i], buckets[i + 1])
  }

  // A counted bucket without a lower edge pulls the sum to -Inf, one without an upper edge to +Inf.
  function Pulled(low: bool, high: bool, sum: Float): Float {
    if low && high then NaN else if low then NegInf else if high then PosInf else sum
  }

  lemma {:induction false} SumIsPulled(counts: seq<nat>, buckets: seq<Float>, n: nat)
    requires n <= |counts| == |buckets| - 1 && Increasing(buckets)
    ensures var low := n > 0 && buckets[0].NegInf? && counts[0] != 0;
      var high := n == |counts| > 0 && buckets[n].PosInf? && counts[n - 1] != 0;
      var sum := MidpointSum(counts, buckets, n);
      sum == Pulled(low, high, sum) && (!low && !high ==> sum.Finite?)
  {
    if n > 0 {
      SumIsPulled(counts, buckets, n - 1);
      assert Below(buckets[n - 1], buckets[n]);
      assert n > 1 ==> Below(buckets[n - 2], buckets[n - 1]);
      assert n < |counts| ==> Below(buckets[n], buckets[n + 1]);
    }
  }

  // Histograms of pauses.

  // The histogram of pauses that fell into the given bins.
  function Histogram(bins: seq<nat>, n: nat): seq<nat>
    requires forall j :: 0 <= j < |bins| ==> bins[j] < n
    ensures |Histogram(bins, n)| == n
  {
    if bins == [] then seq(n, _ => 0)
    else
      var h := Histogram(bins[..|bins| - 1], n);
      h[bins[|bins| - 1] := h[bins[|bins| - 1]] + 1]
  }

  lemma {:induction false} HistogramCounts(bins: seq<nat>, n: nat, i: nat)
    requires (forall j :: 0 <= j < |bins| ==> bins[j] < n) && i < n
    ensures Histogram(bins, n)[i] != 0 <==> i in bins
  {
    if bins != [] {
      var init := bins[..|bins| - 1];
      HistogramCounts(init, n, i);
      assert bins == init + [bins[|bins| - 1]];
    }
  }

  function Total(pauses: seq<real>): real {
    if pauses == [] then 0.0 else Total(pauses[..|pauses| - 1]) + pauses[|pauses| - 1]
  }

  predicate Below(a: Float, b: Float) {
    match (a, b)
    case (Finite(x), Finite(y)) => x < y
    case (NegInf, Finite(_)) => true
    case (NegInf, PosInf) => true
    case (Finite(_), PosInf) => true
    case _ => false
  }

  // Pause p lies between the edges of bucket i.
  predicate Between(buckets: seq<Float>, i: nat, p: real) {
    && i + 1 < |buckets|
    && (buckets[i] == Finite(p) || Below(buckets[i], Finite(p)))
    && (buckets[i + 1] == Finite(p) || Below(Finite(p), buckets[i + 1]))
  }

  // Every pause lies between the edges of its bin, and the edges increase; so only the first edge can
  // be -Inf and only the last +Inf.
  ghost predicate Binned(pauses: seq<real>, bins: seq<nat>, buckets: seq<Float>) {
    && |pauses| == |bins| && |buckets| >= 1
    && Increasing(buckets)
    && (forall j :: 0 <= j < |bins| ==> bins[j] < |buckets| - 1)
    && (forall j :: 0 <= j < |bins| ==> Between(buckets, bins[j], pauses[j]))
  }

  // The sum of k copies of w.
  function Copies(k: nat, w: real): real {
    if k == 0 then 0.0 else Copies(k - 1, w) + w
  }

  lemma {:induction false} CopiesIsProduct(k: nat, w: real)
    ensures Copies(k, w) == k as real * w
  {
    if k > 0 {
      CopiesIsProduct(k - 1, w);
      OneMore((k - 1) as real, w);
      assert k as real == (k - 1) as real + 1.0;
    } else {
      assert 0.0 * w == 0.0;
    }
  }

  lemma OneMore(x: real, w: real)
    ensures (x + 1.0) * w == x * w + w
  {
  }

  // The sum over the buckets of count times weight.
  function Weighted(counts: seq<nat>, weight: nat -> real): real {
    if counts == [] then 0.0
    else Weighted(counts[..|counts| - 1], weight) + Copies(counts[|counts| - 1], weight(|counts| - 1))
  }

  // Weights of the bounded buckets; the others weigh nothing.

  function Lower(buckets: seq<Float>): nat -> real {
    (i: nat) => if Bounded(buckets, i) then buckets[i].r else 0.0
  }

  function Upper(buckets: seq<Float>): nat -> real {
    (i: nat) => if Bounded(buckets, i) then buckets[i + 1].r else 0.0
  }

  function Width(buckets: seq<Float>): nat -> real {
    (i: nat) => if Bounded(buckets, i) then buckets[i + 1].r - buckets[i].r else 0.0
  }

  function Middle(buckets: seq<Float>): nat -> real {
    (i: nat) => if Bounded(buckets, i) then (buckets[i].r + buckets[i + 1].r) / 2.0 else 0.0
  }

  lemma {:induction false} WeightedIncrement(counts: seq<nat>, i: nat, weight: nat -> real)
    requires i < |counts|
    ensures Weighted(counts[i := counts[i] + 1], weight) == Weighted(counts, weight) + weight(i)
  {
    var n := |counts| - 1;
    var more := counts[i := counts[i] + 1];
    if i == n {
      assert more[..n] == counts[..n];
    } else {
      assert more[..n] == counts[..n][i := counts[..n][i] + 1];
      WeightedIncrement(counts[..n], i, weight);
    }
  }

  lemma {:induction false} WeightedZero(n: nat, weight: nat -> real)
    ensures Weighted(seq(n, _ => 0), weight) == 0.0
  {
    if n > 0 {
      var zeros: seq<nat> := seq(n, _ => 0);
      assert zeros[..n - 1] == seq(n - 1, _ => 0);
      WeightedZero(n - 1, weight);
    }
  }

  // Weighing the buckets by their counts is weighing every pause by its bucket.
  lemma {:induction false} WeightedIsPerPause(each: seq<real>, bins: seq<nat>, n: nat, weight: nat -> real)
    requires |each| == |bins|
    requires forall j :: 0 <= j < |bins| ==> bins[j] < n && each[j] == weight(bins[j])
    ensures Weighted(Histogram(bins, n), weight) == Total(each)
  {
    if bins == [] {
      WeightedZero(n, weight);
    } else {
      var last := |bins| - 1;
      WeightedIsPerPause(each[..last], bins[..last], n, weight);
      WeightedIncrement(Histogram(bins[..last], n), bins[last], weight);
    }
  }

  // A finite sum is the count-weighted sum of the midpoints of the bounded buckets.
  lemma {:induction false} MidpointSumIsWeighted(counts: seq<nat>, buckets: seq<Float>, n: nat)
    requires n <= |counts| && |buckets| >= |counts| + 1 && UnboundedAreEmpty(counts, buckets, n)
    ensures MidpointSum(counts, buckets, n) == Finite(Weighted(counts[..n], Middle(buckets)))
  {
    if n > 0 {
      MidpointSumIsWeighted(counts, buckets, n - 1);
      NextIsWeighted(counts, buckets, n);
    }
  }

  lemma NextIsWeighted(counts: seq<nat>, buckets: seq<Float>, n: nat)
    requires 1 <= n <= |counts| && |buckets| >= |counts| + 1 && UnboundedAreEmpty(counts, buckets, n)
    requires MidpointSum(counts, buckets, n - 1) == Finite(Weighted(counts[..n - 1], Middle(buckets)))
    ensures MidpointSum(counts, buckets, n) == Finite(Weighted(counts[..n], Middle(buckets)))
  {
    MidpointStep(counts, buckets, n, Weighted(counts[..n - 1], Middle(buckets)));
    WeightedStep(counts, n, Middle(buckets));
  }

  lemma MidpointStep(counts: seq<nat>, buckets: seq<Float>, n: nat, before: real)
    requires 1 <= n <= |counts| && |buckets| >= |counts| + 1 && UnboundedAreEmpty(counts, buckets, n)
    requires MidpointSum(counts, buckets, n - 1) == Finite(before)
    ensures MidpointSum(counts, buckets, n) == Finite(before + Copies(counts[n - 1], Middle(buckets)(n - 1)))
  {
    var w := Middle(buckets)(n - 1);
    if counts[n - 1] != 0 {
      TimesMiddle(counts[n - 1], buckets, n - 1);
      CountedStep(counts, buckets, n, before, Copies(counts[n - 1], w));
    }
  }

  lemma CountedStep(counts: seq<nat>, buckets: seq<Float>, n: nat, before: real, more: real)
    requires 1 <= n <= |counts| && n < |buckets| && counts[n - 1] != 0
    requires MidpointSum(counts, buckets, n - 1) == Finite(before)
    requires Times(counts[n - 1], Midpoint(buckets, n - 1)) == Finite(more)
    ensures MidpointSum(counts, buckets, n) == Finite(before + more)
  {
  }

  lemma WeightedStep(counts: seq<nat>, n: nat, weight: nat -> real)
    requires 1 <= n <= |counts|
    ensures Weighted(counts[..n], weight)
         == Weighted(counts[..n - 1], weight) + Copies(counts[n - 1], weight(n - 1))
  {
    assert counts[..n][..n - 1] == counts[..n - 1];
  }

  lemma TimesMiddle(k: nat, buckets: seq<Float>, i: nat)
    requires Bounded(buckets, i)
    ensures Times(k, Midpoint(buckets, i)) == Finite(Copies(k, Middle(buckets)(i)))
  {
    CopiesIsProduct(k, Middle(buckets)(i));
  }

  ghost predicate Within(pauses: seq<real>, counts: seq<nat>, buckets: seq<Float>) {
    var mid := Weighted(counts, Middle(buckets));
    var slack := Weighted(counts, Width(buckets)) / 2.0;
    && Total(pauses) - slack <= mid <= Total(pauses) + slack
    && Weighted(counts, Lower(buckets)) <= mid <= Weighted(counts, Upper(buckets))
  }

  lemma {:induction false} SumsAreWithin(pauses: seq<real>, bins: seq<nat>, buckets: seq<Float>)
    requires Binned(pauses, bins, buckets)
    requires forall j :: 0 <= j < |bins| ==> Bounded(buckets, bins[j])
    ensures Within(pauses, Histogram(bins, |buckets| - 1), buckets)
  {
    var n := |buckets| - 1;
    if pauses == [] {
      WeightedZero(n, Middle(buckets));
      WeightedZero(n, Width(buckets));
      WeightedZero(n, Lower(buckets));
      WeightedZero(n, Upper(buckets));
    } else {
      var last := |pauses| - 1;
      SumsAreWithin(pauses[..last], bins[..last], buckets);
      OneMorePause(pauses[..last], pauses[last], Histogram(bins[..last], n), bins[last], buckets);
      assert pauses[..last] + [pauses[last]] == pauses;
    }
  }

  lemma OneMorePause(pauses: seq<real>, p: real, h: seq<nat>, i: nat, buckets: seq<Float>)
    requires Within(pauses, h, buckets) && i < |h| && Bounded(buckets, i) && Between(buckets, i, p)
    ensures Within(pauses + [p], h[i := h[i] + 1], buckets)
  {
    WeightedIncrement(h, i, Middle(buckets));
    WeightedIncrement(h, i, Width(buckets));
    WeightedIncrement(h, i, Lower(buckets));
    WeightedIncrement(h, i, Upper(buckets));
    assert (pauses + [p])[..|pauses|] == pauses;
  }

  // For any pauses, and edges that may be infinite at either end: the reported value is finite if and
  // only if no pause fell into an unbounded bucket. It is then off by at most half the bucket widths
  // weighted by the counts, and lies between the sums over the lower and the upper edges.
  method EstimatePauses(pauses: seq<real>, bins: seq<nat>, buckets: seq<Float>) returns (ns: Float)
    requires Binned(pauses, bins, buckets)
    ensures ns.Finite? <==> forall j :: 0 <= j < |bins| ==> Bounded(buckets, bins[j])
    ensures var low := buckets[0].NegInf? && 0 in bins;
      var high := |buckets| >= 2 && buckets[|buckets| - 1].PosInf? && |buckets| - 2 in bins;
      && (ns.Finite? <==> !low && !high)
      && (ns.NegInf? <==> low && !high)
      && (ns.PosInf? <==> high && !low)
      && (ns.NaN? <==> low && high)
    ensures ns.Finite? ==>
      forall mids: seq<real> :: PerPause(mids, bins, buckets) ==> ns.r == 1000000000.0 * Total(mids)
    ensures ns.Finite? ==>
      var h := Histogram(bins, |buckets| - 1);
      && 1000000000.0 * (Total(pauses) - Weighted(h, Width(buckets)) / 2.0) <= ns.r
      && ns.r <= 1000000000.0 * (Total(pauses) + Weighted(h, Width(buckets)) / 2.0)
      && 1000000000.0 * Weighted(h, Lower(buckets)) <= ns.r <= 1000000000.0 * Weighted(h, Upper(buckets))
  {
    var h := Histogram(bins, |buckets| - 1);
    ns := GcPauseNs(h, buckets);
    FiniteIff(h, buckets, |h|);
    BinsOfHistogram(bins, buckets);
    SumIsPulled(h, buckets, |h|);
    if |h| > 0 {
      HistogramCounts(bins, |h|, 0);
      HistogramCounts(bins, |h|, |h| - 1);
    }
    if ns.Finite? {
      FiniteSum(pauses, bins, buckets);
    }
  }

  lemma FiniteSum(pauses: seq<real>, bins: seq<nat>, buckets: seq<Float>)
    requires Binned(pauses, bins, buckets) && forall j :: 0 <= j < |bins| ==> Bounded(buckets, bins[j])
    ensures var h := Histogram(bins, |buckets| - 1);
      && MidpointSum(h, buckets, |h|) == Finite(Weighted(h, Middle(buckets))) && Within(pauses, h, buckets)
      && forall mids: seq<real> :: PerPause(mids, bins, buckets) ==> Weighted(h, Middle(buckets)) == Total(mids)
  {
    var h := Histogram(bins, |buckets| - 1);
    BinsOfHistogram(bins, buckets);
    MidpointSumIsWeighted(h, buckets, |h|);
    assert h[..|h|] == h;
    SumsAreWithin(pauses, bins, buckets);
    forall mids: seq<real> | PerPause(mids, bins, buckets)
      ensures Weighted(h, Middle(buckets)) == Total(mids)
    {
      MidpointPerPause(mids, bins, buckets);
    }
  }

  // A histogram with unbounded outer buckets: a pause in either of these, and pauses in both. A pause on
  // an edge may be counted on either side of it.
  method UnboundedPauses() returns (below: Float, above: Float, both: Float)
    ensures below == NegInf && above == PosInf && both == NaN
  {
    var buckets := [NegInf, Finite(0.0), Finite(1.0), PosInf];
    below := EstimatePauses([0.0], [0], buckets);
    above := EstimatePauses([1.0], [2], buckets);
    both := EstimatePauses([0.0, 1.0], [0, 2], buckets);
  }

  // Two pauses in the bucket from 0 to 1 second count half a second each.
  method BoundedPauses() returns (inside: Float)
    ensures inside == Finite(1000000000.0)
  {
    var buckets := [NegInf, Finite(0.0), Finite(1.0), PosInf];
    inside := EstimatePauses([0.0, 1.0], [1, 1], buckets);
    assert Bounded(buckets, 1);
    assert PerPause([0.5, 0.5], [1, 1], buckets);
    TotalTwo(0.5, 0.5);
  }

  lemma TotalTwo(x: real, y: real)
    ensures Total([x, y]) == x + y
  {
    assert [x, y][..1] == [x] && [x][..0] == [];
    assert Total([x]) == x;
  }

  // The midpoints of the buckets of the pauses, pause by pause.
  ghost predicate PerPause(mids: seq<real>, bins: seq<nat>, buckets: seq<Float>) {
    && |mids| == |bins|
    && forall j :: 0 <= j < |bins| ==>
         Bounded(buckets, bins[j]) && mids[j] == (buckets[bins[j]].r + buckets[bins[j] + 1].r) / 2.0
  }

  lemma MidpointPerPause(mids: seq<real>, bins: seq<nat>, buckets: seq<Float>)
    requires PerPause(mids, bins, buckets)
    requires |buckets| >= 1 && forall j :: 0 <= j < |bins| ==> bins[j] < |buckets| - 1
    ensures Weighted(Histogram(bins, |buckets| - 1), Middle(buckets)) == Total(mids)
  {
    WeightedIsPerPause(mids, bins, |buckets| - 1, Middle(buckets));
  }

  lemma BinsOfHistogram(bins: seq<nat>, buckets: seq<Float>)
    requires |buckets| >= 1 && forall j :: 0 <= j < |bins| ==> bins[j] < |buckets| - 1
    ensures UnboundedAreEmpty(Histogram(bins, |buckets| - 1), buckets, |buckets| - 1)
       <==> forall j :: 0 <= j < |bins| ==> Bounded(buckets, bins[j])
  {
    var n := |buckets| - 1;
    var h := Histogram(bins, n);
    forall i: nat | i < n
      ensures h[i] != 0 <==> i in bins
    {
      HistogramCounts(bins, n, i);
    }
  }
}
