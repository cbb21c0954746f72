/** What the terms of the decomposition measure: when each is zero, and the
    bias no binning can hide. */
module CalibrationFacts {
  import opened Records
  import opened Scoring
  import opened ScoringFacts

  // ---- one bin's part ----

  lemma ShareIsPositive(bin: seq<nat>, n: nat)
    requires bin != [] && n > 0
    ensures Share(bin, n) > 0.0
  {
  }

  lemma WeighedZero(w: real, x: real)
    requires w > 0.0 && x >= 0.0
    ensures Times(w, x) >= 0.0 && (Times(w, x) == 0.0 <==> x == 0.0)
  {
    assert x > 0.0 ==> w * x > 0.0;
  }

  lemma SquareZero(x: real)
    ensures Square(x) >= 0.0 && (Square(x) == 0.0 <==> x == 0.0)
  {
    hide Square, Times;
    SquareIsTimes(x);
    SquareIsTimes(-x);
    SquareEven(x);
    if x > 0.0 { Positive(x, x); } else if x < 0.0 { Positive(-x, -x); } else { TimesZero(x); }
  }

  lemma SquareIsTimes(x: real)
    ensures Square(x) == Times(x, x)
  {
  }

  lemma SquareEven(x: real)
    ensures Square(-x) == Square(x)
  {
  }

  lemma Positive(x: real, y: real)
    requires x > 0.0 && y > 0.0
    ensures Times(x, y) > 0.0
  {
  }

  lemma Scaled(x: real, y: real)
    requires x > 0.0 && y > 0.0
    ensures x * y > 0.0
  {
  }

  /** In every bin the forecasts average what happened. */
  ghost predicate Calibrated(p: seq<real>, o: seq<real>, bins: seq<seq<nat>>)
    requires |p| == |o| && BinsWithin(bins, |p|)
  {
    forall k | 0 <= k < |bins| :: MeanOver(p, bins[k]) == MeanOver(o, bins[k])
  }

  /** In every bin what happened averages the base rate. */
  ghost predicate Flat(o: seq<real>, bins: seq<seq<nat>>)
    requires o != [] && BinsWithin(bins, |o|)
  {
    forall k | 0 <= k < |bins| :: MeanOver(o, bins[k]) == Mean(o)
  }

  /** Reliability and the calibration error are zero exactly when every bin is
      calibrated, and never negative. */
  lemma {:induction false} ZeroIffCalibrated(p: seq<real>, o: seq<real>, bins: seq<seq<nat>>)
    requires |p| == |o| > 0 && BinsWithin(bins, |p|)
    ensures CalibrationError(p, o, bins) >= 0.0 && Reliability(p, o, bins) >= 0.0
    ensures CalibrationError(p, o, bins) == 0.0 <==> Calibrated(p, o, bins)
    ensures Reliability(p, o, bins) == 0.0 <==> Calibrated(p, o, bins)
  {
    hide MeanOver, Share, Times, Square;
    if bins != [] {
      var front, last := bins[..|bins| - 1], bins[|bins| - 1];
      ZeroIffCalibrated(p, o, front);
      ShareIsPositive(last, |p|);
      var a, b := MeanOver(p, last), MeanOver(o, last);
      WeighedZero(Share(last, |p|), AbsDiff(a, b));
      SquareZero(a - b);
      WeighedZero(Share(last, |p|), Square(a - b));
      assert Calibrated(p, o, bins) <==> Calibrated(p, o, front) && a == b;
    }
  }

  /** Resolution is zero exactly when no bin tells the outcomes apart. */
  lemma {:induction false} ZeroIffFlat(o: seq<real>, bins: seq<seq<nat>>)
    requires |o| > 0 && BinsWithin(bins, |o|)
    ensures Resolution(o, bins) >= 0.0 && (Resolution(o, bins) == 0.0 <==> Flat(o, bins))
  {
    hide MeanOver, Mean, Share, Times, Square;
    if bins != [] {
      var front, last := bins[..|bins| - 1], bins[|bins| - 1];
      ZeroIffFlat(o, front);
      ShareIsPositive(last, |o|);
      SquareZero(MeanOver(o, last) - Mean(o));
      WeighedZero(Share(last, |o|), Square(MeanOver(o, last) - Mean(o)));
      assert Flat(o, bins) <==> Flat(o, front) && MeanOver(o, last) == Mean(o);
    }
  }

  // ---- the bias ----

  lemma BinMean(v: seq<real>, bin: seq<nat>, n: nat)
    requires Indexes(bin, |v|) && bin != [] && n > 0
    ensures Times(n as real, Times(Share(bin, n), MeanOver(v, bin))) == Over(v, bin)
  {
    hide Over;
    var k, m, w := |bin| as real, MeanOver(v, bin), Share(bin, n);
    PerTimes(Over(v, bin), |bin|);
    PerTimes(k, n);
    assert k * m == Over(v, bin) && n as real * w == k;
    assert n as real * (w * m) == (n as real * w) * m;
  }

  /** n times the error is at least the total forecast less the total outcome,
      either way round. */
  lemma {:induction false} ErrorCoversBias(p: seq<real>, o: seq<real>, bins: seq<seq<nat>>)
    requires |p| == |o| > 0 && BinsWithin(bins, |p|)
    ensures AbsDiff(OverBins(p, bins), OverBins(o, bins)) <= Times(|p| as real, CalibrationError(p, o, bins))
  {
    hide Over, MeanOver, Share, Times;
    var n := |p| as real;
    if bins == [] {
      TimesZero(n);
      TimesSwap(n, 0.0);
    } else {
      var front, last := bins[..|bins| - 1], bins[|bins| - 1];
      ErrorCoversBias(p, o, front);
      ShareIsPositive(last, |p|);
      BinMean(p, last, |p|);
      BinMean(o, last, |p|);
      var w, a, b := Share(last, |p|), MeanOver(p, last), MeanOver(o, last);
      PullOut(n, w, a, b);
      Distribute(n, CalibrationError(p, o, front), Times(w, AbsDiff(a, b)));
    }
  }

  lemma TimesSwap(x: real, y: real)
    ensures Times(x, y) == Times(y, x)
  {
  }

  lemma PullOut(n: real, w: real, a: real, b: real)
    requires n > 0.0 && w > 0.0
    ensures Times(n, Times(w, AbsDiff(a, b))) == AbsDiff(Times(n, Times(w, a)), Times(n, Times(w, b)))
  {
    Scaled(n, w);
    var k := n * w;
    assert n * (w * a) == k * a && n * (w * b) == k * b;
    if a < b { Scaled(k, b - a); } else if a > b { Scaled(k, a - b); }
    assert k * (b - a) == k * b - k * a && k * (a - b) == k * a - k * b;
    assert n * (w * AbsDiff(a, b)) == k * AbsDiff(a, b);
  }

  /** No binning hides a bias: the calibration error is at least the distance
      between the mean forecast and the base rate. */
  lemma ErrorAtLeastBias(p: seq<real>, o: seq<real>, bins: seq<seq<nat>>)
    requires |p| == |o| > 0 && Partition(bins, |p|)
    ensures BinsWithin(bins, |p|)
    ensures AbsDiff(Mean(p), Mean(o)) <= CalibrationError(p, o, bins)
  {
    hide Sum, Partition, OverBins, CalibrationError, Per;
    PartitionIsWithin(bins, |p|);
    OverPartition(p, bins);
    OverPartition(o, bins);
    ErrorCoversBias(p, o, bins);
    PerTimes(Sum(p), |p|);
    PerTimes(Sum(o), |o|);
    Unscale(|p| as real, Mean(p), Mean(o), CalibrationError(p, o, bins));
  }

  lemma Unscale(n: real, a: real, b: real, e: real)
    requires n > 0.0 && AbsDiff(Times(n, a), Times(n, b)) <= Times(n, e)
    ensures AbsDiff(a, b) <= e
  {
    var d := AbsDiff(a, b);
    assert n * (a - b) == n * a - n * b;
    if a < b { assert n * (b - a) > 0.0; } else { assert n * (a - b) >= 0.0; }
    assert n * d <= n * e;
    assert d > e ==> n * d > n * e;
  }

  // ---- uncertainty ----

  function Constant(n: nat, x: real): (r: seq<real>)
    ensures |r| == n && forall i | 0 <= i < n :: r[i] == x
  {
    seq(n, _ => x)
  }

  lemma {:induction false} ConstantErrors(o: seq<real>, x: real)
    requires Binary(o)
    ensures Sum(SquaredErrors(Constant(|o|, x), o)) == Times(|o| as real, Square(x)) + Times(1.0 - 2.0 * x, Sum(o))
  {
    hide Times;
    if o == [] {
      TimesZero(Square(x));
      TimesSwap(0.0, Square(x));
      TimesZero(1.0 - 2.0 * x);
    } else {
      var front, last := o[..|o| - 1], o[|o| - 1];
      ConstantErrors(front, x);
      assert SquaredErrors(Constant(|o|, x), o)[..|front|] == SquaredErrors(Constant(|front|, x), front);
      TimesSwap(|front| as real, Square(x));
      TimesSwap(|o| as real, Square(x));
      Distribute(Square(x), |front| as real, 1.0);
      Distribute(1.0 - 2.0 * x, Sum(front), last);
      OneError(x, last);
    }
  }

  lemma OneError(x: real, y: real)
    requires y == 0.0 || y == 1.0
    ensures Square(x - y) == Times(Square(x), 1.0) + Times(1.0 - 2.0 * x, y)
  {
  }

  /** Uncertainty is the Brier score of always forecasting the base rate. */
  lemma UncertaintyIsTheBaseRates(o: seq<real>)
    requires o != [] && Binary(o)
    ensures Brier(Constant(|o|, Mean(o)), o) == Some(Uncertainty(o))
  {
    hide Sum, SquaredErrors;
    var n, m, total := |o| as real, Mean(o), Sum(o);
    ConstantErrors(o, m);
    PerTimes(total, |o|);
    BaseRate(n, m, total);
    var errors := Sum(SquaredErrors(Constant(|o|, m), o));
    PerTimes(errors, |o|);
    hide Per;
    CancelLeft(n, Per(errors, |o|), Uncertainty(o));
  }

  lemma BaseRate(n: real, m: real, total: real)
    requires Times(n, m) == total
    ensures Times(n, Square(m)) + Times(1.0 - 2.0 * m, total) == Times(n, Times(m, 1.0 - m))
  {
    assert (1.0 - 2.0 * m) * total == total - 2.0 * (m * total);
    assert m * total == n * (m * m);
    assert n * (m * (1.0 - m)) == n * m - n * (m * m);
  }

  // ---- how many bins ----

  /** One bin per 20 calls, at least one and at most ten. */
  lemma BinCountMeans(n: nat)
    ensures var r := BinCount(n);
            && 1 <= r <= 10 && (r > 1 ==> 20 * r <= n) && (r < 10 ==> n < 20 * (r + 1))
  {
  }

  lemma {:induction false} SplitSize(order: seq<nat>, parts: nat, k: nat)
    requires parts > 0 && k <= parts
    ensures |SplitTo(order, parts, k)| == k
  {
    if k > 0 { SplitSize(order, parts, k - 1); }
  }

  lemma {:induction false} NothingDropped(bins: seq<seq<nat>>)
    requires forall b | b in bins :: b != []
    ensures NonEmpty(bins) == bins
  {
    if bins != [] {
      assert bins[0] in bins && forall b | b in bins[1..] :: b in bins;
      NothingDropped(bins[1..]);
      assert bins == [bins[0]] + bins[1..];
    }
  }

  lemma DistinctValues(p: seq<real>)
    ensures |Unique(p)| == |Distinct(p)|
  {
    UniqueValues(p);
    var vs := Unique(p);
    SetOfDistinct(vs);
    assert forall v :: v in vs <==> v in p;
    SameDistinct(vs, p);
  }

  function Distinct(xs: seq<real>): set<real> { set v | v in xs }

  lemma SameDistinct(xs: seq<real>, ys: seq<real>)
    requires forall v :: v in xs <==> v in ys
    ensures Distinct(xs) == Distinct(ys)
  {
    forall v | v in Distinct(xs) ensures v in Distinct(ys) { assert v in xs; }
    forall v | v in Distinct(ys) ensures v in Distinct(xs) { assert v in ys; }
  }

  lemma {:induction false} SetOfDistinct(vs: seq<real>)
    requires forall i, j | 0 <= i < j < |vs| :: vs[i] < vs[j]
    ensures |Distinct(vs)| == |vs|
  {
    if vs == [] {
      assert Distinct(vs) == {};
    } else {
      var front, last := vs[..|vs| - 1], vs[|vs| - 1];
      SetOfDistinct(front);
      assert vs == front + [last] && last !in front;
      assert Distinct(vs) == Distinct(front) + {last};
    }
  }

  /** The decomposition has a bin per distinct forecast where there are few
      enough of them, and one per 20 calls, up to ten, otherwise. */
  lemma HowManyBins(p: seq<real>)
    requires p != []
    ensures var distinct := |Distinct(p)|;
            |Bins(p)| == if distinct <= BinCount(|p|) then distinct else BinCount(|p|)
  {
    DistinctValues(p);
    var parts := BinCount(|p|);
    if ByValue(p) {
      ByValueSize(p, Unique(p));
    } else {
      BinCountMeans(|p|);
      var slices := SplitTo(ArgSort(p, |p|), parts, parts);
      SplitSize(ArgSort(p, |p|), parts, parts);
      forall b | b in slices ensures b != [] { SlicesAreNearEqual(ArgSort(p, |p|), parts, parts, b); AtLeastOne(|p|, parts); }
      NothingDropped(slices);
    }
  }

  lemma AtLeastOne(n: nat, parts: nat)
    requires 0 < parts <= n
    ensures n / parts >= 1
  {
  }
}
