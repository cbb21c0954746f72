/** The weights are a probability vector that keeps the seats' order, never
    falls below a tight floor, and treats untested seats alike. */
module PmWeightFacts {
  import opened Records
  import opened Scoring
  import opened ScoringFacts
  import opened PmWeights
  import opened Dicts

  // ---- the mean of the filled values is the mean of the known ones ----

  function CountNone(vs: seq<Option<real>>): nat {
    if vs == [] then 0 else CountNone(vs[..|vs| - 1]) + if vs[|vs| - 1].None? then 1 else 0
  }

  lemma {:induction false} FillSum(vs: seq<Option<real>>, m: real)
    ensures Sum(Fill(vs, m)) == Sum(Known(vs)) + Times(CountNone(vs) as real, m)
    ensures |Known(vs)| + CountNone(vs) == |vs|
  {
    hide Times;
    if vs == [] {
      TimesZero(m);
      TimesCommute(0.0, m);
    } else {
      var front, last := vs[..|vs| - 1], vs[|vs| - 1];
      FillSum(front, m);
      assert Fill(vs, m)[..|front|] == Fill(front, m);
      if last.Some? {
        assert Known(vs)[..|Known(front)|] == Known(front);
      } else {
        assert Known(front) + [] == Known(front);
        TimesStep(CountNone(front) as real, m);
      }
    }
  }

  lemma TimesCommute(x: real, y: real)
    ensures Times(x, y) == Times(y, x)
  {
  }

  lemma TimesStep(x: real, m: real)
    ensures Times(x + 1.0, m) == Times(x, m) + m
  {
  }

  lemma MeanIsMeanKnown(vs: seq<Option<real>>)
    requires vs != []
    ensures Sum(Filled(vs)) == Times(|vs| as real, MeanKnown(vs))
    ensures Mean(Filled(vs)) == MeanKnown(vs)
  {
    hide Sum, Known, CountNone, Times, Per;
    var m, k := MeanKnown(vs), |Known(vs)|;
    FillSum(vs, m);
    if k > 0 {
      PerTimes(Sum(Known(vs)), k);
    } else {
      NoneKnown(vs);
      TimesZero(m);
      TimesCommute(0.0, m);
    }
    Collect(k as real, CountNone(vs) as real, m);
    PerTimes(Sum(Filled(vs)), |vs|);
    CancelLeft(|vs| as real, Mean(Filled(vs)), m);
  }

  lemma NoneKnown(vs: seq<Option<real>>)
    requires Known(vs) == []
    ensures Sum(Known(vs)) == 0.0
  {
  }

  // ---- bounds on the floored total ----

  function CountAtLeast(vs: seq<real>, x: real): nat {
    if vs == [] then 0 else CountAtLeast(vs[..|vs| - 1], x) + if vs[|vs| - 1] >= x then 1 else 0
  }

  lemma {:induction false} RaisedSum(vs: seq<real>, x: real)
    requires x >= 0.0 && forall i | 0 <= i < |vs| :: vs[i] >= 0.0
    ensures CountAtLeast(vs, x) <= |vs|
    ensures Sum(vs) <= Sum(Raise(vs, x)) <= Sum(vs) + Times((|vs| - CountAtLeast(vs, x)) as real, x)
  {
    hide Times;
    if vs == [] {
      TimesZero(x);
      TimesCommute(0.0, x);
    } else {
      var front := vs[..|vs| - 1];
      RaisedSum(front, x);
      assert Raise(vs, x)[..|front|] == Raise(front, x);
      TimesStep((|front| - CountAtLeast(front, x)) as real, x);
    }
  }

  lemma {:induction false} NoneAtLeast(vs: seq<real>, x: real)
    requires vs != [] && CountAtLeast(vs, x) == 0
    ensures Sum(vs) < Times(|vs| as real, x)
  {
    hide Times;
    var front := vs[..|vs| - 1];
    TimesStep(|front| as real, x);
    if front != [] {
      NoneAtLeast(front, x);
    } else {
      TimesZero(x);
      TimesCommute(0.0, x);
    }
  }

  lemma {:induction false} FewerAtLeast(vs: seq<real>, x: real, y: real)
    requires x <= y
    ensures CountAtLeast(vs, y) <= CountAtLeast(vs, x)
  {
    if vs != [] { FewerAtLeast(vs[..|vs| - 1], x, y); }
  }

  lemma TimesMonotone(x: real, y: real, m: real)
    requires x <= y && m >= 0.0
    ensures Times(x, m) <= Times(y, m)
  {
  }

  lemma {:induction false} KnownNonNegative(vs: seq<Option<real>>)
    requires NonNegative(vs)
    ensures forall i | 0 <= i < |Known(vs)| :: Known(vs)[i] >= 0.0
    ensures Sum(Known(vs)) >= 0.0
  {
    if vs != [] {
      KnownNonNegative(vs[..|vs| - 1]);
      var front := Known(vs[..|vs| - 1]);
      if vs[|vs| - 1].Some? { assert Known(vs)[..|front|] == front; } else { assert Known(vs) == front; }
    }
  }

  lemma MeanKnownNonNegative(vs: seq<Option<real>>)
    requires NonNegative(vs)
    ensures MeanKnown(vs) >= 0.0
  {
    KnownNonNegative(vs);
    if Known(vs) != [] { NonNegativePer(Sum(Known(vs)), |Known(vs)|); }
  }

  /** n seats of mean m: the floored total lies between n m and n m plus a
      floor for every seat but one. */
  lemma TotalBounds(vs: seq<Option<real>>, f: real)
    requires vs != [] && NonNegative(vs) && 0.0 <= f <= 1.0
    ensures var m, n := MeanKnown(vs), |vs| as real;
            Times(n, m) <= Sum(Floored(vs, f)) <= Times(n, m) + Times(n - 1.0, Times(f, m))
  {
    hide Sum, Times, MeanKnown, Mean, CountAtLeast;
    var m, filled := MeanKnown(vs), Filled(vs);
    MeanKnownNonNegative(vs);
    MeanIsMeanKnown(vs);
    FloorBelowMean(f, m);
    RaisedSum(filled, Times(f, m));
    if CountAtLeast(filled, m) == 0 { NoneAtLeast(filled, m); }
    FewerAtLeast(filled, Times(f, m), m);
    TimesMonotone((|vs| - CountAtLeast(filled, Times(f, m))) as real, |vs| as real - 1.0, Times(f, m));
  }

  lemma FloorBelowMean(f: real, m: real)
    requires 0.0 <= f <= 1.0 && m >= 0.0
    ensures 0.0 <= Times(f, m) <= m
  {
    TimesMonotone(0.0, f, m);
    TimesMonotone(f, 1.0, m);
  }

  // ---- a probability vector ----

  lemma {:induction false} SumOfQuotients(vs: seq<real>, ws: seq<real>, t: real)
    requires |vs| == |ws| && t != 0.0 && forall i | 0 <= i < |vs| :: ws[i] == vs[i] / t
    ensures Sum(ws) == Sum(vs) / t
  {
    if vs != [] {
      SumOfQuotients(vs[..|vs| - 1], ws[..|vs| - 1], t);
    }
  }

  lemma {:induction false} SumOfSame(ws: seq<real>, x: real)
    requires forall i | 0 <= i < |ws| :: ws[i] == x
    ensures Sum(ws) == Times(|ws| as real, x)
  {
    hide Times;
    if ws == [] {
      TimesZero(x);
      TimesCommute(0.0, x);
    } else {
      SumOfSame(ws[..|ws| - 1], x);
      TimesStep((|ws| - 1) as real, x);
    }
  }

  lemma {:induction false} SumNonNegative(vs: seq<real>)
    requires forall i | 0 <= i < |vs| :: vs[i] >= 0.0
    ensures Sum(vs) >= 0.0
  {
    if vs != [] { SumNonNegative(vs[..|vs| - 1]); }
  }

  lemma FlooredNonNegative(vs: seq<Option<real>>, f: real)
    requires vs != [] && NonNegative(vs) && f >= 0.0
    ensures forall i | 0 <= i < |vs| :: Floored(vs, f)[i] >= Times(f, MeanKnown(vs)) >= 0.0
    ensures forall i | 0 <= i < |vs| :: Floored(vs, f)[i] >= Filled(vs)[i] >= 0.0
  {
    hide MeanKnown;
    MeanKnownNonNegative(vs);
    MeanIsMeanKnown(vs);
    TimesMonotone(0.0, f, MeanKnown(vs));
  }

  lemma IsProbability(vs: seq<Option<real>>, f: real)
    requires vs != [] && NonNegative(vs) && f >= 0.0
    ensures Sum(Weigh(vs, f)) == 1.0 && forall i | 0 <= i < |vs| :: 0.0 <= Weigh(vs, f)[i] <= 1.0
  {
    hide Floored, Sum, Times, MeanKnown, Per;
    FlooredNonNegative(vs, f);
    var vs', ws := Floored(vs, f), Weigh(vs, f);
    var total := Sum(vs');
    if total <= 0.0 {
      SumOfSame(ws, Per(1.0, |vs|));
      PerTimes(1.0, |vs|);
    } else {
      SumOfQuotients(vs', ws, total);
      assert total / total == 1.0;
    }
    forall i | 0 <= i < |vs| ensures ws[i] >= 0.0 {
      if total <= 0.0 { NonNegativePer(1.0, |vs|); } else { assert vs'[i] / total >= 0.0; }
    }
    forall i | 0 <= i < |vs| ensures ws[i] <= 1.0 { OneOfMany(ws, i); }
  }

  lemma {:induction false} OneOfMany(ws: seq<real>, i: nat)
    requires i < |ws| && forall j | 0 <= j < |ws| :: ws[j] >= 0.0
    ensures ws[i] <= Sum(ws)
  {
    SumNonNegative(ws[..|ws| - 1]);
    if i < |ws| - 1 { OneOfMany(ws[..|ws| - 1], i); }
  }

  // ---- order, floor, and untested seats ----

  lemma QuotientMonotone(x: real, y: real, t: real)
    requires t > 0.0 && x <= y
    ensures x / t <= y / t
  {
  }

  lemma KeepsOrder(vs: seq<Option<real>>, f: real, i: nat, j: nat)
    requires vs != [] && i < |vs| && j < |vs| && Filled(vs)[i] <= Filled(vs)[j]
    ensures Weigh(vs, f)[i] <= Weigh(vs, f)[j]
  {
    hide Filled, Sum, Times;
    var vs' := Floored(vs, f);
    assert vs'[i] <= vs'[j];
    if Sum(vs') > 0.0 { QuotientMonotone(vs'[i], vs'[j], Sum(vs')); }
  }

  /** x over a total that is at most x times b is at least one b-th. */
  lemma ShareOfBounded(v: real, fl: real, total: real, b: real, f: real)
    requires total > 0.0 && v >= fl >= 0.0 && b >= 0.0 && f * total <= fl * b
    ensures (v / total) * b >= f
  {
    var w := v / total;
    assert w * total == v;
    assert fl * b <= v * b;
    assert w * b * total == v * b >= f * total;
    var d := w * b - f;
    assert d * total >= 0.0;
    assert d < 0.0 ==> d * total < 0.0;
  }

  /** n seats' shares when one holds everything and the rest their floors, in
      units of the one's. */
  function Stake(n: nat, f: real): real { n as real + (n as real - 1.0) * f }

  /** No seat falls below f of what one seat would get if it held everything
      and the rest their floors; with the default f = 1/2, below 1/(3n - 1). */
  lemma NoSeatCollapses(vs: seq<Option<real>>, f: real, i: nat)
    requires vs != [] && NonNegative(vs) && 0.0 <= f <= 1.0 && i < |vs|
    ensures Times(Weigh(vs, f)[i], Stake(|vs|, f)) >= f
  {
    hide Sum, MeanKnown, Floored, Per, Stake, Times;
    var m, total := MeanKnown(vs), Sum(Floored(vs, f));
    TotalBounds(vs, f);
    FlooredNonNegative(vs, f);
    MeanKnownNonNegative(vs);
    if total <= 0.0 {
      EqualShare(|vs|, f);
    } else {
      StakedShare(|vs|, m, f, total, Floored(vs, f)[i]);
    }
  }

  lemma EqualShare(n: nat, f: real)
    requires n > 0 && 0.0 <= f <= 1.0
    ensures Times(Per(1.0, n), Stake(n, f)) >= f
  {
    PerTimes(1.0, n);
    NonNegativePer(1.0, n);
    StakeAtLeast(n as real, f);
    TimesMonotone(n as real, Stake(n, f), Per(1.0, n));
    TimesCommute(Stake(n, f), Per(1.0, n));
  }

  lemma StakedShare(n: nat, m: real, f: real, total: real, v: real)
    requires n > 0 && m >= 0.0 && 0.0 <= f && total > 0.0 && v >= Times(f, m) >= 0.0
    requires total <= Times(n as real, m) + Times(n as real - 1.0, Times(f, m))
    ensures Times(v / total, Stake(n, f)) >= f
  {
    StakeAtLeast(n as real, f);
    BoundedTotal(n as real, m, f, total);
    ShareOfBounded(v, Times(f, m), total, Stake(n, f), f);
  }

  lemma StakeAtLeast(n: real, f: real)
    requires n >= 1.0 && f >= 0.0
    ensures n + (n - 1.0) * f >= n
  {
  }

  lemma BoundedTotal(n: real, m: real, f: real, total: real)
    requires n >= 1.0 && m >= 0.0 && 0.0 <= f
    requires total <= Times(n, m) + Times(n - 1.0, Times(f, m))
    ensures f * total <= Times(f, m) * (n + (n - 1.0) * f)
  {
    var g := f * m;
    assert f * total <= f * (n * m + (n - 1.0) * g);
    assert f * (n * m) == g * n;
    assert f * ((n - 1.0) * g) == g * ((n - 1.0) * f);
    assert f * (n * m + (n - 1.0) * g) == f * (n * m) + f * ((n - 1.0) * g);
    assert g * (n + (n - 1.0) * f) == g * n + g * ((n - 1.0) * f);
  }

  lemma AtMostEqualShare(v: real, total: real, n: real)
    requires total > 0.0 && n * v <= total
    ensures (v / total) * n <= 1.0
  {
    var w := v / total;
    assert w * total == v;
    assert w * n * total == n * v <= total;
    var d := 1.0 - w * n;
    assert d * total >= 0.0;
    assert d < 0.0 ==> d * total < 0.0;
  }

  /** Seats under the minimum all get one weight, never above an equal share. */
  lemma UntestedAlike(vs: seq<Option<real>>, f: real, i: nat)
    requires vs != [] && NonNegative(vs) && 0.0 <= f <= 1.0 && i < |vs| && vs[i].None?
    ensures Times(Weigh(vs, f)[i], |vs| as real) <= 1.0
    ensures forall j | 0 <= j < |vs| && vs[j].None? :: Weigh(vs, f)[j] == Weigh(vs, f)[i]
  {
    hide Sum, MeanKnown, Per;
    var m, n, total := MeanKnown(vs), |vs| as real, Sum(Floored(vs, f));
    TotalBounds(vs, f);
    MeanIsMeanKnown(vs);
    MeanKnownNonNegative(vs);
    FloorBelowMean(f, m);
    assert Floored(vs, f)[i] == m;
    if total <= 0.0 { PerTimes(1.0, |vs|); } else { AtMostEqualShare(m, total, n); }
  }

  // ---- pm_weights itself ----

  /** What the PM is handed: every scored seat once, weights that sum to one,
      each at least f / (n + (n - 1) f); a better clipped score never weighs
      less; and all seats under the minimum weigh alike, at most 1/n. */
  lemma WeightsAreFair(scores: seq<Score>, f: real, minGraded: int)
    requires scores != [] && 0.0 <= f <= 1.0
    ensures var w := WeightsOf(scores, f, minGraded);
            && OncePerKey(w)
            && (forall seat :: (exists i :: 0 <= i < |w| && w[i].0 == seat) <==> LastScore(scores, seat).Some?)
            && Sum(Values(w)) == 1.0
            && (forall i | 0 <= i < |w| :: Times(w[i].1, Stake(|w|, f)) >= f)
  {
    hide Weigh, Times, Raw, Sum, Stake;
    var raw, w := Raw(scores, minGraded), WeightsOf(scores, f, minGraded);
    RawIsLastScore(scores, minGraded);
    RawIsNonNegative(scores, minGraded);
    var vs := Values(raw);
    IsProbability(vs, f);
    assert Values(w) == Weigh(vs, f);
    forall i | 0 <= i < |w| ensures Times(w[i].1, Stake(|w|, f)) >= f {
      NoSeatCollapses(vs, f, i);
      assert |vs| == |w| && w[i].1 == Weigh(vs, f)[i];
    }
    SeatsListed(scores, f, minGraded);
  }

  lemma SeatsListed(scores: seq<Score>, f: real, minGraded: int)
    requires scores != []
    ensures var w := WeightsOf(scores, f, minGraded);
            forall seat :: (exists i :: 0 <= i < |w| && w[i].0 == seat) <==> LastScore(scores, seat).Some?
  {
    hide Weigh;
    var raw, w := Raw(scores, minGraded), WeightsOf(scores, f, minGraded);
    RawIsLastScore(scores, minGraded);
    forall seat
      ensures (exists i :: 0 <= i < |w| && w[i].0 == seat) <==> LastScore(scores, seat).Some?
    {
      if LastScore(scores, seat).Some? {
        var e := (seat, Clipped(LastScore(scores, seat).value, minGraded));
        assert e in raw;
        var i :| 0 <= i < |raw| && raw[i] == e;
        assert w[i].0 == seat;
      }
      forall i | 0 <= i < |w| && w[i].0 == seat ensures LastScore(scores, seat).Some? {
        assert raw[i] in raw;
      }
    }
  }

  lemma SeatsCompared(scores: seq<Score>, f: real, minGraded: int, i: nat, j: nat)
    requires scores != [] && 0.0 <= f <= 1.0
    requires i < |WeightsOf(scores, f, minGraded)| && j < |WeightsOf(scores, f, minGraded)|
    ensures var w := WeightsOf(scores, f, minGraded);
            var a, b := LastScore(scores, w[i].0), LastScore(scores, w[j].0);
            && a.Some? && b.Some?
            && var x, y := Clipped(a.value, minGraded), Clipped(b.value, minGraded);
               && (x.Some? && y.Some? && x.value <= y.value ==> w[i].1 <= w[j].1)
               && (x.None? && y.None? ==> w[i].1 == w[j].1)
               && (x.None? ==> Times(w[i].1, |w| as real) <= 1.0)
  {
    hide Weigh, Filled;
    var raw, w := Raw(scores, minGraded), WeightsOf(scores, f, minGraded);
    RawIsLastScore(scores, minGraded);
    RawIsNonNegative(scores, minGraded);
    assert raw[i] in raw && raw[j] in raw;
    var vs := Values(raw);
    FilledAt(vs, i);
    FilledAt(vs, j);
    if Filled(vs)[i] <= Filled(vs)[j] { KeepsOrder(vs, f, i, j); }
    if vs[i].None? { UntestedAlike(vs, f, i); }
  }

  // ---- exactly which weights ----

  /** What a seat's record is worth on its own: the clipped skill of its last
      score, if that was graded often enough and is a number. */
  ghost predicate Worth(scores: seq<Score>, minGraded: int, seat: string, x: Option<real>) {
    && LastScore(scores, seat).Some?
    && var s := LastScore(scores, seat).value;
       match x
       case None => s.graded < minGraded || s.skill.None?
       case Some(v) => s.graded >= minGraded && s.skill.Some? && v == (if s.skill.value > 0.0 then s.skill.value else 0.0)
  }

  function TotalKnown(xs: seq<Option<real>>): real {
    if xs == [] then 0.0 else (if xs[0].Some? then xs[0].value else 0.0) + TotalKnown(xs[1..])
  }

  function HowManyKnown(xs: seq<Option<real>>): nat {
    if xs == [] then 0 else (if xs[0].Some? then 1 else 0) + HowManyKnown(xs[1..])
  }

  /** The mean of the seats' own worths; 1 if no seat has one. */
  ghost predicate MeanWorth(xs: seq<Option<real>>, m: real) {
    if HowManyKnown(xs) == 0 then m == 1.0 else Times(HowManyKnown(xs) as real, m) == TotalKnown(xs)
  }

  /** A seat's stake: its own worth or, without one, the mean; never below the
      floor fraction of the mean. */
  function StakeOf(x: Option<real>, m: real, f: real): real {
    var v := if x.Some? then x.value else m;
    if v >= Times(f, m) then v else Times(f, m)
  }

  lemma {:induction false} KnownTotals(xs: seq<Option<real>>)
    ensures |Known(xs)| == HowManyKnown(xs) && Sum(Known(xs)) == TotalKnown(xs)
  {
    if xs != [] {
      var front, last := xs[..|xs| - 1], xs[|xs| - 1];
      KnownTotals(front);
      TotalsSnoc(front, last);
      assert xs == front + [last];
      if last.Some? {
        assert Known(xs)[..|Known(front)|] == Known(front);
      } else {
        assert Known(xs) == Known(front);
      }
    }
  }

  lemma {:induction false} TotalsSnoc(xs: seq<Option<real>>, x: Option<real>)
    ensures HowManyKnown(xs + [x]) == HowManyKnown(xs) + if x.Some? then 1 else 0
    ensures TotalKnown(xs + [x]) == TotalKnown(xs) + if x.Some? then x.value else 0.0
  {
    if xs == [] {
      assert xs + [x] == [x] && [x][1..] == [];
    } else {
      assert (xs + [x])[1..] == xs[1..] + [x];
      TotalsSnoc(xs[1..], x);
    }
  }

  lemma MeanKnownIsMeanWorth(xs: seq<Option<real>>)
    ensures MeanWorth(xs, MeanKnown(xs))
  {
    KnownTotals(xs);
    hide Known, TotalKnown, HowManyKnown, Sum, Times;
    if Known(xs) != [] { PerTimes(Sum(Known(xs)), |Known(xs)|); }
  }

  lemma FlooredIsStake(vs: seq<Option<real>>, f: real, i: nat)
    requires i < |vs|
    ensures Floored(vs, f)[i] == StakeOf(vs[i], MeanKnown(vs), f)
  {
    MeanIsMeanKnown(vs);
  }

  lemma CrossShares(a: real, b: real, total: real)
    requires total > 0.0
    ensures Times(a / total, b) == Times(b / total, a)
  {
    var x, y := a / total, b / total;
    assert x * total == a && y * total == b;
    assert x * b == x * (y * total) == y * (x * total);
  }

  lemma WeighIsProportional(vs: seq<Option<real>>, f: real, i: nat, j: nat)
    requires i < |vs| && j < |vs| && NonNegative(vs) && f >= 0.0
    ensures var stakes := Floored(vs, f);
            && Times(Weigh(vs, f)[i], stakes[j]) == Times(Weigh(vs, f)[j], stakes[i])
            && ((forall k | 0 <= k < |vs| :: stakes[k] == 0.0) ==> Times(Weigh(vs, f)[i], |vs| as real) == 1.0)
  {
    hide Floored, Sum, Times, Per;
    var stakes := Floored(vs, f);
    FlooredNonNegative(vs, f);
    PerTimes(1.0, |vs|);
    TimesCommute(Per(1.0, |vs|), |vs| as real);
    if Sum(stakes) > 0.0 {
      CrossShares(stakes[i], stakes[j], Sum(stakes));
      if forall k | 0 <= k < |vs| :: stakes[k] == 0.0 { ZerosSum(stakes); }
    } else {
      NoneLeft(stakes, i);
      NoneLeft(stakes, j);
    }
  }

  lemma {:induction false} ZerosSum(xs: seq<real>)
    requires forall k | 0 <= k < |xs| :: xs[k] == 0.0
    ensures Sum(xs) == 0.0
  {
    if xs != [] { ZerosSum(xs[..|xs| - 1]); }
  }

  lemma {:induction false} NoneLeft(xs: seq<real>, i: nat)
    requires (forall k | 0 <= k < |xs| :: xs[k] >= 0.0) && i < |xs| && Sum(xs) <= 0.0
    ensures xs[i] == 0.0
  {
    var front := xs[..|xs| - 1];
    SumNonNegative(front);
    if i < |front| { NoneLeft(front, i); }
  }

  /** Exactly which weights: in proportion to the seats' stakes, and equal if
      every stake is zero. With their sum of one this fixes each weight. */
  lemma WeightsAreStakes(scores: seq<Score>, f: real, minGraded: int) returns (own: seq<Option<real>>, m: real)
    requires scores != [] && f >= 0.0
    ensures var w := WeightsOf(scores, f, minGraded);
            && |own| == |w| && (forall i | 0 <= i < |w| :: Worth(scores, minGraded, w[i].0, own[i]))
            && MeanWorth(own, m)
            && (forall i, j | 0 <= i < |w| && 0 <= j < |w| ::
                  Times(w[i].1, StakeOf(own[j], m, f)) == Times(w[j].1, StakeOf(own[i], m, f)))
            && ((forall i | 0 <= i < |w| :: StakeOf(own[i], m, f) == 0.0) ==>
                  forall i | 0 <= i < |w| :: Times(w[i].1, |w| as real) == 1.0)
  {
    hide Weigh, Times, MeanWorth, Floored, MeanKnown, StakeOf;
    var raw, w := Raw(scores, minGraded), WeightsOf(scores, f, minGraded);
    RawIsLastScore(scores, minGraded);
    RawIsNonNegative(scores, minGraded);
    own, m := Values(raw), MeanKnown(Values(raw));
    MeanKnownIsMeanWorth(own);
    forall i | 0 <= i < |w| ensures Worth(scores, minGraded, w[i].0, own[i]) && Floored(own, f)[i] == StakeOf(own[i], m, f) {
      assert raw[i] in raw;
      FlooredIsStake(own, f, i);
    }
    hide Raw, Clipped, Worth;
    forall i, j | 0 <= i < |w| && 0 <= j < |w|
      ensures Times(w[i].1, StakeOf(own[j], m, f)) == Times(w[j].1, StakeOf(own[i], m, f))
      ensures (forall k | 0 <= k < |w| :: StakeOf(own[k], m, f) == 0.0) ==> Times(w[i].1, |w| as real) == 1.0
    {
      WeighIsProportional(own, f, i, j);
    }
  }

  // ---- when an untested seat gets the mean weight ----

  lemma {:induction false} RaisedIffBelow(vs: seq<real>, x: real)
    ensures Sum(Raise(vs, x)) >= Sum(vs)
    ensures Sum(Raise(vs, x)) == Sum(vs) <==> forall i | 0 <= i < |vs| :: vs[i] >= x
  {
    if vs != [] {
      var front, last := vs[..|vs| - 1], vs[|vs| - 1];
      RaisedIffBelow(front, x);
      assert Raise(vs, x)[..|front|] == Raise(front, x);
      assert (forall i | 0 <= i < |vs| :: vs[i] >= x) <==> (forall i | 0 <= i < |front| :: front[i] >= x) && last >= x;
    }
  }

  /** No seat with a worth of its own is lifted to the floor. */
  ghost predicate NobodyFloored(own: seq<Option<real>>, m: real, f: real) {
    forall i | 0 <= i < |own| && own[i].Some? :: own[i].value >= Times(f, m)
  }

  lemma WholeShare(m: real, total: real, n: real)
    requires total > 0.0
    ensures Times(m / total, n) == 1.0 <==> Times(n, m) == total
  {
    var w := m / total;
    assert w * total == m;
    assert (w * n) * total == n * m;
    var d := w * n - 1.0;
    assert d * total == n * m - total;
    assert (d > 0.0 ==> d * total > 0.0) && (d < 0.0 ==> d * total < 0.0);
  }

  lemma FlooredTotal(vs: seq<Option<real>>, f: real)
    requires vs != [] && NonNegative(vs) && 0.0 <= f <= 1.0
    ensures Sum(Floored(vs, f)) == Times(|vs| as real, MeanKnown(vs)) <==> NobodyFloored(vs, MeanKnown(vs), f)
    ensures Sum(Floored(vs, f)) >= Times(|vs| as real, MeanKnown(vs)) >= 0.0
  {
    hide Sum, MeanKnown, Times;
    var m := MeanKnown(vs);
    MeanIsMeanKnown(vs);
    MeanKnownNonNegative(vs);
    FloorBelowMean(f, m);
    RaisedIffBelow(Filled(vs), Times(f, m));
    forall i | 0 <= i < |vs| ensures Filled(vs)[i] == if vs[i].Some? then vs[i].value else m { FilledAt(vs, i); }
    FilledNonNegative(vs);
    SumNonNegative(Filled(vs));
  }

  lemma FilledNonNegative(vs: seq<Option<real>>)
    requires vs != [] && NonNegative(vs)
    ensures forall i | 0 <= i < |vs| :: Filled(vs)[i] >= 0.0
  {
    FlooredNonNegative(vs, 0.0);
  }

  lemma UntestedWeight(vs: seq<Option<real>>, f: real, i: nat)
    requires vs != [] && NonNegative(vs) && 0.0 <= f <= 1.0 && i < |vs| && vs[i].None?
    ensures Times(Weigh(vs, f)[i], |vs| as real) == 1.0 <==> NobodyFloored(vs, MeanKnown(vs), f)
  {
    hide Sum, MeanKnown, Per, Times, NobodyFloored, Floored;
    var m, total := MeanKnown(vs), Sum(Floored(vs, f));
    FlooredTotal(vs, f);
    FloorAtMean(vs, f, i);
    if total <= 0.0 {
      PerTimes(1.0, |vs|);
      TimesCommute(Per(1.0, |vs|), |vs| as real);
    } else {
      WholeShare(m, total, |vs| as real);
    }
  }

  lemma FloorAtMean(vs: seq<Option<real>>, f: real, i: nat)
    requires NonNegative(vs) && 0.0 <= f <= 1.0 && i < |vs| && vs[i].None?
    ensures Floored(vs, f)[i] == MeanKnown(vs)
  {
    hide MeanKnown, Times;
    FlooredIsStake(vs, f, i);
    MeanKnownNonNegative(vs);
    FloorBelowMean(f, MeanKnown(vs));
  }

  /** A seat graded too rarely gets exactly the mean weight, one n-th, if and
      only if no seat with a worth of its own is lifted to the floor. */
  lemma UntestedIsMeanIff(scores: seq<Score>, f: real, minGraded: int, i: nat) returns (own: seq<Option<real>>, m: real)
    requires scores != [] && 0.0 <= f <= 1.0 && i < |WeightsOf(scores, f, minGraded)|
    ensures var w := WeightsOf(scores, f, minGraded);
            && |own| == |w| && (forall j | 0 <= j < |w| :: Worth(scores, minGraded, w[j].0, own[j])) && MeanWorth(own, m)
            && (own[i].None? ==> (Times(w[i].1, |w| as real) == 1.0 <==> NobodyFloored(own, m, f)))
  {
    hide Weigh, Times, MeanWorth, MeanKnown, NobodyFloored;
    var raw, w := Raw(scores, minGraded), WeightsOf(scores, f, minGraded);
    RawIsLastScore(scores, minGraded);
    RawIsNonNegative(scores, minGraded);
    own, m := Values(raw), MeanKnown(Values(raw));
    MeanKnownIsMeanWorth(own);
    forall j | 0 <= j < |w| ensures Worth(scores, minGraded, w[j].0, own[j]) { assert raw[j] in raw; }
    hide Raw, Clipped, Worth;
    if own[i].None? { UntestedWeight(own, f, i); }
  }

  const ThreeSeats := [Score("a", 30, Some(1.0)), Score("b", 30, Some(0.0)), Score("c", 0, None)]

  lemma ThreeRaw()
    ensures Raw(ThreeSeats, 30) == [("a", Some(1.0)), ("b", Some(0.0)), ("c", None)]
  {
    var a, b, c := ThreeSeats[0], ThreeSeats[1], ThreeSeats[2];
    assert ThreeSeats[..2] == [a, b] && [a, b][..1] == [a] && [a][..0] == [];
    assert Raw([a], 30) == [("a", Some(1.0))];
    SetKeyFresh(Raw([a], 30), "b", Clipped(b, 30));
    assert Raw([a, b], 30) == [("a", Some(1.0)), ("b", Some(0.0))];
    SetKeyFresh(Raw([a, b], 30), "c", Clipped(c, 30));
  }

  lemma ThreeMean()
    ensures MeanKnown([Some(1.0), Some(0.0), None]) == 0.5
  {
    var vs := [Some(1.0), Some(0.0), None];
    assert vs[..2] == [Some(1.0), Some(0.0)] && vs[..2][..1] == [Some(1.0)] && [Some(1.0)][..0] == [];
    assert Known(vs) == [1.0, 0.0];
    assert [1.0, 0.0][..1] == [1.0] && [1.0][..0] == [];
    assert Sum([1.0]) == 1.0 && Sum([1.0, 0.0]) == 1.0;
  }

  /** Three seats, skilled, unskilled and untested: the last weighs 2/7. */
  lemma UntestedBelowMean()
    ensures var w := WeightsOf(ThreeSeats, 0.5, 30); |w| == 3 && w[2].0 == "c" && w[2].1 == 2.0 / 7.0
  {
    hide Raw, Known, MeanKnown, Sum, Floored;
    ThreeRaw();
    ThreeMean();
    var raw, vs := Raw(ThreeSeats, 30), [Some(1.0), Some(0.0), None];
    assert Values(raw) == vs;
    forall i: nat | i < 3 ensures Floored(vs, 0.5)[i] == StakeOf(vs[i], 0.5, 0.5) { FlooredIsStake(vs, 0.5, i); }
    assert Floored(vs, 0.5) == [1.0, 0.25, 0.5];
    SumOfThree(1.0, 0.25, 0.5);
  }

  lemma SumOfThree(x: real, y: real, z: real)
    ensures Sum([x, y, z]) == x + y + z
  {
    assert [x, y, z][..2] == [x, y] && [x, y][..1] == [x] && [x][..0] == [];
    assert Sum([x]) == x && Sum([x, y]) == x + y;
  }

  lemma FilledAt(vs: seq<Option<real>>, i: nat)
    requires i < |vs|
    ensures |Filled(vs)| == |vs|
    ensures Filled(vs)[i] == if vs[i].Some? then vs[i].value else MeanKnown(vs)
  {
  }

  // ---- the floor is tight ----

  /** One seat with all the skill, the rest with none. */
  function OneStar(n: nat): (r: seq<Option<real>>)
    requires n > 0
    ensures |r| == n && forall i | 0 <= i < n :: r[i] == Some(if i == 0 then 1.0 else 0.0)
  {
    seq(n, i => Some(if i == 0 then 1.0 else 0.0))
  }

  lemma {:induction false} OneStarKnown(n: nat)
    requires n > 0
    ensures |Known(OneStar(n))| == n && Sum(Known(OneStar(n))) == 1.0
  {
    assert OneStar(n)[..n - 1] == if n == 1 then [] else OneStar(n - 1);
    if n > 1 {
      OneStarKnown(n - 1);
      assert Known(OneStar(n)) == Known(OneStar(n - 1)) + [0.0];
      assert Known(OneStar(n))[..n - 1] == Known(OneStar(n - 1));
    } else {
      assert Known(OneStar(1)) == [] + [1.0];
      assert Known(OneStar(1))[..0] == [];
    }
  }

  lemma {:induction false} OneStarRaised(n: nat, x: real)
    requires n > 0 && 0.0 <= x <= 1.0
    ensures Sum(Raise(Fill(OneStar(n), 0.0), x)) == 1.0 + Times((n - 1) as real, x)
  {
    hide Times;
    var r := Raise(Fill(OneStar(n), 0.0), x);
    if n == 1 {
      assert r[..0] == [];
      TimesZero(x);
      TimesCommute(0.0, x);
    } else {
      OneStarRaised(n - 1, x);
      assert r[..n - 1] == Raise(Fill(OneStar(n - 1), 0.0), x);
      TimesStep((n - 2) as real, x);
    }
  }

  /** Weights are floored at exactly 1 / (3n - 1) by one skilled seat among n. */
  lemma StarFloor(n: nat)
    requires n > 1
    ensures Times(Weigh(OneStar(n), 0.5)[n - 1], 3.0 * n as real - 1.0) == 1.0
  {
    var vs, k := OneStar(n), n as real;
    OneStarKnown(n);
    MeanIsMeanKnown(vs);
    var m := MeanKnown(vs);
    PerTimes(1.0, n);
    assert k * m == 1.0;
    var x := Times(0.5, m);
    assert 0.0 <= x <= 1.0 by { NonNegativePer(1.0, n); assert m <= k * m by { assert (k - 1.0) * m >= 0.0; } }
    assert Fill(vs, m) == Fill(vs, 0.0);
    OneStarRaised(n, x);
    StarShare(k, m, x, Sum(Floored(vs, 0.5)));
  }

  function Seat(i: nat): (s: string)
    ensures |s| == i
  {
    seq(i, _ => 'a')
  }

  /** The record of one skilled seat among n, each graded often enough. */
  function StarScores(n: nat, graded: int): (r: seq<Score>)
    requires n > 0
    ensures |r| == n && forall i | 0 <= i < n :: r[i] == Score(Seat(i), graded, OneStar(n)[i])
  {
    seq(n, i requires 0 <= i < n => Score(Seat(i), graded, OneStar(n)[i]))
  }

  lemma {:induction false} StarRaw(n: nat, graded: int)
    requires n > 0
    ensures var raw := Raw(StarScores(n, graded), graded);
            && |raw| == n && Values(raw) == OneStar(n) && forall i | 0 <= i < n :: raw[i] == (Seat(i), OneStar(n)[i])
  {
    var scores := StarScores(n, graded);
    if n == 1 {
      assert scores[..0] == [];
    } else {
      StarRaw(n - 1, graded);
      assert scores[..n - 1] == StarScores(n - 1, graded);
      var front := Raw(StarScores(n - 1, graded), graded);
      SetKeyFresh(front, Seat(n - 1), OneStar(n)[n - 1]);
    }
  }

  /** For every n > 1 and minimum some scores put a seat at 1 / (3n - 1) exactly:
      one skilled seat, the rest with none. */
  lemma FloorIsTight(n: nat, minGraded: int)
    requires n > 1
    ensures var w := WeightsOf(StarScores(n, minGraded), 0.5, minGraded);
            |w| == n && w[n - 1].0 == Seat(n - 1) && Times(w[n - 1].1, 3.0 * n as real - 1.0) == 1.0
  {
    StarRaw(n, minGraded);
    StarFloor(n);
  }

  lemma StarShare(k: real, m: real, x: real, total: real)
    requires k > 1.0 && k * m == 1.0 && x == 0.5 * m && total == 1.0 + Times(k - 1.0, x)
    ensures total > 0.0 && Times(x / total, 3.0 * k - 1.0) == 1.0
  {
    assert m < 0.0 ==> k * m < 0.0;
    assert (k - 1.0) * x == 0.5 * (k * m) - x;
    assert total == 1.5 - x;
    assert m <= k * m by { assert (k - 1.0) * m >= 0.0; }
    var w := x / total;
    assert w * total == x;
    assert x * (3.0 * k - 1.0) == 1.5 * (k * m) - x == total;
    assert (w * (3.0 * k - 1.0) - 1.0) * total == 0.0;
    var d := w * (3.0 * k - 1.0) - 1.0;
    assert (d > 0.0 ==> d * total > 0.0) && (d < 0.0 ==> d * total < 0.0);
  }
}
