/** What the dip-buyer's signals say about the closes. */
module DipBuyerFacts {
  import opened Records
  import opened Engine

  /** One name's closes over bars [lo, hi). */
  function Window(close: Frame<Price>, c: nat, lo: nat, hi: nat): (w: seq<real>)
    requires lo <= hi <= |close| && forall t | lo <= t < hi :: c < |close[t]|
    ensures |w| == hi - lo
  {
    seq(hi - lo, k requires 0 <= k < hi - lo => close[lo + k][c])
  }

  lemma {:induction false} RowSumSnoc(xs: seq<real>, x: real)
    ensures RowSum(xs + [x]) == RowSum(xs) + x
  {
    if xs == [] {
      assert [x][1..] == [] && xs + [x] == [x];
    } else {
      assert (xs + [x])[1..] == xs[1..] + [x];
      RowSumSnoc(xs[1..], x);
    }
  }

  lemma {:induction false} CloseSumIsSum(close: Frame<Price>, c: nat, lo: nat, hi: nat)
    requires lo <= hi <= |close| && forall t | lo <= t < hi :: c < |close[t]|
    ensures CloseSum(close, c, lo, hi) == RowSum(Window(close, c, lo, hi))
    decreases hi - lo
  {
    if lo < hi {
      CloseSumIsSum(close, c, lo, hi - 1);
      var last: real := close[hi - 1][c];
      RowSumSnoc(Window(close, c, lo, hi - 1), last);
      assert Window(close, c, lo, hi) == Window(close, c, lo, hi - 1) + [last];
    }
  }

  lemma {:induction false} CloseMaxIsMax(close: Frame<Price>, c: nat, lo: nat, hi: nat)
    requires lo < hi <= |close| && forall t | lo <= t < hi :: c < |close[t]|
    ensures forall t | lo <= t < hi :: close[t][c] <= CloseMax(close, c, lo, hi)
    ensures exists t :: lo <= t < hi && close[t][c] == CloseMax(close, c, lo, hi)
    decreases hi - lo
  {
    var last: real := close[hi - 1][c];
    assert lo <= hi - 1 < hi && close[hi - 1][c] == last;
    if lo + 1 < hi {
      CloseMaxIsMax(close, c, lo, hi - 1);
      var t :| lo <= t < hi - 1 && close[t][c] == CloseMax(close, c, lo, hi - 1);
    }
  }

  /** The close is above the mean of the last w closes, itself included; never
      before there are w of them. */
  predicate AboveMean(close: Frame<Price>, w: nat, t: nat, c: nat)
    requires t < |close| && forall u | 0 <= u <= t :: c < |close[u]|
  {
    && 0 < w <= t + 1
    && var now: real := close[t][c];
       now * w as real > RowSum(Window(close, c, t + 1 - w, t + 1))
  }

  lemma TrendIsAboveMean(close: Frame<Price>, w: nat, t: nat, c: nat)
    requires t < |close| && forall u | 0 <= u <= t :: c < |close[u]|
    ensures Trending(close, w, t, c) <==> AboveMean(close, w, t, c)
  {
    if 0 < w <= t + 1 {
      CloseSumIsSum(close, c, t + 1 - w, t + 1);
      MeanBelow(CloseSum(close, c, t + 1 - w, t + 1), w as real, close[t][c]);
    }
  }

  lemma MeanBelow(sum: real, w: real, x: real)
    requires w > 0.0
    ensures x > sum / w <==> x * w > sum
  {
    var m := sum / w;
    assert m * w == sum;
    assert (x > m ==> x * w > m * w) && (x <= m ==> x * w <= m * w);
  }

  lemma RatioBelow(now: real, before: real, pct: real)
    requires before > 0.0
    ensures now / before - 1.0 <= -pct <==> now <= (1.0 - pct) * before
  {
    var r, k := now / before, 1.0 - pct;
    assert r * before == now;
    assert (r <= k ==> r * before <= k * before) && (r > k ==> r * before > k * before);
  }

  /** The close is at or below (1 - pct) of the close `days` bars ago. */
  predicate FellBy(close: Frame<Price>, days: nat, pct: real, t: nat, c: nat)
    requires t < |close| && forall u | 0 <= u <= t :: c < |close[u]|
  {
    && days <= t
    && var now: real, before: real := close[t][c], close[t - days][c];
       now <= (1.0 - pct) * before
  }

  /** The close is at or above each of the `days` closes before it. */
  predicate AtHigh(close: Frame<Price>, days: nat, t: nat, c: nat)
    requires t < |close| && forall u | 0 <= u <= t :: c < |close[u]|
  {
    && 0 < days <= t
    && forall u | t - days <= u < t :: close[u][c] <= close[t][c]
  }

  /** The rule: it enters on a fall of at least pct over the dip window while
      above the trend mean, and exits at a new high of the dip window or when
      no longer above the trend mean; a negative window is refused. */
  lemma RuleMeans(close: Frame<Price>, n: nat, p: Params, t: nat, c: nat)
    requires Wide(close, n) && t < |close| && c < n
    ensures DipBuyer(close, n, p).ValueError? <==> p.dipDays < 0 || p.trendDays < 0
    ensures p.dipDays >= 0 && p.trendDays >= 0 ==>
              var s := DipBuyer(close, n, p).v;
              && (s.entries[t][c] <==> FellBy(close, p.dipDays, p.dipPct, t, c) && AboveMean(close, p.trendDays, t, c))
              && (s.exits[t][c] <==> AtHigh(close, p.dipDays, t, c) || !AboveMean(close, p.trendDays, t, c))
  {
    if p.dipDays >= 0 && p.trendDays >= 0 {
      TrendIsAboveMean(close, p.trendDays, t, c);
      if p.dipDays <= t { RatioBelow(close[t][c], close[t - p.dipDays][c], p.dipPct); }
      if 0 < p.dipDays <= t { CloseMaxIsMax(close, c, t - p.dipDays, t); }
    }
  }
}
