/** What the engine earns and pays, said over closes and the names held: a bar
    earns the mean close ratio of the names held, and pays on the part of the
    book that changed hands. */
module EngineEarnings {
  import opened Engine
  import opened EngineFacts

  // ---- the names held ----

  /** How many of the columns from c on are held during bar t. */
  function CountHeld(s: Signals, n: nat, t: nat, c: nat): nat
    requires Shaped(s, |s.entries|, n) && t < |s.entries| && c <= n
    decreases n - c
  {
    if c == n then 0 else (if Held(s, n, t, c) then 1 else 0) + CountHeld(s, n, t, c + 1)
  }

  /** ... and during the bar before as well. */
  function CountKept(s: Signals, n: nat, t: nat, c: nat): nat
    requires Shaped(s, |s.entries|, n) && 0 < t < |s.entries| && c <= n
    decreases n - c
  {
    if c == n then 0
    else (if Held(s, n, t, c) && Held(s, n, t - 1, c) then 1 else 0) + CountKept(s, n, t, c + 1)
  }

  /** The close ratios of the names held during bar t, from column c on. */
  function HeldRatios(close: Frame<Price>, s: Signals, n: nat, t: nat, c: nat): real
    requires Wide(close, n) && Shaped(s, |close|, n) && 0 < t < |close| && c <= n
    decreases n - c
  {
    if c == n then 0.0
    else
      var now: real, before: real := close[t][c], close[t - 1][c];
      (if Held(s, n, t, c) then now / before else 0.0) + HeldRatios(close, s, n, t, c + 1)
  }

  function Times(x: real, y: real): real { x * y }

  function Larger(a: nat, b: nat): nat { if a > b then a else b }

  /** The part of the book that changes hands when k of a names are kept and b
      are held after: all of it when moving in or out, both sides of what is
      replaced or resized otherwise. */
  function Moved(a: nat, b: nat, k: nat): real {
    if a == 0 && b == 0 then 0.0
    else if a == 0 || b == 0 then 1.0
    else 2.0 - 2.0 * k as real / Larger(a, b) as real
  }

  // ---- weights are equal ----

  lemma {:induction false} ActiveIsCount(s: Signals, n: nat, t: nat, c: nat)
    requires Shaped(s, |s.entries|, n) && t < |s.entries| && c <= n
    ensures RowSum(PosRow(s, n, t)[c..]) == CountHeld(s, n, t, c) as real
    decreases n - c
  {
    HeldRow(s, n, t);
    if c < n {
      var row := PosRow(s, n, t);
      assert row[c..][0] == row[c] && row[c..][1..] == row[c + 1..];
      ActiveIsCount(s, n, t, c + 1);
    }
  }

  function Share(k: nat): real { if k == 0 then 0.0 else 1.0 / k as real }

  /** Each name held has the same share of the book, any other none. */
  lemma WeightsAreEqual(s: Signals, n: nat, t: nat, c: nat)
    requires Shaped(s, |s.entries|, n) && t < |s.entries| && c < n
    ensures WeightRow(s, n, t)[c] == if Held(s, n, t, c) then Share(CountHeld(s, n, t, 0)) else 0.0
    ensures Held(s, n, t, c) ==> CountHeld(s, n, t, 0) > 0
  {
    ActiveIsCount(s, n, t, 0);
    HeldRow(s, n, t);
    CountsHeld(s, n, t, c, 0);
    assert PosRow(s, n, t)[0..] == PosRow(s, n, t);
  }

  lemma {:induction false} CountsHeld(s: Signals, n: nat, t: nat, c: nat, from: nat)
    requires Shaped(s, |s.entries|, n) && t < |s.entries| && from <= c < n
    ensures Held(s, n, t, c) ==> CountHeld(s, n, t, from) > 0
    decreases c - from
  {
    if from < c { CountsHeld(s, n, t, c, from + 1); }
  }

  // ---- gross: the mean close ratio ----

  lemma ShareTimes(k: nat, x: real)
    requires k > 0
    ensures Times(Share(k) * x, k as real) == x
  {
    var h := Share(k);
    assert h * k as real == 1.0;
    assert h * x * k as real == (h * k as real) * x;
  }

  lemma Spread(x: real, y: real, k: real)
    ensures Times(x + y, k) == Times(x, k) + Times(y, k)
  {
  }

  /** One name's part of the bar, times the number of names held. */
  lemma EarnedAt(close: Frame<Price>, s: Signals, n: nat, t: nat, c: nat)
    requires Wide(close, n) && Shaped(s, |close|, n) && 0 < t < |close| && c < n
    requires CountHeld(s, n, t, 0) > 0
    ensures var now: real, before: real := close[t][c], close[t - 1][c];
            Times(EarnedRow(close, s, n, t)[c], CountHeld(s, n, t, 0) as real)
            == if Held(s, n, t, c) then now / before - 1.0 else 0.0
  {
    WeightsAreEqual(s, n, t, c);
    var now: real, before: real := close[t][c], close[t - 1][c];
    var r := now / before - 1.0;
    assert EarnedRow(close, s, n, t)[c] == WeightRow(s, n, t)[c] * r;
    hide WeightRow, EarnedRow, Held, CountHeld, Share;
    ShareTimes(CountHeld(s, n, t, 0), r);
    Nothing(CountHeld(s, n, t, 0) as real, r);
  }

  lemma Nothing(k: real, r: real)
    ensures Times(0.0 * r, k) == 0.0
  {
  }

  lemma {:induction false} EarnedIsRatios(close: Frame<Price>, s: Signals, n: nat, t: nat, c: nat)
    requires Wide(close, n) && Shaped(s, |close|, n) && 0 < t < |close| && c <= n
    requires CountHeld(s, n, t, 0) > 0
    ensures Times(RowSum(EarnedRow(close, s, n, t)[c..]), CountHeld(s, n, t, 0) as real)
            == HeldRatios(close, s, n, t, c) - CountHeld(s, n, t, c) as real
    decreases n - c
  {
    hide EarnedRow, Held, Times;
    var k, row := CountHeld(s, n, t, 0), EarnedRow(close, s, n, t);
    if c < n {
      assert row[c..][0] == row[c] && row[c..][1..] == row[c + 1..];
      EarnedIsRatios(close, s, n, t, c + 1);
      EarnedAt(close, s, n, t, c);
      Spread(row[c], RowSum(row[c + 1..]), k as real);
    } else {
      Nothing(k as real, 0.0);
    }
  }

  lemma {:induction false} NothingEarned(close: Frame<Price>, s: Signals, n: nat, t: nat)
    requires Wide(close, n) && Shaped(s, |close|, n) && t < |close| && CountHeld(s, n, t, 0) == 0
    ensures Gross(close, s, n, t) == 0.0
  {
    var row := EarnedRow(close, s, n, t);
    forall c | 0 <= c < n ensures row[c] == 0.0 { WeightsAreEqual(s, n, t, c); }
    SumOfZeros(row);
  }

  // ---- turnover: what changed hands ----

  /** Names gained, names dropped, names kept at a new share. */
  function Traded(gained: real, dropped: real, kept: real, now: real, before: real): real {
    Times(gained, now) + Times(dropped, before) + Times(kept, Abs(now - before))
  }

  lemma OneMoreTraded(g: real, d: real, k: real, now: real, before: real)
    ensures Traded(g + 1.0, d, k, now, before) == Traded(g, d, k, now, before) + now
    ensures Traded(g, d + 1.0, k, now, before) == Traded(g, d, k, now, before) + before
    ensures Traded(g, d, k + 1.0, now, before) == Traded(g, d, k, now, before) + Abs(now - before)
  {
    hide Abs;
  }

  lemma ShareIsPositive(k: nat)
    ensures Share(k) >= 0.0
  {
  }

  lemma {:induction false} KeptWithin(s: Signals, n: nat, t: nat, c: nat)
    requires Shaped(s, |s.entries|, n) && 0 < t < |s.entries| && c <= n
    ensures CountKept(s, n, t, c) <= CountHeld(s, n, t, c) && CountKept(s, n, t, c) <= CountHeld(s, n, t - 1, c)
    decreases n - c
  {
    if c < n { KeptWithin(s, n, t, c + 1); }
  }

  lemma {:induction false} TradedByName(s: Signals, n: nat, t: nat, c: nat)
    requires Shaped(s, |s.entries|, n) && 0 < t < |s.entries| && c <= n
    ensures RowSum(TradedRow(s, n, t)[c..])
            == Traded(CountHeld(s, n, t, c) as real - CountKept(s, n, t, c) as real,
                      CountHeld(s, n, t - 1, c) as real - CountKept(s, n, t, c) as real,
                      CountKept(s, n, t, c) as real,
                      Share(CountHeld(s, n, t, 0)), Share(CountHeld(s, n, t - 1, 0)))
    decreases n - c
  {
    var row, now, before := TradedRow(s, n, t), Share(CountHeld(s, n, t, 0)), Share(CountHeld(s, n, t - 1, 0));
    if c < n {
      assert row[c..][0] == row[c] && row[c..][1..] == row[c + 1..];
      TradedByName(s, n, t, c + 1);
      WeightsAreEqual(s, n, t, c);
      WeightsAreEqual(s, n, t - 1, c);
      ShareIsPositive(CountHeld(s, n, t, 0));
      ShareIsPositive(CountHeld(s, n, t - 1, 0));
      assert row[c] == Abs(WeightRow(s, n, t)[c] - WeightRow(s, n, t - 1)[c]);
      var g, d, k := CountHeld(s, n, t, c + 1) as real - CountKept(s, n, t, c + 1) as real,
                     CountHeld(s, n, t - 1, c + 1) as real - CountKept(s, n, t, c + 1) as real,
                     CountKept(s, n, t, c + 1) as real;
      OneMoreTraded(g, d, k, now, before);
      hide WeightRow, TradedRow, Held, Share, Traded;
    }
  }

  lemma MovedIsTraded(a: nat, b: nat, k: nat)
    requires k <= a && k <= b
    ensures Traded(b as real - k as real, a as real - k as real, k as real, Share(b), Share(a)) == Moved(a, b, k)
  {
    var x, y, z := a as real, b as real, k as real;
    var u, v := Share(a), Share(b);
    if a > 0 { assert x * u == 1.0; }
    if b > 0 { assert y * v == 1.0; }
    if a > 0 && b > 0 {
      if a > b {
        Smaller(b, a);
        TwoShares(y, x, z, v, u);
        assert 2.0 * z / x == 2.0 * (z * u);
      } else {
        Smaller(a, b);
        TwoShares(x, y, z, u, v);
        assert 2.0 * z / y == 2.0 * (z * v);
      }
    }
  }

  lemma Smaller(a: nat, b: nat)
    requires 0 < a <= b
    ensures Share(b) <= Share(a)
  {
    var x, y, u, v := a as real, b as real, Share(a), Share(b);
    assert x * u == 1.0 && y * v == 1.0;
    assert v > 0.0;
    assert v > u ==> x * v > x * u;
    assert y * v >= x * v;
  }

  /** a <= b names at shares 1/a and 1/b. */
  lemma TwoShares(a: real, b: real, k: real, u: real, v: real)
    requires a * u == 1.0 && b * v == 1.0
    ensures Times(b - k, v) + Times(a - k, u) + Times(k, u - v) == 2.0 - 2.0 * (k * v)
  {
    assert (b - k) * v == 1.0 - k * v;
    assert (a - k) * u == 1.0 - k * u;
    assert k * (u - v) == k * u - k * v;
  }

  /** Turnover, from the numbers of names held before, held now and kept. */
  lemma TurnoverIsMoved(s: Signals, n: nat, t: nat)
    requires Shaped(s, |s.entries|, n) && 0 < t < |s.entries|
    ensures Turnover(s, n, t) == Moved(CountHeld(s, n, t - 1, 0), CountHeld(s, n, t, 0), CountKept(s, n, t, 0))
  {
    TradedByName(s, n, t, 0);
    assert TradedRow(s, n, t)[0..] == TradedRow(s, n, t);
    KeptWithin(s, n, t, 0);
    MovedIsTraded(CountHeld(s, n, t - 1, 0), CountHeld(s, n, t, 0), CountKept(s, n, t, 0));
  }

  // ---- a bar's net ----

  function Paid(a: nat, b: nat, kept: nat, bps: real): real { Moved(a, b, kept) * (bps / 10000.0) }

  lemma CostIsPaid(s: Signals, n: nat, bps: real, t: nat)
    requires Shaped(s, |s.entries|, n) && 0 < t < |s.entries|
    ensures Cost(s, n, bps, t) == Paid(CountHeld(s, n, t - 1, 0), CountHeld(s, n, t, 0), CountKept(s, n, t, 0), bps)
  {
    TurnoverIsMoved(s, n, t);
    hide Turnover, Moved, CountHeld, CountKept;
  }

  lemma GrossIsMeanRatio(close: Frame<Price>, s: Signals, n: nat, t: nat)
    requires Wide(close, n) && Shaped(s, |close|, n) && 0 < t < |close| && CountHeld(s, n, t, 0) > 0
    ensures Times(1.0 + Gross(close, s, n, t), CountHeld(s, n, t, 0) as real) == HeldRatios(close, s, n, t, 0)
  {
    EarnedIsRatios(close, s, n, t, 0);
    hide EarnedRow, HeldRatios, CountHeld;
    var row := EarnedRow(close, s, n, t);
    assert row[0..] == row;
    Spread(1.0, RowSum(row), CountHeld(s, n, t, 0) as real);
  }

  /** What the engine earns. With k names held, one plus a bar's net, plus the
      cost of what changed hands, is the equal-weight mean of their close
      ratios; with none held the bar earns nothing and pays the same cost. */
  lemma NetIsMeanRatio(close: Frame<Price>, s: Signals, n: nat, bps: real, t: nat)
    requires Wide(close, n) && Shaped(s, |close|, n) && 0 < t < |close|
    ensures var k := CountHeld(s, n, t, 0);
            var paid := Paid(CountHeld(s, n, t - 1, 0), k, CountKept(s, n, t, 0), bps);
            if k > 0 then Times(1.0 + Net(close, s, n, bps, t) + paid, k as real) == HeldRatios(close, s, n, t, 0)
            else Net(close, s, n, bps, t) == -paid
  {
    hide Gross, Cost, CountHeld, CountKept, HeldRatios, Paid, Times;
    CostIsPaid(s, n, bps, t);
    if CountHeld(s, n, t, 0) > 0 {
      GrossIsMeanRatio(close, s, n, t);
      var paid := Cost(s, n, bps, t);
      assert 1.0 + Net(close, s, n, bps, t) + paid == 1.0 + Gross(close, s, n, t);
    } else {
      NothingEarned(close, s, n, t);
    }
  }

  /** The first bar holds nothing, so equity starts at one. */
  lemma StartsAtOne(close: Frame<Price>, s: Signals, n: nat, bps: real)
    requires Wide(close, n) && Shaped(s, |close|, n) && |close| > 0
    ensures Equity(close, s, n, bps, 0) == 1.0
  {
    assert forall c | 0 <= c < n :: !Held(s, n, 0, c);
    NoneHeld(s, n, 0, 0);
    NothingEarned(close, s, n, 0);
  }

  lemma {:induction false} NoneHeld(s: Signals, n: nat, t: nat, c: nat)
    requires Shaped(s, |s.entries|, n) && t < |s.entries| && c <= n
    requires forall d | c <= d < n :: !Held(s, n, t, d)
    ensures CountHeld(s, n, t, c) == 0
    decreases n - c
  {
    if c < n { NoneHeld(s, n, t, c + 1); }
  }

  // ---- one name held throughout ----

  /** During bar t the book is this name and no other. */
  ghost predicate Sole(s: Signals, n: nat, t: nat, c: nat)
    requires Shaped(s, |s.entries|, n) && t < |s.entries| && c < n
  {
    forall d | 0 <= d < n :: Held(s, n, t, d) <==> d == c
  }

  lemma {:induction false} SoleCounts(close: Frame<Price>, s: Signals, n: nat, t: nat, c: nat, from: nat)
    requires Wide(close, n) && Shaped(s, |close|, n) && 0 < t < |close| && c < n && from <= n
    requires Sole(s, n, t, c)
    ensures CountHeld(s, n, t, from) == if from <= c then 1 else 0
    ensures var now: real, before: real := close[t][c], close[t - 1][c];
            HeldRatios(close, s, n, t, from) == if from <= c then now / before else 0.0
    ensures Sole(s, n, t - 1, c) ==> CountKept(s, n, t, from) == if from <= c then 1 else 0
    decreases n - from
  {
    if from < n {
      SoleCounts(close, s, n, t, c, from + 1);
    }
  }

  lemma SoleHeldOnce(s: Signals, n: nat, t: nat, c: nat, from: nat)
    requires Shaped(s, |s.entries|, n) && t < |s.entries| && c < n && from <= n && Sole(s, n, t, c)
    ensures CountHeld(s, n, t, from) == if from <= c then 1 else 0
    decreases n - from
  {
    if from < n { SoleHeldOnce(s, n, t, c, from + 1); }
  }

  lemma SoleBar(close: Frame<Price>, s: Signals, n: nat, bps: real, t: nat, c: nat)
    requires Wide(close, n) && Shaped(s, |close|, n) && 0 < t < |close| && c < n
    requires Sole(s, n, t, c) && (bps == 0.0 || Sole(s, n, t - 1, c))
    ensures var now: real, before: real := close[t][c], close[t - 1][c];
            1.0 + Net(close, s, n, bps, t) == now / before
  {
    NetIsMeanRatio(close, s, n, bps, t);
    SoleCounts(close, s, n, t, c, 0);
    hide Net, HeldRatios, CountHeld, CountKept;
    if Sole(s, n, t - 1, c) { SoleHeldOnce(s, n, t - 1, c, 0); }
  }

  lemma Telescopes(e: real, e': real, a: real, p: real, q: real, base: real)
    requires p > 0.0 && Times(e, base) == Times(a, p) && e' == Times(e, q / p)
    ensures Times(e', base) == Times(a, q)
  {
    assert e' * base == (e * base) * (q / p);
    assert (q / p) * p == q;
    assert (a * p) * (q / p) == a * ((q / p) * p);
  }

  /** The book was this name alone on every bar after a, up to b. */
  ghost predicate SoleOver(s: Signals, n: nat, a: nat, b: nat, c: nat)
    requires Shaped(s, |s.entries|, n) && b < |s.entries| && c < n
  {
    forall t | a < t <= b :: Sole(s, n, t, c)
  }

  lemma EquityStep(close: Frame<Price>, s: Signals, n: nat, bps: real, t: nat)
    requires Wide(close, n) && Shaped(s, |close|, n) && 0 < t < |close|
    ensures Equity(close, s, n, bps, t) == Times(Equity(close, s, n, bps, t - 1), 1.0 + Net(close, s, n, bps, t))
  {
    hide Net;
  }

  lemma OneBarMore(close: Frame<Price>, s: Signals, n: nat, bps: real, b: nat, c: nat, base: real, e: real, to: real)
    requires Wide(close, n) && Shaped(s, |close|, n) && 0 < b < |close| && c < n
    requires Sole(s, n, b, c) && (bps == 0.0 || Sole(s, n, b - 1, c))
    requires var before: real := close[b - 1][c]; Times(Equity(close, s, n, bps, b - 1), base) == Times(e, before)
    requires var now: real := close[b][c]; to == now
    ensures Times(Equity(close, s, n, bps, b), base) == Times(e, to)
  {
    SoleBar(close, s, n, bps, b, c);
    EquityStep(close, s, n, bps, b);
    hide Net, Sole, Equity, Times;
    var before: real := close[b - 1][c];
    Telescopes(Equity(close, s, n, bps, b - 1), Equity(close, s, n, bps, b), e, before, to, base);
  }

  lemma SoleShorter(s: Signals, n: nat, a: nat, b: nat, c: nat)
    requires Shaped(s, |s.entries|, n) && a < b < |s.entries| && c < n && SoleOver(s, n, a, b, c)
    ensures SoleOver(s, n, a, b - 1, c) && Sole(s, n, b, c)
    ensures a < b - 1 ==> Sole(s, n, b - 1, c)
  {
  }

  /** From bar a to bar b with one name held throughout, equity moves exactly as
      the close does. Costs do not matter if it was already held at bar a;
      otherwise this is at no cost. */
  lemma {:induction false} OneNameTelescopes(close: Frame<Price>, s: Signals, n: nat, bps: real, a: nat, b: nat, c: nat)
    requires Wide(close, n) && Shaped(s, |close|, n) && a <= b < |close| && c < n
    requires SoleOver(s, n, a, b, c)
    requires bps == 0.0 || Sole(s, n, a, c)
    ensures var from: real, to: real := close[a][c], close[b][c];
            Times(Equity(close, s, n, bps, b), from) == Times(Equity(close, s, n, bps, a), to)
    decreases b - a
  {
    if a < b {
      SoleShorter(s, n, a, b, c);
      hide Sole, SoleOver, Equity, Times;
      OneNameTelescopes(close, s, n, bps, a, b - 1, c);
      var from: real, to: real := close[a][c], close[b][c];
      OneBarMore(close, s, n, bps, b, c, from, Equity(close, s, n, bps, a), to);
    }
  }
}
