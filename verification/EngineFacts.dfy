/** What the engine's frames mean: a flat/in automaton per name, executed one
    bar late, that never looks ahead; and what costs can do to its equity. */
module EngineFacts {
  import opened Records
  import opened Engine

  // ---- the per-bar automaton ----

  /** Entry beats exit; an entry while in and an exit while flat do nothing. */
  function Step(holding: bool, entry: bool, exit: bool): bool {
    if entry then true else if exit then false else holding
  }

  /** Is the name held once bar t's signals are known? Flat before the first. */
  function Holding(s: Signals, n: nat, t: nat, c: nat): bool
    requires Shaped(s, |s.entries|, n) && t < |s.entries| && c < n
  {
    Step(t > 0 && Holding(s, n, t - 1, c), s.entries[t][c], s.exits[t][c])
  }

  /** Held during bar t: last bar's state, executed one bar late. */
  predicate Held(s: Signals, n: nat, t: nat, c: nat)
    requires Shaped(s, |s.entries|, n) && t < |s.entries| && c < n
  {
    t > 0 && Holding(s, n, t - 1, c)
  }

  /** Entries the automaton executes from bar t on: an order placed while flat
      fills on the next bar, so the last bar's signals never trade. */
  function Executed(s: Signals, n: nat, c: nat, t: nat, holding: bool): nat
    requires Shaped(s, |s.entries|, n) && c < n
    decreases |s.entries| - t
  {
    if t + 1 >= |s.entries| then 0
    else
      (if !holding && s.entries[t][c] then 1 else 0)
      + Executed(s, n, c, t + 1, Step(holding, s.entries[t][c], s.exits[t][c]))
  }

  function ExecutedIn(s: Signals, n: nat, cols: nat): nat
    requires Shaped(s, |s.entries|, n) && cols <= n
  {
    if cols == 0 then 0 else ExecutedIn(s, n, cols - 1) + Executed(s, n, cols - 1, 0, false)
  }

  /** The forward-filled frame is the automaton's state ... */
  lemma {:induction false} StateIsAutomaton(s: Signals, n: nat, t: nat, c: nat)
    requires Shaped(s, |s.entries|, n) && t < |s.entries| && c < n
    ensures State(s, n, t, c) == if Holding(s, n, t, c) then 1.0 else 0.0
    ensures FFilled(s, n, t, c).None? ==> !Holding(s, n, t, c)
  {
    if t > 0 { StateIsAutomaton(s, n, t - 1, c); }
  }

  lemma {:induction false} ExecutedSplits(s: Signals, n: nat, c: nat, t: nat)
    requires Shaped(s, |s.entries|, n) && t < |s.entries| && c < n
    ensures Executed(s, n, c, 0, false)
            == Rises(s, n, c, t) + Executed(s, n, c, t, Held(s, n, t, c))
  {
    if t > 0 {
      ExecutedSplits(s, n, c, t - 1);
      StateIsAutomaton(s, n, t - 1, c);
      if t > 1 { StateIsAutomaton(s, n, t - 2, c); }
    }
  }

  lemma {:induction false} ColumnsAgree(s: Signals, n: nat, cols: nat)
    requires Shaped(s, |s.entries|, n) && cols <= n && |s.entries| > 0
    ensures RisesIn(s, n, cols, |s.entries| - 1) == ExecutedIn(s, n, cols)
  {
    if cols > 0 {
      ColumnsAgree(s, n, cols - 1);
      ExecutedSplits(s, n, cols - 1, |s.entries| - 1);
    }
  }

  lemma {:induction false} NoBarsNoTrades(s: Signals, n: nat, cols: nat)
    requires Shaped(s, |s.entries|, n) && cols <= n && |s.entries| == 0
    ensures ExecutedIn(s, n, cols) == 0
  {
    if cols > 0 { NoBarsNoTrades(s, n, cols - 1); }
  }

  /** ... held one bar late, and n_trades counts exactly the entries the
      automaton executes. */
  lemma EngineIsAutomaton(s: Signals, n: nat)
    requires Shaped(s, |s.entries|, n)
    ensures Trades(s, n) == ExecutedIn(s, n, n)
    ensures forall t, c | 0 <= t < |s.entries| && 0 <= c < n ::
              Pos(s, n, t, c) == if Held(s, n, t, c) then 1.0 else 0.0
  {
    if |s.entries| > 0 { ColumnsAgree(s, n, n); } else { NoBarsNoTrades(s, n, n); }
    forall t: nat, c: nat | t < |s.entries| && c < n
      ensures Pos(s, n, t, c) == if Held(s, n, t, c) then 1.0 else 0.0
    {
      if t > 0 { StateIsAutomaton(s, n, t - 1, c); }
    }
  }

  // ---- weights and turnover ----

  lemma {:induction false} SumOfQuotients(xs: seq<real>, ys: seq<real>, k: real)
    requires |xs| == |ys| && k != 0.0 && forall i | 0 <= i < |xs| :: ys[i] == xs[i] / k
    ensures RowSum(ys) == RowSum(xs) / k
  {
    if xs != [] {
      SumOfQuotients(xs[1..], ys[1..], k);
      assert ys[0] == xs[0] / k;
    }
  }

  lemma {:induction false} SumOfZeros(xs: seq<real>)
    requires forall i | 0 <= i < |xs| :: xs[i] == 0.0
    ensures RowSum(xs) == 0.0
  {
    if xs != [] { SumOfZeros(xs[1..]); }
  }

  lemma {:induction false} SumIsBounded(xs: seq<real>, ys: seq<real>, zs: seq<real>)
    requires |xs| == |ys| == |zs| && forall i | 0 <= i < |xs| :: 0.0 <= xs[i] <= ys[i] + zs[i]
    ensures 0.0 <= RowSum(xs) <= RowSum(ys) + RowSum(zs)
  {
    if xs != [] { SumIsBounded(xs[1..], ys[1..], zs[1..]); }
  }

  lemma {:induction false} SumIsNonNegative(xs: seq<real>)
    requires forall i | 0 <= i < |xs| :: xs[i] >= 0.0
    ensures RowSum(xs) >= 0.0
    ensures forall i | 0 <= i < |xs| :: xs[i] <= RowSum(xs)
  {
    if xs != [] {
      SumIsNonNegative(xs[1..]);
      forall i | 0 <= i < |xs| ensures xs[i] <= RowSum(xs) {
        if i > 0 { assert xs[1..][i - 1] == xs[i]; }
      }
    }
  }

  /** Long-only and fully invested or out: weights are never negative and sum
      to one, or to nothing exactly when no name is held. */
  lemma FullyInvestedOrOut(s: Signals, n: nat, t: nat)
    requires Shaped(s, |s.entries|, n) && t < |s.entries|
    ensures forall c | 0 <= c < n :: WeightRow(s, n, t)[c] >= 0.0
    ensures forall c | 0 <= c < n :: WeightRow(s, n, t)[c] > 0.0 <==> Held(s, n, t, c)
    ensures RowSum(WeightRow(s, n, t)) == if exists c :: 0 <= c < n && Held(s, n, t, c) then 1.0 else 0.0
  {
    var pos, w := PosRow(s, n, t), WeightRow(s, n, t);
    HeldRow(s, n, t);
    SumIsNonNegative(pos);
    var active := RowSum(pos);
    assert forall c | 0 <= c < n :: w[c] == if active == 0.0 then 0.0 else pos[c] / active;
    hide PosRow, WeightRow, Pos, Held, Shaped;
    if exists c :: 0 <= c < n && Held(s, n, t, c) {
      var c :| 0 <= c < n && Held(s, n, t, c);
      assert pos[c] == 1.0 && active >= 1.0;
      SumOfQuotients(pos, w, active);
    } else {
      SumOfZeros(pos);
      SumOfZeros(w);
    }
    forall c | 0 <= c < n ensures w[c] >= 0.0 && (w[c] > 0.0 <==> pos[c] == 1.0) {
      QuotientSign(pos[c], active);
    }
  }

  lemma HeldRow(s: Signals, n: nat, t: nat)
    requires Shaped(s, |s.entries|, n) && t < |s.entries|
    ensures forall c | 0 <= c < n :: PosRow(s, n, t)[c] == if Held(s, n, t, c) then 1.0 else 0.0
  {
    EngineIsAutomaton(s, n);
  }

  lemma QuotientSign(x: real, k: real)
    requires (x == 0.0 || x == 1.0) && k >= x
    ensures k != 0.0 ==> x / k >= 0.0 && (x / k > 0.0 <==> x == 1.0)
  {
    if x == 1.0 { assert (1.0 / k) * k == 1.0; }
  }

  /** At most the whole book is sold and the whole book bought in one bar. */
  lemma TurnoverIsAtMostTwo(s: Signals, n: nat, t: nat)
    requires Shaped(s, |s.entries|, n) && t < |s.entries|
    ensures 0.0 <= Turnover(s, n, t) <= 2.0
  {
    if t > 0 {
      FullyInvestedOrOut(s, n, t);
      FullyInvestedOrOut(s, n, t - 1);
      SumIsBounded(TradedRow(s, n, t), WeightRow(s, n, t), WeightRow(s, n, t - 1));
    }
  }

  // ---- the cost stress ----

  /** The m-times stress run differs from the base run by exactly the extra
      cost. */
  lemma StressIsLinear(close: Frame<Price>, s: Signals, n: nat, bps: real, m: real, t: nat)
    requires Wide(close, n) && Shaped(s, |close|, n) && t < |close|
    ensures Net(close, s, n, bps * m, t) == Gross(close, s, n, t) - m * Cost(s, n, bps, t)
  {
    var turnover, rate := Turnover(s, n, t), bps / 10000.0;
    assert bps * m / 10000.0 == rate * m;
    assert turnover * (rate * m) == m * (turnover * rate);
  }

  lemma Scale(x: real, y: real, k: real)
    requires x <= y && k >= 0.0
    ensures x * k <= y * k
  {
    assert (y - x) * k >= 0.0;
  }

  lemma CompoundMonotone(a: real, b: real, x: real, y: real)
    requires 0.0 <= a <= b && -1.0 <= x <= y
    ensures 0.0 <= Compound(a, x) <= Compound(b, y)
  {
    Scale(a, b, 1.0 + x);
    Scale(1.0 + x, 1.0 + y, b);
    Scale(0.0, a, 1.0 + x);
  }

  /** At a higher multiple no bar nets more. */
  lemma StressNetsLess(close: Frame<Price>, s: Signals, n: nat, bps: real, m: real, m': real, t: nat)
    requires Wide(close, n) && Shaped(s, |close|, n) && t < |close| && bps >= 0.0 && m <= m'
    ensures Net(close, s, n, bps * m', t) <= Net(close, s, n, bps * m, t)
  {
    StressIsLinear(close, s, n, bps, m, t);
    StressIsLinear(close, s, n, bps, m', t);
    CostNonNegative(s, n, bps, t);
    hide Net, Cost, Gross;
    Scale(m, m', Cost(s, n, bps, t));
  }

  lemma CostNonNegative(s: Signals, n: nat, bps: real, t: nat)
    requires Shaped(s, |s.entries|, n) && t < |s.entries| && bps >= 0.0
    ensures Cost(s, n, bps, t) >= 0.0
  {
    TurnoverIsAtMostTwo(s, n, t);
    hide Turnover;
    assert bps / 10000.0 >= 0.0;
  }

  /** No bar through t loses more than everything. */
  ghost predicate Solvent(close: Frame<Price>, s: Signals, n: nat, bps: real, t: nat)
    requires Wide(close, n) && Shaped(s, |close|, n) && t < |close|
  {
    forall u | 0 <= u <= t :: Net(close, s, n, bps, u) >= -1.0
  }

  /** More cost never makes more equity, bar by bar, for as long as no bar
      loses more than everything at the higher cost. */
  lemma {:induction false} StressNeverHelps(close: Frame<Price>, s: Signals, n: nat, bps: real, m: real, m': real, t: nat)
    requires Wide(close, n) && Shaped(s, |close|, n) && t < |close| && bps >= 0.0 && m <= m'
    requires Solvent(close, s, n, bps * m', t)
    ensures 0.0 <= Equity(close, s, n, bps * m', t) <= Equity(close, s, n, bps * m, t)
  {
    StressNetsLess(close, s, n, bps, m, m', t);
    hide Net, Compound;
    assert Net(close, s, n, bps * m', t) >= -1.0;
    if t > 0 { StressNeverHelps(close, s, n, bps, m, m', t - 1); }
    CompoundMonotone(if t == 0 then 1.0 else Equity(close, s, n, bps * m', t - 1),
                     if t == 0 then 1.0 else Equity(close, s, n, bps * m, t - 1),
                     Net(close, s, n, bps * m', t), Net(close, s, n, bps * m, t));
  }

  // ---- no lookahead ----

  lemma {:induction false} SumLooksBack(close: Frame<Price>, close': Frame<Price>, n: nat, c: nat, lo: nat, hi: nat)
    requires lo <= hi <= |close| && hi <= |close'| && close[..hi] == close'[..hi]
    requires Wide(close, n) && Wide(close', n) && c < n
    ensures CloseSum(close, c, lo, hi) == CloseSum(close', c, lo, hi)
    decreases hi - lo
  {
    if lo < hi {
      assert close[..hi - 1] == close[..hi][..hi - 1] == close'[..hi - 1];
      SumLooksBack(close, close', n, c, lo, hi - 1);
      assert close[hi - 1] == close[..hi][hi - 1] == close'[hi - 1];
    }
  }

  lemma {:induction false} MaxLooksBack(close: Frame<Price>, close': Frame<Price>, n: nat, c: nat, lo: nat, hi: nat)
    requires lo < hi <= |close| && hi <= |close'| && close[..hi] == close'[..hi]
    requires Wide(close, n) && Wide(close', n) && c < n
    ensures CloseMax(close, c, lo, hi) == CloseMax(close', c, lo, hi)
    decreases hi - lo
  {
    assert close[hi - 1] == close[..hi][hi - 1] == close'[hi - 1];
    if lo + 1 < hi {
      assert close[..hi - 1] == close[..hi][..hi - 1] == close'[..hi - 1];
      MaxLooksBack(close, close', n, c, lo, hi - 1);
    }
  }

  /** A bar's signals are settled by the closes up to and including it. */
  lemma SignalsLookBack(close: Frame<Price>, close': Frame<Price>, n: nat, p: Params, t: nat)
    requires Wide(close, n) && Wide(close', n) && t < |close| && t < |close'|
    requires close[..t + 1] == close'[..t + 1]
    requires p.dipDays >= 0 && p.trendDays >= 0
    ensures DipBuyer(close, n, p).v.entries[t] == DipBuyer(close', n, p).v.entries[t]
    ensures DipBuyer(close, n, p).v.exits[t] == DipBuyer(close', n, p).v.exits[t]
  {
    forall c: nat | c < n
      ensures Dipped(close, p.dipDays, p.dipPct, t, c) == Dipped(close', p.dipDays, p.dipPct, t, c)
      ensures Trending(close, p.trendDays, t, c) == Trending(close', p.trendDays, t, c)
      ensures Rebounded(close, p.dipDays, t, c) == Rebounded(close', p.dipDays, t, c)
    {
      NameLooksBack(close, close', n, p, t, c);
    }
  }

  lemma NameLooksBack(close: Frame<Price>, close': Frame<Price>, n: nat, p: Params, t: nat, c: nat)
    requires Wide(close, n) && Wide(close', n) && t < |close| && t < |close'| && c < n
    requires close[..t + 1] == close'[..t + 1]
    requires p.dipDays >= 0 && p.trendDays >= 0
    ensures Dipped(close, p.dipDays, p.dipPct, t, c) == Dipped(close', p.dipDays, p.dipPct, t, c)
    ensures Trending(close, p.trendDays, t, c) == Trending(close', p.trendDays, t, c)
    ensures Rebounded(close, p.dipDays, t, c) == Rebounded(close', p.dipDays, t, c)
  {
    assert forall u | 0 <= u <= t :: close[u] == close[..t + 1][u] == close'[u];
    if 0 < p.trendDays <= t + 1 { SumLooksBack(close, close', n, c, t + 1 - p.trendDays, t + 1); }
    if 0 < p.dipDays <= t {
      assert close[..t] == close[..t + 1][..t] == close'[..t];
      MaxLooksBack(close, close', n, c, t - p.dipDays, t);
    }
  }

  /** The engine holds during bar t what the signals before bar t decided. */
  lemma {:induction false} StateLooksBack(s: Signals, s': Signals, n: nat, t: nat, c: nat)
    requires Shaped(s, |s.entries|, n) && Shaped(s', |s'.entries|, n) && c < n
    requires t < |s.entries| && t < |s'.entries|
    requires forall u | 0 <= u <= t :: s.entries[u] == s'.entries[u] && s.exits[u] == s'.exits[u]
    ensures FFilled(s, n, t, c) == FFilled(s', n, t, c)
  {
    if t > 0 { StateLooksBack(s, s', n, t - 1, c); }
  }

  lemma WeightsLookBack(s: Signals, s': Signals, n: nat, t: nat)
    requires Shaped(s, |s.entries|, n) && Shaped(s', |s'.entries|, n)
    requires t < |s.entries| && t < |s'.entries|
    requires forall u | 0 <= u < t :: s.entries[u] == s'.entries[u] && s.exits[u] == s'.exits[u]
    ensures WeightRow(s, n, t) == WeightRow(s', n, t)
  {
    forall c: nat | c < n ensures Pos(s, n, t, c) == Pos(s', n, t, c) {
      if t > 0 { StateLooksBack(s, s', n, t - 1, c); }
    }
    assert PosRow(s, n, t) == PosRow(s', n, t);
  }

  lemma GrossLooksBack(close: Frame<Price>, close': Frame<Price>, s: Signals, s': Signals, n: nat, t: nat)
    requires Wide(close, n) && Wide(close', n) && Shaped(s, |close|, n) && Shaped(s', |close'|, n)
    requires t < |close| && t < |close'| && close[t] == close'[t] && (t > 0 ==> close[t - 1] == close'[t - 1])
    requires WeightRow(s, n, t) == WeightRow(s', n, t)
    ensures Gross(close, s, n, t) == Gross(close', s', n, t)
  {
    hide WeightRow;
    forall c: nat | c < n ensures EarnedRow(close, s, n, t)[c] == EarnedRow(close', s', n, t)[c] {
      assert Return(close, n, t, c) == Return(close', n, t, c);
      hide Return;
    }
    assert EarnedRow(close, s, n, t) == EarnedRow(close', s', n, t);
  }

  lemma CostLooksBack(s: Signals, s': Signals, n: nat, bps: real, t: nat)
    requires Shaped(s, |s.entries|, n) && Shaped(s', |s'.entries|, n) && t < |s.entries| && t < |s'.entries|
    requires WeightRow(s, n, t) == WeightRow(s', n, t)
    requires t > 0 ==> WeightRow(s, n, t - 1) == WeightRow(s', n, t - 1)
    ensures Cost(s, n, bps, t) == Cost(s', n, bps, t)
  {
    hide WeightRow;
    if t > 0 { assert TradedRow(s, n, t) == TradedRow(s', n, t); }
  }

  lemma NetLooksBack(close: Frame<Price>, close': Frame<Price>, s: Signals, s': Signals, n: nat, bps: real, t: nat)
    requires Wide(close, n) && Wide(close', n) && Shaped(s, |close|, n) && Shaped(s', |close'|, n)
    requires t < |close| && t < |close'| && close[..t + 1] == close'[..t + 1]
    requires forall u | 0 <= u < t :: s.entries[u] == s'.entries[u] && s.exits[u] == s'.exits[u]
    ensures Net(close, s, n, bps, t) == Net(close', s', n, bps, t)
  {
    WeightsLookBack(s, s', n, t);
    if t > 0 { WeightsLookBack(s, s', n, t - 1); }
    hide WeightRow, Gross, Cost;
    assert close[t] == close[..t + 1][t] == close'[t];
    if t > 0 { assert close[t - 1] == close[..t + 1][t - 1] == close'[t - 1]; }
    GrossLooksBack(close, close', s, s', n, t);
    CostLooksBack(s, s', n, bps, t);
  }

  /** No lookahead: two histories that agree before bar t give the same weights
      through bar t and the same net returns through bar t - 1. */
  lemma NoLookahead(close: Frame<Price>, close': Frame<Price>, n: nat, p: Params, bps: real, t: nat)
    requires Wide(close, n) && Wide(close', n)
    requires t <= |close| && t <= |close'| && close[..t] == close'[..t]
    requires p.dipDays >= 0 && p.trendDays >= 0
    ensures var s, s' := DipBuyer(close, n, p).v, DipBuyer(close', n, p).v;
            && (forall u | 0 <= u <= t && u < |close| && u < |close'| :: WeightRow(s, n, u) == WeightRow(s', n, u))
            && (forall u | 0 <= u < t :: Net(close, s, n, bps, u) == Net(close', s', n, bps, u))
            && (forall u | 0 <= u < t :: Equity(close, s, n, bps, u) == Equity(close', s', n, bps, u))
  {
    var s, s' := DipBuyer(close, n, p).v, DipBuyer(close', n, p).v;
    forall u | 0 <= u < t ensures s.entries[u] == s'.entries[u] && s.exits[u] == s'.exits[u] {
      assert close[..u + 1] == close[..t][..u + 1] == close'[..u + 1];
      SignalsLookBack(close, close', n, p, u);
    }
    forall u: nat | u <= t && u < |close| && u < |close'| ensures WeightRow(s, n, u) == WeightRow(s', n, u) {
      WeightsLookBack(s, s', n, u);
    }
    forall u: nat | u < t ensures Net(close, s, n, bps, u) == Net(close', s', n, bps, u) {
      assert close[..u + 1] == close[..t][..u + 1] == close'[..u + 1];
      NetLooksBack(close, close', s, s', n, bps, u);
    }
    forall u: nat | u < t ensures Equity(close, s, n, bps, u) == Equity(close', s', n, bps, u) {
      EquityFollowsNet(close, close', s, s', n, bps, u);
    }
  }

  lemma {:induction false} EquityFollowsNet(close: Frame<Price>, close': Frame<Price>, s: Signals, s': Signals, n: nat, bps: real, t: nat)
    requires Wide(close, n) && Wide(close', n) && Shaped(s, |close|, n) && Shaped(s', |close'|, n)
    requires t < |close| && t < |close'|
    requires forall u | 0 <= u <= t :: Net(close, s, n, bps, u) == Net(close', s', n, bps, u)
    ensures Equity(close, s, n, bps, t) == Equity(close', s', n, bps, t)
  {
    hide Net;
    if t > 0 { EquityFollowsNet(close, close', s, s', n, bps, t - 1); }
  }

  /** Running on a prefix of the history gives the prefix of the full run. */
  lemma PrefixRun(close: Frame<Price>, n: nat, p: Params, bps: real, t: nat)
    requires Wide(close, n) && t <= |close| && p.dipDays >= 0 && p.trendDays >= 0
    ensures Wide(close[..t], n)
    ensures NetFrom(close[..t], DipBuyer(close[..t], n, p).v, n, bps)
            == NetFrom(close, DipBuyer(close, n, p).v, n, bps)[..t]
  {
    NoLookahead(close, close[..t], n, p, bps, t);
  }

  lemma {:induction false} RisesLookBack(s: Signals, s': Signals, n: nat, c: nat, t: nat)
    requires Shaped(s, |s.entries|, n) && Shaped(s', |s'.entries|, n) && c < n
    requires t < |s.entries| && t < |s'.entries|
    requires forall u | 0 <= u < t :: s.entries[u] == s'.entries[u] && s.exits[u] == s'.exits[u]
    ensures Rises(s, n, c, t) == Rises(s', n, c, t)
  {
    if t > 0 {
      RisesLookBack(s, s', n, c, t - 1);
      StateLooksBack(s, s', n, t - 1, c);
      if t > 1 { StateLooksBack(s, s', n, t - 2, c); }
    }
  }

  lemma {:induction false} RisesInLookBack(s: Signals, s': Signals, n: nat, cols: nat, t: nat)
    requires Shaped(s, |s.entries|, n) && Shaped(s', |s'.entries|, n) && cols <= n
    requires t < |s.entries| && t < |s'.entries|
    requires forall u | 0 <= u < t :: s.entries[u] == s'.entries[u] && s.exits[u] == s'.exits[u]
    ensures RisesIn(s, n, cols, t) == RisesIn(s', n, cols, t)
  {
    if cols > 0 {
      RisesInLookBack(s, s', n, cols - 1, t);
      RisesLookBack(s, s', n, cols - 1, t);
    }
  }

  /** The prefix run trades exactly what the full run had traded by its last
      bar. */
  lemma PrefixTrades(close: Frame<Price>, n: nat, p: Params, t: nat)
    requires Wide(close, n) && 0 < t <= |close| && p.dipDays >= 0 && p.trendDays >= 0
    ensures Wide(close[..t], n)
    ensures Trades(DipBuyer(close[..t], n, p).v, n) == RisesIn(DipBuyer(close, n, p).v, n, n, t - 1)
  {
    var s, s' := DipBuyer(close, n, p).v, DipBuyer(close[..t], n, p).v;
    forall u | 0 <= u < t - 1 ensures s.entries[u] == s'.entries[u] && s.exits[u] == s'.exits[u] {
      assert close[..u + 1] == close[..t][..u + 1];
      SignalsLookBack(close, close[..t], n, p, u);
    }
    hide DipBuyer;
    RisesInLookBack(s, s', n, n, t - 1);
  }
}
