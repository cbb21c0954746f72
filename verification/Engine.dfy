/** The daily-bar portfolio engine and the dip-buyer rule it replays, as whole
    frames: rows are bars, columns are names, prices are positive. */
module Engine {
  import opened Records

  type Price = p: real | p > 0.0 witness 1.0
  type Frame<T> = seq<seq<T>>

  /** Every bar has a value for each of the n names. */
  ghost predicate Wide<T>(f: Frame<T>, n: nat) { forall t | 0 <= t < |f| :: |f[t]| == n }

  /** Python raised ValueError, or a value. */
  datatype Checked<T> = ValueError | Value(v: T)

  function RowSum(xs: seq<real>): real {
    if xs == [] then 0.0 else xs[0] + RowSum(xs[1..])
  }

  function Abs(x: real): real { if x < 0.0 then -x else x }

  // ---- fundbt/rules.py: dip_buyer ----

  datatype Params = Params(dipDays: int, dipPct: real, trendDays: int)

  /** The sum of one name's closes over bars [lo, hi). */
  function CloseSum(close: Frame<Price>, c: nat, lo: nat, hi: nat): real
    requires lo <= hi <= |close| && forall t | lo <= t < hi :: c < |close[t]|
    decreases hi - lo
  {
    if lo == hi then 0.0 else CloseSum(close, c, lo, hi - 1) + close[hi - 1][c]
  }

  function CloseMax(close: Frame<Price>, c: nat, lo: nat, hi: nat): real
    requires lo < hi <= |close| && forall t | lo <= t < hi :: c < |close[t]|
    decreases hi - lo
  {
    if hi == lo + 1 then close[lo][c]
    else
      var m := CloseMax(close, c, lo, hi - 1);
      if close[hi - 1][c] > m then close[hi - 1][c] else m
  }

  /** rolling(w).mean(): missing until w bars are in the window, and always for
      an empty window. */
  function RollingMean(close: Frame<Price>, w: nat, t: nat, c: nat): Option<real>
    requires t < |close| && forall u | 0 <= u <= t :: c < |close[u]|
  {
    if w == 0 || t + 1 < w then None else Some(CloseSum(close, c, t + 1 - w, t + 1) / w as real)
  }

  /** rolling(w).max().shift(1) */
  function HighBefore(close: Frame<Price>, w: nat, t: nat, c: nat): Option<real>
    requires t < |close| && forall u | 0 <= u <= t :: c < |close[u]|
  {
    if w == 0 || t < w then None else Some(CloseMax(close, c, t - w, t))
  }

  predicate Trending(close: Frame<Price>, w: nat, t: nat, c: nat)
    requires t < |close| && forall u | 0 <= u <= t :: c < |close[u]|
  {
    var mean := RollingMean(close, w, t, c);
    mean.Some? && close[t][c] > mean.value
  }

  predicate Dipped(close: Frame<Price>, days: nat, pct: real, t: nat, c: nat)
    requires t < |close| && forall u | 0 <= u <= t :: c < |close[u]|
  {
    t >= days
    && var now: real, before: real := close[t][c], close[t - days][c];
       now / before - 1.0 <= -pct
  }

  predicate Rebounded(close: Frame<Price>, days: nat, t: nat, c: nat)
    requires t < |close| && forall u | 0 <= u <= t :: c < |close[u]|
  {
    var high := HighBefore(close, days, t, c);
    high.Some? && close[t][c] >= high.value
  }

  datatype Signals = Signals(entries: Frame<bool>, exits: Frame<bool>)

  ghost predicate Shaped(s: Signals, bars: nat, n: nat) {
    && |s.entries| == bars && |s.exits| == bars && Wide(s.entries, n) && Wide(s.exits, n)
  }

  /** A negative window is refused by rolling(). */
  function DipBuyer(close: Frame<Price>, n: nat, p: Params): (r: Checked<Signals>)
    requires Wide(close, n)
    ensures r.Value? ==> Shaped(r.v, |close|, n)
  {
    if p.dipDays < 0 || p.trendDays < 0 then ValueError
    else
      Value(Signals(
        seq(|close|, t requires 0 <= t < |close| => seq(n, c requires 0 <= c < n =>
          Dipped(close, p.dipDays, p.dipPct, t, c) && Trending(close, p.trendDays, t, c))),
        seq(|close|, t requires 0 <= t < |close| => seq(n, c requires 0 <= c < n =>
          Rebounded(close, p.dipDays, t, c) || !Trending(close, p.trendDays, t, c)))))
  }

  // ---- fundbt/engine_pandas.py: run ----

  /** np.where(entries, 1, np.where(exits, 0, nan)) */
  function Raw(s: Signals, t: nat, c: nat): Option<real>
    requires t < |s.entries| && t < |s.exits| && c < |s.entries[t]| && c < |s.exits[t]|
  {
    if s.entries[t][c] then Some(1.0) else if s.exits[t][c] then Some(0.0) else None
  }

  /** ffill(): the last value present at or before bar t. */
  function FFilled(s: Signals, n: nat, t: nat, c: nat): Option<real>
    requires Shaped(s, |s.entries|, n) && t < |s.entries| && c < n
  {
    if Raw(s, t, c).Some? then Raw(s, t, c) else if t == 0 then None else FFilled(s, n, t - 1, c)
  }

  /** _positions: ffill().fillna(0.0) */
  function State(s: Signals, n: nat, t: nat, c: nat): real
    requires Shaped(s, |s.entries|, n) && t < |s.entries| && c < n
  {
    match FFilled(s, n, t, c) case Some(x) => x case None => 0.0
  }

  /** shift(1).fillna(0.0): what is held during bar t. */
  function Pos(s: Signals, n: nat, t: nat, c: nat): real
    requires Shaped(s, |s.entries|, n) && t < |s.entries| && c < n
  {
    if t == 0 then 0.0 else State(s, n, t - 1, c)
  }

  function PosRow(s: Signals, n: nat, t: nat): (r: seq<real>)
    requires Shaped(s, |s.entries|, n) && t < |s.entries|
    ensures |r| == n
  {
    seq(n, c requires 0 <= c < n => Pos(s, n, t, c))
  }

  /** Equal weight over the names held. */
  function WeightRow(s: Signals, n: nat, t: nat): (r: seq<real>)
    requires Shaped(s, |s.entries|, n) && t < |s.entries|
    ensures |r| == n
  {
    var active := RowSum(PosRow(s, n, t));
    seq(n, c requires 0 <= c < n => if active == 0.0 then 0.0 else PosRow(s, n, t)[c] / active)
  }

  /** pct_change().fillna(0.0) */
  function Return(close: Frame<Price>, n: nat, t: nat, c: nat): real
    requires Wide(close, n) && t < |close| && c < n
  {
    if t == 0 then 0.0
    else
      var now: real, before: real := close[t][c], close[t - 1][c];
      now / before - 1.0
  }

  function EarnedRow(close: Frame<Price>, s: Signals, n: nat, t: nat): (r: seq<real>)
    requires Wide(close, n) && Shaped(s, |close|, n) && t < |close|
    ensures |r| == n
  {
    seq(n, c requires 0 <= c < n => WeightRow(s, n, t)[c] * Return(close, n, t, c))
  }

  function Gross(close: Frame<Price>, s: Signals, n: nat, t: nat): real
    requires Wide(close, n) && Shaped(s, |close|, n) && t < |close|
  {
    RowSum(EarnedRow(close, s, n, t))
  }

  function TradedRow(s: Signals, n: nat, t: nat): (r: seq<real>)
    requires Shaped(s, |s.entries|, n) && 0 < t < |s.entries|
    ensures |r| == n
  {
    seq(n, c requires 0 <= c < n => Abs(WeightRow(s, n, t)[c] - WeightRow(s, n, t - 1)[c]))
  }

  /** weights.diff().abs().sum(axis=1); the first bar has nothing to differ from. */
  function Turnover(s: Signals, n: nat, t: nat): real
    requires Shaped(s, |s.entries|, n) && t < |s.entries|
  {
    if t == 0 then 0.0 else RowSum(TradedRow(s, n, t))
  }

  function Cost(s: Signals, n: nat, bps: real, t: nat): real
    requires Shaped(s, |s.entries|, n) && t < |s.entries|
  {
    Turnover(s, n, t) * (bps / 10000.0)
  }

  function Net(close: Frame<Price>, s: Signals, n: nat, bps: real, t: nat): real
    requires Wide(close, n) && Shaped(s, |close|, n) && t < |close|
  {
    Gross(close, s, n, t) - Cost(s, n, bps, t)
  }

  function Compound(before: real, net: real): real { before * (1.0 + net) }

  /** (1 + net).cumprod() */
  function Equity(close: Frame<Price>, s: Signals, n: nat, bps: real, t: nat): real
    requires Wide(close, n) && Shaped(s, |close|, n) && t < |close|
  {
    Compound(if t == 0 then 1.0 else Equity(close, s, n, bps, t - 1), Net(close, s, n, bps, t))
  }

  /** pos.diff() > 0, down one column through bar t. */
  function Rises(s: Signals, n: nat, c: nat, t: nat): nat
    requires Shaped(s, |s.entries|, n) && t < |s.entries| && c < n
  {
    if t == 0 then 0 else Rises(s, n, c, t - 1) + if Pos(s, n, t, c) - Pos(s, n, t - 1, c) > 0.0 then 1 else 0
  }

  /** ... summed over the first `cols` columns. */
  function RisesIn(s: Signals, n: nat, cols: nat, t: nat): nat
    requires Shaped(s, |s.entries|, n) && cols <= n && t < |s.entries|
  {
    if cols == 0 then 0 else RisesIn(s, n, cols - 1, t) + Rises(s, n, cols - 1, t)
  }

  /** executed_entries */
  function Trades(s: Signals, n: nat): nat
    requires Shaped(s, |s.entries|, n)
  {
    if |s.entries| == 0 then 0 else RisesIn(s, n, n, |s.entries| - 1)
  }

  function NetFrom(close: Frame<Price>, s: Signals, n: nat, bps: real): (r: seq<real>)
    requires Wide(close, n) && Shaped(s, |close|, n)
    ensures |r| == |close| && forall t | 0 <= t < |close| :: r[t] == Net(close, s, n, bps, t)
  {
    seq(|close|, t requires 0 <= t < |close| => Net(close, s, n, bps, t))
  }
}
