/** The append-only trial registry and the two tools that write it: budgeted
    backtests and the one-shot holdout. */
module Registry {
  import opened Records
  import opened Engine

  /** A pre-registered spec. Its id is the hash of its fields, so the record
      stands for the id; the fields below are the ones these tools read. */
  datatype Spec = Spec(
    rule: string, ranges: map<string, Range>, budget: int, family: string, bucket: string, text: string)

  datatype Range = Range(lo: real, hi: real, step: real)

  /** A dict of parameters, in insertion order. */
  type Settings = seq<(string, real)>

  /** A price history: a column per name, a row per date; a cell may be
      missing. */
  datatype Data = Data(width: nat, dates: seq<int>, rows: Frame<Option<Price>>)

  ghost predicate Framed(d: Data) { |d.dates| == |d.rows| && Wide(d.rows, d.width) }

  datatype Variant = Plain | Holdout

  /** run_key, with hashing taken as injective on what it hashes; `snapshot` is
      the data slice's own digest. */
  datatype RunKey = RunKey(spec: Spec, params: map<string, real>, snapshot: string, variant: Variant, seed: int)

  /** What the engine measured on the visible slice: executed entries, and net
      returns at one, two and three times the cost floor. */
  datatype Study = Study(nTrades: int, net: seq<real>, net2x: seq<real>, net3x: seq<real>)

  /** `ratios`: Sharpe, drawdown and the other statistics taken of a study. */
  datatype Stats =
    | Measured(study: Study, ratios: seq<real>, nTrialsFamily: nat)
    | RejectedBudget
    | HoldoutRun(ratios: seq<real>)

  datatype Trial = Trial(spec: Spec, family: string, stats: Stats, isHoldout: bool)

  /** trial_registry, holdout_evaluations and the spec ids foreign keys name. */
  datatype Log = Log(trials: Table<RunKey, Trial>, holdouts: map<Spec, RunKey>, specs: set<Spec>)

  datatype Failure =
    | UnknownRule | UndeclaredParam(p: string) | ParamOutOfRange(p: string) | BudgetExhausted
    | NanInClose | InsufficientData | ComputationRaised | ForeignKey | HoldoutConsumed | Killed

  datatype Outcome = Ok(stats: Stats, cached: bool) | Err(why: Failure)

  /** The rules that are registered code. */
  const RULES := {"dip_buyer"}

  /** What the tools call and this model does not open: the data digest, date
      arithmetic, the statistics taken of a study (neighbour runs on the same
      visible slice and the family's earlier results included), and the holdout
      evaluation. None is a raise. */
  datatype Lab = Lab(
    digest: Data -> string,
    monthsBefore: (int, int) -> int,
    grade: (Spec, map<string, real>, Frame<Price>, Study, seq<Stats>) -> Option<seq<real>>,
    holdout: (Spec, map<string, real>, Data) -> Option<seq<real>>)

  const MIN_VISIBLE := 504      // 252 trading days a year, two years

  // ---- the dip-buyer's study: one pass per cost stress ----

  const COST_FLOORS_BPS: map<string, real> :=
    map["mega_large" := 5.0, "mid" := 15.0, "small" := 40.0, "micro" := 100.0]

  /** Python's int(x). */
  function Truncate(x: real): int { if x >= 0.0 then x.Floor else -((-x).Floor) }

  function DipBuyerStudy(spec: Spec, ps: map<string, real>, n: nat, visible: Frame<Price>): Option<Study>
    requires Wide(visible, n)
  {
    if spec.bucket !in COST_FLOORS_BPS then None                                       // KeyError
    else if "dip_days" !in ps || "dip_pct" !in ps || "trend_days" !in ps then None     // KeyError
    else
      var floor := COST_FLOORS_BPS[spec.bucket];
      match DipBuyer(visible, n, Engine.Params(Truncate(ps["dip_days"]), ps["dip_pct"], Truncate(ps["trend_days"])))
      case ValueError => None
      case Value(s) =>
        Some(Study(Trades(s, n), NetFrom(visible, s, n, floor * 1.0), NetFrom(visible, s, n, floor * 2.0),
                   NetFrom(visible, s, n, floor * 3.0)))
  }

  // ---- validation ----

  function SettingsMap(ps: Settings): map<string, real> {
    if ps == [] then map[] else SettingsMap(ps[..|ps| - 1])[ps[|ps| - 1].0 := ps[|ps| - 1].1]
  }

  /** The first parameter, in order, that is undeclared or out of range. */
  function FirstBad(spec: Spec, ps: Settings): Option<Failure> {
    if ps == [] then None
    else
      var (p, v) := ps[0];
      if p !in spec.ranges then Some(UndeclaredParam(p))
      else if !(spec.ranges[p].lo <= v <= spec.ranges[p].hi) then Some(ParamOutOfRange(p))
      else FirstBad(spec, ps[1..])
  }

  // ---- the quarantine ----

  predicate Missing(d: Data) { exists t, c :: 0 <= t < |d.rows| && 0 <= c < |d.rows[t]| && d.rows[t][c].None? }

  function LastDate(dates: seq<int>): int
    requires dates != []
  {
    if |dates| == 1 then dates[0]
    else
      var m := LastDate(dates[1..]);
      if dates[0] > m then dates[0] else m
  }

  /** close.loc[close.index <= cutoff] */
  function RowsUpTo(dates: seq<int>, rows: Frame<Option<Price>>, cutoff: int): Frame<Option<Price>>
    requires |dates| == |rows|
  {
    if dates == [] then []
    else
      (if dates[0] <= cutoff then [rows[0]] else []) + RowsUpTo(dates[1..], rows[1..], cutoff)
  }

  function Visible(lab: Lab, d: Data, months: int): Frame<Option<Price>>
    requires Framed(d)
  {
    if d.dates == [] then [] else RowsUpTo(d.dates, d.rows, lab.monthsBefore(LastDate(d.dates), months))
  }

  function Clean(row: seq<Option<Price>>): seq<Price> {
    seq(|row|, c requires 0 <= c < |row| => match row[c] case Some(p) => p case None => 1.0)
  }

  function CleanAll(f: Frame<Option<Price>>): Frame<Price> {
    seq(|f|, t requires 0 <= t < |f| => Clean(f[t]))
  }

  lemma {:induction false} RowsAreWide(dates: seq<int>, rows: Frame<Option<Price>>, cutoff: int, n: nat)
    requires |dates| == |rows| && Wide(rows, n)
    ensures Wide(RowsUpTo(dates, rows, cutoff), n)
  {
    if dates != [] { RowsAreWide(dates[1..], rows[1..], cutoff, n); }
  }

  /** The visible slice, once nothing is missing in it. */
  function Slice(lab: Lab, d: Data, months: int): (r: Frame<Price>)
    requires Framed(d)
    ensures Wide(r, d.width) && |r| == |Visible(lab, d, months)|
  {
    if d.dates != [] then
      RowsAreWide(d.dates, d.rows, lab.monthsBefore(LastDate(d.dates), months), d.width);
      CleanAll(Visible(lab, d, months))
    else []
  }

  // ---- queries ----

  function CountIn(t: Table<RunKey, Trial>, n: nat, which: Trial -> bool): (r: nat)
    requires n <= |t.ids|
    ensures r <= n
  {
    if n == 0 then 0
    else CountIn(t, n - 1, which) + if t.ids[n - 1] in t.rows && which(t.rows[t.ids[n - 1]]) then 1 else 0
  }

  function FamilyN(l: Log, family: string): nat {
    CountIn(l.trials, |l.trials.ids|, (t: Trial) => t.family == family)
  }

  function SpecTrialCount(l: Log, spec: Spec): nat {
    CountIn(l.trials, |l.trials.ids|, (t: Trial) => t.spec == spec)
  }

  /** The family's stored statistics, in log order. */
  function FamilyStats(t: Table<RunKey, Trial>, n: nat, family: string): seq<Stats>
    requires n <= |t.ids|
  {
    if n == 0 then []
    else
      FamilyStats(t, n - 1, family)
      + if t.ids[n - 1] in t.rows && t.rows[t.ids[n - 1]].family == family then [t.rows[t.ids[n - 1]].stats] else []
  }

  // ---- the tools, as the state they leave and what they return ----

  datatype Step = Step(log: Log, out: Outcome)

  /** INSERT OR IGNORE: the primary key is ignored, the foreign key is not. */
  function Logged(l: Log, key: RunKey, t: Trial): Log {
    if t.spec !in l.specs then l else l.(trials := Add(l.trials, key, t))
  }

  datatype Call = Call(spec: Spec, ps: Settings, data: Data, months: int, seed: int)

  function KeyOf(lab: Lab, c: Call, v: Variant): RunKey {
    RunKey(c.spec, SettingsMap(c.ps), lab.digest(c.data), v, if v == Plain then c.seed else 0)
  }

  /** The rule, the engine at three cost multiples, and the statistics. */
  function Measure(lab: Lab, l: Log, c: Call): Option<Stats>
    requires Framed(c.data)
  {
    var ps, visible := SettingsMap(c.ps), Slice(lab, c.data, c.months);
    match DipBuyerStudy(c.spec, ps, c.data.width, visible)
    case None => None
    case Some(study) =>
      match lab.grade(c.spec, ps, visible, study, FamilyStats(l.trials, |l.trials.ids|, c.spec.family))
      case None => None
      case Some(ratios) => Some(Measured(study, ratios, FamilyN(l, c.spec.family) + 1))
  }

  /** The call names a registered rule and only declared parameters in range. */
  predicate Validated(c: Call) { c.spec.rule in RULES && FirstBad(c.spec, c.ps).None? }

  function Backtested(lab: Lab, l: Log, c: Call): Step
    requires Framed(c.data)
  {
    var key := KeyOf(lab, c, Plain);
    if c.spec.rule !in RULES then Step(l, Err(UnknownRule))
    else if FirstBad(c.spec, c.ps).Some? then Step(l, Err(FirstBad(c.spec, c.ps).value))
    else if key in l.trials.rows then Step(l, Ok(l.trials.rows[key].stats, true))
    else if SpecTrialCount(l, c.spec) >= c.spec.budget then
      Step(Logged(l, key, Trial(c.spec, c.spec.family, RejectedBudget, false)),
           Err(if c.spec in l.specs then BudgetExhausted else ForeignKey))
    else if Missing(c.data) then Step(l, Err(NanInClose))
    else if |Visible(lab, c.data, c.months)| < MIN_VISIBLE then Step(l, Err(InsufficientData))
    else match Measure(lab, l, c)
      case None => Step(l, Err(ComputationRaised))
      case Some(stats) =>
        if c.spec !in l.specs then Step(l, Err(ForeignKey))
        else Step(Logged(l, key, Trial(c.spec, c.spec.family, stats, false)), Ok(stats, false))
  }

  /** `dies`: the process is killed between its two commits. */
  function HoldoutEvaluated(lab: Lab, l: Log, c: Call, dies: bool): Step {
    match lab.holdout(c.spec, SettingsMap(c.ps), c.data)
    case None => Step(l, Err(ComputationRaised))
    case Some(ratios) =>
      var key := KeyOf(lab, c, Holdout);
      if c.spec !in l.specs then Step(l, Err(ForeignKey))
      else
        var logged := Logged(l, key, Trial(c.spec, c.spec.family, HoldoutRun(ratios), true));
        if dies then Step(logged, Err(Killed))
        else if c.spec in l.holdouts then Step(logged, Err(HoldoutConsumed))
        else Step(logged.(holdouts := logged.holdouts[c.spec := key]), Ok(HoldoutRun(ratios), false))
  }

  // ---- the registry as the tools hold it ----

  class TrialRegistry {
    var trials: Table<RunKey, Trial>
    var holdouts: map<Spec, RunKey>
    const specs: set<Spec>

    function View(): Log reads this { Log(trials, holdouts, specs) }

    constructor (l: Log)
      ensures View() == l
    {
      trials, holdouts, specs := l.trials, l.holdouts, l.specs;
    }

    method Get(key: RunKey) returns (r: Option<Stats>)
      ensures r == if key in trials.rows then Some(trials.rows[key].stats) else None
    {
      r := if key in trials.rows then Some(trials.rows[key].stats) else None;
    }

    /** log(); false where SQLite raises on the foreign key. */
    method LogTrial(key: RunKey, t: Trial) returns (ok: bool)
      modifies this
      ensures View() == Logged(old(View()), key, t) && ok == (t.spec in specs)
    {
      ok := t.spec in specs;
      if ok { trials := Add(trials, key, t); }
    }

    method CountFamily(family: string) returns (n: nat)
      ensures n == FamilyN(View(), family)
    {
      n := FamilyN(View(), family);
    }

    method CountSpec(spec: Spec) returns (n: nat)
      ensures n == SpecTrialCount(View(), spec)
    {
      n := SpecTrialCount(View(), spec);
    }

    /** consume_holdout: false when the spec's one holdout is already taken. */
    method ConsumeHoldout(spec: Spec, key: RunKey) returns (won: bool)
      modifies this
      ensures won == (spec !in old(holdouts)) && trials == old(trials)
      ensures holdouts == if won then old(holdouts)[spec := key] else old(holdouts)
    {
      won := spec !in holdouts;
      if won { holdouts := holdouts[spec := key]; }
    }
  }

  /** The validation loop of run_backtest. */
  method Validate(spec: Spec, ps: Settings) returns (bad: Option<Failure>)
    ensures bad == FirstBad(spec, ps)
  {
    for i := 0 to |ps|
      invariant FirstBad(spec, ps[i..]) == FirstBad(spec, ps)
    {
      var (p, v) := ps[i];
      assert ps[i..][1..] == ps[i + 1..];
      if p !in spec.ranges { return Some(UndeclaredParam(p)); }
      if !(spec.ranges[p].lo <= v <= spec.ranges[p].hi) { return Some(ParamOutOfRange(p)); }
    }
    assert ps[|ps|..] == [];
    bad := None;
  }

  method RunBacktest(lab: Lab, reg: TrialRegistry, c: Call) returns (out: Outcome)
    requires Framed(c.data)
    modifies reg
    ensures Step(reg.View(), out) == Backtested(lab, old(reg.View()), c)
  {
    hide DipBuyerStudy, KeyOf, Missing, Visible, Slice, FamilyStats, SettingsMap, FirstBad, CountIn;
    if c.spec.rule !in RULES { return Err(UnknownRule); }
    var bad := Validate(c.spec, c.ps);
    if bad.Some? { return Err(bad.value); }
    var key := KeyOf(lab, c, Plain);
    var cached := reg.Get(key);
    if cached.Some? { return Ok(cached.value, true); }
    var spent := reg.CountSpec(c.spec);
    if spent >= c.spec.budget {
      var ok := reg.LogTrial(key, Trial(c.spec, c.spec.family, RejectedBudget, false));
      return Err(if ok then BudgetExhausted else ForeignKey);
    }
    if Missing(c.data) { return Err(NanInClose); }
    if |Visible(lab, c.data, c.months)| < MIN_VISIBLE { return Err(InsufficientData); }
    var ps, visible := SettingsMap(c.ps), Slice(lab, c.data, c.months);
    var study := DipBuyerStudy(c.spec, ps, c.data.width, visible);
    if study.None? { return Err(ComputationRaised); }
    var n := reg.CountFamily(c.spec.family);
    var ratios := lab.grade(c.spec, ps, visible, study.value,
                            FamilyStats(reg.trials, |reg.trials.ids|, c.spec.family));
    if ratios.None? { return Err(ComputationRaised); }
    var stats := Measured(study.value, ratios.value, n + 1);
    var ok := reg.LogTrial(key, Trial(c.spec, c.spec.family, stats, false));
    out := if ok then Ok(stats, false) else Err(ForeignKey);
  }

  method EvaluateHoldout(lab: Lab, reg: TrialRegistry, c: Call) returns (out: Outcome)
    modifies reg
    ensures Step(reg.View(), out) == HoldoutEvaluated(lab, old(reg.View()), c, false)
  {
    var ratios := lab.holdout(c.spec, SettingsMap(c.ps), c.data);
    if ratios.None? { return Err(ComputationRaised); }
    var key := KeyOf(lab, c, Holdout);
    var ok := reg.LogTrial(key, Trial(c.spec, c.spec.family, HoldoutRun(ratios.value), true));
    if !ok { return Err(ForeignKey); }
    var won := reg.ConsumeHoldout(c.spec, key);
    out := if won then Ok(HoldoutRun(ratios.value), false) else Err(HoldoutConsumed);
  }
}
