/** Registry safety over any sequence of tool calls. */
module RegistryFacts {
  import opened Records
  import opened Engine
  import opened Registry
  import EngineFacts

  datatype Op = Backtest(c: Call) | EvaluateHoldoutOp(c: Call, dies: bool) | Register(spec: Spec)

  ghost predicate Callable(op: Op) {
    op.Backtest? ==> Framed(op.c.data)
  }

  ghost function Apply(lab: Lab, l: Log, op: Op): Step
    requires Callable(op)
  {
    match op
    case Backtest(c) => Backtested(lab, l, c)
    case EvaluateHoldoutOp(c, dies) => HoldoutEvaluated(lab, l, c, dies)
    case Register(spec) => Step(l.(specs := l.specs + {spec}), Err(Killed))
  }

  ghost predicate CallableAll(ops: seq<Op>) { forall i | 0 <= i < |ops| :: Callable(ops[i]) }

  /** The registry before the i-th call. */
  ghost function At(lab: Lab, l: Log, ops: seq<Op>, i: nat): Log
    requires CallableAll(ops) && i <= |ops|
  {
    if i == 0 then l else Apply(lab, At(lab, l, ops, i - 1), ops[i - 1]).log
  }

  ghost function OutcomeAt(lab: Lab, l: Log, ops: seq<Op>, i: nat): Outcome
    requires CallableAll(ops) && i < |ops|
  {
    Apply(lab, At(lab, l, ops, i), ops[i]).out
  }

  const Blank := Log(EmptyTable(), map[], {})

  // ---- counting ----

  lemma {:induction false} CountSnoc(t: Table<RunKey, Trial>, k: RunKey, v: Trial, n: nat, which: Trial -> bool)
    requires t.Valid() && k !in t.rows && n <= |t.ids|
    ensures CountIn(Add(t, k, v), n, which) == CountIn(t, n, which)
    ensures n == |t.ids| ==> CountIn(Add(t, k, v), n + 1, which) == CountIn(t, n, which) + if which(v) then 1 else 0
  {
    if n > 0 { CountSnoc(t, k, v, n - 1, which); }
  }

  lemma {:induction false} CountImplies(t: Table<RunKey, Trial>, n: nat, a: Trial -> bool, b: Trial -> bool)
    requires n <= |t.ids| && forall v :: a(v) ==> b(v)
    ensures CountIn(t, n, a) <= CountIn(t, n, b)
  {
    if n > 0 { CountImplies(t, n - 1, a, b); }
  }

  /** A backtest that ran: not a budget rejection, not a holdout. */
  predicate Ran(v: Trial, spec: Spec) { v.spec == spec && v.stats.Measured? && !v.isHoldout }

  function RunsOf(l: Log, spec: Spec): nat {
    CountIn(l.trials, |l.trials.ids|, (t: Trial) => Ran(t, spec))
  }

  // ---- the invariant ----

  ghost predicate RankOk(t: Table<RunKey, Trial>, i: nat)
    requires t.Valid() && i < |t.ids|
  {
    var v := t.rows[t.ids[i]];
    v.stats.Measured? ==> v.stats.nTrialsFamily == CountIn(t, i, (x: Trial) => x.family == v.family) + 1
  }

  ghost predicate Inv(l: Log) {
    && l.trials.Valid()
    && (forall i | 0 <= i < |l.trials.ids| :: RankOk(l.trials, i))
    && (forall k | k in l.trials.rows ::
          && k.spec == l.trials.rows[k].spec && l.trials.rows[k].spec in l.specs
          && l.trials.rows[k].family == k.spec.family
          && (l.trials.rows[k].isHoldout <==> k.variant == Holdout)
          && (l.trials.rows[k].isHoldout <==> l.trials.rows[k].stats.HoldoutRun?))
    && (forall s | s in l.holdouts :: l.holdouts[s] in l.trials.rows && l.holdouts[s].spec == s)
    && (forall s :: RunsOf(l, s) <= if s.budget < 0 then 0 else s.budget)
  }

  lemma RanksKept(t: Table<RunKey, Trial>, k: RunKey, v: Trial)
    requires t.Valid() && k !in t.rows
    requires forall i | 0 <= i < |t.ids| :: RankOk(t, i)
    requires v.stats.Measured? ==> v.stats.nTrialsFamily == CountIn(t, |t.ids|, (x: Trial) => x.family == v.family) + 1
    ensures Add(t, k, v).Valid()
    ensures forall i | 0 <= i < |Add(t, k, v).ids| :: RankOk(Add(t, k, v), i)
  {
    var t' := Add(t, k, v);
    AddKeepsValid(t, k, v);
    forall i | 0 <= i < |t'.ids| ensures RankOk(t', i) {
      var x := t'.rows[t'.ids[i]];
      CountSnoc(t, k, v, i, (y: Trial) => y.family == x.family);
      if i < |t.ids| { assert RankOk(t, i); }
    }
  }

  lemma RunsAfter(l: Log, k: RunKey, v: Trial, spec: Spec)
    requires l.trials.Valid() && k !in l.trials.rows && v.spec in l.specs
    ensures RunsOf(Logged(l, k, v), spec) == RunsOf(l, spec) + if Ran(v, spec) then 1 else 0
  {
    CountSnoc(l.trials, k, v, |l.trials.ids|, (t: Trial) => Ran(t, spec));
  }

  lemma RunsWithinCount(l: Log, spec: Spec)
    ensures RunsOf(l, spec) <= SpecTrialCount(l, spec)
  {
    CountImplies(l.trials, |l.trials.ids|, (t: Trial) => Ran(t, spec), (t: Trial) => t.spec == spec);
  }

  /** A new trial is lawful if its rank is right, its key says what it is, and
      a run is only added under budget. */
  lemma LogKeeps(l: Log, k: RunKey, v: Trial)
    requires Inv(l) && v.spec in l.specs
    requires k.spec == v.spec && v.family == v.spec.family
    requires v.isHoldout <==> k.variant == Holdout
    requires v.isHoldout <==> v.stats.HoldoutRun?
    requires v.stats.Measured? ==> v.stats.nTrialsFamily == FamilyN(l, v.family) + 1
    requires v.stats.Measured? ==> SpecTrialCount(l, v.spec) < v.spec.budget
    ensures Inv(Logged(l, k, v))
  {
    if k !in l.trials.rows {
      RanksKept(l.trials, k, v);
      forall s: Spec ensures RunsOf(Logged(l, k, v), s) <= if s.budget < 0 then 0 else s.budget {
        RunsAfter(l, k, v, s);
        RunsWithinCount(l, s);
      }
    }
  }

  lemma ApplyKeeps(lab: Lab, l: Log, op: Op)
    requires Inv(l) && Callable(op)
    ensures Inv(Apply(lab, l, op).log)
  {
    hide Inv, Visible, Missing, FirstBad, SettingsMap;
    match op
    case Register(spec) => RegisterKeeps(l, spec);
    case Backtest(c) =>
      var key, l' := KeyOf(lab, c, Plain), Apply(lab, l, op).log;
      if l' != l {
        if SpecTrialCount(l, c.spec) >= c.spec.budget {
          LogKeeps(l, key, Trial(c.spec, c.spec.family, RejectedBudget, false));
        } else {
          var stats := Measure(lab, l, c).value;
          LogKeeps(l, key, Trial(c.spec, c.spec.family, stats, false));
        }
      }
    case EvaluateHoldoutOp(c, dies) =>
      var ratios := lab.holdout(c.spec, SettingsMap(c.ps), c.data);
      if ratios.Some? && c.spec in l.specs {
        var key, v := KeyOf(lab, c, Holdout), Trial(c.spec, c.spec.family, HoldoutRun(ratios.value), true);
        LogKeeps(l, key, v);
        HoldoutKeeps(Logged(l, key, v), c.spec, key);
      }
  }

  lemma RegisterKeeps(l: Log, spec: Spec)
    requires Inv(l)
    ensures Inv(l.(specs := l.specs + {spec}))
  {
    var l' := l.(specs := l.specs + {spec});
    assert forall s :: RunsOf(l', s) == RunsOf(l, s);
  }

  lemma HoldoutKeeps(l: Log, spec: Spec, key: RunKey)
    requires Inv(l) && key in l.trials.rows && key.spec == spec
    ensures Inv(l.(holdouts := l.holdouts[spec := key]))
  {
    var l' := l.(holdouts := l.holdouts[spec := key]);
    assert forall s :: RunsOf(l', s) == RunsOf(l, s);
  }

  lemma BlankIsFine()
    ensures Inv(Blank)
  {
  }

  lemma {:induction false} InvAt(lab: Lab, ops: seq<Op>, i: nat)
    requires CallableAll(ops) && i <= |ops|
    ensures Inv(At(lab, Blank, ops, i))
  {
    hide Inv, Apply;
    if i == 0 {
      BlankIsFine();
    } else {
      InvAt(lab, ops, i - 1);
      ApplyKeeps(lab, At(lab, Blank, ops, i - 1), ops[i - 1]);
    }
  }

  // ---- the promises ----

  /** Over any calls, no spec ever runs more backtests than its budget. */
  lemma BudgetHolds(lab: Lab, ops: seq<Op>, i: nat, spec: Spec)
    requires CallableAll(ops) && i <= |ops|
    ensures RunsOf(At(lab, Blank, ops, i), spec) <= if spec.budget < 0 then 0 else spec.budget
  {
    hide At, RunsOf;
    InvAt(lab, ops, i);
  }

  /** Every logged run carries its own place in its family's log, counted over
      all seats and specs, rejections and holdouts included. */
  lemma TrialKnowsItsRank(lab: Lab, ops: seq<Op>, i: nat, place: nat)
    requires CallableAll(ops) && i <= |ops|
    requires place < |At(lab, Blank, ops, i).trials.ids|
    ensures var t := At(lab, Blank, ops, i).trials;
            && t.ids[place] in t.rows
            && var v := t.rows[t.ids[place]];
               v.stats.Measured? ==> v.stats.nTrialsFamily == CountIn(t, place, (x: Trial) => x.family == v.family) + 1
  {
    hide At;
    InvAt(lab, ops, i);
    assert RankOk(At(lab, Blank, ops, i).trials, place);
  }

  /** The log only grows, at the end: no call removes or rewrites a trial, and
      no consumed holdout is given back. */
  ghost predicate Grows(l: Log, l': Log) {
    && l.trials.ids <= l'.trials.ids
    && (forall k | k in l.trials.rows :: k in l'.trials.rows && l'.trials.rows[k] == l.trials.rows[k])
    && l.holdouts.Keys <= l'.holdouts.Keys
  }

  lemma ApplyGrows(lab: Lab, l: Log, op: Op)
    requires Callable(op)
    ensures Grows(l, Apply(lab, l, op).log)
  {
    hide Visible, Missing, FirstBad, SettingsMap, FamilyN, SpecTrialCount;
  }

  lemma {:induction false} GrowsBetween(lab: Lab, l: Log, ops: seq<Op>, i: nat, j: nat)
    requires CallableAll(ops) && i <= j <= |ops|
    ensures Grows(At(lab, l, ops, i), At(lab, l, ops, j))
    decreases j - i
  {
    hide Apply;
    if i < j {
      GrowsBetween(lab, l, ops, i, j - 1);
      ApplyGrows(lab, At(lab, l, ops, j - 1), ops[j - 1]);
    }
  }

  lemma {:induction false} CountGrows(t: Table<RunKey, Trial>, t': Table<RunKey, Trial>, n: nat, m: nat, which: Trial -> bool)
    requires t.ids <= t'.ids && n <= |t.ids| && n <= m <= |t'.ids|
    requires forall k | k in t.rows :: k in t'.rows && t'.rows[k] == t.rows[k]
    ensures CountIn(t, n, which) <= CountIn(t', m, which)
    decreases m
  {
    if n < m {
      CountGrows(t, t', n, m - 1, which);
    } else if n > 0 {
      assert t.ids[n - 1] == t'.ids[n - 1];
      CountGrows(t, t', n - 1, m - 1, which);
    }
  }

  /** N for the deflated Sharpe never goes down. */
  lemma FamilyNeverShrinks(lab: Lab, ops: seq<Op>, i: nat, j: nat, family: string)
    requires CallableAll(ops) && i <= j <= |ops|
    ensures FamilyN(At(lab, Blank, ops, i), family) <= FamilyN(At(lab, Blank, ops, j), family)
  {
    hide At;
    GrowsBetween(lab, Blank, ops, i, j);
    var a, b := At(lab, Blank, ops, i).trials, At(lab, Blank, ops, j).trials;
    CountGrows(a, b, |a.ids|, |b.ids|, (t: Trial) => t.family == family);
  }

  /** Repeating a logged run key changes nothing and answers with what was
      stored under it, whatever call logged it and whatever was called since. */
  lemma RepeatIsFree(lab: Lab, ops: seq<Op>, i: nat, j: nat)
    requires CallableAll(ops) && i <= j < |ops| && ops[j].Backtest? && Validated(ops[j].c)
    requires KeyOf(lab, ops[j].c, Plain) in At(lab, Blank, ops, i).trials.rows
    ensures At(lab, Blank, ops, j + 1) == At(lab, Blank, ops, j)
    ensures OutcomeAt(lab, Blank, ops, j)
            == Ok(At(lab, Blank, ops, i).trials.rows[KeyOf(lab, ops[j].c, Plain)].stats, true)
  {
    hide At, Visible, Missing, FirstBad, FamilyN, SpecTrialCount, Measure;
    AtStep(lab, ops, j);
    GrowsBetween(lab, Blank, ops, i, j);
  }

  /** The call ran to a result or was refused for budget: either is logged. */
  predicate Logs(out: Outcome) { out.Ok? || out == Err(BudgetExhausted) }

  function Stored(out: Outcome): Stats
    requires Logs(out)
  {
    if out.Ok? then out.stats else RejectedBudget
  }

  lemma LoggedUnderKey(lab: Lab, ops: seq<Op>, i: nat)
    requires CallableAll(ops) && i < |ops| && ops[i].Backtest? && Logs(OutcomeAt(lab, Blank, ops, i))
    ensures var key, t := KeyOf(lab, ops[i].c, Plain), At(lab, Blank, ops, i + 1).trials;
            key in t.rows && t.rows[key].stats == Stored(OutcomeAt(lab, Blank, ops, i))
  {
    BadIsNoBudget(ops[i].c.spec, ops[i].c.ps);
    hide At, Visible, Missing, FirstBad, FamilyN, SpecTrialCount, Measure;
    AtStep(lab, ops, i);
  }

  /** Two calls with one key get one answer. */
  lemma SameKeySameAnswer(lab: Lab, ops: seq<Op>, i: nat, j: nat)
    requires CallableAll(ops) && i < j < |ops| && ops[i].Backtest? && ops[j].Backtest?
    requires Logs(OutcomeAt(lab, Blank, ops, i)) && Validated(ops[j].c)
    requires KeyOf(lab, ops[i].c, Plain) == KeyOf(lab, ops[j].c, Plain)
    ensures At(lab, Blank, ops, j + 1) == At(lab, Blank, ops, j)
    ensures OutcomeAt(lab, Blank, ops, j) == Ok(Stored(OutcomeAt(lab, Blank, ops, i)), true)
  {
    hide At, Validated, KeyOf;
    LoggedUnderKey(lab, ops, i);
    RepeatIsFree(lab, ops, i + 1, j);
  }

  /** The quarantine's length is not part of a run's identity: the same call
      with any other holdout_months answers with the first call's statistics. */
  lemma MonthsShareAKey(lab: Lab, ops: seq<Op>, i: nat, j: nat, months: int)
    requires CallableAll(ops) && i < j < |ops| && ops[i].Backtest?
    requires ops[j] == Backtest(ops[i].c.(months := months))
    requires Logs(OutcomeAt(lab, Blank, ops, i))
    ensures OutcomeAt(lab, Blank, ops, j) == Ok(Stored(OutcomeAt(lab, Blank, ops, i)), true)
  {
    LogsOnlyValidated(lab, ops, i);
    hide At, Validated;
    SameKeySameAnswer(lab, ops, i, j);
  }

  lemma LogsOnlyValidated(lab: Lab, ops: seq<Op>, i: nat)
    requires CallableAll(ops) && i < |ops| && ops[i].Backtest? && Logs(OutcomeAt(lab, Blank, ops, i))
    ensures Validated(ops[i].c)
  {
    hide At, Visible, Missing, FamilyN, SpecTrialCount, Measure;
    BadIsNoBudget(ops[i].c.spec, ops[i].c.ps);
  }

  lemma {:induction false} BadIsNoBudget(spec: Spec, ps: Settings)
    ensures FirstBad(spec, ps) != Some(BudgetExhausted)
  {
    if ps != [] { BadIsNoBudget(spec, ps[1..]); }
  }

  /** Where a stored backtest comes from: an earlier valid call with its key that
      was not answered from the log. */
  ghost predicate LoggedBy(lab: Lab, ops: seq<Op>, h: nat, key: RunKey, stats: Stats)
    requires CallableAll(ops) && h < |ops|
  {
    && ops[h].Backtest? && KeyOf(lab, ops[h].c, Plain) == key
    && var out := OutcomeAt(lab, Blank, ops, h);
       out == Ok(stats, false) || (out == Err(BudgetExhausted) && stats == RejectedBudget)
  }

  lemma {:induction false} StoredByACall(lab: Lab, ops: seq<Op>, i: nat, key: RunKey)
    requires CallableAll(ops) && i <= |ops|
    requires key in At(lab, Blank, ops, i).trials.rows && key.variant == Plain
    ensures exists h :: 0 <= h < i && LoggedBy(lab, ops, h, key, At(lab, Blank, ops, i).trials.rows[key].stats)
  {
    if i > 0 {
      var before := At(lab, Blank, ops, i - 1);
      ApplyGrows(lab, before, ops[i - 1]);
      AtStep(lab, ops, i - 1);
      if key in before.trials.rows {
        StoredByACall(lab, ops, i - 1, key);
        var h :| 0 <= h < i - 1 && LoggedBy(lab, ops, h, key, before.trials.rows[key].stats);
      } else {
        NewKey(lab, ops, i - 1, key);
      }
    }
  }

  lemma NewKey(lab: Lab, ops: seq<Op>, h: nat, key: RunKey)
    requires CallableAll(ops) && h < |ops| && key.variant == Plain
    requires key !in At(lab, Blank, ops, h).trials.rows
    requires key in Apply(lab, At(lab, Blank, ops, h), ops[h]).log.trials.rows
    ensures LoggedBy(lab, ops, h, key, Apply(lab, At(lab, Blank, ops, h), ops[h]).log.trials.rows[key].stats)
  {
    hide At, Visible, Missing, FirstBad, FamilyN, SpecTrialCount, Measure;
  }

  lemma FreshIsMeasured(lab: Lab, l: Log, c: Call, stats: Stats)
    requires Framed(c.data) && Backtested(lab, l, c).out == Ok(stats, false)
    ensures stats.Measured?
  {
    hide Visible, Missing, FirstBad, FamilyN, SpecTrialCount, SettingsMap, Slice;
  }

  /** The earlier results a study is graded against: one for each trial of the
      family, rejections and holdouts included. */
  lemma {:induction false} FamilyStatsListed(t: Table<RunKey, Trial>, n: nat, family: string)
    requires n <= |t.ids|
    ensures |FamilyStats(t, n, family)| == CountIn(t, n, (v: Trial) => v.family == family)
    ensures forall s :: s in FamilyStats(t, n, family) <==>
              exists i :: 0 <= i < n && t.ids[i] in t.rows && t.rows[t.ids[i]].family == family && t.rows[t.ids[i]].stats == s
  {
    if n > 0 { FamilyStatsListed(t, n - 1, family); }
  }

  /** The cutoff is counted back from the latest date. */
  lemma {:induction false} LastDateIsLatest(dates: seq<int>)
    requires dates != []
    ensures LastDate(dates) in dates && forall i | 0 <= i < |dates| :: dates[i] <= LastDate(dates)
  {
    if |dates| > 1 { LastDateIsLatest(dates[1..]); }
  }

  /** A fractional window is cut toward zero. */
  lemma TruncateIsTowardZero(x: real)
    ensures if x >= 0.0 then Truncate(x) as real <= x < Truncate(x) as real + 1.0
            else Truncate(x) as real - 1.0 < x <= Truncate(x) as real
  {
  }

  /** The trials logged under a spec, rejections and holdouts included. */
  ghost function TrialsOf(l: Log, spec: Spec): set<RunKey> {
    set k | k in l.trials.rows && l.trials.rows[k].spec == spec
  }

  ghost function KeysUpTo(t: Table<RunKey, Trial>, n: nat, which: Trial -> bool): set<RunKey>
    requires t.Valid() && n <= |t.ids|
  {
    set k | k in t.ids[..n] && which(t.rows[k])
  }

  lemma OneKeyMore(t: Table<RunKey, Trial>, n: nat, which: Trial -> bool)
    requires t.Valid() && 0 < n <= |t.ids|
    ensures |KeysUpTo(t, n, which)| == |KeysUpTo(t, n - 1, which)| + if which(t.rows[t.ids[n - 1]]) then 1 else 0
  {
    var front, last := t.ids[..n - 1], t.ids[n - 1];
    assert t.ids[..n] == front + [last];
    assert last !in front;
    assert KeysUpTo(t, n, which) == KeysUpTo(t, n - 1, which) + if which(t.rows[last]) then {last} else {};
  }

  lemma NoKeys(t: Table<RunKey, Trial>, which: Trial -> bool)
    requires t.Valid()
    ensures KeysUpTo(t, 0, which) == {}
  {
  }

  lemma {:induction false} CountIsCard(t: Table<RunKey, Trial>, n: nat, which: Trial -> bool)
    requires t.Valid() && n <= |t.ids|
    ensures CountIn(t, n, which) == |KeysUpTo(t, n, which)|
  {
    hide KeysUpTo;
    if n > 0 {
      CountIsCard(t, n - 1, which);
      OneKeyMore(t, n, which);
    } else {
      NoKeys(t, which);
    }
  }

  lemma SpecCountIsCard(l: Log, spec: Spec)
    requires l.trials.Valid()
    ensures SpecTrialCount(l, spec) == |TrialsOf(l, spec)|
  {
    var t, which := l.trials, (x: Trial) => x.spec == spec;
    CountIsCard(t, |t.ids|, which);
    assert t.ids[..|t.ids|] == t.ids;
    assert KeysUpTo(t, |t.ids|, which) == TrialsOf(l, spec);
  }

  /** Over any calls: a valid call under a run key not yet logged is refused for
      budget exactly when at least search_budget trials of its registered spec
      are in the log. */
  lemma RefusedIff(lab: Lab, ops: seq<Op>, j: nat)
    requires CallableAll(ops) && j < |ops| && ops[j].Backtest?
    ensures var l, c := At(lab, Blank, ops, j), ops[j].c;
            OutcomeAt(lab, Blank, ops, j) == Err(BudgetExhausted) <==>
              && Validated(c) && KeyOf(lab, c, Plain) !in l.trials.rows
              && c.spec in l.specs && |TrialsOf(l, c.spec)| >= c.spec.budget
  {
    hide At, Visible, Missing, Measure, SpecTrialCount, TrialsOf, KeyOf, Logged;
    var l, c := At(lab, Blank, ops, j), ops[j].c;
    InvAt(lab, ops, j);
    SpecCountIsCard(l, c.spec);
    BadIsNoBudget(c.spec, c.ps);
    assert OutcomeAt(lab, Blank, ops, j) == Backtested(lab, l, c).out;
  }

  /** The h-th call had this run key and was refused for budget. */
  ghost predicate RefusedUnder(lab: Lab, ops: seq<Op>, h: nat, key: RunKey)
    requires CallableAll(ops) && h < |ops|
  {
    && ops[h].Backtest? && KeyOf(lab, ops[h].c, Plain) == key
    && OutcomeAt(lab, Blank, ops, h) == Err(BudgetExhausted)
  }

  /** A backtest answers normally with a budget rejection in place of statistics
      exactly when an earlier call with its run key was refused for budget: the
      refusal is raised once, and comes back as a result ever after. */
  lemma RejectionComesBackAsAResult(lab: Lab, ops: seq<Op>, j: nat)
    requires CallableAll(ops) && j < |ops| && ops[j].Backtest?
    ensures OutcomeAt(lab, Blank, ops, j) == Ok(RejectedBudget, true) <==>
              Validated(ops[j].c) && exists h :: 0 <= h < j && RefusedUnder(lab, ops, h, KeyOf(lab, ops[j].c, Plain))
  {
    hide At, KeyOf;
    if h :| 0 <= h < j && Validated(ops[j].c) && RefusedUnder(lab, ops, h, KeyOf(lab, ops[j].c, Plain)) {
      SameKeySameAnswer(lab, ops, h, j);
    }
    if OutcomeAt(lab, Blank, ops, j) == Ok(RejectedBudget, true) {
      var key := KeyOf(lab, ops[j].c, Plain);
      CachedAnswer(lab, ops, j);
      StoredByACall(lab, ops, j, key);
      var h :| 0 <= h < j && LoggedBy(lab, ops, h, key, RejectedBudget);
      if OutcomeAt(lab, Blank, ops, h) == Ok(RejectedBudget, false) {
        FreshIsMeasured(lab, At(lab, Blank, ops, h), ops[h].c, RejectedBudget);
      }
      assert RefusedUnder(lab, ops, h, key);
    }
  }

  lemma CachedAnswer(lab: Lab, ops: seq<Op>, j: nat)
    requires CallableAll(ops) && j < |ops| && ops[j].Backtest?
    requires OutcomeAt(lab, Blank, ops, j).Ok? && OutcomeAt(lab, Blank, ops, j).cached
    ensures Validated(ops[j].c)
    ensures var key, t := KeyOf(lab, ops[j].c, Plain), At(lab, Blank, ops, j).trials;
            && key.variant == Plain && key in t.rows
            && t.rows[key].stats == OutcomeAt(lab, Blank, ops, j).stats
  {
    hide At, Visible, Missing, FamilyN, SpecTrialCount, Measure;
  }

  lemma AtStep(lab: Lab, ops: seq<Op>, i: nat)
    requires CallableAll(ops) && i < |ops|
    ensures At(lab, Blank, ops, i + 1) == Apply(lab, At(lab, Blank, ops, i), ops[i]).log
  {
  }

  /** A spec's holdout answers at most once, whatever the parameters, the data
      and the crashes; any later attempt on it is refused. */
  lemma HoldoutAnswersOnce(lab: Lab, ops: seq<Op>, i: nat, j: nat)
    requires CallableAll(ops) && i < j < |ops|
    requires ops[i].EvaluateHoldoutOp? && ops[j].EvaluateHoldoutOp? && ops[i].c.spec == ops[j].c.spec
    requires OutcomeAt(lab, Blank, ops, i).Ok?
    ensures OutcomeAt(lab, Blank, ops, j).Err?
  {
    hide At, SettingsMap;
    AtStep(lab, ops, i);
    assert ops[i].c.spec in At(lab, Blank, ops, i + 1).holdouts;
    GrowsBetween(lab, Blank, ops, i + 1, j);
  }

  /** An earlier holdout call on this spec answered. */
  ghost predicate AnsweredBefore(lab: Lab, ops: seq<Op>, j: nat, spec: Spec)
    requires CallableAll(ops) && j <= |ops|
  {
    exists i :: 0 <= i < j && ops[i].EvaluateHoldoutOp? && ops[i].c.spec == spec && OutcomeAt(lab, Blank, ops, i).Ok?
  }

  lemma {:induction false} HoldoutTakenIff(lab: Lab, ops: seq<Op>, j: nat, spec: Spec)
    requires CallableAll(ops) && j <= |ops|
    ensures spec in At(lab, Blank, ops, j).holdouts <==> AnsweredBefore(lab, ops, j, spec)
  {
    hide At, SettingsMap, Visible, Missing, Measure, FirstBad, SpecTrialCount;
    if j == 0 {
      AtFirst(lab, ops);
    } else {
      HoldoutTakenIff(lab, ops, j - 1, spec);
      AtStep(lab, ops, j - 1);
      if AnsweredBefore(lab, ops, j - 1, spec) {
        var i :| 0 <= i < j - 1 && ops[i].EvaluateHoldoutOp? && ops[i].c.spec == spec && OutcomeAt(lab, Blank, ops, i).Ok?;
        assert AnsweredBefore(lab, ops, j, spec);
      }
      hide AnsweredBefore;
      TakenStep(lab, ops, j, spec);
    }
  }

  lemma AtFirst(lab: Lab, ops: seq<Op>)
    requires CallableAll(ops)
    ensures At(lab, Blank, ops, 0) == Blank
  {
  }

  lemma TakenStep(lab: Lab, ops: seq<Op>, j: nat, spec: Spec)
    requires CallableAll(ops) && 0 < j <= |ops|
    ensures spec in Apply(lab, At(lab, Blank, ops, j - 1), ops[j - 1]).log.holdouts <==>
              || spec in At(lab, Blank, ops, j - 1).holdouts
              || (ops[j - 1].EvaluateHoldoutOp? && ops[j - 1].c.spec == spec && OutcomeAt(lab, Blank, ops, j - 1).Ok?)
    ensures AnsweredBefore(lab, ops, j, spec) <==>
              || AnsweredBefore(lab, ops, j - 1, spec)
              || (ops[j - 1].EvaluateHoldoutOp? && ops[j - 1].c.spec == spec && OutcomeAt(lab, Blank, ops, j - 1).Ok?)
  {
    hide At, SettingsMap, Visible, Missing, Measure, FirstBad, SpecTrialCount;
  }

  /** Over any calls: a holdout evaluation answers exactly when its spec is
      registered, the evaluation computes, nothing kills it between its commits,
      and no earlier one on that spec answered. */
  lemma HoldoutAnswersIff(lab: Lab, ops: seq<Op>, j: nat)
    requires CallableAll(ops) && j < |ops| && ops[j].EvaluateHoldoutOp?
    ensures var op := ops[j];
            OutcomeAt(lab, Blank, ops, j).Ok? <==>
              && op.c.spec in At(lab, Blank, ops, j).specs
              && lab.holdout(op.c.spec, SettingsMap(op.c.ps), op.c.data).Some?
              && !op.dies && !AnsweredBefore(lab, ops, j, op.c.spec)
  {
    hide At, SettingsMap, AnsweredBefore;
    HoldoutTakenIff(lab, ops, j, ops[j].c.spec);
  }

  /** ... and a backtest is answered afresh exactly when it is valid and its run
      key new, its registered spec is under budget, the history has no hole and
      is long enough up to the cutoff, and study and statistics compute. */
  lemma FreshAnswerIff(lab: Lab, ops: seq<Op>, j: nat)
    requires CallableAll(ops) && j < |ops| && ops[j].Backtest?
    ensures var l, c := At(lab, Blank, ops, j), ops[j].c;
            (OutcomeAt(lab, Blank, ops, j).Ok? && !OutcomeAt(lab, Blank, ops, j).cached) <==>
              && Validated(c) && KeyOf(lab, c, Plain) !in l.trials.rows
              && c.spec in l.specs && |TrialsOf(l, c.spec)| < c.spec.budget
              && !Missing(c.data) && |Visible(lab, c.data, c.months)| >= 504
              && Measure(lab, l, c).Some?
  {
    hide At, Visible, Missing, Measure, SpecTrialCount, TrialsOf, KeyOf, Logged;
    var l, c := At(lab, Blank, ops, j), ops[j].c;
    InvAt(lab, ops, j);
    SpecCountIsCard(l, c.spec);
    assert OutcomeAt(lab, Blank, ops, j) == Backtested(lab, l, c).out;
  }

  /** A study computes exactly when the liquidity bucket is known and the
      parameters are there, neither window negative. */
  lemma StudyComputesIff(spec: Spec, ps: map<string, real>, n: nat, visible: Frame<Price>)
    requires Wide(visible, n)
    ensures DipBuyerStudy(spec, ps, n, visible).Some? <==>
              && spec.bucket in {"mega_large", "mid", "small", "micro"}
              && "dip_days" in ps && "dip_pct" in ps && "trend_days" in ps
              && ps["dip_days"] > -1.0 && ps["trend_days"] > -1.0
  {
    if "dip_days" in ps { TruncateIsTowardZero(ps["dip_days"]); }
    if "trend_days" in ps { TruncateIsTowardZero(ps["trend_days"]); }
  }

  /** What parameters get past validation, in any order. */
  lemma {:induction false} ValidatedIff(spec: Spec, ps: Settings)
    ensures FirstBad(spec, ps).None? <==>
            forall i | 0 <= i < |ps| :: ps[i].0 in spec.ranges
              && spec.ranges[ps[i].0].lo <= ps[i].1 <= spec.ranges[ps[i].0].hi
  {
    if ps != [] {
      ValidatedIff(spec, ps[1..]);
      assert forall i | 0 <= i < |ps| - 1 :: ps[1..][i] == ps[i + 1];
      assert ps[0] == ps[0];
      if FirstBad(spec, ps).None? {
        forall i | 0 <= i < |ps|
          ensures ps[i].0 in spec.ranges && spec.ranges[ps[i].0].lo <= ps[i].1 <= spec.ranges[ps[i].0].hi
        {
          if i > 0 { assert ps[i] == ps[1..][i - 1]; }
        }
      }
    }
  }

  lemma LadderAt(close: Frame<Price>, s: Signals, n: nat, floor: real, t: nat)
    requires Wide(close, n) && Shaped(s, |close|, n) && t < |close| && floor >= 0.0
    ensures Net(close, s, n, floor * 3.0, t) <= Net(close, s, n, floor * 2.0, t) <= Net(close, s, n, floor * 1.0, t)
    ensures Net(close, s, n, floor * 1.0, t) - Net(close, s, n, floor * 2.0, t)
            == Net(close, s, n, floor * 2.0, t) - Net(close, s, n, floor * 3.0, t)
  {
    EngineFacts.StressIsLinear(close, s, n, floor, 1.0, t);
    EngineFacts.StressIsLinear(close, s, n, floor, 2.0, t);
    EngineFacts.StressIsLinear(close, s, n, floor, 3.0, t);
    EngineFacts.CostNonNegative(s, n, floor, t);
    hide Net, Cost;
  }

  /** The stressed runs of one study sit below the base run bar by bar, equally
      spaced: each extra multiple costs the same again, and never earns. */
  lemma StressLadder(spec: Spec, ps: map<string, real>, n: nat, visible: Frame<Price>, t: nat)
    requires Wide(visible, n) && DipBuyerStudy(spec, ps, n, visible).Some? && t < |visible|
    ensures var r := DipBuyerStudy(spec, ps, n, visible).value;
            && |r.net| == |r.net2x| == |r.net3x| == |visible|
            && r.net3x[t] <= r.net2x[t] <= r.net[t]
            && r.net[t] - r.net2x[t] == r.net2x[t] - r.net3x[t]
  {
    hide Net, Trades, Truncate, Shaped;
    var dip := Engine.Params(Truncate(ps["dip_days"]), ps["dip_pct"], Truncate(ps["trend_days"]));
    var s := DipBuyer(visible, n, dip).v;
    hide DipBuyer;
    LadderAt(visible, s, n, COST_FLOORS_BPS[spec.bucket], t);
  }

  // ---- the quarantine ----

  lemma {:induction false} SameVisible(dates: seq<int>, rows: Frame<Option<Price>>, rows': Frame<Option<Price>>, cutoff: int)
    requires |dates| == |rows| == |rows'|
    requires forall t | 0 <= t < |dates| && dates[t] <= cutoff :: rows[t] == rows'[t]
    ensures RowsUpTo(dates, rows, cutoff) == RowsUpTo(dates, rows', cutoff)
  {
    if dates != [] { SameVisible(dates[1..], rows[1..], rows'[1..], cutoff); }
  }

  lemma SameSlice(lab: Lab, c: Call, c': Call)
    requires Framed(c.data) && Framed(c'.data) && c.months == c'.months
    requires c.data.width == c'.data.width && c.data.dates == c'.data.dates != []
    requires var cutoff := lab.monthsBefore(LastDate(c.data.dates), c.months);
             forall t | 0 <= t < |c.data.dates| && c.data.dates[t] <= cutoff :: c.data.rows[t] == c'.data.rows[t]
    ensures Visible(lab, c.data, c.months) == Visible(lab, c'.data, c'.months)
    ensures Slice(lab, c.data, c.months) == Slice(lab, c'.data, c'.months)
  {
    hide LastDate;
    SameVisible(c.data.dates, c.data.rows, c'.data.rows, lab.monthsBefore(LastDate(c.data.dates), c.months));
  }

  /** What a first run reports and logs does not depend on any price after the
      cutoff: two histories over the same dates that agree up to it give the
      same trades, the same net returns at every multiple, the same ratios and
      the same rank, whatever their digests. */
  lemma BlindAfterCutoff(lab: Lab, l: Log, c: Call, c': Call)
    requires c.spec == c'.spec && c.ps == c'.ps && c.months == c'.months
    requires Framed(c.data) && Framed(c'.data)
    requires c.data.width == c'.data.width && c.data.dates == c'.data.dates != []
    requires var cutoff := lab.monthsBefore(LastDate(c.data.dates), c.months);
             forall t | 0 <= t < |c.data.dates| && c.data.dates[t] <= cutoff :: c.data.rows[t] == c'.data.rows[t]
    requires !Missing(c.data) && !Missing(c'.data)
    requires KeyOf(lab, c, Plain) !in l.trials.rows && KeyOf(lab, c', Plain) !in l.trials.rows
    ensures Backtested(lab, l, c).out == Backtested(lab, l, c').out
  {
    SameSlice(lab, c, c');
    hide Missing, LastDate, FirstBad, SettingsMap, FamilyN, SpecTrialCount, Visible, Slice, FamilyStats;
  }

  // ---- the stored study is the engine's own run, stopped at the cutoff ----

  ghost predicate Ascending(dates: seq<int>) { forall i, j | 0 <= i < j < |dates| :: dates[i] < dates[j] }

  /** How many dates are at or before the cutoff. */
  function Before(dates: seq<int>, cutoff: int): (n: nat)
    ensures n <= |dates|
  {
    if dates == [] || dates[0] > cutoff then 0 else 1 + Before(dates[1..], cutoff)
  }

  lemma {:induction false} VisibleIsPrefix(dates: seq<int>, rows: Frame<Option<Price>>, cutoff: int)
    requires |dates| == |rows| && Ascending(dates)
    ensures RowsUpTo(dates, rows, cutoff) == rows[..Before(dates, cutoff)]
    ensures forall t | 0 <= t < |dates| :: t < Before(dates, cutoff) <==> dates[t] <= cutoff
  {
    if dates != [] {
      VisibleIsPrefix(dates[1..], rows[1..], cutoff);
      if dates[0] <= cutoff {
        var n := Before(dates[1..], cutoff);
        assert rows[..n + 1] == [rows[0]] + rows[1..][..n];
        forall t | 0 <= t < |dates| ensures t < n + 1 <==> dates[t] <= cutoff {
          if t > 0 { assert dates[t] == dates[1..][t - 1]; }
        }
      } else {
        NothingVisible(dates, rows, cutoff);
      }
    }
  }

  lemma {:induction false} NothingVisible(dates: seq<int>, rows: Frame<Option<Price>>, cutoff: int)
    requires |dates| == |rows| && forall t | 0 <= t < |dates| :: dates[t] > cutoff
    ensures RowsUpTo(dates, rows, cutoff) == []
  {
    if dates != [] { NothingVisible(dates[1..], rows[1..], cutoff); }
  }

  /** The whole history as prices. */
  function History(d: Data): (r: Frame<Price>)
    requires Framed(d)
    ensures Wide(r, d.width) && |r| == |d.rows|
  {
    CleanAll(d.rows)
  }

  lemma SliceIsPrefix(lab: Lab, c: Call)
    requires Framed(c.data) && c.data.dates != [] && Ascending(c.data.dates)
    ensures var n := Before(c.data.dates, lab.monthsBefore(LastDate(c.data.dates), c.months));
            Slice(lab, c.data, c.months) == History(c.data)[..n]
  {
    hide LastDate;
    var cutoff := lab.monthsBefore(LastDate(c.data.dates), c.months);
    VisibleIsPrefix(c.data.dates, c.data.rows, cutoff);
    var n := Before(c.data.dates, cutoff);
    assert CleanAll(c.data.rows[..n]) == CleanAll(c.data.rows)[..n];
  }

  /** A study is the run of the spec's rule and costs over the whole history,
      stopped after n bars: net returns at each multiple, and the trades
      executed by then. */
  ghost predicate Stopped(study: Study, spec: Spec, ps: map<string, real>, width: nat, full: Frame<Price>, n: nat)
    requires Wide(full, width)
  {
    && "dip_days" in ps && "dip_pct" in ps && "trend_days" in ps && spec.bucket in COST_FLOORS_BPS
    && var dip := Engine.Params(Truncate(ps["dip_days"]), ps["dip_pct"], Truncate(ps["trend_days"]));
       var floor := COST_FLOORS_BPS[spec.bucket];
       && dip.dipDays >= 0 && dip.trendDays >= 0
       && 0 < n <= |full|
       && var s := DipBuyer(full, width, dip).v;
          && study.net == NetFrom(full, s, width, floor * 1.0)[..n]
          && study.net2x == NetFrom(full, s, width, floor * 2.0)[..n]
          && study.net3x == NetFrom(full, s, width, floor * 3.0)[..n]
          && study.nTrades == RisesIn(s, width, width, n - 1)
  }

  /** What a first run logs is the full-history run of the same rule and costs,
      stopped at the cutoff. */
  lemma StudyIsFullRunStopped(lab: Lab, l: Log, c: Call, stats: Stats)
    requires Framed(c.data) && c.data.dates != [] && Ascending(c.data.dates)
    requires Backtested(lab, l, c).out == Ok(stats, false)
    ensures stats.Measured?
    ensures Stopped(stats.study, c.spec, SettingsMap(c.ps), c.data.width, History(c.data),
                    Before(c.data.dates, lab.monthsBefore(LastDate(c.data.dates), c.months)))
  {
    var visible := Slice(lab, c.data, c.months);
    MeasuredStudy(lab, l, c, stats);
    SliceIsPrefix(lab, c);
    hide Backtested, Slice, LastDate, Before, SettingsMap, History, Measure, Stopped, DipBuyerStudy;
    var n := Before(c.data.dates, lab.monthsBefore(LastDate(c.data.dates), c.months));
    assert |visible| == n;
    StoppedStudy(c.spec, SettingsMap(c.ps), c.data.width, History(c.data), n, stats.study);
  }

  lemma MeasuredStudy(lab: Lab, l: Log, c: Call, stats: Stats)
    requires Framed(c.data) && Backtested(lab, l, c).out == Ok(stats, false)
    ensures stats.Measured? && |Slice(lab, c.data, c.months)| >= MIN_VISIBLE
    ensures DipBuyerStudy(c.spec, SettingsMap(c.ps), c.data.width, Slice(lab, c.data, c.months)) == Some(stats.study)
  {
    hide Missing, FirstBad, FamilyN, SpecTrialCount, SettingsMap, Slice, Visible, DipBuyerStudy, FamilyStats;
  }

  /** What a computed study consists of. */
  lemma StudyParts(spec: Spec, ps: map<string, real>, width: nat, close: Frame<Price>, study: Study)
    requires Wide(close, width) && DipBuyerStudy(spec, ps, width, close) == Some(study)
    ensures "dip_days" in ps && "dip_pct" in ps && "trend_days" in ps && spec.bucket in COST_FLOORS_BPS
    ensures var dip := Engine.Params(Truncate(ps["dip_days"]), ps["dip_pct"], Truncate(ps["trend_days"]));
            var floor := COST_FLOORS_BPS[spec.bucket];
            && dip.dipDays >= 0 && dip.trendDays >= 0
            && var s := DipBuyer(close, width, dip).v;
               study == Study(Trades(s, width), NetFrom(close, s, width, floor * 1.0),
                              NetFrom(close, s, width, floor * 2.0), NetFrom(close, s, width, floor * 3.0))
  {
    hide NetFrom, Trades, RisesIn, Truncate;
  }

  lemma StoppedStudy(spec: Spec, ps: map<string, real>, width: nat, full: Frame<Price>, n: nat, study: Study)
    requires Wide(full, width) && 0 < n <= |full| && Wide(full[..n], width)
    requires DipBuyerStudy(spec, ps, width, full[..n]) == Some(study)
    ensures Stopped(study, spec, ps, width, full, n)
  {
    hide NetFrom, Trades, RisesIn, Truncate, COST_FLOORS_BPS, DipBuyer, DipBuyerStudy;
    StudyParts(spec, ps, width, full[..n], study);
    var dip := Engine.Params(Truncate(ps["dip_days"]), ps["dip_pct"], Truncate(ps["trend_days"]));
    var floor := COST_FLOORS_BPS[spec.bucket];
    EngineFacts.PrefixRun(full, width, dip, floor * 1.0, n);
    EngineFacts.PrefixRun(full, width, dip, floor * 2.0, n);
    EngineFacts.PrefixRun(full, width, dip, floor * 3.0, n);
    EngineFacts.PrefixTrades(full, width, dip, n);
  }

  /** Hence changing the prices after the cutoff changes neither run before it:
      the two full-history runs agree, as far as the cutoff, with the one stored
      study. */
  lemma FullRunsAgreeUpToCutoff(lab: Lab, l: Log, c: Call, c': Call, stats: Stats)
    requires c.spec == c'.spec && c.ps == c'.ps && c.months == c'.months
    requires Framed(c.data) && Framed(c'.data) && Ascending(c.data.dates)
    requires c.data.width == c'.data.width && c.data.dates == c'.data.dates != []
    requires var cutoff := lab.monthsBefore(LastDate(c.data.dates), c.months);
             forall t | 0 <= t < |c.data.dates| && c.data.dates[t] <= cutoff :: c.data.rows[t] == c'.data.rows[t]
    requires !Missing(c.data) && !Missing(c'.data)
    requires KeyOf(lab, c, Plain) !in l.trials.rows && KeyOf(lab, c', Plain) !in l.trials.rows
    requires Backtested(lab, l, c).out == Ok(stats, false)
    ensures stats.Measured?
    ensures forall d | d in [c.data, c'.data] ::
              Framed(d) && Stopped(stats.study, c.spec, SettingsMap(c.ps), c.data.width, History(d),
                                   Before(d.dates, lab.monthsBefore(LastDate(d.dates), c.months)))
  {
    hide Stopped, Backtested, LastDate, Before, History, SettingsMap, Missing;
    BlindAfterCutoff(lab, l, c, c');
    StudyIsFullRunStopped(lab, l, c, stats);
    StudyIsFullRunStopped(lab, l, c', stats);
  }
}
