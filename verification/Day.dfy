/** A trading day as seven checkpointed stages, re-fired after any crash. */
module Day {

  datatype Stage = PreGate | Research | Decision | Gate | Execution | Reconciliation | Close

  const ORDER := [PreGate, Research, Decision, Gate, Execution, Reconciliation, Close]

  datatype Status = Pending | Running | Done

  /** The day's checkpoint rows, and the history of stage bodies entered. */
  datatype Log = Log(points: map<Stage, Status>, starts: seq<Stage>)

  const Morning := Log(map[], [])

  /** What run_stage does to the checkpoints: each a commit of its own, save
      Enter, the moment the body starts. */
  datatype Step = Open(s: Stage) | Claim(s: Stage) | Enter(s: Stage) | Finish(s: Stage)

  function Rank(s: Stage): nat {
    match s
    case PreGate => 0 case Research => 1 case Decision => 2 case Gate => 3
    case Execution => 4 case Reconciliation => 5 case Close => 6
  }

  predicate Earlier(t: Stage, s: Stage) { Rank(t) < Rank(s) }

  lemma RankIsPlace(s: Stage)
    ensures Rank(s) < 7 && ORDER[Rank(s)] == s
  {
  }

  predicate At(l: Log, s: Stage, status: Status) { s in l.points && l.points[s] == status }

  /** INSERT OR IGNORE, the two compare-and-swaps, and the body. */
  function Do(l: Log, step: Step): Log {
    match step
    case Open(s) => if s in l.points then l else l.(points := l.points[s := Pending])
    case Claim(s) => if At(l, s, Pending) then l.(points := l.points[s := Running]) else l
    case Enter(s) => l.(starts := l.starts + [s])
    case Finish(s) => if At(l, s, Running) then l.(points := l.points[s := Done]) else l
  }

  function DoAll(l: Log, steps: seq<Step>): Log
    decreases |steps|
  {
    if steps == [] then l else DoAll(Do(l, steps[0]), steps[1..])
  }

  lemma {:induction false} DoAllConcat(l: Log, xs: seq<Step>, ys: seq<Step>)
    ensures DoAll(l, xs + ys) == DoAll(DoAll(l, xs), ys)
    decreases |xs|
  {
    if xs == [] {
      assert xs + ys == ys;
    } else {
      assert (xs + ys)[1..] == xs[1..] + ys;
      DoAllConcat(Do(l, xs[0]), xs[1..], ys);
    }
  }

  // ---- one fire of the day ----

  /** Which bodies raise on this fire. */
  type Mood = Stage -> bool

  /** run_stage: a done stage is skipped, a running one is resumed. */
  function StagePlan(l: Log, s: Stage, raises: Mood): seq<Step> {
    if At(l, s, Done) then [Open(s)]
    else
      [Open(s)]
      + (if At(l, s, Running) then [] else [Claim(s)])
      + [Enter(s)]
      + (if raises(s) then [] else [Finish(s)])
  }

  predicate Aborts(l: Log, s: Stage, raises: Mood) { !At(l, s, Done) && raises(s) }

  /** run_day from the i-th stage on; a raise ends the fire. */
  function DayPlan(l: Log, i: nat, raises: Mood): seq<Step>
    decreases 7 - i
  {
    if i >= 7 then []
    else
      var here := StagePlan(l, ORDER[i], raises);
      if Aborts(l, ORDER[i], raises) then here
      else here + DayPlan(DoAll(l, here), i + 1, raises)
  }

  // ---- what holds after every step of every fire ----

  /** A stage has a row only once every stage before it is done. */
  ghost predicate Prefix(points: map<Stage, Status>) {
    forall s, t | s in points && Earlier(t, s) :: t in points && points[t] == Done
  }

  ghost predicate Ascending(starts: seq<Stage>) {
    forall a, b | 0 <= a < b < |starts| :: !Earlier(starts[b], starts[a])
  }

  ghost predicate Orderly(l: Log) {
    && Prefix(l.points)
    && Ascending(l.starts)
    && (forall s | s in l.starts :: s in l.points && l.points[s] != Pending)
    && (forall s | At(l, s, Done) :: s in l.starts)
  }

  ghost predicate Lawful(l: Log, step: Step) {
    match step
    case Open(s) => forall t | Earlier(t, s) :: At(l, t, Done)
    case Claim(s) => true
    case Enter(s) => At(l, s, Running)
    case Finish(s) => s in l.starts
  }

  lemma PrefixKept(l: Log, step: Step)
    requires Prefix(l.points) && Lawful(l, step)
    ensures Prefix(Do(l, step).points)
  {
    hide Earlier;
    var points := Do(l, step).points;
    forall s, t | s in points && Earlier(t, s) ensures t in points && points[t] == Done {
      assert At(l, t, Done);
    }
  }

  lemma StartsKept(l: Log, step: Step)
    requires Orderly(l) && Lawful(l, step)
    ensures Ascending(Do(l, step).starts)
  {
    hide Earlier;
    if step.Enter? {
      var starts := Do(l, step).starts;
      forall a, b | 0 <= a < b < |starts| ensures !Earlier(starts[b], starts[a]) {
        if b == |l.starts| { StartedNoLater(l, l.starts[a], step.s); }
      }
    }
  }

  /** A running stage is not before any stage that ever started. */
  lemma StartedNoLater(l: Log, started: Stage, s: Stage)
    requires Orderly(l) && started in l.starts && At(l, s, Running)
    ensures !Earlier(s, started)
  {
    hide Earlier;
    assert Earlier(s, started) ==> At(l, s, Done);
  }

  lemma LawfulKeepsOrder(l: Log, step: Step)
    requires Orderly(l) && Lawful(l, step)
    ensures Orderly(Do(l, step))
  {
    hide Earlier, Prefix, Ascending;
    PrefixKept(l, step);
    StartsKept(l, step);
  }

  ghost predicate LawfulAll(l: Log, steps: seq<Step>)
    decreases |steps|
  {
    steps == [] || (Lawful(l, steps[0]) && LawfulAll(Do(l, steps[0]), steps[1..]))
  }

  lemma {:induction false} LawfulPrefix(l: Log, steps: seq<Step>, k: nat)
    requires Orderly(l) && LawfulAll(l, steps) && k <= |steps|
    ensures Orderly(DoAll(l, steps[..k]))
    decreases |steps|
  {
    if k > 0 {
      LawfulKeepsOrder(l, steps[0]);
      LawfulPrefix(Do(l, steps[0]), steps[1..], k - 1);
      assert steps[..k][1..] == steps[1..][..k - 1];
    }
  }

  lemma {:induction false} LawfulJoin(l: Log, xs: seq<Step>, ys: seq<Step>)
    requires LawfulAll(l, xs) && LawfulAll(DoAll(l, xs), ys)
    ensures LawfulAll(l, xs + ys)
    decreases |xs|
  {
    if xs == [] {
      assert xs + ys == ys;
    } else {
      assert (xs + ys)[1..] == xs[1..] + ys;
      LawfulJoin(Do(l, xs[0]), xs[1..], ys);
    }
  }

  /** The log after run_stage, spelled out. */
  function StageEnd(l: Log, s: Stage, raises: Mood): Log {
    if At(l, s, Done) then l
    else Log(l.points[s := if raises(s) then Running else Done], l.starts + [s])
  }

  lemma StageLawful(l: Log, s: Stage, raises: Mood)
    requires forall t | Earlier(t, s) :: At(l, t, Done)
    ensures LawfulAll(l, StagePlan(l, s, raises))
    ensures DoAll(l, StagePlan(l, s, raises)) == StageEnd(l, s, raises)
  {
    hide DoAll, LawfulAll, Earlier;
    var l1 := Do(l, Open(s));
    if At(l, s, Done) {
      NoSteps(l1);
      FirstStep(l, Open(s), []);
      assert StagePlan(l, s, raises) == [Open(s)] + [];
    } else {
      var tail := [Enter(s)] + if raises(s) then [] else [Finish(s)];
      if At(l, s, Running) {
        BodyLawful(l1, s, raises);
        FirstStep(l, Open(s), tail);
        assert StagePlan(l, s, raises) == [Open(s)] + tail;
      } else {
        BodyLawful(Do(l1, Claim(s)), s, raises);
        FirstStep(l1, Claim(s), tail);
        FirstStep(l, Open(s), [Claim(s)] + tail);
        assert StagePlan(l, s, raises) == [Open(s)] + ([Claim(s)] + tail);
      }
    }
  }

  lemma BodyLawful(l: Log, s: Stage, raises: Mood)
    requires At(l, s, Running)
    ensures var tail := [Enter(s)] + if raises(s) then [] else [Finish(s)];
            LawfulAll(l, tail) && DoAll(l, tail) == StageEnd(l, s, raises)
  {
    hide DoAll, LawfulAll;
    var l' := Do(l, Enter(s));
    assert l'.starts[|l.starts|] == s;
    NoSteps(l');
    NoSteps(Do(l', Finish(s)));
    FirstStep(l', Finish(s), []);
    assert [Finish(s)] + [] == [Finish(s)];
    FirstStep(l, Enter(s), if raises(s) then [] else [Finish(s)]);
    assert l.points[s := Running] == l.points;
  }

  lemma FirstStep(l: Log, x: Step, rest: seq<Step>)
    ensures DoAll(l, [x] + rest) == DoAll(Do(l, x), rest)
    ensures LawfulAll(l, [x] + rest) <==> Lawful(l, x) && LawfulAll(Do(l, x), rest)
  {
    assert ([x] + rest)[1..] == rest;
  }

  lemma PlaceIsRank(i: nat)
    requires i < 7
    ensures Rank(ORDER[i]) == i
    ensures forall t :: Rank(t) == i ==> t == ORDER[i]
  {
    forall t ensures Rank(t) == i ==> t == ORDER[i] { RankIsPlace(t); }
  }

  lemma {:induction false} DayLawful(l: Log, i: nat, raises: Mood)
    requires Orderly(l) && forall t | Rank(t) < i :: At(l, t, Done)
    ensures LawfulAll(l, DayPlan(l, i, raises))
    decreases 7 - i
  {
    if i < 7 {
      hide DoAll, StagePlan, LawfulAll, Rank;
      var s, here := ORDER[i], StagePlan(l, ORDER[i], raises);
      PlaceIsRank(i);
      StageLawful(l, s, raises);
      if !Aborts(l, s, raises) {
        LawfulPrefix(l, here, |here|);
        assert here[..|here|] == here;
        forall t | Rank(t) < i + 1 ensures At(DoAll(l, here), t, Done) {
          assert t == s || Rank(t) < i;
        }
        DayLawful(DoAll(l, here), i + 1, raises);
        LawfulJoin(l, here, DayPlan(DoAll(l, here), i + 1, raises));
      }
    }
  }

  // ---- any number of fires ----

  /** One fire of the day, killed after its first k steps (or never). */
  datatype Fire = Fire(raises: Mood, k: nat)

  function FireOnce(l: Log, f: Fire): Log {
    var steps := DayPlan(l, 0, f.raises);
    DoAll(l, if f.k <= |steps| then steps[..f.k] else steps)
  }

  function After(l: Log, fires: seq<Fire>): Log
    decreases |fires|
  {
    if fires == [] then l else After(FireOnce(l, fires[0]), fires[1..])
  }

  lemma {:induction false} OrderlyAfter(l: Log, fires: seq<Fire>)
    requires Orderly(l)
    ensures Orderly(After(l, fires))
    decreases |fires|
  {
    if fires != [] {
      var steps := DayPlan(l, 0, fires[0].raises);
      DayLawful(l, 0, fires[0].raises);
      LawfulPrefix(l, steps, if fires[0].k <= |steps| then fires[0].k else |steps|);
      assert steps[..|steps|] == steps;
      OrderlyAfter(FireOnce(l, fires[0]), fires[1..]);
    }
  }

  /** Whatever kills the day wherever and however often: the done stages are a
      prefix of the order with at most one stage under way; bodies only ever
      start in stage order, so none starts again once a later one began (the
      gate body never runs after execution began); and a done stage did run. */
  lemma StagesInOrder(fires: seq<Fire>)
    ensures var l := After(Morning, fires);
            && (forall s, t | s in l.points && Earlier(t, s) :: At(l, t, Done))
            && (forall s, t | s in l.points && t in l.points && l.points[s] != Done && l.points[t] != Done :: s == t)
            && (forall a, b | 0 <= a < b < |l.starts| :: !Earlier(l.starts[b], l.starts[a]))
            && (forall s | At(l, s, Done) :: s in l.starts)
  {
    hide After;
    OrderlyAfter(Morning, fires);
    OneUnderWay(After(Morning, fires));
  }

  lemma OneUnderWay(l: Log)
    requires Orderly(l)
    ensures forall s, t | s in l.points && t in l.points && l.points[s] != Done && l.points[t] != Done :: s == t
  {
    forall s, t | s in l.points && t in l.points && l.points[s] != Done && l.points[t] != Done ensures s == t {
      assert !Earlier(s, t) && !Earlier(t, s) ==> s == t by { RankIsPlace(s); RankIsPlace(t); }
      assert Earlier(s, t) ==> At(l, s, Done);
      assert Earlier(t, s) ==> At(l, t, Done);
    }
  }

  /** A fire that nothing kills and in which nothing raises ends the day. */
  lemma {:induction false} QuietFireEndsTheDay(l: Log, i: nat, raises: Mood)
    requires Orderly(l) && (forall t | Rank(t) < i :: At(l, t, Done)) && i <= 7 && forall s :: !raises(s)
    ensures forall s :: At(DoAll(l, DayPlan(l, i, raises)), s, Done)
    decreases 7 - i
  {
    if i < 7 {
      hide DoAll, StagePlan, LawfulAll, Rank;
      var s, here := ORDER[i], StagePlan(l, ORDER[i], raises);
      PlaceIsRank(i);
      StageLawful(l, s, raises);
      LawfulPrefix(l, here, |here|);
      assert here[..|here|] == here;
      forall t | Rank(t) < i + 1 ensures At(DoAll(l, here), t, Done) {
        assert t == s || Rank(t) < i;
      }
      QuietFireEndsTheDay(DoAll(l, here), i + 1, raises);
      DoAllConcat(l, here, DayPlan(DoAll(l, here), i + 1, raises));
    } else {
      assert DoAll(l, []) == l;
      forall s ensures At(l, s, Done) { RankIsPlace(s); }
    }
  }

  // ---- run_stage and run_day as written ----

  class Runner {
    var points: map<Stage, Status>
    ghost var starts: seq<Stage>

    ghost var base: Log            // the log when the trail began
    ghost var trail: seq<Step>     // every step since; a crash leaves a prefix

    ghost function View(): Log reads this { Log(points, starts) }

    ghost predicate Valid() reads this { View() == DoAll(base, trail) }

    constructor (l: Log)
      ensures Valid() && View() == l && trail == []
    {
      points, starts, base, trail := l.points, l.starts, l, [];
    }

    twostate predicate Ran(steps: seq<Step>) reads this {
      base == old(base) && trail == old(trail) + steps && View() == DoAll(old(View()), steps)
    }

    method InsertPending(s: Stage)
      requires Valid()
      modifies this
      ensures Valid() && Ran([Open(s)]) && View() == Do(old(View()), Open(s))
    {
      OneMore(base, trail, Open(s));
      if s !in points { points := points[s := Pending]; }
      trail := trail + [Open(s)];
    }

    method TryMove(s: Stage, f: Status, t: Status) returns (moved: bool)
      requires Valid() && ((f == Pending && t == Running) || (f == Running && t == Done))
      modifies this
      ensures Valid() && Ran([if t == Running then Claim(s) else Finish(s)])
      ensures View() == Do(old(View()), if t == Running then Claim(s) else Finish(s))
      ensures moved == At(old(View()), s, f)
    {
      ghost var step := if t == Running then Claim(s) else Finish(s);
      OneMore(base, trail, step);
      moved := s in points && points[s] == f;
      if moved { points := points[s := t]; }
      trail := trail + [step];
    }

    method Body(s: Stage, raises: Mood) returns (ok: bool)
      requires Valid()
      modifies this
      ensures Valid() && Ran([Enter(s)]) && View() == Do(old(View()), Enter(s)) && ok == !raises(s)
    {
      OneMore(base, trail, Enter(s));
      starts, trail := starts + [s], trail + [Enter(s)];
      ok := !raises(s);
    }

    /** run_stage; false when the body raised. */
    method RunStage(s: Stage, raises: Mood) returns (ok: bool)
      requires Valid()
      modifies this
      ensures Valid() && Ran(StagePlan(old(View()), s, raises))
      ensures ok == !Aborts(old(View()), s, raises)
    {
      ghost var l := View();
      ghost var done: seq<Step> := [Open(s)];
      InsertPending(s);
      if points[s] == Done { return true; }
      if points[s] == Pending {
        var _ := TryMove(s, Pending, Running);
        DoAllConcat(l, done, [Claim(s)]);
        done := done + [Claim(s)];
      }
      ok := Body(s, raises);
      DoAllConcat(l, done, [Enter(s)]);
      done := done + [Enter(s)];
      assert trail == old(trail) + done;
      assert done == StagePlan(l, s, raises) || ok;
      if !ok { return; }
      var _ := TryMove(s, Running, Done);
      DoAllConcat(l, done, [Finish(s)]);
    }

    /** The i-th call of a fire, if no body raised before it: `done` is what the
        fire did so far. */
    method StageAt(i: nat, raises: Mood, alive: bool, ghost l: Log, ghost before: seq<Step>, ghost done: seq<Step>)
      returns (alive': bool, ghost done': seq<Step>)
      requires Valid() && i < 7 && trail == before + done
      requires Following(l, View(), done, i, alive, raises)
      modifies this
      ensures Valid() && base == old(base) && trail == before + done'
      ensures Following(l, View(), done', i + 1, alive', raises)
    {
      hide DoAll, StagePlan, Following, DayPlan, Aborts;
      alive', done' := false, done;
      if !alive {
        NothingFollows(l, View(), done, i, raises);
        return;
      }
      ghost var here := StagePlan(View(), ORDER[i], raises);
      FollowStep(l, View(), done, i, raises);
      assert before + done + here == before + (done + here);
      alive' := RunStage(ORDER[i], raises);
      done' := done + here;
    }

    /** run_day; false when a body's raise ended the fire. */
    method RunDay(raises: Mood) returns (ok: bool)
      requires Valid()
      modifies this
      ensures Valid() && Ran(DayPlan(old(View()), 0, raises))
    {
      hide DoAll, DayPlan, Following;
      ghost var l, before, done := View(), trail, [];
      FollowStart(l, raises);
      ok, done := StageAt(0, raises, true, l, before, done);     // pre_gate
      ok, done := StageAt(1, raises, ok, l, before, done);       // research
      ok, done := StageAt(2, raises, ok, l, before, done);       // decision
      ok, done := StageAt(3, raises, ok, l, before, done);       // gate
      ok, done := StageAt(4, raises, ok, l, before, done);       // execution
      ok, done := StageAt(5, raises, ok, l, before, done);       // reconciliation
      ok, done := StageAt(6, raises, ok, l, before, done);       // close
      FollowEnd(l, View(), done, ok, raises);
    }
  }

  /** Where a fire from log l stands before its i-th stage: `done` so far, the
      rest of its plan to come unless a body raised. */
  ghost predicate Following(l: Log, now: Log, done: seq<Step>, i: nat, alive: bool, raises: Mood) {
    && now == DoAll(l, done)
    && DayPlan(l, 0, raises) == if alive then done + DayPlan(now, i, raises) else done
  }

  lemma FollowStart(l: Log, raises: Mood)
    ensures Following(l, l, [], 0, true, raises)
  {
    NoSteps(l);
    assert [] + DayPlan(l, 0, raises) == DayPlan(l, 0, raises);
  }

  lemma NothingFollows(l: Log, now: Log, done: seq<Step>, i: nat, raises: Mood)
    requires Following(l, now, done, i, false, raises)
    ensures Following(l, now, done, i + 1, false, raises)
  {
  }

  lemma FollowStep(l: Log, now: Log, done: seq<Step>, i: nat, raises: Mood)
    requires i < 7 && Following(l, now, done, i, true, raises)
    ensures var here := StagePlan(now, ORDER[i], raises);
            Following(l, DoAll(now, here), done + here, i + 1, !Aborts(now, ORDER[i], raises), raises)
  {
    hide DoAll, DayPlan, StagePlan, Aborts;
    var here := StagePlan(now, ORDER[i], raises);
    PlanStep(now, i, raises);
    DoAllConcat(l, done, here);
    Regroup(done, here, DayPlan(DoAll(now, here), i + 1, raises));
  }

  lemma Regroup(x: seq<Step>, y: seq<Step>, z: seq<Step>)
    ensures x + (y + z) == x + y + z
  {
  }

  lemma FollowEnd(l: Log, now: Log, done: seq<Step>, alive: bool, raises: Mood)
    requires Following(l, now, done, 7, alive, raises)
    ensures done == DayPlan(l, 0, raises) && now == DoAll(l, done)
  {
    NoMoreStages(now, raises);
    assert done + [] == done;
  }

  lemma PlanStep(l: Log, i: nat, raises: Mood)
    requires i < 7
    ensures var here := StagePlan(l, ORDER[i], raises);
            DayPlan(l, i, raises) ==
              if Aborts(l, ORDER[i], raises) then here else here + DayPlan(DoAll(l, here), i + 1, raises)
  {
  }

  lemma NoMoreStages(l: Log, raises: Mood)
    ensures DayPlan(l, 7, raises) == []
  {
  }

  lemma NoSteps(l: Log)
    ensures DoAll(l, []) == l && LawfulAll(l, [])
  {
  }

  lemma OneMore(base: Log, trail: seq<Step>, step: Step)
    ensures DoAll(base, trail + [step]) == Do(DoAll(base, trail), step)
    ensures DoAll(DoAll(base, trail), [step]) == Do(DoAll(base, trail), step)
  {
    DoAllConcat(base, trail, [step]);
    assert [step][1..] == [];
  }
}
