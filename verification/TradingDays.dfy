/** The order lifecycle inside the day's stages: the gate works only in its own
    stage, the agent reaches the broker only during execution, and tickets do
    not outlive their day. Then every order was placed on a cap and a snapshot
    that were the ticket's for good. */
module TradingDays {
  import opened Records
  import opened FundTables
  import opened Broker
  import opened Plans
  import opened Safety
  import opened PlansAreLawful
  import opened Runs
  import Day
  import OrderGate
  import Risk

  /** The minute each day opens. */
  type Opening = int -> int

  ghost predicate InOrder(opens: Opening) { forall a, b | a <= b :: opens(a) <= opens(b) }

  datatype Fund = Fund(w: World, day: int, log: Day.Log)

  datatype Act = Make(m: Move) | Advance(step: Day.Step) | Tomorrow(next: int)

  /** When a move may be made: agent calls while the execution stage runs, after
      the day opened; gate work while the gate stage runs, on the day's own
      decisions, minting tickets that expire before the next day opens. */
  ghost predicate InStage(f: Fund, m: Move, opens: Opening)
    requires Enabled(f.w, m)
  {
    match m
    case AgentCalls(_, _, _, now) => Day.At(f.log, Day.Execution, Day.Running) && opens(f.day) <= now
    case Work(e, _) =>
      e.GateDecision? ==>
        && Day.At(f.log, Day.Gate, Day.Running)
        && f.w.b.decisions.rows[e.did].runDate == f.day
        && e.expiresAt <= opens(f.day + 1)
    case _ => true
  }

  /** A checkpoint step is one run_day can take, and the gate stage finishes only
      as run_gate leaves it: no submitted decision of the day. */
  ghost predicate Allowed(f: Fund, a: Act, opens: Opening) {
    match a
    case Make(m) => Enabled(f.w, m) && InStage(f, m, opens)
    case Advance(step) =>
      && Day.Lawful(f.log, step)
      && (step == Day.Finish(Day.Gate) ==> NoneSubmitted(f.w.b, f.day))
    case Tomorrow(next) => next > f.day
  }

  ghost predicate NoneSubmitted(b: Books, day: int) {
    forall did | did in b.decisions.rows && b.decisions.rows[did].runDate == day ::
      b.decisions.rows[did].status != Submitted
  }

  ghost function Step(f: Fund, a: Act, opens: Opening): Fund
    requires Allowed(f, a, opens)
  {
    match a
    case Make(m) => f.(w := Next(f.w, m))
    case Advance(step) => f.(log := Day.Do(f.log, step))
    case Tomorrow(next) => f.(day := next, log := Day.Morning)
  }

  ghost predicate Life(f: Fund, acts: seq<Act>, opens: Opening)
    decreases |acts|
  {
    acts == [] || (Allowed(f, acts[0], opens) && Life(Step(f, acts[0], opens), acts[1..], opens))
  }

  ghost function Lived(f: Fund, acts: seq<Act>, opens: Opening): Fund
    requires Life(f, acts, opens)
    decreases |acts|
  {
    if acts == [] then f else Lived(Step(f, acts[0], opens), acts[1..], opens)
  }

  // ---- the invariant ----

  /** A ticket belongs to a day not later than today, expires before the day
      after its own opens, and once today's gate is done no longer waits for an
      approval. */
  ghost predicate OnTime(d: Decision, t: Ticket, day: int, gateDone: bool, opens: Opening) {
    && d.runDate <= day && t.expiresAt <= opens(d.runDate + 1)
    && (d.runDate == day && gateDone ==> d.status != Submitted)
  }

  ghost predicate AllOnTime(b: Books, day: int, gateDone: bool, opens: Opening) {
    forall tid | tid in b.tickets.rows ::
      && b.tickets.rows[tid].decisionId in b.decisions.rows
      && OnTime(b.decisions.rows[b.tickets.rows[tid].decisionId], b.tickets.rows[tid], day, gateDone, opens)
  }

  ghost predicate AllSettled(w: World) {
    && (forall r | r in w.inflight :: r.settled)
    && (forall c | c in w.book :: w.book[c].req.settled)
  }

  predicate GateDone(log: Day.Log) { Day.At(log, Day.Gate, Day.Done) }

  ghost predicate Kept(f: Fund, opens: Opening) {
    && Safe(f.w) && Day.Orderly(f.log)
    && AllOnTime(f.w.b, f.day, GateDone(f.log), opens)
    && AllSettled(f.w)
  }

  // ---- commits keep tickets on time ----

  /** Neither mints nor re-caps, and submits nothing again. */
  predicate Timeless(c: Commit) {
    !c.InsertTicket? && !c.Recap? && (c.MoveDecision? ==> c.dTo != Submitted)
  }

  lemma {:induction false} TimelessKeeps(b: Books, cs: seq<Commit>, day: int, gateDone: bool, opens: Opening)
    requires AllOnTime(b, day, gateDone, opens) && forall i | 0 <= i < |cs| :: Timeless(cs[i])
    ensures AllOnTime(DoAll(b, cs), day, gateDone, opens)
    decreases |cs|
  {
    if cs != [] { TimelessKeeps(Do(b, cs[0]), cs[1..], day, gateDone, opens); }
  }

  /** What a gate pass may write about tickets: its own decision's, expiring when
      this pass says. */
  ghost predicate Minting(b: Books, c: Commit, did: int, expiresAt: int) {
    && (c.InsertTicket? ==> c.ticket.decisionId == did && c.ticket.expiresAt == expiresAt)
    && (c.Recap? ==> c.expires == expiresAt && c.recapTid in b.tickets.rows && b.tickets.rows[c.recapTid].decisionId == did)
    && (c.MoveDecision? ==> c.dTo != Submitted)
  }

  lemma {:induction false} MintingKeeps(b: Books, cs: seq<Commit>, did: int, expiresAt: int, day: int, opens: Opening)
    requires AllOnTime(b, day, false, opens) && forall i | 0 <= i < |cs| :: Minting(b, cs[i], did, expiresAt)
    requires did in b.decisions.rows && b.decisions.rows[did].runDate == day && expiresAt <= opens(day + 1)
    ensures AllOnTime(DoAll(b, cs), day, false, opens)
    decreases |cs|
  {
    if cs != [] {
      MintingStep(b, cs[0], did, expiresAt, day, opens);
      forall i | 0 <= i < |cs[1..]| ensures Minting(Do(b, cs[0]), cs[1..][i], did, expiresAt) {
        assert Minting(b, cs[i + 1], did, expiresAt);
      }
      MintingKeeps(Do(b, cs[0]), cs[1..], did, expiresAt, day, opens);
    }
  }

  lemma MintingStep(b: Books, c: Commit, did: int, expiresAt: int, day: int, opens: Opening)
    requires AllOnTime(b, day, false, opens) && Minting(b, c, did, expiresAt)
    requires did in b.decisions.rows && b.decisions.rows[did].runDate == day && expiresAt <= opens(day + 1)
    ensures AllOnTime(Do(b, c), day, false, opens)
    ensures did in Do(b, c).decisions.rows && Do(b, c).decisions.rows[did].runDate == day
  {
  }

  lemma RejectIsTimeless(b: Books, did: int, reason: Option<Risk.Reason>)
    ensures forall i | 0 <= i < |RejectPlan(b, did, reason)| :: Timeless(RejectPlan(b, did, reason)[i])
  {
  }

  lemma GateMints(b: Books, did: int, s: Risk.Snapshot, expiresAt: int, newId: string, raiseAt: Option<nat>)
    requires did in b.decisions.rows
    ensures var cs := GatePlan(b, did, s, expiresAt, newId, raiseAt);
            forall i | 0 <= i < |cs| :: Minting(b, cs[i], did, expiresAt)
  {
    hide DoAll, RejectPlan, CappedQty;
    var h := HandlePlan(b, did, s, expiresAt, newId);
    var cut := if raiseAt.Some? && raiseAt.value <= |h.commits| then raiseAt.value else |h.commits|;
    RejectIsTimeless(b, did, RejectReason(b.decisions.rows[did], s));
    RejectIsTimeless(DoAll(b, h.commits[..cut]), did, Some(Risk.GateError));
    assert forall i | 0 <= i < |h.commits| :: Minting(b, h.commits[i], did, expiresAt);
  }

  ghost predicate AllTimeless(cs: seq<Commit>) { forall i | 0 <= i < |cs| :: Timeless(cs[i]) }

  lemma RecordIsTimeless(b: Books, o: Echo)
    ensures AllTimeless(RecordPlan(b, o))
  {
    hide Do, ForeignKeyFails;
  }

  lemma RecoverIsTimeless(b: Books, tid: string, a: Answer)
    requires tid in b.tickets.rows
    ensures AllTimeless(RecoverPlan(b, tid, a))
  {
    hide Applies;
  }

  lemma TailIsTimeless(b: Books, coid: string, to: DecisionStatus)
    requires to != Submitted
    ensures AllTimeless(DecisionTail(b, coid, to))
  {
  }

  lemma ApplyIsTimeless(b: Books, coid: string, o: Echo)
    requires coid in b.orders.rows
    ensures AllTimeless(ApplyPlan(b, coid, o))
  {
    TailIsTimeless(b, coid, Executed);
    TailIsTimeless(b, coid, Failed);
    hide DecisionTail;
  }

  lemma CloseIsTimeless(b: Books, coid: string, a: Answer)
    ensures AllTimeless(ClosePlan(b, coid, a))
  {
    TailIsTimeless(b, coid, Executed);
    TailIsTimeless(b, coid, Failed);
    hide DecisionTail, ApplyPlan;
    if a.Got? && coid in b.orders.rows { ApplyIsTimeless(b, coid, a.o); }
  }

  lemma OthersAreTimeless(w: World, e: Episode)
    requires Runnable(w, e) && !e.GateDecision?
    ensures AllTimeless(PlanOf(w, e))
  {
    hide AllTimeless, RecordPlan, RecoverPlan, ApplyPlan, ClosePlan;
    match e
    case Record(o) => RecordIsTimeless(w.b, o);
    case Recover(tid, a) => RecoverIsTimeless(w.b, tid, a);
    case Poll(c, a) => if a.Got? { ApplyIsTimeless(w.b, c, a.o); } else { NoneIsTimeless(); }
    case Close(c, a) => CloseIsTimeless(w.b, c, a);
    case Expire(tid, now) => ExpireIsTimeless(w.b, tid, now);
  }

  lemma NoneIsTimeless()
    ensures AllTimeless([])
  {
  }

  lemma ExpireIsTimeless(b: Books, tid: string, now: int)
    requires tid in b.tickets.rows
    ensures AllTimeless(ExpirePlan(b, tid, now))
  {
  }

  // ---- each act keeps it ----

  lemma WorkOnTime(f: Fund, e: Episode, k: nat, opens: Opening)
    requires Kept(f, opens) && Allowed(f, Make(Work(e, k)), opens)
    ensures AllOnTime(Next(f.w, Work(e, k)).b, f.day, GateDone(f.log), opens)
  {
    hide Safe, Day.Orderly, AllSettled, AllOnTime, DoAll, PlanOf, GatePlan;
    var cs := PlanOf(f.w, e);
    if e.GateDecision? {
      assert !GateDone(f.log);
      GateMints(f.w.b, e.did, e.s, e.expiresAt, e.newId, e.raiseAt);
      GatePlanOf(f.w, e);
      MintingKeeps(f.w.b, cs[..k], e.did, e.expiresAt, f.day, opens);
    } else {
      OthersAreTimeless(f.w, e);
      TimelessKeeps(f.w.b, cs[..k], f.day, GateDone(f.log), opens);
    }
  }

  lemma GatePlanOf(w: World, e: Episode)
    requires Runnable(w, e) && e.GateDecision?
    ensures PlanOf(w, e) == GatePlan(w.b, e.did, e.s, e.expiresAt, e.newId, e.raiseAt)
  {
  }

  lemma DecisionOnTime(b: Books, book: Book, decisions: Table<int, Decision>, did: int, day: int, gateDone: bool, opens: Opening)
    requires Inv(b, book) && AllOnTime(b, day, gateDone, opens) && !HasTicket(b.tickets.rows, did)
    requires forall k | k in b.decisions.rows && k != did :: k in decisions.rows && decisions.rows[k] == b.decisions.rows[k]
    ensures AllOnTime(b.(decisions := decisions), day, gateDone, opens)
  {
    hide Inv;
    forall tid | tid in b.tickets.rows ensures b.tickets.rows[tid].decisionId != did {
    }
  }

  /** A call the hook lets through, inside execution, names a decision that has
      left 'submitted'. */
  lemma CallIsSettled(f: Fund, lex: OrderGate.Lexer, tool: string, input: OrderGate.ToolInput, now: int, opens: Opening)
    requires InOrder(opens) && Kept(f, opens) && Allowed(f, Make(AgentCalls(lex, tool, input, now)), opens)
    requires OrderGate.ValidateOrder(f.w.b, lex, input, now).Ok?
    ensures OrderGate.RequestOf(f.w.b, lex, input, now).settled
  {
    hide Safe, AllSettled, OrderGate.ValidateLegs;
    GateBeforeExecution(f.log);
    var t := f.w.b.tickets.rows[OrderGate.Field(input, "client_order_id").s];
    var d := f.w.b.decisions.rows[t.decisionId];
    assert OnTime(d, t, f.day, GateDone(f.log), opens);
    assert opens(f.day) <= now < t.expiresAt <= opens(d.runDate + 1);
    assert d.runDate + 1 <= f.day ==> opens(d.runDate + 1) <= opens(f.day);
  }

  lemma GateBeforeExecution(log: Day.Log)
    requires Day.Orderly(log) && Day.At(log, Day.Execution, Day.Running)
    ensures GateDone(log)
  {
    assert Day.Earlier(Day.Gate, Day.Execution);
  }

  lemma MakeKeeps(f: Fund, m: Move, opens: Opening)
    requires InOrder(opens) && Kept(f, opens) && Allowed(f, Make(m), opens)
    ensures Kept(f.(w := Next(f.w, m)), opens)
  {
    hide Inv, Day.Orderly, AllOnTime, PlanOf, DoAll, OrderGate.ValidateOrder;
    MoveKeepsSafe(f.w, m);
    match m
    case Work(e, k) => WorkOnTime(f, e, k, opens);
    case Submit(did, d) =>
      NoTicketForUnknown(f.w.b, f.w.book, did);
      DecisionOnTime(f.w.b, f.w.book, Add(f.w.b.decisions, did, d), did, f.day, GateDone(f.log), opens);
    case Revise(did, d) =>
      DecisionOnTime(f.w.b, f.w.book, Put(f.w.b.decisions, did, d), did, f.day, GateDone(f.log), opens);
    case AgentCalls(lex, tool, input, now) =>
      if OrderGate.VerbPolicy(tool).Gated? && OrderGate.Gate(f.w.b, lex, tool, input, now).Ok? {
        CallIsSettled(f, lex, tool, input, now, opens);
      }
    case BrokerAccepts(r, id) =>
    case BrokerMoves(book') =>
  }

  lemma AdvanceKeeps(f: Fund, step: Day.Step, opens: Opening)
    requires Kept(f, opens) && Allowed(f, Advance(step), opens)
    ensures Kept(f.(log := Day.Do(f.log, step)), opens)
  {
    hide Safe, AllSettled;
    Day.LawfulKeepsOrder(f.log, step);
    hide Day.Orderly;
    if GateDone(Day.Do(f.log, step)) && !GateDone(f.log) {
      assert step == Day.Finish(Day.Gate);
    }
  }

  lemma TomorrowKeeps(f: Fund, next: int, opens: Opening)
    requires Kept(f, opens) && next > f.day
    ensures Kept(f.(day := next, log := Day.Morning), opens)
  {
    hide Safe, AllSettled;
  }

  lemma StepKeeps(f: Fund, a: Act, opens: Opening)
    requires InOrder(opens) && Kept(f, opens) && Allowed(f, a, opens)
    ensures Kept(Step(f, a, opens), opens)
  {
    hide Kept, Enabled, Next;
    match a
    case Make(m) => MakeKeeps(f, m, opens);
    case Advance(step) => AdvanceKeeps(f, step, opens);
    case Tomorrow(next) => TomorrowKeeps(f, next, opens);
  }

  lemma {:induction false} EveryLifeIsKept(f: Fund, acts: seq<Act>, opens: Opening)
    requires InOrder(opens) && Kept(f, opens) && Life(f, acts, opens)
    ensures Kept(Lived(f, acts, opens), opens)
    decreases |acts|
  {
    hide Kept, Allowed, Step;
    if acts != [] {
      StepKeeps(f, acts[0], opens);
      EveryLifeIsKept(Step(f, acts[0], opens), acts[1..], opens);
    }
  }

  function FirstDay(day: int): Fund { Fund(Genesis, day, Day.Morning) }

  lemma FirstDayIsKept(day: int, opens: Opening)
    ensures Kept(FirstDay(day), opens)
  {
    GenesisIsSafe();
  }

  /** End-to-end authorization, over any number of days of fires, crashes and
      agent calls: every order the broker accepted carries a ticket's id, its
      ticker and its side, and at most the ask, at most the ticket's cap, and at
      most size() on the snapshot that last wrote the ticket. */
  lemma OrdersFitTheirTickets(day: int, acts: seq<Act>, opens: Opening, coid: string)
    requires InOrder(opens) && Life(FirstDay(day), acts, opens)
    requires coid in Lived(FirstDay(day), acts, opens).w.book
    ensures var w := Lived(FirstDay(day), acts, opens).w;
            var r := w.book[coid].req;
            && coid in w.b.tickets.rows
            && var t := w.b.tickets.rows[coid];
            && t.decisionId in w.b.decisions.rows
            && var d := w.b.decisions.rows[t.decisionId];
            && r.symbol == t.ticker == d.ticker && d.action == Trade(r.side) && t.side == r.side
            && d.status != Submitted
            && 1 <= r.qty <= t.maxQty <= d.qty
            && Risk.Size(t.sizedOn, t.side).Approved? && r.qty <= Risk.Size(t.sizedOn, t.side).maxQty
            && Risk.Warrants(t.sizedOn, t.side, r.qty)
  {
    hide Inv, Life, Lived;
    FirstDayIsKept(day, opens);
    EveryLifeIsKept(FirstDay(day), acts, opens);
    var w := Lived(FirstDay(day), acts, opens).w;
    BookFact(w.b, w.book, coid);
    TicketFact(w.b, w.book, coid);
    Risk.AllowsWarrants(w.b.tickets.rows[coid].sizedOn, w.b.tickets.rows[coid].side, w.book[coid].req.qty);
  }

  /** The stages' own results are what Allowed asks of them: every step of a fire
      of run_day is a lawful checkpoint step wherever it falls. */
  lemma FiresAreAllowed(log: Day.Log, raises: Day.Mood, k: nat)
    requires Day.Orderly(log) && k < |Day.DayPlan(log, 0, raises)|
    ensures Day.Lawful(Day.DoAll(log, Day.DayPlan(log, 0, raises)[..k]), Day.DayPlan(log, 0, raises)[k])
  {
    assert forall t :: !(Day.Rank(t) < 0);
    Day.DayLawful(log, 0, raises);
    LawfulEach(log, Day.DayPlan(log, 0, raises), k);
  }

  lemma {:induction false} LawfulEach(log: Day.Log, steps: seq<Day.Step>, k: nat)
    requires Day.LawfulAll(log, steps) && k < |steps|
    ensures Day.Lawful(Day.DoAll(log, steps[..k]), steps[k])
    decreases |steps|
  {
    if k > 0 {
      LawfulEach(Day.Do(log, steps[0]), steps[1..], k - 1);
      assert steps[..k][1..] == steps[1..][..k - 1];
    }
  }
}
