/** Whole runs: the fund's processes, the broker and the agent's tool calls in
    any order, each operation cut short after any commit. */
module Runs {
  import opened Records
  import opened FundTables
  import opened Broker
  import opened Plans
  import opened Safety
  import opened PlansAreLawful
  import OrderGate
  import Risk

  /** `inflight`: orders the gate let through that the broker may still accept
      at any later moment, or never. */
  datatype World = World(b: Books, book: Book, inflight: set<Request>)

  datatype Episode =
    | Record(o: Echo)
    | Recover(tid: string, a: Answer)
    | Poll(coid: string, a: Answer)
    | Close(coid: string, a: Answer)
    | Expire(tid: string, now: int)
    | GateDecision(did: int, s: Risk.Snapshot, expiresAt: int, newId: string, raiseAt: Option<nat>)

  ghost predicate Runnable(w: World, e: Episode) {
    match e
    case Record(o) => o.coid.Some? ==> Vouched(w.book, o.coid.value, Got(o))
    case Recover(tid, a) => tid in w.b.tickets.rows && VouchedForItself(w.book, a)
    case Poll(c, a) => c in w.b.orders.rows && Pending(w.b.orders.rows[c].status) && Vouched(w.book, c, a)
    case Close(c, a) => c in w.b.orders.rows && Pending(w.b.orders.rows[c].status) && Vouched(w.book, c, a)
    case Expire(tid, _) => tid in w.b.tickets.rows
    case GateDecision(did, _, _, _, _) => did in w.b.decisions.rows && w.b.decisions.rows[did].status == Submitted
  }

  ghost function PlanOf(w: World, e: Episode): seq<Commit>
    requires Runnable(w, e)
  {
    match e
    case Record(o) => RecordPlan(w.b, o)
    case Recover(tid, a) => RecoverPlan(w.b, tid, a)
    case Poll(c, a) => PollPlan(w.b, c, a)
    case Close(c, a) => ClosePlan(w.b, c, a)
    case Expire(tid, now) => ExpirePlan(w.b, tid, now)
    case GateDecision(did, s, expiresAt, newId, raiseAt) => GatePlan(w.b, did, s, expiresAt, newId, raiseAt)
  }

  datatype Move =
    | BrokerMoves(book': Book)
    | AgentCalls(lex: OrderGate.Lexer, tool: string, input: OrderGate.ToolInput, now: int)
    | BrokerAccepts(r: Request, id: string)
    | Submit(did: int, d: Decision)
    | Revise(did: int, d: Decision)
    | Work(e: Episode, k: nat)        // k commits of the episode, then a crash or its end

  ghost predicate Enabled(w: World, m: Move) {
    match m
    case BrokerMoves(book') => Evolves(w.book, book')
    case AgentCalls(lex, tool, input, now) => true
    case BrokerAccepts(r, id) =>
      && r in w.inflight && r.coid !in w.book       // a repeated client_order_id is refused
      && forall c | c in w.book :: w.book[c].id != id
    case Submit(did, d) => did !in w.b.decisions.rows && d.status == Submitted
    case Revise(did, d) =>
      && did in w.b.decisions.rows && w.b.decisions.rows[did].status == Submitted
      && d.status == Submitted && !HasTicket(w.b.tickets.rows, did)
    case Work(e, k) => Runnable(w, e) && k <= |PlanOf(w, e)|
  }

  ghost function Next(w: World, m: Move): World
    requires Enabled(w, m)
  {
    match m
    case BrokerMoves(book') => w.(book := book')
    case AgentCalls(lex, tool, input, now) =>
      if OrderGate.VerbPolicy(tool).Gated? && OrderGate.Gate(w.b, lex, tool, input, now).Ok?
      then w.(inflight := w.inflight + {OrderGate.RequestOf(w.b, lex, input, now)})
      else w
    case BrokerAccepts(r, id) => w.(book := w.book[r.coid := BrokerOrder(r, id, Live, 0, 0.0)])
    case Submit(did, d) => w.(b := w.b.(decisions := Add(w.b.decisions, did, d)))
    case Revise(did, d) => w.(b := w.b.(decisions := Put(w.b.decisions, did, d)))
    case Work(e, k) => w.(b := DoAll(w.b, PlanOf(w, e)[..k]))
  }

  ghost predicate Run(w: World, ms: seq<Move>)
    decreases |ms|
  {
    ms == [] || (Enabled(w, ms[0]) && Run(Next(w, ms[0]), ms[1..]))
  }

  ghost function After(w: World, ms: seq<Move>): World
    requires Run(w, ms)
    decreases |ms|
  {
    if ms == [] then w else After(Next(w, ms[0]), ms[1..])
  }

  const Genesis := World(Books(EmptyTable(), EmptyTable(), EmptyTable(), []), map[], {})

  ghost predicate RequestsOk(b: Books, rs: set<Request>) {
    forall r | r in rs :: RequestOk(b.decisions.rows, b.tickets.rows, r)
  }

  ghost predicate Safe(w: World) {
    Inv(w.b, w.book) && RequestsOk(w.b, w.inflight)
  }

  // ---- each move keeps the world safe ----

  lemma DriftTickets(b: Books, book: Book, book': Book)
    requires Inv(b, book) && Evolves(book, book')
    ensures TicketsOk(b.decisions.rows, b.tickets.rows, b.orders.rows, book')
  {
    hide Inv;
    forall tid | tid in b.tickets.rows
      ensures TicketOk(b.decisions.rows, b.orders.rows, book', tid, b.tickets.rows[tid])
    {
      TicketFact(b, book, tid);
      if tid in b.orders.rows { OrderFact(b, book, tid); }
    }
  }

  lemma DriftOrders(b: Books, book: Book, book': Book)
    requires Inv(b, book) && Evolves(book, book')
    ensures OrdersOk(b.tickets.rows.Keys, b.orders.rows, book')
    ensures forall i | 0 <= i < |b.events| && b.events[i].FillEvent? :: FillOk(b.orders.rows, book', b.events[i])
  {
    hide Inv;
    forall oid | oid in b.orders.rows ensures OrderOk(b.tickets.rows.Keys, book', oid, b.orders.rows[oid]) {
      OrderFact(b, book, oid);
    }
    forall i | 0 <= i < |b.events| && b.events[i].FillEvent? ensures FillOk(b.orders.rows, book', b.events[i]) {
      FillFact(b, book, i);
      OrderFact(b, book, b.events[i].ticketId);
    }
  }

  lemma DriftBook(b: Books, book: Book, book': Book)
    requires BookOk(b.decisions.rows, b.tickets.rows, book) && Evolves(book, book')
    ensures BookOk(b.decisions.rows, b.tickets.rows, book')
  {
    hide RequestOk;
    forall c, c' | c in book' && c' in book' && book'[c].id == book'[c'].id ensures c == c' {
      assert OrderEvolves(book[c], book'[c]) && OrderEvolves(book[c'], book'[c']);
      assert book[c].id == book[c'].id;
    }
  }

  lemma DriftKeeps(b: Books, book: Book, book': Book)
    requires Inv(b, book) && Evolves(book, book')
    ensures Inv(b, book')
  {
    hide TicketOk, OrderOk, RequestOk, FillOk, BookOk, Evolves, HasTicket;
    DriftTickets(b, book, book');
    DriftOrders(b, book, book');
    DriftBook(b, book, book');
  }

  lemma FillFact(b: Books, book: Book, i: nat)
    requires Inv(b, book) && i < |b.events| && b.events[i].FillEvent?
    ensures FillOk(b.orders.rows, book, b.events[i])
  {
  }

  lemma AcceptTables(b: Books, book: Book, coid: string, k: BrokerOrder)
    requires Inv(b, book) && coid !in book
    ensures OrdersOk(b.tickets.rows.Keys, b.orders.rows, book[coid := k])
    ensures TicketsOk(b.decisions.rows, b.tickets.rows, b.orders.rows, book[coid := k])
    ensures forall i | 0 <= i < |b.events| && b.events[i].FillEvent? ::
              FillOk(b.orders.rows, book[coid := k], b.events[i])
  {
    hide Inv;
    var book' := book[coid := k];
    forall oid | oid in b.orders.rows ensures OrderOk(b.tickets.rows.Keys, book', oid, b.orders.rows[oid]) {
      OrderFact(b, book, oid);
    }
    forall tid | tid in b.tickets.rows
      ensures TicketOk(b.decisions.rows, b.orders.rows, book', tid, b.tickets.rows[tid])
    {
      TicketFact(b, book, tid);
      if tid in b.orders.rows { OrderFact(b, book, tid); }
    }
    forall i | 0 <= i < |b.events| && b.events[i].FillEvent? ensures FillOk(b.orders.rows, book', b.events[i]) {
      FillFact(b, book, i);
    }
  }

  lemma AcceptKeeps(b: Books, book: Book, r: Request, id: string)
    requires Inv(b, book) && RequestOk(b.decisions.rows, b.tickets.rows, r)
    requires r.coid !in book && forall c | c in book :: book[c].id != id
    ensures Inv(b, book[r.coid := BrokerOrder(r, id, Live, 0, 0.0)])
  {
    hide TicketOk, OrderOk, FillOk, HasTicket;
    AcceptTables(b, book, r.coid, BrokerOrder(r, id, Live, 0, 0.0));
    assert r.qty >= 1 by { hide Inv; }
  }

  lemma DecisionRowKeeps(b: Books, book: Book, rs: set<Request>, decisions: Table<int, Decision>, did: int)
    requires Inv(b, book) && RequestsOk(b, rs)
    requires decisions.Valid() && !HasTicket(b.tickets.rows, did)
    requires did in decisions.rows && decisions.rows[did].status == Submitted
    requires decisions.rows.Keys == b.decisions.rows.Keys + {did}
    requires forall k | k in b.decisions.rows && k != did :: decisions.rows[k] == b.decisions.rows[k]
    ensures Inv(b.(decisions := decisions), book) && RequestsOk(b.(decisions := decisions), rs)
  {
    forall tid | tid in b.tickets.rows
      ensures TicketOk(decisions.rows, b.orders.rows, book, tid, b.tickets.rows[tid])
    {
      TicketFact(b, book, tid);
      assert b.tickets.rows[tid].decisionId != did;
    }
    forall c | c in book ensures RequestOk(decisions.rows, b.tickets.rows, book[c].req) {
      RequestElsewhere(b.decisions.rows, decisions.rows, b.tickets.rows, did, book[c].req);
    }
    forall r | r in rs ensures RequestOk(decisions.rows, b.tickets.rows, r) {
      RequestElsewhere(b.decisions.rows, decisions.rows, b.tickets.rows, did, r);
    }
  }

  lemma RequestElsewhere(decisions: Decisions, decisions': Decisions, tickets: Tickets, did: int, r: Request)
    requires RequestOk(decisions, tickets, r) && !HasTicket(tickets, did)
    requires forall k | k in decisions && k != did :: k in decisions' && decisions'[k] == decisions[k]
    ensures RequestOk(decisions', tickets, r)
  {
    assert tickets[r.coid].decisionId != did;
  }

  /** What the gate lets through is what the call's own fields ask for, and is
      bounded by the ticket it names. */
  lemma LetThrough(b: Books, book: Book, lex: OrderGate.Lexer, input: OrderGate.ToolInput, now: int)
    requires Inv(b, book) && OrderGate.ValidateOrder(b, lex, input, now).Ok?
    ensures var r := OrderGate.RequestOf(b, lex, input, now);
            && OrderGate.AsksFor(lex, input, r.coid, r.symbol, r.side, r.qty)
            && RequestOk(b.decisions.rows, b.tickets.rows, r)
  {
    hide Inv;
    OrderGate.ValidatedIsNamed(b, lex, input, now);
    hide OrderGate.Named, OrderGate.AsksFor, OrderGate.ShareCount, OrderGate.ValidateLegs;
    TicketFact(b, book, OrderGate.Field(input, "client_order_id").s);
  }

  lemma RequestKeeps(b: Books, book: Book, c: Commit, r: Request)
    requires Lawful(b, book, c) && RequestOk(b.decisions.rows, b.tickets.rows, r)
    ensures RequestOk(Do(b, c).decisions.rows, Do(b, c).tickets.rows, r)
  {
    hide Risk.Allows;
  }

  lemma {:induction false} WorkKeeps(b: Books, book: Book, rs: set<Request>, cs: seq<Commit>, k: nat)
    requires Inv(b, book) && RequestsOk(b, rs) && LawfulAll(b, book, cs) && k <= |cs|
    ensures Inv(DoAll(b, cs[..k]), book) && RequestsOk(DoAll(b, cs[..k]), rs)
    decreases |cs|
  {
    hide Inv, Lawful, Do;
    if k > 0 {
      LawfulKeeps(b, book, cs[0]);
      forall r | r in rs ensures RequestOk(Do(b, cs[0]).decisions.rows, Do(b, cs[0]).tickets.rows, r) {
        RequestKeeps(b, book, cs[0], r);
      }
      WorkKeeps(Do(b, cs[0]), book, rs, cs[1..], k - 1);
      assert cs[..k][1..] == cs[1..][..k - 1];
    }
  }

  lemma EpisodeIsLawful(w: World, e: Episode)
    requires Safe(w) && Runnable(w, e)
    ensures LawfulAll(w.b, w.book, PlanOf(w, e))
  {
    hide Inv;
    match e
    case Record(o) => RecordLawful(w.b, w.book, o);
    case Recover(tid, a) => RecoverLawful(w.b, w.book, tid, a);
    case Poll(c, a) => if a.Got? { ApplyLawful(w.b, w.book, c, a.o); }
    case Close(c, a) => CloseLawful(w.b, w.book, c, a);
    case Expire(tid, now) => ExpireLawful(w.b, w.book, tid, now);
    case GateDecision(did, s, expiresAt, newId, raiseAt) =>
      GateLawful(w.b, w.book, did, s, expiresAt, newId, raiseAt);
  }

  lemma MoveKeepsSafe(w: World, m: Move)
    requires Safe(w) && Enabled(w, m)
    ensures Safe(Next(w, m))
  {
    hide Inv, LawfulAll, PlanOf;
    match m
    case BrokerMoves(book') => DriftKeeps(w.b, w.book, book');
    case AgentCalls(lex, tool, input, now) =>
      if OrderGate.VerbPolicy(tool).Gated? && OrderGate.Gate(w.b, lex, tool, input, now).Ok? {
        LetThrough(w.b, w.book, lex, input, now);
      }
    case BrokerAccepts(r, id) => AcceptKeeps(w.b, w.book, r, id);
    case Submit(did, d) =>
      SubmitKeeps(w, did, d);
    case Revise(did, d) =>
      ReviseKeeps(w, did, d);
    case Work(e, k) =>
      EpisodeIsLawful(w, e);
      WorkKeeps(w.b, w.book, w.inflight, PlanOf(w, e), k);
  }

  lemma NoTicketForUnknown(b: Books, book: Book, did: int)
    requires Inv(b, book) && did !in b.decisions.rows
    ensures !HasTicket(b.tickets.rows, did)
  {
    forall tid | tid in b.tickets.rows ensures b.tickets.rows[tid].decisionId != did {
      TicketFact(b, book, tid);
    }
  }

  lemma SubmitKeeps(w: World, did: int, d: Decision)
    requires Safe(w) && Enabled(w, Submit(did, d))
    ensures Safe(Next(w, Submit(did, d)))
  {
    AddKeepsValid(w.b.decisions, did, d);
    NoTicketForUnknown(w.b, w.book, did);
    DecisionRowKeeps(w.b, w.book, w.inflight, Add(w.b.decisions, did, d), did);
  }

  lemma ReviseKeeps(w: World, did: int, d: Decision)
    requires Safe(w) && Enabled(w, Revise(did, d))
    ensures Safe(Next(w, Revise(did, d)))
  {
    var table := Put(w.b.decisions, did, d);
    assert table.Valid();
    assert table.rows.Keys == w.b.decisions.rows.Keys + {did};
    DecisionRowKeeps(w.b, w.book, w.inflight, table, did);
  }

  lemma GenesisIsSafe()
    ensures Safe(Genesis)
  {
  }

  /** Safety over every run, by induction on its moves. */
  lemma {:induction false} EveryRunIsSafe(w: World, ms: seq<Move>)
    requires Safe(w) && Run(w, ms)
    ensures Safe(After(w, ms))
    decreases |ms|
  {
    hide Safe, Enabled, Next;
    if ms != [] {
      MoveKeepsSafe(w, ms[0]);
      EveryRunIsSafe(Next(w, ms[0]), ms[1..]);
    }
  }
}
