/** The fund's tables and the atomic, committed writes on them. Every write is
    one commit: the process may die after any of them. */
module FundTables {
  import opened Records
  import Risk

  datatype Action = Trade(side: Side) | Hold

  datatype DecisionStatus = Submitted | Approved | Rejected | Held | Executed | Failed | Lapsed
  datatype TicketStatus = Open | Consumed | Expired
  datatype OrderStatus = Working | Partial | Filled | Canceled | Refused

  datatype Decision = Decision(
    runDate: int, ticker: string, action: Action, qty: nat,
    stopPrice: Option<real>, status: DecisionStatus)

  /** `sizedOn` is a history variable: the market snapshot maxQty was last
      computed from. The source stores maxQty only. */
  datatype Ticket = Ticket(
    decisionId: int, ticker: string, side: Side, maxQty: int,
    stopPrice: Option<real>, expiresAt: int, status: TicketStatus,
    sizedOn: Risk.Snapshot)

  datatype Fill = Fill(qty: int, price: real)

  datatype Order = Order(
    brokerId: Option<string>, symbol: string, side: Side, qty: int,
    status: OrderStatus, fill: Option<Fill>)

  datatype AlertCode =
    | FillOnUnapprovedDecision | PartialFillManualReview | OrderUnreconciled
    | OrderUnfilledAtCap | OrderPartialThenDead | OrderUnresolvedAtCap
    | OrderRecoveryMismatch | OrderRecoveryUnwritable | OrderRecovered | OrderRecoveryFailed

  datatype Event =
    | FillEvent(ticketId: string, ticker: Option<string>, side: Option<Side>, fill: Fill)
    | GateApproved(approvedTicket: string, maxQty: int)
    | GateRejected(decisionId: int, reason: Option<Risk.Reason>)
    | Alert(code: AlertCode, subject: string)

  datatype Books = Books(
    decisions: Table<int, Decision>, tickets: Table<string, Ticket>,
    orders: Table<string, Order>, events: seq<Event>)

  // ---- the state machine's edges ----

  predicate DecisionEdge(f: DecisionStatus, t: DecisionStatus) {
    (f, t) in {(Submitted, Approved), (Submitted, Rejected), (Submitted, Held),
               (Approved, Executed), (Approved, Failed), (Approved, Lapsed)}
  }

  predicate TicketEdge(f: TicketStatus, t: TicketStatus) {
    (f, t) in {(Open, Consumed), (Open, Expired)}
  }

  predicate OrderEdge(f: OrderStatus, t: OrderStatus) {
    (f, t) in {(Working, Filled), (Working, Partial), (Working, Canceled), (Working, Refused),
               (Partial, Filled), (Partial, Canceled)}
  }

  /** The row can still move: what the fill poll selects. */
  predicate Pending(s: OrderStatus) { s == Working || s == Partial }

  datatype Commit =
    | MoveDecision(did: int, dFrom: DecisionStatus, dTo: DecisionStatus)
    | MoveTicket(tid: string, tFrom: TicketStatus, tTo: TicketStatus)
    | MoveOrder(oid: string, oFrom: OrderStatus, oTo: OrderStatus)
    | InsertTicket(newTid: string, ticket: Ticket)
    | Recap(recapTid: string, cap: int, expires: int, snapshot: Risk.Snapshot)
    | InsertOrder(newOid: string, order: Order)
    | DroppedInsert(droppedOid: string)     // a NULL in a NOT NULL column: OR IGNORE skips the row
    | WriteFill(fillOid: string, fill: Fill)
    | Append(event: Event)

  /** Broker ids are UNIQUE over the orders table; absent ids never collide. */
  predicate BrokerIdFree(b: Books, id: Option<string>) {
    id.Some? ==> forall k | k in b.orders.rows :: b.orders.rows[k].brokerId != id
  }

  /** The statement changed exactly one row (rowcount == 1). A false answer is
      a lost compare-and-swap or an ignored insert, and writes nothing. */
  predicate Applies(b: Books, c: Commit) {
    match c
    case MoveDecision(k, f, t) => k in b.decisions.rows && b.decisions.rows[k].status == f
    case MoveTicket(k, f, t) => k in b.tickets.rows && b.tickets.rows[k].status == f
    case MoveOrder(k, f, t) => k in b.orders.rows && b.orders.rows[k].status == f
    case InsertTicket(k, t) =>
      && k !in b.tickets.rows
      && t.decisionId in b.decisions.rows
      && forall j | j in b.tickets.rows :: b.tickets.rows[j].decisionId != t.decisionId
    case Recap(k, _, _, _) => k in b.tickets.rows && b.tickets.rows[k].status == Open
    case InsertOrder(k, o) =>
      k !in b.orders.rows && k in b.tickets.rows && BrokerIdFree(b, o.brokerId)
    case DroppedInsert(_) => false
    case WriteFill(k, _) => k in b.orders.rows
    case Append(_) => true
  }

  /** INSERT OR IGNORE of an order row raises on the foreign key: nothing else
      drops the row first and its ticket does not exist. */
  predicate ForeignKeyFails(b: Books, oid: string, brokerId: Option<string>) {
    oid !in b.orders.rows && BrokerIdFree(b, brokerId) && oid !in b.tickets.rows
  }

  function Do(b: Books, c: Commit): Books {
    if !Applies(b, c) then b
    else match c
      case MoveDecision(k, f, t) =>
        b.(decisions := Put(b.decisions, k, b.decisions.rows[k].(status := t)))
      case MoveTicket(k, f, t) =>
        b.(tickets := Put(b.tickets, k, b.tickets.rows[k].(status := t)))
      case MoveOrder(k, f, t) =>
        b.(orders := Put(b.orders, k, b.orders.rows[k].(status := t)))
      case InsertTicket(k, t) => b.(tickets := Add(b.tickets, k, t))
      case Recap(k, cap, expires, s) =>
        b.(tickets := Put(b.tickets, k,
                          b.tickets.rows[k].(maxQty := cap, expiresAt := expires, sizedOn := s)))
      case InsertOrder(k, o) => b.(orders := Add(b.orders, k, o))
      case DroppedInsert(_) => b
      case WriteFill(k, f) => b.(orders := Put(b.orders, k, b.orders.rows[k].(fill := Some(f))))
      case Append(e) => b.(events := b.events + [e])
  }

  /** The state after a run of commits; a crash leaves the state after some
      prefix of them. */
  function DoAll(b: Books, cs: seq<Commit>): Books
    decreases |cs|
  {
    if cs == [] then b else DoAll(Do(b, cs[0]), cs[1..])
  }

  lemma {:induction false} DoAllConcat(b: Books, xs: seq<Commit>, ys: seq<Commit>)
    ensures DoAll(b, xs + ys) == DoAll(DoAll(b, xs), ys)
    decreases |xs|
  {
    if xs == [] {
      assert xs + ys == ys;
    } else {
      assert (xs + ys)[1..] == xs[1..] + ys;
      DoAllConcat(Do(b, xs[0]), xs[1..], ys);
    }
  }

  lemma DoAllSnoc(b: Books, xs: seq<Commit>, c: Commit)
    ensures DoAll(b, xs + [c]) == Do(DoAll(b, xs), c)
  {
    DoAllConcat(b, xs, [c]);
    assert [c][1..] == [];
  }

  // ---- queries ----

  /** SELECT ... FROM tickets WHERE decision_id = ? : at most one row. */
  function TicketFor(t: Table<string, Ticket>, did: int): (r: Option<string>)
    ensures r.Some? ==> r.value in t.rows && t.rows[r.value].decisionId == did
  {
    FindTicket(t, did, 0)
  }

  function FindTicket(t: Table<string, Ticket>, did: int, from: nat): (r: Option<string>)
    ensures r.Some? ==> r.value in t.rows && t.rows[r.value].decisionId == did
    ensures r.None? ==> forall i | from <= i < |t.ids| ::
              t.ids[i] in t.rows ==> t.rows[t.ids[i]].decisionId != did
    decreases |t.ids| - from
  {
    if from >= |t.ids| then None
    else if t.ids[from] in t.rows && t.rows[t.ids[from]].decisionId == did then Some(t.ids[from])
    else FindTicket(t, did, from + 1)
  }

  lemma NoTicketFor(t: Table<string, Ticket>, did: int)
    requires t.Valid() && TicketFor(t, did).None?
    ensures forall k | k in t.rows :: t.rows[k].decisionId != did
  {
    forall k | k in t.rows ensures t.rows[k].decisionId != did {
      assert k in t.ids;
    }
  }
}
