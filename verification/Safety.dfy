/** What holds at every commit point: the invariant of the order lifecycle, and
    when a single committed write keeps it. */
module Safety {
  import opened Records
  import opened FundTables
  import opened Broker
  import Risk

  type Decisions = map<int, Decision>
  type Tickets = map<string, Ticket>
  type Orders = map<string, Order>

  // ---- the invariant ----

  /** The order settled and its row records at least one share. */
  ghost predicate HoldsShares(orders: Orders, tid: string) {
    && tid in orders && !Pending(orders[tid].status)
    && orders[tid].fill.Some? && orders[tid].fill.value.qty >= 1
  }

  /** The order is dead, in the books and at the broker, with no share held. */
  ghost predicate DeadWithout(orders: Orders, book: Book, tid: string) {
    && tid in orders && tid in book
    && (orders[tid].status == Canceled || orders[tid].status == Refused)
    && orders[tid].fill.None? && book[tid].filled == 0
  }

  /** What a decision's status asserts about its ticket. */
  ghost predicate Backs(status: DecisionStatus, tid: string, t: Ticket, orders: Orders, book: Book) {
    match status
    case Rejected => t.status != Open
    case Held => t.status != Open
    case Lapsed => t.status == Expired
    case Executed => HoldsShares(orders, tid)
    case Failed => DeadWithout(orders, book, tid)
    case _ => true
  }

  /** A ticket belongs to a trading decision, carries its stop, never asks for
      more than the PM or the sizer allowed, and backs what its decision's status claims. */
  ghost predicate TicketOk(decisions: Decisions, orders: Orders, book: Book, tid: string, t: Ticket) {
    && t.decisionId in decisions
    && var d := decisions[t.decisionId];
    && d.action == Trade(t.side) && d.ticker == t.ticker && d.stopPrice == t.stopPrice
    && 1 <= t.maxQty <= d.qty && Risk.Allows(t.sizedOn, t.side, t.maxQty)
    && Backs(d.status, tid, t, orders, book)
  }

  predicate Confirmed(s: OrderStatus, k: BrokerState) {
    match s
    case Working => true
    case Partial => true
    case Filled => k.Complete?
    case Canceled => k.Cancelled? || k.TimedOut?
    case Refused => k.Declined?
  }

  /** A row mirrors the broker's order under the ticket's id and claims no
      terminal state the broker has not reached. */
  ghost predicate OrderOk(tids: set<string>, book: Book, oid: string, row: Order) {
    && oid in tids && oid in book
    && var k := book[oid];
    && row.symbol == k.req.symbol && row.side == k.req.side && row.qty == k.req.qty
    && (row.brokerId.Some? ==> row.brokerId.value == k.id)
    && (row.fill.Some? ==> 1 <= row.fill.value.qty <= k.filled)
    && Confirmed(row.status, k.state)
  }

  /** A fill event reports a settled order's final numbers. */
  ghost predicate FillOk(orders: Orders, book: Book, e: Event)
    requires e.FillEvent?
  {
    && e.ticketId in orders && e.ticketId in book
    && var row := orders[e.ticketId];
    && !Pending(row.status) && row.fill == Some(e.fill)
    && (e.ticker.Some? ==> e.ticker.value == row.symbol) && (e.side.Some? ==> e.side.value == row.side)
    && e.fill == Fill(book[e.ticketId].filled, book[e.ticketId].price)
  }

  ghost predicate NoFillYet(events: seq<Event>, coid: string) {
    forall i | 0 <= i < |events| && events[i].FillEvent? :: events[i].ticketId != coid
  }

  /** An order the gate let through names a ticket, agrees with it, and is
      bounded by the PM's ask and by the sizer on the snapshot the ticket
      carried then. Once the decision has left 'submitted' that snapshot and
      that cap are the ticket's for good. */
  ghost predicate RequestOk(decisions: Decisions, tickets: Tickets, r: Request) {
    && r.coid in tickets
    && var t := tickets[r.coid];
    && t.decisionId in decisions
    && r.symbol == t.ticker && r.side == t.side
    && 1 <= r.qty <= decisions[t.decisionId].qty
    && Risk.Allows(r.sizedOn, r.side, r.qty)
    && (r.settled ==>
          && decisions[t.decisionId].status != Submitted
          && t.sizedOn == r.sizedOn && r.qty <= t.maxQty)
  }

  ghost predicate TablesOk(b: Books) {
    b.decisions.Valid() && b.tickets.Valid() && b.orders.Valid()
  }

  ghost predicate OneTicketEach(tickets: Tickets) {
    forall i, j | i in tickets && j in tickets && tickets[i].decisionId == tickets[j].decisionId :: i == j
  }

  ghost predicate TicketsOk(decisions: Decisions, tickets: Tickets, orders: Orders, book: Book) {
    forall tid | tid in tickets :: TicketOk(decisions, orders, book, tid, tickets[tid])
  }

  ghost predicate HasTicket(tickets: Tickets, did: int) {
    exists tid :: tid in tickets && tickets[tid].decisionId == did
  }

  /** Only a decision with a ticket is ever approved or gets past that. */
  predicate PastGate(s: DecisionStatus) {
    s == Approved || s == Executed || s == Failed || s == Lapsed
  }

  ghost predicate Ticketed(decisions: Decisions, tickets: Tickets) {
    forall did | did in decisions && PastGate(decisions[did].status) :: HasTicket(tickets, did)
  }

  ghost predicate OrdersOk(tids: set<string>, orders: Orders, book: Book) {
    forall oid | oid in orders :: OrderOk(tids, book, oid, orders[oid])
  }

  ghost predicate FillsOk(orders: Orders, events: seq<Event>, book: Book) {
    && (forall i | 0 <= i < |events| && events[i].FillEvent? :: FillOk(orders, book, events[i]))
    && (forall i, j | 0 <= i < j < |events| && events[i].FillEvent? && events[j].FillEvent? ::
          events[i].ticketId != events[j].ticketId)
  }

  ghost predicate BookOk(decisions: Decisions, tickets: Tickets, book: Book) {
    && (forall c | c in book ::
          RequestOk(decisions, tickets, book[c].req) && book[c].req.coid == c && book[c].filled <= book[c].req.qty)
    && (forall c, c' | c in book && c' in book && book[c].id == book[c'].id :: c == c')
  }

  ghost predicate Inv(b: Books, book: Book) {
    && TablesOk(b)
    && OneTicketEach(b.tickets.rows)
    && TicketsOk(b.decisions.rows, b.tickets.rows, b.orders.rows, book)
    && Ticketed(b.decisions.rows, b.tickets.rows)
    && OrdersOk(b.tickets.rows.Keys, b.orders.rows, book)
    && FillsOk(b.orders.rows, b.events, book)
    && BookOk(b.decisions.rows, b.tickets.rows, book)
  }

  // ---- when one commit is lawful ----

  /** A write that changes nothing is lawful; one that lands needs the facts
      the invariant will then assert. */
  ghost predicate Lawful(b: Books, book: Book, c: Commit) {
    Applies(b, c) ==>
      match c
      case MoveDecision(did, f, t) =>
        && DecisionEdge(f, t)
        && (t == Held ==> b.decisions.rows[did].action.Hold?)
        && (t == Approved ==> HasTicket(b.tickets.rows, did))
        && (forall tid | tid in b.tickets.rows && b.tickets.rows[tid].decisionId == did ::
              Backs(t, tid, b.tickets.rows[tid], b.orders.rows, book))
      case MoveTicket(tid, f, t) => TicketEdge(f, t)
      case MoveOrder(oid, f, t) => OrderEdge(f, t) && oid in book && Confirmed(t, book[oid].state)
      case InsertTicket(tid, t) =>
        && t.status == Open
        && var d := b.decisions.rows[t.decisionId];
        && d.status == Submitted
        && d.action == Trade(t.side) && d.ticker == t.ticker && d.stopPrice == t.stopPrice
        && 1 <= t.maxQty <= d.qty && Risk.Allows(t.sizedOn, t.side, t.maxQty)
      case Recap(tid, cap, _, s) =>
        && var t := b.tickets.rows[tid];
        && t.decisionId in b.decisions.rows
        && var d := b.decisions.rows[t.decisionId];
        && d.status == Submitted && 1 <= cap <= d.qty && Risk.Allows(s, t.side, cap)
      case InsertOrder(oid, row) =>
        && row.status == Working && row.fill.None?
        && OrderOk(b.tickets.rows.Keys, book, oid, row)
      case DroppedInsert(_) => true
      case WriteFill(oid, f) =>
        && NoFillYet(b.events, oid) && oid in book && 1 <= f.qty <= book[oid].filled
      case Append(e) => e.FillEvent? ==> FillOk(b.orders.rows, book, e) && NoFillYet(b.events, e.ticketId)
  }

  // ---- a lawful commit keeps the invariant, kind by kind ----

  lemma MoveDecisionKeeps(b: Books, book: Book, c: Commit)
    requires c.MoveDecision? && Applies(b, c) && Lawful(b, book, c)
    requires TicketsOk(b.decisions.rows, b.tickets.rows, b.orders.rows, book)
    requires Ticketed(b.decisions.rows, b.tickets.rows)
    requires BookOk(b.decisions.rows, b.tickets.rows, book)
    ensures var decisions := Do(b, c).decisions.rows;
            && TicketsOk(decisions, b.tickets.rows, b.orders.rows, book)
            && Ticketed(decisions, b.tickets.rows)
            && BookOk(decisions, b.tickets.rows, book)
  {
    var decisions := Do(b, c).decisions.rows;
    forall tid | tid in b.tickets.rows ensures TicketOk(decisions, b.orders.rows, book, tid, b.tickets.rows[tid]) {
      assert TicketOk(b.decisions.rows, b.orders.rows, book, tid, b.tickets.rows[tid]);
    }
    forall k | k in book ensures RequestOk(decisions, b.tickets.rows, book[k].req) {
      assert RequestOk(b.decisions.rows, b.tickets.rows, book[k].req);
    }
  }

  /** How a write may change a ticket: not whose it is or what it names. */
  ghost predicate SameTickets(tickets: Tickets, tickets': Tickets) {
    && tickets'.Keys == tickets.Keys
    && forall tid | tid in tickets ::
         && tickets'[tid].decisionId == tickets[tid].decisionId
         && tickets'[tid].ticker == tickets[tid].ticker && tickets'[tid].side == tickets[tid].side
         && tickets'[tid].stopPrice == tickets[tid].stopPrice
  }

  lemma UpdatedTickets(b: Books, book: Book, c: Commit)
    requires (c.MoveTicket? || c.Recap?) && Applies(b, c) && Lawful(b, book, c)
    requires TicketsOk(b.decisions.rows, b.tickets.rows, b.orders.rows, book)
    ensures SameTickets(b.tickets.rows, Do(b, c).tickets.rows)
    ensures TicketsOk(b.decisions.rows, Do(b, c).tickets.rows, b.orders.rows, book)
  {
    hide Risk.Allows, HoldsShares, DeadWithout;
    var tickets := Do(b, c).tickets.rows;
    forall tid | tid in tickets ensures TicketOk(b.decisions.rows, b.orders.rows, book, tid, tickets[tid]) {
      assert TicketOk(b.decisions.rows, b.orders.rows, book, tid, b.tickets.rows[tid]);
    }
  }

  lemma UpdatedRequests(b: Books, book: Book, c: Commit)
    requires (c.MoveTicket? || c.Recap?) && Applies(b, c) && Lawful(b, book, c)
    requires BookOk(b.decisions.rows, b.tickets.rows, book)
    ensures BookOk(b.decisions.rows, Do(b, c).tickets.rows, book)
  {
    hide Risk.Allows;
    forall k | k in book ensures RequestOk(b.decisions.rows, Do(b, c).tickets.rows, book[k].req) {
      assert RequestOk(b.decisions.rows, b.tickets.rows, book[k].req);
    }
  }

  lemma StillOneEach(tickets: Tickets, tickets': Tickets)
    requires OneTicketEach(tickets) && SameTickets(tickets, tickets')
    ensures OneTicketEach(tickets')
  {
  }

  lemma UpdateTicketKeeps(b: Books, book: Book, c: Commit)
    requires (c.MoveTicket? || c.Recap?) && Applies(b, c) && Lawful(b, book, c)
    requires OneTicketEach(b.tickets.rows)
    requires TicketsOk(b.decisions.rows, b.tickets.rows, b.orders.rows, book)
    requires Ticketed(b.decisions.rows, b.tickets.rows)
    requires BookOk(b.decisions.rows, b.tickets.rows, book)
    ensures var tickets := Do(b, c).tickets.rows;
            && tickets.Keys == b.tickets.rows.Keys
            && OneTicketEach(tickets)
            && TicketsOk(b.decisions.rows, tickets, b.orders.rows, book)
            && Ticketed(b.decisions.rows, tickets)
            && BookOk(b.decisions.rows, tickets, book)
  {
    hide TicketsOk, BookOk, OneTicketEach, Ticketed, Lawful, Do;
    UpdatedTickets(b, book, c);
    UpdatedRequests(b, book, c);
    StillOneEach(b.tickets.rows, Do(b, c).tickets.rows);
    TicketsStillThere(b.decisions.rows, b.tickets.rows, Do(b, c).tickets.rows);
  }

  lemma TicketsStillThere(decisions: Decisions, tickets: Tickets, tickets': Tickets)
    requires Ticketed(decisions, tickets)
    requires forall tid | tid in tickets :: tid in tickets' && tickets'[tid].decisionId == tickets[tid].decisionId
    ensures Ticketed(decisions, tickets')
  {
    forall did | did in decisions && PastGate(decisions[did].status) ensures HasTicket(tickets', did) {
      assert HasTicket(tickets, did);
      var tid :| tid in tickets && tickets[tid].decisionId == did;
      assert tid in tickets' && tickets'[tid].decisionId == did;
    }
  }

  lemma InsertTicketKeeps(b: Books, book: Book, c: Commit)
    requires c.InsertTicket? && Applies(b, c) && Lawful(b, book, c)
    requires OneTicketEach(b.tickets.rows)
    requires TicketsOk(b.decisions.rows, b.tickets.rows, b.orders.rows, book)
    requires Ticketed(b.decisions.rows, b.tickets.rows)
    requires BookOk(b.decisions.rows, b.tickets.rows, book)
    requires OrdersOk(b.tickets.rows.Keys, b.orders.rows, book)
    ensures var tickets := Do(b, c).tickets.rows;
            && OneTicketEach(tickets)
            && TicketsOk(b.decisions.rows, tickets, b.orders.rows, book)
            && Ticketed(b.decisions.rows, tickets)
            && BookOk(b.decisions.rows, tickets, book)
            && OrdersOk(tickets.Keys, b.orders.rows, book)
  {
    var tickets := Do(b, c).tickets.rows;
    TicketsStillThere(b.decisions.rows, b.tickets.rows, tickets);
    forall k | k in book ensures RequestOk(b.decisions.rows, tickets, book[k].req) {
      assert RequestOk(b.decisions.rows, b.tickets.rows, book[k].req);
    }
    forall oid | oid in b.orders.rows ensures OrderOk(tickets.Keys, book, oid, b.orders.rows[oid]) {
      assert OrderOk(b.tickets.rows.Keys, book, oid, b.orders.rows[oid]);
    }
  }

  lemma OrderRowsStand(b: Books, book: Book, c: Commit)
    requires (c.MoveOrder? || c.WriteFill? || c.InsertOrder?) && Applies(b, c) && Lawful(b, book, c)
    requires OrdersOk(b.tickets.rows.Keys, b.orders.rows, book)
    ensures OrdersOk(b.tickets.rows.Keys, Do(b, c).orders.rows, book)
  {
    var orders := Do(b, c).orders.rows;
    forall oid | oid in orders ensures OrderOk(b.tickets.rows.Keys, book, oid, orders[oid]) {
      if oid in b.orders.rows { assert OrderOk(b.tickets.rows.Keys, book, oid, b.orders.rows[oid]); }
    }
  }

  lemma BackingStands(b: Books, book: Book, c: Commit)
    requires (c.MoveOrder? || c.WriteFill? || c.InsertOrder?) && Applies(b, c) && Lawful(b, book, c)
    requires TicketsOk(b.decisions.rows, b.tickets.rows, b.orders.rows, book)
    ensures TicketsOk(b.decisions.rows, b.tickets.rows, Do(b, c).orders.rows, book)
  {
    hide Risk.Allows;
    var orders := Do(b, c).orders.rows;
    forall tid | tid in b.tickets.rows
      ensures TicketOk(b.decisions.rows, orders, book, tid, b.tickets.rows[tid])
    {
      assert TicketOk(b.decisions.rows, b.orders.rows, book, tid, b.tickets.rows[tid]);
    }
  }

  lemma FillsStand(b: Books, book: Book, c: Commit)
    requires (c.MoveOrder? || c.WriteFill? || c.InsertOrder?) && Applies(b, c) && Lawful(b, book, c)
    requires FillsOk(b.orders.rows, b.events, book)
    ensures FillsOk(Do(b, c).orders.rows, b.events, book)
  {
    var orders := Do(b, c).orders.rows;
    forall i | 0 <= i < |b.events| && b.events[i].FillEvent? ensures FillOk(orders, book, b.events[i]) {
      assert FillOk(b.orders.rows, book, b.events[i]);
    }
  }

  lemma OrderRowKeeps(b: Books, book: Book, c: Commit)
    requires (c.MoveOrder? || c.WriteFill? || c.InsertOrder?) && Applies(b, c) && Lawful(b, book, c)
    requires OrdersOk(b.tickets.rows.Keys, b.orders.rows, book)
    requires TicketsOk(b.decisions.rows, b.tickets.rows, b.orders.rows, book)
    requires FillsOk(b.orders.rows, b.events, book)
    ensures var orders := Do(b, c).orders.rows;
            && OrdersOk(b.tickets.rows.Keys, orders, book)
            && TicketsOk(b.decisions.rows, b.tickets.rows, orders, book)
            && FillsOk(orders, b.events, book)
  {
    hide OrdersOk, TicketsOk, FillsOk, Lawful, Do, Applies;
    OrderRowsStand(b, book, c);
    BackingStands(b, book, c);
    FillsStand(b, book, c);
  }

  lemma TablesKeep(b: Books, c: Commit)
    requires TablesOk(b)
    ensures TablesOk(Do(b, c))
  {
    if Applies(b, c) {
      match c
      case InsertTicket(tid, t) => AddKeepsValid(b.tickets, tid, t);
      case InsertOrder(oid, o) => AddKeepsValid(b.orders, oid, o);
      case _ =>
    }
  }

  lemma AppendKeeps(b: Books, book: Book, e: Event)
    requires FillsOk(b.orders.rows, b.events, book) && Lawful(b, book, Append(e))
    ensures FillsOk(b.orders.rows, b.events + [e], book)
  {
    hide FillOk;
  }

  /** What each kind of commit leaves alone. */
  lemma Untouched(b: Books, c: Commit)
    ensures var b' := Do(b, c);
            && (!c.MoveDecision? ==> b'.decisions == b.decisions)
            && (!c.MoveTicket? && !c.Recap? && !c.InsertTicket? ==> b'.tickets == b.tickets)
            && (!c.MoveOrder? && !c.InsertOrder? && !c.WriteFill? ==> b'.orders == b.orders)
            && (!c.Append? ==> b'.events == b.events)
            && (c.Append? ==> b'.events == b.events + [c.event])
            && (!Applies(b, c) ==> b' == b)
            && (c.DroppedInsert? ==> !Applies(b, c))
  {
  }

  lemma LawfulKeeps(b: Books, book: Book, c: Commit)
    requires Inv(b, book) && Lawful(b, book, c)
    ensures Inv(Do(b, c), book)
  {
    hide TablesOk, OneTicketEach, TicketsOk, Ticketed, OrdersOk, FillsOk, BookOk, Lawful, Do, Applies;
    Untouched(b, c);
    TablesKeep(b, c);
    if Applies(b, c) {
      match c
      case MoveDecision(_, _, _) => MoveDecisionKeeps(b, book, c);
      case InsertTicket(_, _) => InsertTicketKeeps(b, book, c);
      case MoveTicket(_, _, _) => UpdateTicketKeeps(b, book, c);
      case Recap(_, _, _, _) => UpdateTicketKeeps(b, book, c);
      case Append(e) => AppendKeeps(b, book, e);
      case DroppedInsert(_) =>
      case _ => OrderRowKeeps(b, book, c);
    }
  }
}
