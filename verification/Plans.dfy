/** Each operation on the order lifecycle as the list of commits it makes from
    a given state and a given broker answer, in the source's order. Dying in
    the middle leaves the state after a prefix of the list. */
module Plans {
  import opened Records
  import opened FundTables
  import opened Broker
  import Risk

  // ---- agents/runtime.py: record_order ----

  /** The tail that runs once an order's move to 'filled' won: the fill event,
      then the decision. `alerting` is reconcile's extra report on a decision
      that was not 'approved'. */
  function FilledTail(b: Books, coid: string, symbol: Option<string>, side: Option<Side>, f: Fill, alerting: bool): seq<Commit> {
    [Append(FillEvent(coid, symbol, side, f))] +
    if coid !in b.tickets.rows then []
    else
      var did := b.tickets.rows[coid].decisionId;
      [MoveDecision(did, Approved, Executed)] +
      if alerting && !Applies(b, MoveDecision(did, Approved, Executed))
      then [Append(Alert(FillOnUnapprovedDecision, coid))] else []
  }

  /** The recorder's move to 'filled'. It swaps the status before it writes
      the numbers. */
  function RecordFillPlan(b: Books, coid: string, symbol: Option<string>, side: Option<Side>, f: Fill): seq<Commit> {
    [MoveOrder(coid, Working, Filled)] +
    if !Applies(b, MoveOrder(coid, Working, Filled)) then []
    else [WriteFill(coid, f)] + FilledTail(b, coid, symbol, side, f, false)
  }

  /** The row an INSERT writes for an order payload or a recovered order. */
  function NewRow(o: Echo, symbol: string, side: Side, qty: int): Order {
    Order(o.id, symbol, side, qty, Working, None)
  }

  /** What Python holds for a field that is there: None for null. */
  function OrNone<T>(e: Entry<T>): Option<T> { if e.Given? then Some(e.value) else None }

  /** Every key the INSERT reads is there and the quantity is a number, so the
      statement is executed at all. */
  predicate Readable(o: Echo) {
    o.coid.Some? && !o.symbol.Absent? && !o.side.Absent? && RecorderQty(o.qty).Some?
  }

  /** ... but a NOT NULL column would get a null. */
  predicate NullNamed(o: Echo) { o.symbol.IsNull? || o.side.IsNull? }

  /** The recorder's INSERT OR IGNORE: a null is skipped without a word. */
  function RecordInsert(o: Echo): Commit
    requires Readable(o)
  {
    if NullNamed(o) then DroppedInsert(o.coid.value)
    else InsertOrder(o.coid.value, NewRow(o, o.symbol.value, o.side.value, RecorderQty(o.qty).value))
  }

  /** PostToolUse on a place_* response. A payload without a key the INSERT
      reads, or an order under no ticket, raises and writes nothing. Nobody asks
      whether the row landed: the ticket moves either way. */
  function RecordPlan(b: Books, o: Echo): seq<Commit> {
    if !Readable(o) || (!NullNamed(o) && ForeignKeyFails(b, o.coid.value, o.id)) then []
    else
      var coid := o.coid.value;
      var insert, consume := RecordInsert(o), MoveTicket(coid, Open, Consumed);
      [insert, consume] +
      if !o.status.WFilled? || ParseFill(o).None? then []
      else RecordFillPlan(Do(Do(b, insert), consume), coid, OrNone(o.symbol), OrNone(o.side), ParseFill(o).value)
  }

  // ---- orchestrator/reconcile.py ----

  datatype Outcome = Raise | Moved | Kept

  /** _apply: mirror one broker payload into a pending row. */
  function ApplyPlan(b: Books, coid: string, o: Echo): seq<Commit>
    requires coid in b.orders.rows
  {
    var row := b.orders.rows[coid];
    if !(o.status.WFilled? || o.status.WPartial?) || ParseFill(o).None? then []
    else
      var f := ParseFill(o).value;
      if o.status.WPartial? then
        [WriteFill(coid, f), MoveOrder(coid, Working, Partial)] +
        if row.status == Working then [Append(Alert(PartialFillManualReview, coid))] else []
      else
        [WriteFill(coid, f), MoveOrder(coid, Working, Filled)] +
        (if row.status == Working then [] else [MoveOrder(coid, Partial, Filled)]) +
        if Pending(row.status) then FilledTail(b, coid, Some(row.symbol), Some(row.side), f, true) else []
  }

  function ApplyOutcome(b: Books, coid: string, o: Echo): Outcome
    requires coid in b.orders.rows
  {
    if !(o.status.WFilled? || o.status.WPartial?) then Kept
    else if ParseFill(o).None? then Raise
    else if o.status.WFilled? && Pending(b.orders.rows[coid].status) then Moved
    else Kept
  }

  /** One iteration of the poll loop. */
  function PollPlan(b: Books, coid: string, a: Answer): seq<Commit>
    requires coid in b.orders.rows
  {
    if a.Got? then ApplyPlan(b, coid, a.o) else []
  }

  /** _timeout_close after the cancel request: what the re-query's answer lets
      the fund record. */
  function ClosePlan(b: Books, coid: string, a: Answer): seq<Commit> {
    var unreconciled := [Append(Alert(OrderUnreconciled, coid))];
    if !a.Got? then unreconciled
    else if a.o.status.WFilled? || a.o.status.WPartial? then
      if coid !in b.orders.rows || ApplyOutcome(b, coid, a.o).Raise? then unreconciled
      else ApplyPlan(b, coid, a.o)
    else if ConfirmedDead(a.o.status).None? || coid !in b.orders.rows then unreconciled
    else
      var dead := ConfirmedDead(a.o.status).value;
      var row := b.orders.rows[coid];
      if !OrderEdge(row.status, dead) then unreconciled
      else match ParseDeadFill(a.o)
        case Unreadable => unreconciled
        case NoShares =>
          [MoveOrder(coid, row.status, dead)] + DecisionTail(b, coid, Failed)
          + [Append(Alert(OrderUnfilledAtCap, coid))]
        case Shares(f) =>
          [WriteFill(coid, f), MoveOrder(coid, row.status, dead),
           Append(FillEvent(coid, Some(row.symbol), Some(row.side), f))]
          + DecisionTail(b, coid, Executed)
          + [Append(Alert(OrderPartialThenDead, coid))]
  }

  function DecisionTail(b: Books, coid: string, to: DecisionStatus): seq<Commit> {
    if coid in b.tickets.rows then [MoveDecision(b.tickets.rows[coid].decisionId, Approved, to)] else []
  }

  /** One iteration of recover_lost_orders, for an open ticket with no row. */
  function RecoverPlan(b: Books, tid: string, a: Answer): seq<Commit>
    requires tid in b.tickets.rows
  {
    var t := b.tickets.rows[tid];
    match a
    case Raised => [Append(Alert(OrderRecoveryFailed, tid))]
    case Nothing => []
    case Got(o) =>
      match RecoverableQty(o, tid, t)
      case None => [Append(Alert(OrderRecoveryMismatch, tid))]
      case Some(qty) =>
        var insert := InsertOrder(tid, NewRow(o, t.ticker, t.side, qty));
        [insert] +
        if !Applies(b, insert) then [Append(Alert(OrderRecoveryUnwritable, tid))]
        else
          [MoveTicket(tid, Open, Consumed)] +
          if t.status == Open then [Append(Alert(OrderRecovered, tid))] else []
  }

  /** This call's insert and ticket move both won: what the count counts. */
  predicate Recovers(b: Books, tid: string, a: Answer)
    requires tid in b.tickets.rows
  {
    var t := b.tickets.rows[tid];
    && a.Got? && RecoverableQty(a.o, tid, t).Some? && t.status == Open
    && Applies(b, InsertOrder(tid, NewRow(a.o, t.ticker, t.side, RecoverableQty(a.o, tid, t).value)))
  }

  // ---- gate/tickets.py: expire_open_tickets, one ticket ----

  function ExpirePlan(b: Books, tid: string, now: int): seq<Commit>
    requires tid in b.tickets.rows
  {
    var t := b.tickets.rows[tid];
    if t.status != Open || now < t.expiresAt then []
    else [MoveTicket(tid, Open, Expired), MoveDecision(t.decisionId, Approved, Lapsed)]
  }

  // ---- orchestrator/daily.py: the gate stage, one decision ----

  /** _gate_reject: close a live ticket first, then the decision. */
  function RejectPlan(b: Books, did: int, reason: Option<Risk.Reason>): seq<Commit> {
    (match TicketFor(b.tickets, did)
     case Some(tid) => if b.tickets.rows[tid].status == Open then [MoveTicket(tid, Open, Expired)] else []
     case None => [])
    + [MoveDecision(did, Submitted, Rejected)]
    + if Applies(b, MoveDecision(did, Submitted, Rejected)) then [Append(GateRejected(did, reason))] else []
  }

  /** The gate caps the ask and never sizes it up. */
  function CappedQty(d: Decision, s: Risk.Snapshot): int {
    if d.action.Hold? then 0
    else match Risk.Size(s, d.action.side)
      case Approved(m, _) => Risk.Min(d.qty, m)
      case Rejected(_) => 0
  }

  function RejectReason(d: Decision, s: Risk.Snapshot): Option<Risk.Reason> {
    if d.action.Hold? then None
    else match Risk.Size(s, d.action.side)
      case Approved(_, _) => None       // 'zero_qty'
      case Rejected(r) => Some(r)
  }

  /** _gate_handle up to the point it raises, if it does: minting a ticket
      under an id already in use is a constraint failure. */
  datatype Handled = Handled(commits: seq<Commit>, raises: bool)

  function HandlePlan(b: Books, did: int, s: Risk.Snapshot, expiresAt: int, newId: string): Handled
    requires did in b.decisions.rows
  {
    var d := b.decisions.rows[did];
    if d.action.Hold? then Handled([MoveDecision(did, Submitted, Held)], false)
    else
      var cap := CappedQty(d, s);
      if cap < 1 then Handled(RejectPlan(b, did, RejectReason(d, s)), false)
      else
        var existing := TicketFor(b.tickets, did);
        var minted := InsertTicket(newId, Ticket(did, d.ticker, d.action.side, cap, d.stopPrice, expiresAt, Open, s));
        if existing.None? && !Applies(b, minted) then Handled([], true)
        else
          var tid := if existing.Some? then existing.value else newId;
          Handled(
            [if existing.Some? then Recap(tid, cap, expiresAt, s) else minted,
             MoveDecision(did, Submitted, Approved)]
            + if d.status == Submitted then [Append(GateApproved(tid, cap))] else [],
            false)
  }

  /** run_gate's try/except around one decision: a raise after any number of
      commits rejects that decision alone. */
  function GatePlan(b: Books, did: int, s: Risk.Snapshot, expiresAt: int, newId: string, raiseAt: Option<nat>): seq<Commit>
    requires did in b.decisions.rows
  {
    var h := HandlePlan(b, did, s, expiresAt, newId);
    var cut := if raiseAt.Some? && raiseAt.value <= |h.commits| then raiseAt.value else |h.commits|;
    if h.raises || (raiseAt.Some? && raiseAt.value <= |h.commits|)
    then h.commits[..cut] + RejectPlan(DoAll(b, h.commits[..cut]), did, Some(Risk.GateError))
    else h.commits
  }
}
