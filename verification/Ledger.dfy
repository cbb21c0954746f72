/** The database connection every process works through: each statement is
    committed at once, and the trail of commits is what a crash can cut. */
module Ledger {
  import opened Records
  import opened FundTables
  import opened Broker
  import opened Plans
  import Aftermath
  import Risk

  datatype Insertion = Inserted | Ignored | NoTicketRow

  class Connection {
    var decisions: Table<int, Decision>
    var tickets: Table<string, Ticket>
    var orders: Table<string, Order>
    var events: seq<Event>

    ghost var base: Books          // the state when the trail began
    ghost var trail: seq<Commit>   // every statement executed since

    function View(): Books reads this { Books(decisions, tickets, orders, events) }

    ghost predicate Valid() reads this { View() == DoAll(base, trail) }

    constructor (b: Books)
      ensures Valid() && View() == b && trail == []
    {
      decisions, tickets, orders, events := b.decisions, b.tickets, b.orders, b.events;
      base, trail := b, [];
    }

    /** Exactly these commits ran, in this order, since the old state. */
    twostate predicate Ran(cs: seq<Commit>) reads this {
      && View() == DoAll(old(View()), cs)
      && trail == old(trail) + cs && base == old(base)
    }

    twostate lemma TrailTells(cs: seq<Commit>)
      requires old(Valid()) && Valid() && base == old(base) && trail == old(trail) + cs
      ensures Ran(cs)
    {
      DoAllConcat(base, old(trail), cs);
    }

    // ---- state/transition.py: try_transition, one per table ----

    method TryMoveDecision(id: int, f: DecisionStatus, t: DecisionStatus) returns (moved: bool)
      requires Valid() && DecisionEdge(f, t)
      modifies this
      ensures Valid() && base == old(base) && trail == old(trail) + [MoveDecision(id, f, t)]
      ensures View() == Do(old(View()), MoveDecision(id, f, t))
      ensures moved == Applies(old(View()), MoveDecision(id, f, t))
    {
      moved := id in decisions.rows && decisions.rows[id].status == f;
      if moved { decisions := Put(decisions, id, decisions.rows[id].(status := t)); }
      Log(MoveDecision(id, f, t));
    }

    method TryMoveTicket(id: string, f: TicketStatus, t: TicketStatus) returns (moved: bool)
      requires Valid() && TicketEdge(f, t)
      modifies this
      ensures Valid() && base == old(base) && trail == old(trail) + [MoveTicket(id, f, t)]
      ensures View() == Do(old(View()), MoveTicket(id, f, t))
      ensures moved == Applies(old(View()), MoveTicket(id, f, t))
    {
      moved := id in tickets.rows && tickets.rows[id].status == f;
      if moved { tickets := Put(tickets, id, tickets.rows[id].(status := t)); }
      Log(MoveTicket(id, f, t));
    }

    method TryMoveOrder(id: string, f: OrderStatus, t: OrderStatus) returns (moved: bool)
      requires Valid() && OrderEdge(f, t)
      modifies this
      ensures Valid() && base == old(base) && trail == old(trail) + [MoveOrder(id, f, t)]
      ensures View() == Do(old(View()), MoveOrder(id, f, t))
      ensures moved == Applies(old(View()), MoveOrder(id, f, t))
    {
      moved := id in orders.rows && orders.rows[id].status == f;
      if moved { orders := Put(orders, id, orders.rows[id].(status := t)); }
      Log(MoveOrder(id, f, t));
    }

    // ---- the other statements ----

    /** INSERT OR IGNORE INTO orders. A null in a NOT NULL column, a repeated
        key and a taken broker id are skipped; a missing ticket raises. */
    method InsertOrderRow(id: string, brokerId: Option<string>, symbol: Option<string>, side: Option<Side>, qty: int)
      returns (r: Insertion)
      requires Valid()
      modifies this
      ensures Valid() && base == old(base)
      ensures symbol.None? || side.None? ==>
                r == Ignored && trail == old(trail) + [DroppedInsert(id)] && View() == old(View())
      ensures symbol.Some? && side.Some? ==>
                var insert := InsertOrder(id, Order(brokerId, symbol.value, side.value, qty, Working, None));
                if ForeignKeyFails(old(View()), id, brokerId)
                then r == NoTicketRow && trail == old(trail) && View() == old(View())
                else
                  && r == (if Applies(old(View()), insert) then Inserted else Ignored)
                  && trail == old(trail) + [insert] && View() == Do(old(View()), insert)
    {
      if symbol.None? || side.None? {
        Log(DroppedInsert(id));
        return Ignored;
      }
      if ForeignKeyFails(View(), id, brokerId) { return NoTicketRow; }
      var row := Order(brokerId, symbol.value, side.value, qty, Working, None);
      r := Ignored;
      if Applies(View(), InsertOrder(id, row)) {
        r := Inserted;
        orders := Add(orders, id, row);
      }
      Log(InsertOrder(id, row));
    }

    method UpdateFill(id: string, f: Fill)
      requires Valid()
      modifies this
      ensures Valid() && base == old(base) && trail == old(trail) + [WriteFill(id, f)]
      ensures View() == Do(old(View()), WriteFill(id, f))
    {
      if id in orders.rows { orders := Put(orders, id, orders.rows[id].(fill := Some(f))); }
      Log(WriteFill(id, f));
    }

    method InsertTicketRow(id: string, t: Ticket) returns (inserted: bool)
      requires Valid()
      modifies this
      ensures Valid() && base == old(base) && trail == old(trail) + [InsertTicket(id, t)]
      ensures View() == Do(old(View()), InsertTicket(id, t))
      ensures inserted == Applies(old(View()), InsertTicket(id, t))
    {
      inserted := Applies(View(), InsertTicket(id, t));
      if inserted { tickets := Add(tickets, id, t); }
      Log(InsertTicket(id, t));
    }

    method RecapTicket(id: string, cap: int, expires: int, s: Risk.Snapshot)
      requires Valid()
      modifies this
      ensures Valid() && base == old(base) && trail == old(trail) + [Recap(id, cap, expires, s)]
      ensures View() == Do(old(View()), Recap(id, cap, expires, s))
    {
      if id in tickets.rows && tickets.rows[id].status == Open {
        tickets := Put(tickets, id, tickets.rows[id].(maxQty := cap, expiresAt := expires, sizedOn := s));
      }
      Log(Recap(id, cap, expires, s));
    }

    method AppendEvent(e: Event)
      requires Valid()
      modifies this
      ensures Valid() && base == old(base) && trail == old(trail) + [Append(e)]
      ensures View() == Do(old(View()), Append(e))
    {
      events := events + [e];
      Log(Append(e));
    }

    ghost method Log(c: Commit)
      requires View() == Do(DoAll(base, trail), c)
      modifies this`trail
      ensures Valid() && trail == old(trail) + [c]
    {
      DoAllSnoc(base, trail, c);
      trail := trail + [c];
    }
  }

  // ---- what follows a winning move to 'filled' ----

  method FinishFill(db: Connection, coid: string, symbol: Option<string>, side: Option<Side>, f: Fill, alerting: bool)
    requires db.Valid()
    modifies db
    ensures db.Valid() && db.base == old(db.base)
    ensures db.trail == old(db.trail) + FilledTail(old(db.View()), coid, symbol, side, f, alerting)
  {
    hide DoAll;
    db.AppendEvent(FillEvent(coid, symbol, side, f));
    if coid in db.tickets.rows {
      var decided := db.TryMoveDecision(db.tickets.rows[coid].decisionId, Approved, Executed);
      if alerting && !decided { db.AppendEvent(Alert(FillOnUnapprovedDecision, coid)); }
    }
  }

  // ---- agents/runtime.py: the PostToolUse hook ----

  method RecordFill(db: Connection, coid: string, symbol: Option<string>, side: Option<Side>, f: Fill)
    requires db.Valid()
    modifies db
    ensures db.Valid() && db.base == old(db.base)
    ensures db.trail == old(db.trail) + RecordFillPlan(old(db.View()), coid, symbol, side, f)
  {
    hide DoAll;
    var moved := db.TryMoveOrder(coid, Working, Filled);
    if moved {
      db.UpdateFill(coid, f);
      FinishFill(db, coid, symbol, side, f, false);
    }
  }

  method RecordOrder(db: Connection, o: Echo)
    requires db.Valid()
    modifies db
    ensures db.Valid() && db.Ran(RecordPlan(old(db.View()), o))
    ensures Aftermath.AsRecorded(old(db.View()), db.View(), o)
  {
    hide DoAll, Do, FilledTail, Aftermath.AsRecorded;
    var qty := RecorderQty(o.qty);
    if o.coid.Some? && !o.symbol.Absent? && !o.side.Absent? && qty.Some? {
      var coid := o.coid.value;
      DropDoesNothing(db.View(), coid);
      var r := db.InsertOrderRow(coid, o.id, OrNone(o.symbol), OrNone(o.side), qty.value);
      if !r.NoTicketRow? {
        var _ := db.TryMoveTicket(coid, Open, Consumed);
        if o.status.WFilled? {
          var f := ParseFill(o);
          if f.Some? { RecordFill(db, coid, OrNone(o.symbol), OrNone(o.side), f.value); }
        }
      }
    }
    db.TrailTells(RecordPlan(old(db.View()), o));
    Aftermath.RecordLeaves(old(db.View()), o);
  }

  lemma DropDoesNothing(b: Books, oid: string)
    ensures Do(b, DroppedInsert(oid)) == b
  {
  }

  // ---- orchestrator/reconcile.py: one order ----

  method Apply(db: Connection, coid: string, o: Echo) returns (out: Outcome)
    requires db.Valid() && coid in db.orders.rows
    modifies db
    ensures db.Valid() && db.Ran(ApplyPlan(old(db.View()), coid, o))
    ensures out == ApplyOutcome(old(db.View()), coid, o)
    ensures Aftermath.AsPolled(old(db.View()), db.View(), coid, o)
  {
    Aftermath.PollLeaves(db.View(), coid, o);
    hide Aftermath.AsPolled;
    hide DoAll, Do, FilledTail, ApplyPlan;
    out := Kept;
    if o.status.WFilled? {
      out := ApplyFilled(db, coid, o);
    } else if o.status.WPartial? {
      out := ApplyPartial(db, coid, o);
    } else {
      NothingToApply(db.View(), coid, o);
    }
    db.TrailTells(ApplyPlan(old(db.View()), coid, o));
  }

  lemma NothingToApply(b: Books, coid: string, o: Echo)
    requires coid in b.orders.rows && !(o.status.WFilled? || o.status.WPartial?)
    ensures ApplyPlan(b, coid, o) == []
  {
  }

  method ApplyFilled(db: Connection, coid: string, o: Echo) returns (out: Outcome)
    requires db.Valid() && coid in db.orders.rows && o.status.WFilled?
    modifies db
    ensures db.Valid() && db.base == old(db.base)
    ensures db.trail == old(db.trail) + ApplyPlan(old(db.View()), coid, o)
    ensures out == ApplyOutcome(old(db.View()), coid, o)
  {
    hide DoAll, FilledTail;
    var row := db.orders.rows[coid];
    var f := ParseFill(o);
    if f.None? { return Raise; }
    db.UpdateFill(coid, f.value);
    var moved := db.TryMoveOrder(coid, Working, Filled);
    if !moved { moved := db.TryMoveOrder(coid, Partial, Filled); }
    out := Kept;
    if moved {
      out := Moved;
      TailReadsTickets(old(db.View()), db.View(), coid, Some(row.symbol), Some(row.side), f.value, true);
      FinishFill(db, coid, Some(row.symbol), Some(row.side), f.value, true);
    }
  }

  method ApplyPartial(db: Connection, coid: string, o: Echo) returns (out: Outcome)
    requires db.Valid() && coid in db.orders.rows && o.status.WPartial?
    modifies db
    ensures db.Valid() && db.base == old(db.base)
    ensures db.trail == old(db.trail) + ApplyPlan(old(db.View()), coid, o)
    ensures out == ApplyOutcome(old(db.View()), coid, o)
  {
    hide DoAll, FilledTail;
    var f := ParseFill(o);
    if f.None? { return Raise; }
    out := Kept;
    db.UpdateFill(coid, f.value);
    var moved := db.TryMoveOrder(coid, Working, Partial);
    if moved { db.AppendEvent(Alert(PartialFillManualReview, coid)); }
  }

  /** The tail depends on the tickets and the decisions alone. */
  lemma TailReadsTickets(b: Books, b': Books, coid: string, symbol: Option<string>, side: Option<Side>, f: Fill, alerting: bool)
    requires b.tickets == b'.tickets && b.decisions == b'.decisions
    ensures FilledTail(b, coid, symbol, side, f, alerting) == FilledTail(b', coid, symbol, side, f, alerting)
  {
  }

  /** True when closing an order records a fill that won the race. */
  predicate CloseFilled(b: Books, coid: string, a: Answer) {
    a.Got? && coid in b.orders.rows && ApplyOutcome(b, coid, a.o).Moved?
  }

  method TimeoutClose(db: Connection, coid: string, a: Answer) returns (filled: bool)
    requires db.Valid()
    modifies db
    ensures db.Valid() && db.Ran(ClosePlan(old(db.View()), coid, a))
    ensures filled == CloseFilled(old(db.View()), coid, a)
    ensures Aftermath.AsClosed(old(db.View()), db.View(), coid, a)
  {
    Aftermath.CloseLeaves(db.View(), coid, a);
    hide Aftermath.AsClosed;
    hide DoAll;
    ghost var b := db.View();
    filled := false;
    if !a.Got? {
      db.AppendEvent(Alert(OrderUnreconciled, coid));
    } else if a.o.status.WFilled? || a.o.status.WPartial? {
      if coid !in db.orders.rows {
        db.AppendEvent(Alert(OrderUnreconciled, coid));
      } else {
        var out := Apply(db, coid, a.o);
        filled := out.Moved?;
        if out.Raise? { db.AppendEvent(Alert(OrderUnreconciled, coid)); }
      }
    } else if ConfirmedDead(a.o.status).None? || coid !in db.orders.rows {
      db.AppendEvent(Alert(OrderUnreconciled, coid));
    } else {
      RecordDead(db, coid, a);
    }
    db.TrailTells(ClosePlan(b, coid, a));
  }

  method RecordDead(db: Connection, coid: string, a: Answer)
    requires db.Valid() && a.Got? && ConfirmedDead(a.o.status).Some? && coid in db.orders.rows
    modifies db
    ensures db.Valid() && db.base == old(db.base)
    ensures db.trail == old(db.trail) + ClosePlan(old(db.View()), coid, a)
  {
    hide DoAll;
    var row := db.orders.rows[coid];
    var dead := ConfirmedDead(a.o.status).value;
    if !OrderEdge(row.status, dead) {
      db.AppendEvent(Alert(OrderUnreconciled, coid));
      return;
    }
    match ParseDeadFill(a.o)
    case Unreadable =>
      db.AppendEvent(Alert(OrderUnreconciled, coid));
    case NoShares =>
      var moved := db.TryMoveOrder(coid, row.status, dead);
      if moved {
        if coid in db.tickets.rows {
          var _ := db.TryMoveDecision(db.tickets.rows[coid].decisionId, Approved, Failed);
        }
        db.AppendEvent(Alert(OrderUnfilledAtCap, coid));
      }
    case Shares(f) =>
      db.UpdateFill(coid, f);
      var moved := db.TryMoveOrder(coid, row.status, dead);
      if moved {
        FinishFill(db, coid, Some(row.symbol), Some(row.side), f, false);
        db.AppendEvent(Alert(OrderPartialThenDead, coid));
      }
  }

  /** One iteration of the recovery loop; true when the ticket's move won. */
  method RecoverOne(db: Connection, tid: string, a: Answer) returns (won: bool)
    requires db.Valid() && tid in db.tickets.rows
    modifies db
    ensures db.Valid() && db.Ran(RecoverPlan(old(db.View()), tid, a))
    ensures won == Recovers(old(db.View()), tid, a)
    ensures Aftermath.AsRecovered(old(db.View()), db.View(), tid, a)
  {
    Aftermath.RecoverLeaves(db.View(), tid, a);
    hide Aftermath.AsRecovered;
    hide DoAll;
    ghost var b := db.View();
    var t := db.tickets.rows[tid];
    won := false;
    match a
    case Raised =>
      db.AppendEvent(Alert(OrderRecoveryFailed, tid));
      db.TrailTells(RecoverPlan(b, tid, a));
    case Nothing =>
      db.TrailTells(RecoverPlan(b, tid, a));
    case Got(o) =>
      var qty := RecoverableQty(o, tid, t);
      if qty.None? {
        db.AppendEvent(Alert(OrderRecoveryMismatch, tid));
      } else {
        var r := db.InsertOrderRow(tid, o.id, Some(t.ticker), Some(t.side), qty.value);
        if r != Inserted {
          db.AppendEvent(Alert(OrderRecoveryUnwritable, tid));
        } else {
          won := db.TryMoveTicket(tid, Open, Consumed);
          if won { db.AppendEvent(Alert(OrderRecovered, tid)); }
        }
      }
      db.TrailTells(RecoverPlan(b, tid, a));
  }
}
