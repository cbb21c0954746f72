/** Orders do not interfere: each operation touches one order, its ticket, its
    decision and its fill events, and what it does there depends on nothing
    else. */
module OneOrder {
  import opened Records
  import opened FundTables
  import opened Broker
  import opened Plans
  import opened Safety

  /** Everything the fund knows about one order; alerts aside. */
  datatype Slice = Slice(
    order: Option<Order>, ticket: Option<Ticket>, decision: Option<Decision>, fills: seq<Event>)

  function SliceOf(b: Books, c: string): Slice {
    Slice(
      if c in b.orders.rows then Some(b.orders.rows[c]) else None,
      if c in b.tickets.rows then Some(b.tickets.rows[c]) else None,
      if c in b.tickets.rows && b.tickets.rows[c].decisionId in b.decisions.rows
      then Some(b.decisions.rows[b.tickets.rows[c].decisionId]) else None,
      FillsFor(b.events, c))
  }

  predicate IsFillOf(e: Event, c: string) { e.FillEvent? && e.ticketId == c }

  function FillsFor(events: seq<Event>, c: string): seq<Event>
    decreases |events|
  {
    if events == [] then []
    else
      FillsFor(events[..|events| - 1], c)
      + if IsFillOf(events[|events| - 1], c) then [events[|events| - 1]] else []
  }

  lemma FillsForSnoc(events: seq<Event>, e: Event, c: string)
    ensures FillsFor(events + [e], c) == FillsFor(events, c) + if IsFillOf(e, c) then [e] else []
  {
    assert (events + [e])[..|events|] == events;
  }

  /** Every order has its ticket, and no decision has two. */
  ghost predicate Keyed(b: Books) {
    && b.orders.Valid()
    && OneTicketEach(b.tickets.rows)
    && (forall c | c in b.orders.rows :: c in b.tickets.rows)
  }

  /** A commit about this order and nothing else. */
  ghost predicate Concerns(m: Commit, c: string, did: int) {
    match m
    case MoveDecision(d, _, _) => d == did
    case MoveTicket(t, _, _) => t == c
    case MoveOrder(o, _, _) => o == c
    case InsertOrder(o, _) => o == c
    case DroppedInsert(o) => o == c
    case WriteFill(o, _) => o == c
    case Append(e) => e.FillEvent? ==> e.ticketId == c
    case _ => false
  }

  ghost predicate AllConcern(cs: seq<Commit>, c: string, did: int) {
    forall i | 0 <= i < |cs| :: Concerns(cs[i], c, did)
  }

  // ---- one commit ----

  lemma DoKeepsKeyed(b: Books, m: Commit, c: string, did: int)
    requires Keyed(b) && Concerns(m, c, did)
    ensures Keyed(Do(b, m))
    ensures Do(b, m).tickets.rows.Keys == b.tickets.rows.Keys
    ensures forall t | t in b.tickets.rows :: Do(b, m).tickets.rows[t].decisionId == b.tickets.rows[t].decisionId
    ensures forall o | o in b.orders.rows :: o in Do(b, m).orders.rows
  {
    if m.InsertOrder? { AddKeepsValid(b.orders, m.newOid, m.order); }
  }

  lemma DoApart(b: Books, m: Commit, c: string, other: string)
    requires Keyed(b) && c in b.tickets.rows && other != c
    requires Concerns(m, c, b.tickets.rows[c].decisionId)
    ensures SliceOf(Do(b, m), other) == SliceOf(b, other)
    ensures other in b.orders.rows <==> other in Do(b, m).orders.rows
  {
    if m.Append? { FillsForSnoc(b.events, m.event, other); }
    if other in b.tickets.rows {
      assert b.tickets.rows[other].decisionId != b.tickets.rows[c].decisionId;
    }
  }

  lemma DoSame(b: Books, b': Books, m: Commit, c: string)
    requires SliceOf(b, c) == SliceOf(b', c) && c in b.tickets.rows
    requires Concerns(m, c, b.tickets.rows[c].decisionId)
    requires m.InsertOrder? ==> (Applies(b, m) <==> Applies(b', m))
    ensures SliceOf(Do(b, m), c) == SliceOf(Do(b', m), c)
  {
    assert c in b'.tickets.rows && b'.tickets.rows[c] == b.tickets.rows[c];
    if m.Append? {
      FillsForSnoc(b.events, m.event, c);
      FillsForSnoc(b'.events, m.event, c);
    }
  }

  // ---- a whole plan ----

  lemma {:induction false} RunKeepsKeyed(b: Books, cs: seq<Commit>, c: string, did: int)
    requires Keyed(b) && AllConcern(cs, c, did)
    ensures Keyed(DoAll(b, cs))
    ensures DoAll(b, cs).tickets.rows.Keys == b.tickets.rows.Keys
    ensures forall t | t in b.tickets.rows :: DoAll(b, cs).tickets.rows[t].decisionId == b.tickets.rows[t].decisionId
    ensures forall o | o in b.orders.rows :: o in DoAll(b, cs).orders.rows
    decreases |cs|
  {
    hide Do, Keyed, Concerns;
    if cs != [] {
      DoKeepsKeyed(b, cs[0], c, did);
      assert AllConcern(cs[1..], c, did);
      RunKeepsKeyed(Do(b, cs[0]), cs[1..], c, did);
    }
  }

  lemma {:induction false} RunApart(b: Books, cs: seq<Commit>, c: string, other: string)
    requires Keyed(b) && c in b.tickets.rows && other != c
    requires AllConcern(cs, c, b.tickets.rows[c].decisionId)
    ensures SliceOf(DoAll(b, cs), other) == SliceOf(b, other)
    ensures other in b.orders.rows <==> other in DoAll(b, cs).orders.rows
    decreases |cs|
  {
    hide Do, Keyed, Concerns, SliceOf;
    if cs != [] {
      DoApart(b, cs[0], c, other);
      DoKeepsKeyed(b, cs[0], c, b.tickets.rows[c].decisionId);
      assert AllConcern(cs[1..], c, b.tickets.rows[c].decisionId);
      RunApart(Do(b, cs[0]), cs[1..], c, other);
    }
  }

  lemma {:induction false} RunSame(b: Books, b': Books, cs: seq<Commit>, c: string)
    requires Keyed(b) && SliceOf(b, c) == SliceOf(b', c) && c in b.tickets.rows
    requires AllConcern(cs, c, b.tickets.rows[c].decisionId)
    requires forall i | 0 <= i < |cs| :: !cs[i].InsertOrder?
    ensures SliceOf(DoAll(b, cs), c) == SliceOf(DoAll(b', cs), c)
    decreases |cs|
  {
    hide Do, Keyed, Concerns, SliceOf;
    if cs != [] {
      DoSame(b, b', cs[0], c);
      DoKeepsKeyed(b, cs[0], c, b.tickets.rows[c].decisionId);
      assert AllConcern(cs[1..], c, b.tickets.rows[c].decisionId);
      RunSame(Do(b, cs[0]), Do(b', cs[0]), cs[1..], c);
    }
  }

  // ---- the plans concern their order only, and read nothing else ----

  lemma PollConcerns(b: Books, c: string, a: Answer)
    requires c in b.orders.rows && c in b.tickets.rows
    ensures AllConcern(PollPlan(b, c, a), c, b.tickets.rows[c].decisionId)
    ensures forall i | 0 <= i < |PollPlan(b, c, a)| :: !PollPlan(b, c, a)[i].InsertOrder?
  {
  }

  lemma CloseConcerns(b: Books, c: string, a: Answer)
    requires c in b.orders.rows && c in b.tickets.rows
    ensures AllConcern(ClosePlan(b, c, a), c, b.tickets.rows[c].decisionId)
    ensures forall i | 0 <= i < |ClosePlan(b, c, a)| :: !ClosePlan(b, c, a)[i].InsertOrder?
  {
    if a.Got? && (a.o.status.WFilled? || a.o.status.WPartial?) {
      PollConcerns(b, c, a);
      hide ApplyPlan;
    } else {
      hide ApplyPlan, ParseDeadFill, ConfirmedDead, OrderEdge;
    }
  }

  lemma PlansReadOneSlice(b: Books, b': Books, c: string, a: Answer)
    requires c in b.orders.rows && SliceOf(b, c) == SliceOf(b', c)
    ensures c in b'.orders.rows
    ensures PollPlan(b, c, a) == PollPlan(b', c, a)
    ensures ClosePlan(b, c, a) == ClosePlan(b', c, a)
  {
    assert b.orders.rows[c] == b'.orders.rows[c];
    assert c in b.tickets.rows <==> c in b'.tickets.rows;
    if c in b.tickets.rows {
      var did := b.tickets.rows[c].decisionId;
      assert b.tickets.rows[c] == b'.tickets.rows[c];
      assert Applies(b, MoveDecision(did, Approved, Executed)) == Applies(b', MoveDecision(did, Approved, Executed));
    }
  }

  // ---- the order row after a poll ----

  /** _apply's effect on the row alone. */
  function PolledRow(row: Order, a: Answer): Order {
    if !a.Got? || !(a.o.status.WFilled? || a.o.status.WPartial?) || ParseFill(a.o).None? then row
    else
      var f := Some(ParseFill(a.o).value);
      if a.o.status.WPartial? then row.(fill := f, status := if row.status == Working then Partial else row.status)
      else row.(fill := f, status := if Pending(row.status) then Filled else row.status)
  }

  /** Only the order itself and the decision move; nothing appears or goes. */
  predicate NoOrderWrites(cs: seq<Commit>) {
    forall i | 0 <= i < |cs| :: cs[i].MoveDecision? || cs[i].Append?
  }

  lemma {:induction false} OrdersUntouched(b: Books, cs: seq<Commit>)
    requires NoOrderWrites(cs)
    ensures DoAll(b, cs).orders == b.orders
    decreases |cs|
  {
    if cs != [] { OrdersUntouched(Do(b, cs[0]), cs[1..]); }
  }

  lemma TwoFirst(b: Books, m: Commit, n: Commit, rest: seq<Commit>)
    ensures DoAll(b, [m, n] + rest) == DoAll(Do(Do(b, m), n), rest)
  {
    hide Do;
    assert ([m, n] + rest)[1..] == [n] + rest;
    assert ([n] + rest)[1..] == rest;
  }

  lemma WriteThenMove(b: Books, c: string, f: Fill, from: OrderStatus, to: OrderStatus)
    requires c in b.orders.rows
    ensures var row := b.orders.rows[c];
            Do(Do(b, WriteFill(c, f)), MoveOrder(c, from, to)).orders
            == Put(b.orders, c, row.(fill := Some(f), status := if row.status == from then to else row.status))
  {
  }

  lemma TailWritesNoOrder(b: Books, c: string, symbol: Option<string>, side: Option<Side>, f: Fill, alerting: bool)
    ensures NoOrderWrites(FilledTail(b, c, symbol, side, f, alerting))
  {
  }

  lemma PollRow(b: Books, c: string, a: Answer)
    requires c in b.orders.rows
    ensures DoAll(b, PollPlan(b, c, a)).orders == Put(b.orders, c, PolledRow(b.orders.rows[c], a))
  {
    hide Do, FilledTail;
    var row := b.orders.rows[c];
    if PollPlan(b, c, a) == [] {
      assert b.orders == Put(b.orders, c, row);
    } else {
      var f := ParseFill(a.o).value;
      var tail := FilledTail(b, c, Some(row.symbol), Some(row.side), f, true);
      TailWritesNoOrder(b, c, Some(row.symbol), Some(row.side), f, true);
      WriteThenMove(b, c, f, Working, Partial);
      WriteThenMove(b, c, f, Working, Filled);
      var b1 := Do(b, WriteFill(c, f));
      if a.o.status.WPartial? {
        var last := if row.status == Working then [Append(Alert(PartialFillManualReview, c))] else [];
        TwoFirst(b, WriteFill(c, f), MoveOrder(c, Working, Partial), last);
        OrdersUntouched(Do(b1, MoveOrder(c, Working, Partial)), last);
      } else {
        var b2 := Do(b1, MoveOrder(c, Working, Filled));
        var rest := PollPlan(b, c, a)[2..];
        TwoFirst(b, WriteFill(c, f), MoveOrder(c, Working, Filled), rest);
        assert PollPlan(b, c, a) == [WriteFill(c, f), MoveOrder(c, Working, Filled)] + rest;
        if row.status == Working {
          OrdersUntouched(b2, rest);
        } else {
          SecondMove(b2, c, rest, row.status);
        }
      }
    }
  }

  lemma SecondMove(b: Books, c: string, rest: seq<Commit>, was: OrderStatus)
    requires c in b.orders.rows && b.orders.rows[c].status == was
    requires |rest| > 0 && rest[0] == MoveOrder(c, Partial, Filled) && NoOrderWrites(rest[1..])
    ensures DoAll(b, rest).orders
            == Put(b.orders, c, b.orders.rows[c].(status := if was == Partial then Filled else was))
  {
    OrdersUntouched(Do(b, rest[0]), rest[1..]);
    if was != Partial { assert b.orders == Put(b.orders, c, b.orders.rows[c]); }
  }
}
