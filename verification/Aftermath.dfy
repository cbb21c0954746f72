/** What each operation leaves behind, said over the fields of the broker's
    answer and the rows before and after: the order's row, its ticket, its
    decision and the events appended. */
module Aftermath {
  import opened Records
  import opened FundTables
  import opened Broker
  import opened Plans

  // ---- the fields of an answer ----

  /** Both number fields are there and give n >= 1 whole shares at a price
      above zero. */
  predicate Reports(o: Echo, n: int, p: real) {
    o.filledQty == Number(n as real) && o.avgPrice == Number(p) && n >= 1 && p > 0.0
  }

  ghost predicate HasNumbers(o: Echo) { exists n: int, p: real :: Reports(o, n, p) }

  /** No share changed hands: absent, null, empty or zero. */
  predicate NoneHeld(o: Echo) { o.filledQty.Missing? || o.filledQty.Blank? || o.filledQty == Number(0.0) }

  /** The row may end as `dead` on this status. */
  predicate Ends(from: OrderStatus, status: WireStatus, dead: OrderStatus) {
    || (dead == Canceled && (status.WCanceled? || status.WExpired?) && (from == Working || from == Partial))
    || (dead == Refused && status.WRejected? && from == Working)
  }

  /** What int() makes of a quantity field, by its Python type. */
  predicate CountsAs(q: QtyField, n: int) {
    || q == IntQty(n)
    || (q.BoolQty? && n == if q.b then 1 else 0)
    || (q.FloatQty? && if q.f >= 0.0 then n as real <= q.f < n as real + 1.0 else n as real - 1.0 < q.f <= n as real)
    || (q.TextQty? && q.s != "" && AllDigits(q.s) && DigitsValue(q.s) == n)
  }

  /** What the recovery pass makes of it: whole numbers, spelled as digits with
      or without a point and zeros. */
  ghost predicate RecoversAs(q: QtyField, n: int) {
    || q == IntQty(n)
    || (q.TextQty? && n >= 0 && exists w: string, z: string ::
          && |w| > 0 && AllDigits(w) && DigitsValue(w) == n && AllZeros(z)
          && (q.s == w || (|z| > 0 && q.s == w + "." + z)))
  }

  // ---- books after ----

  /** The decision this order carries out. */
  predicate Carries(b: Books, c: string, did: int) { c in b.tickets.rows && b.tickets.rows[c].decisionId == did }

  predicate WasApproved(b: Books, c: string) {
    && c in b.tickets.rows && b.tickets.rows[c].decisionId in b.decisions.rows
    && b.decisions.rows[b.tickets.rows[c].decisionId].status == Approved
  }

  /** The order's own decision goes from 'approved' to `to`; nothing else about
      any decision changes. */
  ghost predicate Decides(b: Books, b': Books, c: string, to: DecisionStatus) {
    && b'.decisions.ids == b.decisions.ids && b'.decisions.rows.Keys == b.decisions.rows.Keys
    && forall did | did in b.decisions.rows ::
         b'.decisions.rows[did] ==
           if Carries(b, c, did) && b.decisions.rows[did].status == Approved then b.decisions.rows[did].(status := to)
           else b.decisions.rows[did]
  }

  /** The row, and these events; tickets untouched. */
  predicate Writes(b: Books, b': Books, c: string, row: Order, news: seq<Event>)
    requires c in b.orders.rows
  {
    b'.orders == Put(b.orders, c, row) && b'.tickets == b.tickets && b'.events == b.events + news
  }

  /** A poll's answer that says something: filled or part-filled, with numbers.
      A fill of a row that can still move settles it, executes its decision and
      appends one fill event (and an alert if there was a decision to execute
      but none approved); a first part-fill is reported once. */
  ghost predicate AsPolled(b: Books, b': Books, c: string, o: Echo)
    requires c in b.orders.rows
  {
    var row := b.orders.rows[c];
    && (o.status.WFilled? ==> forall n: int, p: real | Reports(o, n, p) ::
          if Pending(row.status) then
            && Writes(b, b', c, row.(status := Filled, fill := Some(Fill(n, p))),
                      [FillEvent(c, Some(row.symbol), Some(row.side), Fill(n, p))]
                      + if c in b.tickets.rows && !WasApproved(b, c) then [Alert(FillOnUnapprovedDecision, c)] else [])
            && Decides(b, b', c, Executed)
          else Writes(b, b', c, row.(fill := Some(Fill(n, p))), []) && b'.decisions == b.decisions)
    && (o.status.WPartial? ==> forall n: int, p: real | Reports(o, n, p) ::
          && Writes(b, b', c, row.(status := if row.status == Working then Partial else row.status, fill := Some(Fill(n, p))),
                    if row.status == Working then [Alert(PartialFillManualReview, c)] else [])
          && b'.decisions == b.decisions)
    && (!(o.status.WFilled? || o.status.WPartial?) || !HasNumbers(o) ==> b' == b)
  }

  /** The re-query's answer is one the cap close can record. */
  ghost predicate Tells(b: Books, c: string, a: Answer) {
    && a.Got? && c in b.orders.rows
    && (|| ((a.o.status.WFilled? || a.o.status.WPartial?) && HasNumbers(a.o))
        || ((exists dead :: Ends(b.orders.rows[c].status, a.o.status, dead)) && (HasNumbers(a.o) || NoneHeld(a.o))))
  }

  /** The cap close: a fill that won the race is recorded as polled; an order
      dead with shares executes its decision and appends one fill event; dead
      with none, the decision fails; any other answer only alerts. */
  ghost predicate AsClosed(b: Books, b': Books, c: string, a: Answer) {
    if !Tells(b, c, a) then b' == b.(events := b.events + [Alert(OrderUnreconciled, c)])
    else if a.o.status.WFilled? || a.o.status.WPartial? then AsPolled(b, b', c, a.o)
    else
      var row := b.orders.rows[c];
      forall dead | Ends(row.status, a.o.status, dead) ::
        && (forall n: int, p: real | Reports(a.o, n, p) ::
              && Writes(b, b', c, row.(status := dead, fill := Some(Fill(n, p))),
                        [FillEvent(c, Some(row.symbol), Some(row.side), Fill(n, p)), Alert(OrderPartialThenDead, c)])
              && Decides(b, b', c, Executed))
        && (NoneHeld(a.o) ==>
              && Writes(b, b', c, row.(status := dead), [Alert(OrderUnfilledAtCap, c)])
              && Decides(b, b', c, Failed))
  }

  /** The recorder's statement is executed for this order and quantity. */
  predicate Asked(o: Echo, c: string, n: int) {
    o.coid == Some(c) && !o.symbol.Absent? && !o.side.Absent? && CountsAs(o.qty, n)
  }

  /** The row the INSERT adds, if it adds one. */
  predicate Adds(b: Books, o: Echo, c: string) {
    o.symbol.Given? && o.side.Given? && c !in b.orders.rows && c in b.tickets.rows && BrokerIdFree(b, o.id)
  }

  /** The INSERT raises: only the missing ticket stands in its way. */
  predicate NoTicketToNameIt(b: Books, o: Echo, c: string) {
    o.symbol.Given? && o.side.Given? && c !in b.orders.rows && c !in b.tickets.rows && BrokerIdFree(b, o.id)
  }

  /** The orders table once the recorder's INSERT is done. */
  function Inserted(b: Books, o: Echo, c: string, n: int): Table<string, Order> {
    if Adds(b, o, c) then Add(b.orders, c, Order(o.id, o.symbol.value, o.side.value, n, Working, None)) else b.orders
  }

  function Consumes(b: Books, c: string): Table<string, Ticket> {
    if c in b.tickets.rows && b.tickets.rows[c].status == Open
    then Put(b.tickets, c, b.tickets.rows[c].(status := Consumed)) else b.tickets
  }

  /** The recorder: a row if it can be added, the ticket consumed, and on a
      filled response with numbers for a row nothing has moved yet, the row
      settled, the decision executed and one fill event. */
  ghost predicate AsRecorded(b: Books, b': Books, o: Echo) {
    && (forall c: string, n: int | Asked(o, c, n) && !NoTicketToNameIt(b, o, c) ::
          var orders := Inserted(b, o, c, n);
          && b'.tickets == Consumes(b, c)
          && (forall k: int, p: real | o.status.WFilled? && Reports(o, k, p) && c in orders.rows && orders.rows[c].status == Working ::
                && b'.orders == Put(orders, c, orders.rows[c].(status := Filled, fill := Some(Fill(k, p))))
                && b'.events == b.events + [FillEvent(c, OrNone(o.symbol), OrNone(o.side), Fill(k, p))]
                && Decides(b, b', c, Executed))
          && (!o.status.WFilled? || !HasNumbers(o) || c !in orders.rows || orders.rows[c].status != Working ==>
                b'.orders == orders && b'.events == b.events && b'.decisions == b.decisions))
    && ((forall c: string, n: int :: !Asked(o, c, n) || NoTicketToNameIt(b, o, c)) ==> b' == b)
  }

  /** The answer is an order this ticket authorized, of n shares. */
  ghost predicate Matches(o: Echo, tid: string, t: Ticket, n: int) {
    && o.coid == Some(tid) && o.symbol == Given(t.ticker) && o.side == Given(t.side)
    && RecoversAs(o.qty, n) && 1 <= n <= t.maxQty
  }

  /** Recovering one ticket: a matching order gets the row the recorder would
      have written and the ticket is consumed; anything else only alerts. */
  ghost predicate AsRecovered(b: Books, b': Books, tid: string, a: Answer)
    requires tid in b.tickets.rows
  {
    var t := b.tickets.rows[tid];
    match a
    case Raised => b' == b.(events := b.events + [Alert(OrderRecoveryFailed, tid)])
    case Nothing => b' == b
    case Got(o) =>
      && (forall n: int | Matches(o, tid, t, n) ::
            if tid in b.orders.rows || !BrokerIdFree(b, o.id)
            then b' == b.(events := b.events + [Alert(OrderRecoveryUnwritable, tid)])
            else
              && b'.orders == Add(b.orders, tid, Order(o.id, t.ticker, t.side, n, Working, None))
              && b'.tickets == Consumes(b, tid) && b'.decisions == b.decisions
              && b'.events == b.events + if t.status == Open then [Alert(OrderRecovered, tid)] else [])
      && ((forall n: int :: !Matches(o, tid, t, n)) ==>
            b' == b.(events := b.events + [Alert(OrderRecoveryMismatch, tid)]))
  }

  // ---- the readers read the fields ----

  lemma ParsedIsReported(o: Echo, n: int, p: real)
    ensures ParseFill(o) == Some(Fill(n, p)) <==> Reports(o, n, p)
  {
  }

  lemma ParsedIff(o: Echo)
    ensures ParseFill(o).Some? <==> HasNumbers(o)
  {
    if ParseFill(o).Some? { ParsedIsReported(o, ParseFill(o).value.qty, ParseFill(o).value.price); }
    forall n: int, p: real | Reports(o, n, p) ensures ParseFill(o).Some? { ParsedIsReported(o, n, p); }
  }

  lemma DeadFillIff(o: Echo)
    ensures ParseDeadFill(o).NoShares? <==> NoneHeld(o)
    ensures ParseDeadFill(o).Shares? <==> HasNumbers(o)
    ensures ParseDeadFill(o).Shares? ==> ParseFill(o) == Some(ParseDeadFill(o).f)
    ensures !(NoneHeld(o) && HasNumbers(o))
  {
    ParsedIff(o);
    forall n: int, p: real | Reports(o, n, p) ensures !NoneHeld(o) { }
  }

  lemma EndsIff(from: OrderStatus, status: WireStatus, dead: OrderStatus)
    ensures Ends(from, status, dead) <==> ConfirmedDead(status) == Some(dead) && OrderEdge(from, dead)
  {
  }

  lemma CountedIff(q: QtyField, n: int)
    ensures RecorderQty(q) == Some(n) <==> CountsAs(q, n)
  {
  }

  lemma RecoveredIff(q: QtyField, n: int)
    ensures RecoverQty(q) == Some(n) <==> RecoversAs(q, n)
  {
    if q.TextQty? && n >= 0 { DecimalQtyForms(q.s, n); }
  }

  // ---- running a plan, commit by commit ----

  lemma RunFirst(b: Books, m: Commit, rest: seq<Commit>)
    ensures DoAll(b, [m] + rest) == DoAll(Do(b, m), rest)
  {
    assert ([m] + rest)[1..] == rest;
  }

  lemma RunNone(b: Books)
    ensures DoAll(b, []) == b
  {
  }

  lemma RunOne(b: Books, m: Commit)
    ensures DoAll(b, [m]) == Do(b, m)
  {
    RunFirst(b, m, []);
    assert [m] + [] == [m];
  }

  // ---- what follows a settled row ----

  lemma DecisionMoves(b: Books, c: string, to: DecisionStatus)
    requires c in b.tickets.rows
    ensures var b' := Do(b, MoveDecision(b.tickets.rows[c].decisionId, Approved, to));
            Decides(b, b', c, to) && b'.orders == b.orders && b'.tickets == b.tickets && b'.events == b.events
  {
  }

  /** b2 is b but for the orders and the events: the same order's decision is
      decided on either. */
  lemma DecidesFrom(b: Books, b2: Books, b': Books, c: string, to: DecisionStatus)
    requires b2.decisions == b.decisions && b2.tickets.rows.Keys == b.tickets.rows.Keys
    requires forall t | t in b.tickets.rows :: b2.tickets.rows[t].decisionId == b.tickets.rows[t].decisionId
    requires Decides(b2, b', c, to)
    ensures Decides(b, b', c, to)
  {
    forall did | did in b.decisions.rows ensures Carries(b2, c, did) <==> Carries(b, c, did) { }
  }

  lemma NothingDecided(b: Books, b': Books, c: string, to: DecisionStatus)
    requires b'.decisions == b.decisions && c !in b.tickets.rows
    ensures Decides(b, b', c, to)
  {
  }

  lemma TailLeaves(b: Books, b0: Books, c: string, symbol: Option<string>, side: Option<Side>, f: Fill, alerting: bool)
    requires b.tickets == b0.tickets && b.decisions == b0.decisions
    ensures var b' := DoAll(b, FilledTail(b0, c, symbol, side, f, alerting));
            && b'.orders == b.orders && b'.tickets == b.tickets && Decides(b, b', c, Executed)
            && b'.events == b.events + [FillEvent(c, symbol, side, f)]
                 + if alerting && c in b.tickets.rows && !WasApproved(b, c) then [Alert(FillOnUnapprovedDecision, c)] else []
  {
    hide DoAll, Decides;
    var fill, b1 := Append(FillEvent(c, symbol, side, f)), Do(b, Append(FillEvent(c, symbol, side, f)));
    var rest := FilledTail(b0, c, symbol, side, f, alerting)[1..];
    assert FilledTail(b0, c, symbol, side, f, alerting) == [fill] + rest;
    RunFirst(b, fill, rest);
    assert b1.events + [] == b1.events;
    if c !in b.tickets.rows {
      RunNone(b1);
      NothingDecided(b, b1, c, Executed);
    } else {
      var did := b.tickets.rows[c].decisionId;
      var move := MoveDecision(did, Approved, Executed);
      assert rest[0] == move;
      assert rest == [move] + rest[1..];
      RunFirst(b1, move, rest[1..]);
      DecisionMoves(b1, c, Executed);
      DecidesFrom(b, b1, Do(b1, move), c, Executed);
      if rest[1..] == [] {
        RunNone(Do(b1, move));
      } else {
        var alert := Append(Alert(FillOnUnapprovedDecision, c));
        assert rest[1..] == [alert];
        RunOne(Do(b1, move), alert);
        DecidesSame(b, Do(b1, move), Do(Do(b1, move), alert), c, Executed);
      }
    }
  }

  lemma DecidesSame(b: Books, b': Books, b'': Books, c: string, to: DecisionStatus)
    requires Decides(b, b', c, to) && b''.decisions == b'.decisions
    ensures Decides(b, b'', c, to)
  {
  }

  // ---- the poll ----

  lemma PutSame<K, V>(t: Table<K, V>, k: K)
    requires k in t.rows
    ensures Put(t, k, t.rows[k]) == t
  {
  }

  lemma PutTwice<K, V>(t: Table<K, V>, k: K, v: V, v': V)
    requires k in t.rows
    ensures Put(Put(t, k, v), k, v') == Put(t, k, v')
  {
  }

  /** The poll's statements on a filled answer, in order. */
  lemma FilledSteps(b: Books, c: string, o: Echo, n: int, p: real)
    requires c in b.orders.rows && o.status.WFilled? && Reports(o, n, p)
    ensures var row, f := b.orders.rows[c], Fill(n, p);
            var rest := if Pending(row.status) then FilledTail(b, c, Some(row.symbol), Some(row.side), f, true) else [];
            var b1 := Do(Do(b, WriteFill(c, f)), MoveOrder(c, Working, Filled));
            var b2 := if row.status == Working then b1 else Do(b1, MoveOrder(c, Partial, Filled));
            DoAll(b, ApplyPlan(b, c, o)) == DoAll(b2, rest)
  {
    hide DoAll, Do, FilledTail;
    var row, f := b.orders.rows[c], Fill(n, p);
    ParsedIsReported(o, n, p);
    var rest := if Pending(row.status) then FilledTail(b, c, Some(row.symbol), Some(row.side), f, true) else [];
    var b1 := Do(b, WriteFill(c, f));
    var b2 := Do(b1, MoveOrder(c, Working, Filled));
    if row.status == Working {
      assert ApplyPlan(b, c, o) == [WriteFill(c, f)] + ([MoveOrder(c, Working, Filled)] + rest);
      RunFirst(b, WriteFill(c, f), [MoveOrder(c, Working, Filled)] + rest);
      RunFirst(b1, MoveOrder(c, Working, Filled), rest);
    } else {
      var more := [MoveOrder(c, Partial, Filled)] + rest;
      assert ApplyPlan(b, c, o) == [WriteFill(c, f)] + ([MoveOrder(c, Working, Filled)] + more);
      RunFirst(b, WriteFill(c, f), [MoveOrder(c, Working, Filled)] + more);
      RunFirst(b1, MoveOrder(c, Working, Filled), more);
      RunFirst(b2, MoveOrder(c, Partial, Filled), rest);
    }
  }

  lemma MovedToFilled(b: Books, c: string, f: Fill)
    requires c in b.orders.rows
    ensures var row := b.orders.rows[c];
            var b1 := Do(Do(b, WriteFill(c, f)), MoveOrder(c, Working, Filled));
            var b2 := if row.status == Working then b1 else Do(b1, MoveOrder(c, Partial, Filled));
            && b2.tickets == b.tickets && b2.decisions == b.decisions && b2.events == b.events
            && b2.orders == Put(b.orders, c, row.(fill := Some(f), status := if Pending(row.status) then Filled else row.status))
  {
  }

  lemma PolledFill(b: Books, c: string, o: Echo, n: int, p: real)
    requires c in b.orders.rows && o.status.WFilled? && Reports(o, n, p)
    ensures AsPolled(b, DoAll(b, ApplyPlan(b, c, o)), c, o)
  {
    hide DoAll, Do, ApplyPlan, FilledTail, Decides, WasApproved;
    var row, f := b.orders.rows[c], Fill(n, p);
    FilledSteps(b, c, o, n, p);
    MovedToFilled(b, c, f);
    var b1 := Do(Do(b, WriteFill(c, f)), MoveOrder(c, Working, Filled));
    var b2 := if row.status == Working then b1 else Do(b1, MoveOrder(c, Partial, Filled));
    forall k: int, q: real | Reports(o, k, q) ensures k == n && q == p {
    }
    if Pending(row.status) {
      TailLeaves(b2, b, c, Some(row.symbol), Some(row.side), f, true);
      SameApproval(b, b2, c);
      DecidesFrom(b, b2, DoAll(b2, FilledTail(b, c, Some(row.symbol), Some(row.side), f, true)), c, Executed);
    } else {
      RunNone(b2);
      assert b.events + [] == b.events;
    }
  }

  lemma SameApproval(b: Books, b': Books, c: string)
    requires b'.tickets == b.tickets && b'.decisions == b.decisions
    ensures WasApproved(b', c) <==> WasApproved(b, c)
  {
  }

  /** The poll's statements on a part-filled answer, in order. */
  lemma PartialSteps(b: Books, c: string, o: Echo, n: int, p: real)
    requires c in b.orders.rows && o.status.WPartial? && Reports(o, n, p)
    ensures var b2 := Do(Do(b, WriteFill(c, Fill(n, p))), MoveOrder(c, Working, Partial));
            DoAll(b, ApplyPlan(b, c, o)) ==
              if b.orders.rows[c].status == Working then Do(b2, Append(Alert(PartialFillManualReview, c))) else b2
  {
    hide DoAll, Do;
    ParsedIsReported(o, n, p);
    var write, move, alert := WriteFill(c, Fill(n, p)), MoveOrder(c, Working, Partial), Append(Alert(PartialFillManualReview, c));
    var rest := if b.orders.rows[c].status == Working then [alert] else [];
    assert ApplyPlan(b, c, o) == [write] + ([move] + rest);
    RunFirst(b, write, [move] + rest);
    RunFirst(Do(b, write), move, rest);
    RunNone(Do(Do(b, write), move));
    RunOne(Do(Do(b, write), move), alert);
  }

  lemma PolledPartial(b: Books, c: string, o: Echo, n: int, p: real)
    requires c in b.orders.rows && o.status.WPartial? && Reports(o, n, p)
    ensures AsPolled(b, DoAll(b, ApplyPlan(b, c, o)), c, o)
  {
    hide DoAll, ApplyPlan;
    PartialSteps(b, c, o, n, p);
    forall k: int, q: real | Reports(o, k, q) ensures k == n && q == p {
    }
    assert HasNumbers(o);
    assert b.events + [] == b.events;
  }

  /** The poll of one order leaves exactly what its answer's fields say. */
  lemma PollLeaves(b: Books, c: string, o: Echo)
    requires c in b.orders.rows
    ensures AsPolled(b, DoAll(b, ApplyPlan(b, c, o)), c, o)
  {
    ParsedIff(o);
    if (o.status.WFilled? || o.status.WPartial?) && HasNumbers(o) {
      var n: int, p: real :| Reports(o, n, p);
      hide AsPolled, ApplyPlan, DoAll;
      if o.status.WFilled? { PolledFill(b, c, o, n, p); } else { PolledPartial(b, c, o, n, p); }
    } else {
      RunNone(b);
      forall n: int, p: real | Reports(o, n, p) ensures !(o.status.WFilled? || o.status.WPartial?) {
        assert HasNumbers(o);
      }
    }
  }

  // ---- the cap close ----

  lemma JustAlerts(b: Books, code: AlertCode, c: string)
    ensures DoAll(b, [Append(Alert(code, c))]) == b.(events := b.events + [Alert(code, c)])
  {
    RunOne(b, Append(Alert(code, c)));
  }

  lemma DecisionTailLeaves(b: Books, b0: Books, c: string, to: DecisionStatus, code: AlertCode)
    requires b0.tickets == b.tickets
    ensures var b' := DoAll(b, DecisionTail(b0, c, to) + [Append(Alert(code, c))]);
            && b'.orders == b.orders && b'.tickets == b.tickets && Decides(b, b', c, to)
            && b'.events == b.events + [Alert(code, c)]
  {
    hide DoAll, Decides;
    var alert := Append(Alert(code, c));
    if c in b.tickets.rows {
      var move := MoveDecision(b.tickets.rows[c].decisionId, Approved, to);
      RunFirst(b, move, [alert]);
      DecisionMoves(b, c, to);
      RunOne(Do(b, move), alert);
      DecidesSame(b, Do(b, move), Do(Do(b, move), alert), c, to);
    } else {
      assert DecisionTail(b0, c, to) + [alert] == [alert];
      RunOne(b, alert);
      NothingDecided(b, Do(b, alert), c, to);
    }
  }

  lemma ClosedEmpty(b: Books, c: string, a: Answer, dead: OrderStatus)
    requires a.Got? && c in b.orders.rows && Ends(b.orders.rows[c].status, a.o.status, dead) && NoneHeld(a.o)
    ensures var b' := DoAll(b, ClosePlan(b, c, a));
            Writes(b, b', c, b.orders.rows[c].(status := dead), [Alert(OrderUnfilledAtCap, c)]) && Decides(b, b', c, Failed)
  {
    hide DoAll, Decides, DecisionTail;
    EndsIff(b.orders.rows[c].status, a.o.status, dead);
    DeadFillIff(a.o);
    var move := MoveOrder(c, b.orders.rows[c].status, dead);
    var rest := DecisionTail(b, c, Failed) + [Append(Alert(OrderUnfilledAtCap, c))];
    assert ClosePlan(b, c, a) == [move] + rest;
    RunFirst(b, move, rest);
    DecisionTailLeaves(Do(b, move), b, c, Failed, OrderUnfilledAtCap);
    DecidesFrom(b, Do(b, move), DoAll(Do(b, move), rest), c, Failed);
  }

  lemma ClosedHolding(b: Books, c: string, a: Answer, dead: OrderStatus, n: int, p: real)
    requires a.Got? && c in b.orders.rows && Ends(b.orders.rows[c].status, a.o.status, dead) && Reports(a.o, n, p)
    ensures var b', row := DoAll(b, ClosePlan(b, c, a)), b.orders.rows[c];
            && Writes(b, b', c, row.(status := dead, fill := Some(Fill(n, p))),
                      [FillEvent(c, Some(row.symbol), Some(row.side), Fill(n, p)), Alert(OrderPartialThenDead, c)])
            && Decides(b, b', c, Executed)
  {
    hide DoAll, Decides, DecisionTail;
    var row, f := b.orders.rows[c], Fill(n, p);
    EndsIff(row.status, a.o.status, dead);
    DeadFillIff(a.o);
    ParsedIsReported(a.o, n, p);
    assert HasNumbers(a.o);
    var write, move := WriteFill(c, f), MoveOrder(c, row.status, dead);
    var event := Append(FillEvent(c, Some(row.symbol), Some(row.side), f));
    var rest := DecisionTail(b, c, Executed) + [Append(Alert(OrderPartialThenDead, c))];
    assert ClosePlan(b, c, a) == [write] + ([move] + ([event] + rest));
    RunFirst(b, write, [move] + ([event] + rest));
    var b1 := Do(b, write);
    RunFirst(b1, move, [event] + rest);
    var b2 := Do(b1, move);
    RunFirst(b2, event, rest);
    var b3 := Do(b2, event);
    DecisionTailLeaves(b3, b, c, Executed, OrderPartialThenDead);
    DecidesFrom(b, b3, DoAll(b3, rest), c, Executed);
    assert b.events + [event.event] + [Alert(OrderPartialThenDead, c)]
           == b.events + [event.event, Alert(OrderPartialThenDead, c)];
  }

  lemma ClosedUntold(b: Books, c: string, a: Answer)
    requires !Tells(b, c, a)
    ensures ClosePlan(b, c, a) == [Append(Alert(OrderUnreconciled, c))]
  {
    if a.Got? && c in b.orders.rows {
      ParsedIff(a.o);
      DeadFillIff(a.o);
      if ConfirmedDead(a.o.status).Some? {
        EndsIff(b.orders.rows[c].status, a.o.status, ConfirmedDead(a.o.status).value);
      }
    }
  }

  lemma ClosedFill(b: Books, c: string, a: Answer)
    requires a.Got? && c in b.orders.rows && (a.o.status.WFilled? || a.o.status.WPartial?) && HasNumbers(a.o)
    ensures ClosePlan(b, c, a) == ApplyPlan(b, c, a.o)
  {
    ParsedIff(a.o);
  }

  /** The cap close leaves exactly what the re-query's fields say. */
  lemma CloseLeaves(b: Books, c: string, a: Answer)
    ensures AsClosed(b, DoAll(b, ClosePlan(b, c, a)), c, a)
  {
    hide DoAll, ClosePlan, ApplyPlan, Decides, Writes, AsPolled;
    if !Tells(b, c, a) {
      ClosedUntold(b, c, a);
      JustAlerts(b, OrderUnreconciled, c);
    } else if a.o.status.WFilled? || a.o.status.WPartial? {
      assert HasNumbers(a.o) by { FillNeverEnds(b.orders.rows[c].status, a.o.status); }
      ClosedFill(b, c, a);
      PollLeaves(b, c, a.o);
    } else {
      forall dead | Ends(b.orders.rows[c].status, a.o.status, dead)
        ensures NoneHeld(a.o) ==>
                  var b' := DoAll(b, ClosePlan(b, c, a));
                  Writes(b, b', c, b.orders.rows[c].(status := dead), [Alert(OrderUnfilledAtCap, c)]) && Decides(b, b', c, Failed)
      {
        if NoneHeld(a.o) { ClosedEmpty(b, c, a, dead); }
      }
      forall dead, n: int, p: real | Ends(b.orders.rows[c].status, a.o.status, dead) && Reports(a.o, n, p)
        ensures var b', row := DoAll(b, ClosePlan(b, c, a)), b.orders.rows[c];
                && Writes(b, b', c, row.(status := dead, fill := Some(Fill(n, p))),
                          [FillEvent(c, Some(row.symbol), Some(row.side), Fill(n, p)), Alert(OrderPartialThenDead, c)])
                && Decides(b, b', c, Executed)
      {
        ClosedHolding(b, c, a, dead, n, p);
      }
    }
  }

  lemma FillNeverEnds(from: OrderStatus, status: WireStatus)
    requires status.WFilled? || status.WPartial?
    ensures forall dead :: !Ends(from, status, dead)
  {
  }

  // ---- the recorder ----

  /** The books once the recorder has inserted and consumed. */
  function InsertedAndConsumed(b: Books, o: Echo): Books
    requires Readable(o)
  {
    Do(Do(b, RecordInsert(o)), MoveTicket(o.coid.value, Open, Consumed))
  }

  lemma InsertAndConsume(b: Books, o: Echo, c: string, n: int)
    requires Asked(o, c, n)
    ensures Readable(o) && o.coid == Some(c)
    ensures InsertedAndConsumed(b, o) == b.(orders := Inserted(b, o, c, n), tickets := Consumes(b, c))
  {
    CountedIff(o.qty, n);
  }

  lemma RecordRuns(b: Books, o: Echo, c: string, n: int)
    requires Asked(o, c, n) && !NoTicketToNameIt(b, o, c)
    ensures Readable(o) && o.coid == Some(c)
    ensures var b2 := InsertedAndConsumed(b, o);
            DoAll(b, RecordPlan(b, o)) ==
              if o.status.WFilled? && ParseFill(o).Some?
              then DoAll(b2, RecordFillPlan(b2, c, OrNone(o.symbol), OrNone(o.side), ParseFill(o).value)) else b2
  {
    hide DoAll, Do, RecordFillPlan;
    CountedIff(o.qty, n);
    var b1, b2 := Do(b, RecordInsert(o)), InsertedAndConsumed(b, o);
    var rest := if o.status.WFilled? && ParseFill(o).Some?
                then RecordFillPlan(b2, c, OrNone(o.symbol), OrNone(o.side), ParseFill(o).value) else [];
    var consume := MoveTicket(c, Open, Consumed);
    assert RecordPlan(b, o) == [RecordInsert(o)] + ([consume] + rest);
    RunFirst(b, RecordInsert(o), [consume] + rest);
    RunFirst(b1, consume, rest);
    RunNone(b2);
  }

  lemma RecordFillLeaves(b: Books, c: string, symbol: Option<string>, side: Option<Side>, f: Fill)
    requires c in b.orders.rows && b.orders.rows[c].status == Working
    ensures var b' := DoAll(b, RecordFillPlan(b, c, symbol, side, f));
            && b'.orders == Put(b.orders, c, b.orders.rows[c].(status := Filled, fill := Some(f)))
            && b'.tickets == b.tickets && Decides(b, b', c, Executed)
            && b'.events == b.events + [FillEvent(c, symbol, side, f)]
  {
    hide DoAll, Decides, FilledTail;
    var move, write, tail := MoveOrder(c, Working, Filled), WriteFill(c, f), FilledTail(b, c, symbol, side, f, false);
    assert RecordFillPlan(b, c, symbol, side, f) == [move] + ([write] + tail);
    RunFirst(b, move, [write] + tail);
    var b1 := Do(b, move);
    RunFirst(b1, write, tail);
    var b2 := Do(b1, write);
    TailLeaves(b2, b, c, symbol, side, f, false);
    DecidesFrom(b, b2, DoAll(b2, tail), c, Executed);
    var event := FillEvent(c, symbol, side, f);
    assert b.events + [event] + [] == b.events + [event];
  }

  lemma RecordFillLost(b: Books, c: string, symbol: Option<string>, side: Option<Side>, f: Fill)
    requires c !in b.orders.rows || b.orders.rows[c].status != Working
    ensures DoAll(b, RecordFillPlan(b, c, symbol, side, f)) == b
  {
    RunOne(b, MoveOrder(c, Working, Filled));
  }

  lemma SameDecision(b: Books, b2: Books, b': Books, c: string, to: DecisionStatus)
    requires b2.decisions == b.decisions && b2.tickets == Consumes(b, c) && Decides(b2, b', c, to)
    ensures Decides(b, b', c, to)
  {
    DecidesFrom(b, b2, b', c, to);
  }

  lemma RecordedRow(b: Books, o: Echo, c: string, n: int)
    requires Asked(o, c, n) && !NoTicketToNameIt(b, o, c)
    ensures var b', orders := DoAll(b, RecordPlan(b, o)), Inserted(b, o, c, n);
            && b'.tickets == Consumes(b, c)
            && (forall k: int, p: real | o.status.WFilled? && Reports(o, k, p) && c in orders.rows && orders.rows[c].status == Working ::
                  && b'.orders == Put(orders, c, orders.rows[c].(status := Filled, fill := Some(Fill(k, p))))
                  && b'.events == b.events + [FillEvent(c, OrNone(o.symbol), OrNone(o.side), Fill(k, p))]
                  && Decides(b, b', c, Executed))
            && (!o.status.WFilled? || !HasNumbers(o) || c !in orders.rows || orders.rows[c].status != Working ==>
                  b'.orders == orders && b'.events == b.events && b'.decisions == b.decisions)
  {
    hide DoAll, RecordPlan, RecordFillPlan, Decides, InsertedAndConsumed, Inserted, Consumes, Adds, CountsAs;
    RecordRuns(b, o, c, n);
    InsertAndConsume(b, o, c, n);
    ParsedIff(o);
    var b2 := InsertedAndConsumed(b, o);
    if o.status.WFilled? && ParseFill(o).Some? {
      var f := ParseFill(o).value;
      forall k: int, p: real | Reports(o, k, p) ensures f == Fill(k, p) { ParsedIsReported(o, k, p); }
      if c in b2.orders.rows && b2.orders.rows[c].status == Working {
        RecordFillLeaves(b2, c, OrNone(o.symbol), OrNone(o.side), f);
        SameDecision(b, b2, DoAll(b2, RecordFillPlan(b2, c, OrNone(o.symbol), OrNone(o.side), f)), c, Executed);
      } else {
        RecordFillLost(b2, c, OrNone(o.symbol), OrNone(o.side), f);
      }
    } else {
      forall k: int, p: real | Reports(o, k, p) ensures HasNumbers(o) { }
    }
  }

  lemma NotRecorded(b: Books, o: Echo)
    requires forall c: string, n: int :: !Asked(o, c, n) || NoTicketToNameIt(b, o, c)
    ensures DoAll(b, RecordPlan(b, o)) == b
  {
    RunNone(b);
    if Readable(o) {
      var n := RecorderQty(o.qty).value;
      CountedIff(o.qty, n);
      assert Asked(o, o.coid.value, n);
    }
  }

  /** The recorder leaves exactly what the response's fields say. */
  lemma RecordLeaves(b: Books, o: Echo)
    ensures AsRecorded(b, DoAll(b, RecordPlan(b, o)), o)
  {
    hide DoAll, RecordPlan, Decides, Inserted, Consumes;
    forall c: string, n: int | Asked(o, c, n) && !NoTicketToNameIt(b, o, c)
      ensures var b', orders := DoAll(b, RecordPlan(b, o)), Inserted(b, o, c, n);
              && b'.tickets == Consumes(b, c)
              && (forall k: int, p: real | o.status.WFilled? && Reports(o, k, p) && c in orders.rows && orders.rows[c].status == Working ::
                    && b'.orders == Put(orders, c, orders.rows[c].(status := Filled, fill := Some(Fill(k, p))))
                    && b'.events == b.events + [FillEvent(c, OrNone(o.symbol), OrNone(o.side), Fill(k, p))]
                    && Decides(b, b', c, Executed))
              && (!o.status.WFilled? || !HasNumbers(o) || c !in orders.rows || orders.rows[c].status != Working ==>
                    b'.orders == orders && b'.events == b.events && b'.decisions == b.decisions)
    {
      RecordedRow(b, o, c, n);
    }
    if forall c: string, n: int :: !Asked(o, c, n) || NoTicketToNameIt(b, o, c) { NotRecorded(b, o); }
  }

  // ---- recovery ----

  lemma MatchedIff(o: Echo, tid: string, t: Ticket, n: int)
    ensures RecoverableQty(o, tid, t) == Some(n) <==> Matches(o, tid, t, n)
  {
    RecoveredIff(o.qty, n);
    if RecoverQty(o.qty).Some? && RecoverQty(o.qty).value != n { RecoveredIff(o.qty, n); }
  }

  lemma RecoveredMatch(b: Books, tid: string, o: Echo, n: int)
    requires tid in b.tickets.rows && Matches(o, tid, b.tickets.rows[tid], n)
    ensures var b', t := DoAll(b, RecoverPlan(b, tid, Got(o))), b.tickets.rows[tid];
            if tid in b.orders.rows || !BrokerIdFree(b, o.id)
            then b' == b.(events := b.events + [Alert(OrderRecoveryUnwritable, tid)])
            else
              && b'.orders == Add(b.orders, tid, Order(o.id, t.ticker, t.side, n, Working, None))
              && b'.tickets == Consumes(b, tid) && b'.decisions == b.decisions
              && b'.events == b.events + if t.status == Open then [Alert(OrderRecovered, tid)] else []
  {
    hide DoAll, RecoverableQty;
    var t := b.tickets.rows[tid];
    MatchedIff(o, tid, t, n);
    var insert, move := InsertOrder(tid, NewRow(o, t.ticker, t.side, n)), MoveTicket(tid, Open, Consumed);
    var b1 := Do(b, insert);
    if !Applies(b, insert) {
      var alert := Append(Alert(OrderRecoveryUnwritable, tid));
      assert RecoverPlan(b, tid, Got(o)) == [insert] + [alert];
      RunFirst(b, insert, [alert]);
      RunOne(b1, alert);
    } else {
      var rest := if t.status == Open then [Append(Alert(OrderRecovered, tid))] else [];
      assert RecoverPlan(b, tid, Got(o)) == [insert] + ([move] + rest);
      RunFirst(b, insert, [move] + rest);
      RunFirst(b1, move, rest);
      if rest == [] { RunNone(Do(b1, move)); } else { RunOne(Do(b1, move), rest[0]); }
      assert b.events + [] == b.events;
    }
  }

  lemma NotRecovered(b: Books, tid: string, o: Echo)
    requires tid in b.tickets.rows && forall n: int :: !Matches(o, tid, b.tickets.rows[tid], n)
    ensures DoAll(b, RecoverPlan(b, tid, Got(o))) == b.(events := b.events + [Alert(OrderRecoveryMismatch, tid)])
  {
    hide RecoverableQty, Matches;
    var t := b.tickets.rows[tid];
    if RecoverableQty(o, tid, t).Some? { MatchedIff(o, tid, t, RecoverableQty(o, tid, t).value); }
    JustAlerts(b, OrderRecoveryMismatch, tid);
  }

  /** One recovery leaves exactly what the answer's fields say. */
  lemma RecoverLeaves(b: Books, tid: string, a: Answer)
    requires tid in b.tickets.rows
    ensures AsRecovered(b, DoAll(b, RecoverPlan(b, tid, a)), tid, a)
  {
    hide DoAll, Matches, Consumes;
    match a
    case Raised => JustAlerts(b, OrderRecoveryFailed, tid);
    case Nothing => RunNone(b);
    case Got(o) =>
      hide RecoverPlan;
      forall n: int | Matches(o, tid, b.tickets.rows[tid], n) { RecoveredMatch(b, tid, o, n); }
      if forall n: int :: !Matches(o, tid, b.tickets.rows[tid], n) { NotRecovered(b, tid, o); }
  }
}
