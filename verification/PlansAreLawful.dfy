/** Every operation's plan is lawful commit by commit, whatever state it starts
    in and whatever a truthful broker answered; so the invariant holds after
    every prefix of it. */
module PlansAreLawful {
  import opened Records
  import opened FundTables
  import opened Broker
  import opened Plans
  import opened Safety
  import Risk

  ghost predicate LawfulAll(b: Books, book: Book, cs: seq<Commit>)
    decreases |cs|
  {
    cs == [] || (Lawful(b, book, cs[0]) && LawfulAll(Do(b, cs[0]), book, cs[1..]))
  }

  lemma {:induction false} LawfulPrefix(b: Books, book: Book, cs: seq<Commit>, k: nat)
    requires Inv(b, book) && LawfulAll(b, book, cs) && k <= |cs|
    ensures Inv(DoAll(b, cs[..k]), book)
    decreases |cs|
  {
    if k > 0 {
      LawfulKeeps(b, book, cs[0]);
      LawfulPrefix(Do(b, cs[0]), book, cs[1..], k - 1);
      assert cs[..k][1..] == cs[1..][..k - 1];
    }
  }

  lemma First(b: Books, book: Book, c: Commit, rest: seq<Commit>)
    requires Inv(b, book) && Lawful(b, book, c)
    ensures Inv(Do(b, c), book)
    ensures LawfulAll(Do(b, c), book, rest) ==> LawfulAll(b, book, [c] + rest)
  {
    LawfulKeeps(b, book, c);
    assert ([c] + rest)[1..] == rest;
  }

  lemma Only(b: Books, book: Book, c: Commit)
    requires Inv(b, book) && Lawful(b, book, c)
    ensures LawfulAll(b, book, [c]) && Inv(Do(b, c), book)
  {
    First(b, book, c, []);
    assert [c] + [] == [c];
  }

  /** The operations that only report are always lawful. */
  lemma AlertsLawful(b: Books, book: Book, cs: seq<Commit>)
    requires Inv(b, book) && forall i | 0 <= i < |cs| :: cs[i].Append? && !cs[i].event.FillEvent?
    ensures LawfulAll(b, book, cs)
    decreases |cs|
  {
    if cs != [] {
      LawfulKeeps(b, book, cs[0]);
      AlertsLawful(Do(b, cs[0]), book, cs[1..]);
    }
  }

  // ---- facts the invariant gives about one order ----

  lemma PendingHasNoFill(b: Books, book: Book, coid: string)
    requires Inv(b, book) && coid in b.orders.rows && Pending(b.orders.rows[coid].status)
    ensures NoFillYet(b.events, coid)
  {
    forall i | 0 <= i < |b.events| && b.events[i].FillEvent? ensures b.events[i].ticketId != coid {
      assert FillOk(b.orders.rows, book, b.events[i]);
    }
  }

  lemma OrderFact(b: Books, book: Book, oid: string)
    requires Inv(b, book) && oid in b.orders.rows
    ensures OrderOk(b.tickets.rows.Keys, book, oid, b.orders.rows[oid])
  {
  }

  lemma TicketFact(b: Books, book: Book, tid: string)
    requires Inv(b, book) && tid in b.tickets.rows
    ensures TicketOk(b.decisions.rows, b.orders.rows, book, tid, b.tickets.rows[tid])
  {
  }

  lemma BookFact(b: Books, book: Book, coid: string)
    requires Inv(b, book) && coid in book
    ensures coid in b.tickets.rows && RequestOk(b.decisions.rows, b.tickets.rows, book[coid].req)
    ensures book[coid].req.coid == coid
  {
  }

  lemma NoTicketFact(b: Books, book: Book, did: int)
    requires Inv(b, book) && TicketFor(b.tickets, did).None?
    ensures forall tid | tid in b.tickets.rows :: b.tickets.rows[tid].decisionId != did
  {
    NoTicketFor(b.tickets, did);
  }

  lemma HoldHasNoTicket(b: Books, book: Book, did: int)
    requires Inv(b, book) && did in b.decisions.rows && b.decisions.rows[did].action.Hold?
    ensures forall tid | tid in b.tickets.rows :: b.tickets.rows[tid].decisionId != did
  {
    forall tid | tid in b.tickets.rows ensures b.tickets.rows[tid].decisionId != did {
      TicketFact(b, book, tid);
    }
  }

  lemma OnlyTicket(b: Books, book: Book, coid: string)
    requires Inv(b, book) && coid in b.tickets.rows
    ensures forall tid | tid in b.tickets.rows
              && b.tickets.rows[tid].decisionId == b.tickets.rows[coid].decisionId :: tid == coid
  {
  }

  /** A row the insert would write for this order never loses to another row
      over the broker's id. */
  lemma BrokerIdIsFree(b: Books, book: Book, coid: string, id: Option<string>)
    requires Inv(b, book) && coid in book && coid !in b.orders.rows
    requires id.Some? ==> id.value == book[coid].id
    ensures BrokerIdFree(b, id)
  {
    forall k | id.Some? && k in b.orders.rows ensures b.orders.rows[k].brokerId != id {
      assert OrderOk(b.tickets.rows.Keys, book, k, b.orders.rows[k]);
    }
  }

  // ---- the tail after a winning move to 'filled' ----

  lemma FilledTailLawful(b: Books, book: Book, b0: Books, coid: string, symbol: Option<string>, side: Option<Side>, f: Fill, alerting: bool)
    requires Inv(b, book) && coid in b0.tickets.rows && coid in b.tickets.rows
    requires b0.tickets.rows[coid].decisionId == b.tickets.rows[coid].decisionId
    requires coid in b.orders.rows && b.orders.rows[coid].fill == Some(f)
    requires !Pending(b.orders.rows[coid].status) && coid in book
    requires f == Fill(book[coid].filled, book[coid].price)
    requires symbol.Some? ==> symbol.value == b.orders.rows[coid].symbol
    requires side.Some? ==> side.value == b.orders.rows[coid].side
    requires NoFillYet(b.events, coid)
    ensures LawfulAll(b, book, FilledTail(b0, coid, symbol, side, f, alerting))
  {
    hide Inv;
    var fill := Append(FillEvent(coid, symbol, side, f));
    OrderFact(b, book, coid);
    var did := b.tickets.rows[coid].decisionId;
    var move := MoveDecision(did, Approved, Executed);
    var last := if alerting && !Applies(b0, move) then [Append(Alert(FillOnUnapprovedDecision, coid))] else [];
    First(b, book, fill, [move] + last);
    var b1 := Do(b, fill);
    OnlyTicket(b1, book, coid);
    First(b1, book, move, last);
    AlertsLawful(Do(b1, move), book, last);
    assert FilledTail(b0, coid, symbol, side, f, alerting) == [fill] + ([move] + last);
  }

  // ---- record_order ----

  ghost predicate Vouched(book: Book, coid: string, a: Answer) {
    a.Got? ==> coid in book && Describes(a.o, book[coid])
  }

  lemma RecordLawful(b: Books, book: Book, o: Echo)
    requires Inv(b, book)
    requires o.coid.Some? ==> Vouched(book, o.coid.value, Got(o))
    ensures LawfulAll(b, book, RecordPlan(b, o))
  {
    hide Inv;
    if RecordPlan(b, o) == [] { return; }
    var coid := o.coid.value;
    var insert, consume := RecordInsert(o), MoveTicket(coid, Open, Consumed);
    BookFact(b, book, coid);
    InsertLawful(b, book, o);
    var rest := RecordPlan(b, o)[2..];
    First(b, book, insert, [consume] + rest);
    var b1 := Do(b, insert);
    First(b1, book, consume, rest);
    var b2 := Do(b1, consume);
    if o.status.WFilled? && ParseFill(o).Some? {
      RecordFillLawful(b2, book, coid, o);
      assert rest == RecordFillPlan(b2, coid, OrNone(o.symbol), OrNone(o.side), ParseFill(o).value);
    }
    assert RecordPlan(b, o) == [insert] + ([consume] + rest);
  }

  lemma InsertLawful(b: Books, book: Book, o: Echo)
    requires Inv(b, book) && Readable(o) && Vouched(book, o.coid.value, Got(o))
    ensures Lawful(b, book, RecordInsert(o))
  {
    hide Inv;
    var coid := o.coid.value;
    if !NullNamed(o) {
      ReadersAgree(o, book[coid]);
      BookFact(b, book, coid);
      assert OrderOk(b.tickets.rows.Keys, book, coid, RecordInsert(o).order);
    }
  }

  lemma RecordFillLawful(b: Books, book: Book, coid: string, o: Echo)
    requires Inv(b, book) && Vouched(book, coid, Got(o))
    requires o.status.WFilled? && ParseFill(o).Some?
    ensures LawfulAll(b, book, RecordFillPlan(b, coid, OrNone(o.symbol), OrNone(o.side), ParseFill(o).value))
  {
    hide Inv;
    var f := ParseFill(o).value;
    var symbol, side := OrNone(o.symbol), OrNone(o.side);
    var move, write := MoveOrder(coid, Working, Filled), WriteFill(coid, f);
    if Applies(b, move) {
      OrderFact(b, book, coid);
      var tail := FilledTail(b, coid, symbol, side, f, false);
      PendingHasNoFill(b, book, coid);
      First(b, book, move, [write] + tail);
      var b1 := Do(b, move);
      First(b1, book, write, tail);
      FilledTailLawful(Do(b1, write), book, b, coid, symbol, side, f, false);
      assert RecordFillPlan(b, coid, symbol, side, f) == [move] + ([write] + tail);
    } else {
      Only(b, book, move);
    }
  }

  // ---- _apply ----

  lemma ApplyLawful(b: Books, book: Book, coid: string, o: Echo)
    requires Inv(b, book) && Vouched(book, coid, Got(o))
    requires coid in b.orders.rows && Pending(b.orders.rows[coid].status)
    ensures LawfulAll(b, book, ApplyPlan(b, coid, o))
  {
    hide Inv;
    if !(o.status.WFilled? || o.status.WPartial?) || ParseFill(o).None? { return; }
    var f := ParseFill(o).value;
    var row := b.orders.rows[coid];
    var write := WriteFill(coid, f);
    OrderFact(b, book, coid);
    PendingHasNoFill(b, book, coid);
    if o.status.WPartial? {
      var move := MoveOrder(coid, Working, Partial);
      var last := if row.status == Working then [Append(Alert(PartialFillManualReview, coid))] else [];
      First(b, book, write, [move] + last);
      var b1 := Do(b, write);
      First(b1, book, move, last);
      AlertsLawful(Do(b1, move), book, last);
      assert ApplyPlan(b, coid, o) == [write] + ([move] + last);
    } else {
      ApplyFilledLawful(b, book, coid, o);
    }
  }

  lemma ApplyFilledLawful(b: Books, book: Book, coid: string, o: Echo)
    requires Inv(b, book) && Vouched(book, coid, Got(o))
    requires coid in b.orders.rows && Pending(b.orders.rows[coid].status)
    requires o.status.WFilled? && ParseFill(o).Some?
    ensures LawfulAll(b, book, ApplyPlan(b, coid, o))
  {
    hide Inv;
    var f := ParseFill(o).value;
    var row := b.orders.rows[coid];
    var write, first, second := WriteFill(coid, f), MoveOrder(coid, Working, Filled), MoveOrder(coid, Partial, Filled);
    OrderFact(b, book, coid);
    PendingHasNoFill(b, book, coid);
    var tail := FilledTail(b, coid, Some(row.symbol), Some(row.side), f, true);
    if row.status == Working {
      First(b, book, write, [first] + tail);
      var b1 := Do(b, write);
      First(b1, book, first, tail);
      FilledTailLawful(Do(b1, first), book, b, coid, Some(row.symbol), Some(row.side), f, true);
      assert ApplyPlan(b, coid, o) == [write] + ([first] + tail);
    } else {
      First(b, book, write, [first] + ([second] + tail));
      var b1 := Do(b, write);
      First(b1, book, first, [second] + tail);
      var b2 := Do(b1, first);
      First(b2, book, second, tail);
      FilledTailLawful(Do(b2, second), book, b, coid, Some(row.symbol), Some(row.side), f, true);
      assert ApplyPlan(b, coid, o) == [write] + ([first] + ([second] + tail));
    }
  }

  // ---- _timeout_close ----

  lemma CloseLawful(b: Books, book: Book, coid: string, a: Answer)
    requires Inv(b, book) && Vouched(book, coid, a)
    requires coid in b.orders.rows && Pending(b.orders.rows[coid].status)
    ensures LawfulAll(b, book, ClosePlan(b, coid, a))
  {
    hide Inv;
    if ClosePlan(b, coid, a) == [Append(Alert(OrderUnreconciled, coid))] {
      AlertsLawful(b, book, ClosePlan(b, coid, a));
    } else if a.o.status.WFilled? || a.o.status.WPartial? {
      ApplyLawful(b, book, coid, a.o);
    } else if ParseDeadFill(a.o).NoShares? {
      CloseEmptyLawful(b, book, coid, a);
    } else {
      CloseHeldLawful(b, book, coid, a);
    }
  }

  lemma CloseEmptyLawful(b: Books, book: Book, coid: string, a: Answer)
    requires Inv(b, book) && a.Got? && Vouched(book, coid, a)
    requires coid in b.orders.rows && Pending(b.orders.rows[coid].status)
    requires ConfirmedDead(a.o.status).Some? && ParseDeadFill(a.o).NoShares?
    requires OrderEdge(b.orders.rows[coid].status, ConfirmedDead(a.o.status).value)
    ensures LawfulAll(b, book, ClosePlan(b, coid, a))
  {
    hide Inv;
    var row := b.orders.rows[coid];
    OrderFact(b, book, coid);
    assert book[coid].filled == 0 && row.fill.None?;
    var move := MoveOrder(coid, row.status, ConfirmedDead(a.o.status).value);
    var last := [Append(Alert(OrderUnfilledAtCap, coid))];
    var did := b.tickets.rows[coid].decisionId;
    var fail := MoveDecision(did, Approved, Failed);
    First(b, book, move, [fail] + last);
    var b1 := Do(b, move);
    OnlyTicket(b1, book, coid);
    First(b1, book, fail, last);
    AlertsLawful(Do(b1, fail), book, last);
    assert ClosePlan(b, coid, a) == [move] + ([fail] + last);
  }

  lemma CloseHeldLawful(b: Books, book: Book, coid: string, a: Answer)
    requires Inv(b, book) && a.Got? && Vouched(book, coid, a)
    requires coid in b.orders.rows && Pending(b.orders.rows[coid].status)
    requires ConfirmedDead(a.o.status).Some? && ParseDeadFill(a.o).Shares?
    requires OrderEdge(b.orders.rows[coid].status, ConfirmedDead(a.o.status).value)
    ensures LawfulAll(b, book, ClosePlan(b, coid, a))
  {
    hide Inv;
    var row := b.orders.rows[coid];
    var f := ParseDeadFill(a.o).f;
    OrderFact(b, book, coid);
    PendingHasNoFill(b, book, coid);
    var write, move := WriteFill(coid, f), MoveOrder(coid, row.status, ConfirmedDead(a.o.status).value);
    var tail := FilledTail(b, coid, Some(row.symbol), Some(row.side), f, false);
    var last := [Append(Alert(OrderPartialThenDead, coid))];
    First(b, book, write, [move] + (tail + last));
    var b1 := Do(b, write);
    First(b1, book, move, tail + last);
    var b2 := Do(b1, move);
    FilledTailLawful(b2, book, b, coid, Some(row.symbol), Some(row.side), f, false);
    TailThenAlert(b2, book, tail, last);
    assert ClosePlan(b, coid, a) == [write] + ([move] + (tail + last));
  }

  lemma {:induction false} TailThenAlert(b: Books, book: Book, cs: seq<Commit>, last: seq<Commit>)
    requires Inv(b, book) && LawfulAll(b, book, cs)
    requires forall i | 0 <= i < |last| :: last[i].Append? && !last[i].event.FillEvent?
    ensures LawfulAll(b, book, cs + last)
    decreases |cs|
  {
    if cs == [] {
      AlertsLawful(b, book, last);
      assert cs + last == last;
    } else {
      LawfulKeeps(b, book, cs[0]);
      TailThenAlert(Do(b, cs[0]), book, cs[1..], last);
      assert (cs + last)[1..] == cs[1..] + last;
    }
  }

  // ---- recover_lost_orders ----

  /** Recovery checks which order an answer is about, so the answer may
      describe any order the broker holds. */
  ghost predicate VouchedForItself(book: Book, a: Answer) {
    a.Got? && a.o.coid.Some? ==> Vouched(book, a.o.coid.value, a)
  }

  lemma RecoverLawful(b: Books, book: Book, tid: string, a: Answer)
    requires Inv(b, book) && VouchedForItself(book, a) && tid in b.tickets.rows
    ensures LawfulAll(b, book, RecoverPlan(b, tid, a))
  {
    hide Inv;
    if !a.Got? || RecoverableQty(a.o, tid, b.tickets.rows[tid]).None? {
      AlertsLawful(b, book, RecoverPlan(b, tid, a));
      return;
    }
    var t := b.tickets.rows[tid];
    ReadersAgree(a.o, book[tid]);
    BookFact(b, book, tid);
    var row := NewRow(a.o, t.ticker, t.side, RecoverableQty(a.o, tid, t).value);
    var insert, consume := InsertOrder(tid, row), MoveTicket(tid, Open, Consumed);
    assert OrderOk(b.tickets.rows.Keys, book, tid, row);
    if Applies(b, insert) {
      var last := if t.status == Open then [Append(Alert(OrderRecovered, tid))] else [];
      First(b, book, insert, [consume] + last);
      var b1 := Do(b, insert);
      First(b1, book, consume, last);
      AlertsLawful(Do(b1, consume), book, last);
      assert RecoverPlan(b, tid, a) == [insert] + ([consume] + last);
    } else {
      First(b, book, insert, [Append(Alert(OrderRecoveryUnwritable, tid))]);
      AlertsLawful(Do(b, insert), book, [Append(Alert(OrderRecoveryUnwritable, tid))]);
    }
  }

  // ---- expire_open_tickets ----

  lemma ExpireLawful(b: Books, book: Book, tid: string, now: int)
    requires Inv(b, book) && tid in b.tickets.rows
    ensures LawfulAll(b, book, ExpirePlan(b, tid, now))
  {
    hide Inv;
    var t := b.tickets.rows[tid];
    if t.status == Open && now >= t.expiresAt {
      var close, lapse := MoveTicket(tid, Open, Expired), MoveDecision(t.decisionId, Approved, Lapsed);
      First(b, book, close, [lapse]);
      var b1 := Do(b, close);
      OnlyTicket(b1, book, tid);
      Only(b1, book, lapse);
      assert ExpirePlan(b, tid, now) == [close] + [lapse];
    }
  }

  // ---- the gate stage ----

  lemma RejectLawful(b: Books, book: Book, did: int, reason: Option<Risk.Reason>)
    requires Inv(b, book)
    ensures LawfulAll(b, book, RejectPlan(b, did, reason))
  {
    hide Inv;
    var existing := TicketFor(b.tickets, did);
    var reject := MoveDecision(did, Submitted, Rejected);
    var last := if Applies(b, reject) then [Append(GateRejected(did, reason))] else [];
    if existing.None? { NoTicketFact(b, book, did); } else { OnlyTicket(b, book, existing.value); }
    if existing.Some? && b.tickets.rows[existing.value].status == Open {
      var close := MoveTicket(existing.value, Open, Expired);
      First(b, book, close, [reject] + last);
      var b1 := Do(b, close);
      OnlyTicket(b1, book, existing.value);
      First(b1, book, reject, last);
      AlertsLawful(Do(b1, reject), book, last);
      assert RejectPlan(b, did, reason) == [close] + ([reject] + last);
    } else {
      First(b, book, reject, last);
      AlertsLawful(Do(b, reject), book, last);
      assert RejectPlan(b, did, reason) == [reject] + last;
    }
  }

  lemma HandleLawful(b: Books, book: Book, did: int, s: Risk.Snapshot, expiresAt: int, newId: string)
    requires Inv(b, book) && did in b.decisions.rows && b.decisions.rows[did].status == Submitted
    ensures LawfulAll(b, book, HandlePlan(b, did, s, expiresAt, newId).commits)
  {
    hide Inv;
    var d := b.decisions.rows[did];
    if d.action.Hold? {
      HoldHasNoTicket(b, book, did);
      Only(b, book, MoveDecision(did, Submitted, Held));
    } else if CappedQty(d, s) < 1 {
      RejectLawful(b, book, did, RejectReason(d, s));
    } else {
      ApproveLawful(b, book, did, s, expiresAt, newId);
    }
  }

  /** min(ask, size()) is an amount both the PM and the sizer allow. */
  lemma CapIsAllowed(d: Decision, s: Risk.Snapshot)
    requires CappedQty(d, s) >= 1
    ensures d.action.Trade? && CappedQty(d, s) <= d.qty
    ensures Risk.Allows(s, d.action.side, CappedQty(d, s)) && Risk.Warrants(s, d.action.side, CappedQty(d, s))
  {
    hide Risk.Size;
    Risk.AllowsWarrants(s, d.action.side, CappedQty(d, s));
  }

  /** The cap is the most the PM asked for that the account and the market
      warrant; for a sell, that is held. */
  lemma CapIsExact(d: Decision, s: Risk.Snapshot, q: int)
    requires q >= 1
    ensures q <= CappedQty(d, s) <==> d.action.Trade? && q <= d.qty && Risk.Warrants(s, d.action.side, q)
  {
    hide Risk.Size, Risk.Warrants;
    if d.action.Trade? { Risk.AllowsWarrants(s, d.action.side, q); }
  }

  lemma ApproveLawful(b: Books, book: Book, did: int, s: Risk.Snapshot, expiresAt: int, newId: string)
    requires Inv(b, book) && did in b.decisions.rows && b.decisions.rows[did].status == Submitted
    requires CappedQty(b.decisions.rows[did], s) >= 1
    ensures LawfulAll(b, book, HandlePlan(b, did, s, expiresAt, newId).commits)
  {
    hide Inv, CappedQty, Risk.Allows;
    var d := b.decisions.rows[did];
    CapIsAllowed(d, s);
    var cap, existing := CappedQty(d, s), TicketFor(b.tickets, did);
    var minted := InsertTicket(newId, Ticket(did, d.ticker, d.action.side, cap, d.stopPrice, expiresAt, Open, s));
    if existing.None? && !Applies(b, minted) { return; }
    var tid := if existing.Some? then existing.value else newId;
    var write := if existing.Some? then Recap(tid, cap, expiresAt, s) else minted;
    if existing.Some? { TicketFact(b, book, tid); }
    var approve, last := MoveDecision(did, Submitted, Approved), [Append(GateApproved(tid, cap))];
    First(b, book, write, [approve] + last);
    var b1 := Do(b, write);
    assert tid in b1.tickets.rows && b1.tickets.rows[tid].decisionId == did;
    First(b1, book, approve, last);
    AlertsLawful(Do(b1, approve), book, last);
    assert HandlePlan(b, did, s, expiresAt, newId).commits == [write] + ([approve] + last);
  }

  lemma {:induction false} LawfulJoin(b: Books, book: Book, xs: seq<Commit>, ys: seq<Commit>)
    requires Inv(b, book) && LawfulAll(b, book, xs) && LawfulAll(DoAll(b, xs), book, ys)
    ensures LawfulAll(b, book, xs + ys)
    decreases |xs|
  {
    if xs == [] {
      assert xs + ys == ys;
    } else {
      LawfulKeeps(b, book, xs[0]);
      LawfulJoin(Do(b, xs[0]), book, xs[1..], ys);
      assert (xs + ys)[1..] == xs[1..] + ys;
    }
  }

  lemma {:induction false} LawfulTake(b: Books, book: Book, cs: seq<Commit>, k: nat)
    requires LawfulAll(b, book, cs) && k <= |cs|
    ensures LawfulAll(b, book, cs[..k])
    decreases |cs|
  {
    if k > 0 {
      LawfulTake(Do(b, cs[0]), book, cs[1..], k - 1);
      assert cs[..k][1..] == cs[1..][..k - 1];
    }
  }

  lemma GateLawful(b: Books, book: Book, did: int, s: Risk.Snapshot, expiresAt: int, newId: string, raiseAt: Option<nat>)
    requires Inv(b, book) && did in b.decisions.rows && b.decisions.rows[did].status == Submitted
    ensures LawfulAll(b, book, GatePlan(b, did, s, expiresAt, newId, raiseAt))
  {
    hide Inv;
    var h := HandlePlan(b, did, s, expiresAt, newId);
    HandleLawful(b, book, did, s, expiresAt, newId);
    var cut := if raiseAt.Some? && raiseAt.value <= |h.commits| then raiseAt.value else |h.commits|;
    LawfulTake(b, book, h.commits, cut);
    LawfulPrefix(b, book, h.commits, cut);
    RejectLawful(DoAll(b, h.commits[..cut]), book, did, Some(Risk.GateError));
    LawfulJoin(b, book, h.commits[..cut], RejectPlan(DoAll(b, h.commits[..cut]), did, Some(Risk.GateError)));
  }
}
