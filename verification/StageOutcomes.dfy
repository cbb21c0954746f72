/** Where an order, its ticket, its decision and its fill events end after the
    whole reconciliation stage against a steady broker, from the fields of the
    broker's answers. */
module StageOutcomes {
  import opened Records
  import opened FundTables
  import opened Broker
  import opened Plans
  import opened Safety
  import opened PlansAreLawful
  import opened Reconcile
  import opened OneOrder
  import opened ReconcileFacts
  import opened Confluence
  import opened Aftermath

  /** An approved decision becomes `to`; any other stays what it is. */
  function Decided(d: Option<Decision>, to: DecisionStatus): Option<Decision> {
    if d.Some? && d.value.status == Approved then Some(d.value.(status := to)) else d
  }

  /** Looked up while polling, the order neither filled nor part-filled. */
  predicate StillWorks(a: Answer) {
    a.Nothing? || (a.Got? && !a.o.status.WFilled? && !a.o.status.WPartial?)
  }

  // ---- from books to slices ----

  lemma NoFillsFor(events: seq<Event>, c: string)
    requires NoFillYet(events, c)
    ensures FillsFor(events, c) == []
    decreases |events|
  {
    if events != [] { NoFillsFor(events[..|events| - 1], c); }
  }

  lemma LostHasNoFill(b: Books, book: Book, c: string)
    requires Inv(b, book) && c !in b.orders.rows
    ensures NoFillYet(b.events, c)
  {
    forall i | 0 <= i < |b.events| && b.events[i].FillEvent? ensures b.events[i].ticketId != c {
      assert FillOk(b.orders.rows, book, b.events[i]);
    }
  }

  lemma DecidesSlice(b: Books, b': Books, c: string, to: DecisionStatus)
    requires Decides(b, b', c, to) && b'.tickets == b.tickets
    ensures SliceOf(b', c).ticket == SliceOf(b, c).ticket
    ensures SliceOf(b', c).decision == Decided(SliceOf(b, c).decision, to)
  {
  }

  /** One fill event, then at most one alert. */
  lemma OneFillSlice(events: seq<Event>, c: string, fill: Event, news: seq<Event>)
    requires NoFillYet(events, c) && IsFillOf(fill, c)
    requires news == [fill] || (|news| == 2 && news[0] == fill && !news[1].FillEvent?)
    ensures FillsFor(events + news, c) == [fill]
  {
    hide FillsFor, NoFillYet;
    NoFillsFor(events, c);
    FillsForSnoc(events, fill, c);
    if |news| == 2 {
      assert events + news == (events + [fill]) + [news[1]];
      FillsForSnoc(events + [fill], news[1], c);
    } else {
      assert events + news == events + [fill];
    }
  }

  lemma NoFillSlice(events: seq<Event>, c: string, alert: Event)
    requires NoFillYet(events, c) && !alert.FillEvent?
    ensures FillsFor(events + [alert], c) == []
  {
    NoFillsFor(events, c);
    FillsForSnoc(events, alert, c);
  }

  // ---- one order, alone ----

  lemma FilledAlone(b: Books, c: string, o: Echo, n: int, p: real)
    requires IsPending(b, c) && NoFillYet(b.events, c) && o.status.WFilled? && Reports(o, n, p)
    ensures var row := b.orders.rows[c];
            SliceOf(DoAll(b, PollPlan(b, c, Got(o))), c)
            == Slice(Some(row.(status := Filled, fill := Some(Fill(n, p)))), SliceOf(b, c).ticket,
                     Decided(SliceOf(b, c).decision, Executed),
                     [FillEvent(c, Some(row.symbol), Some(row.side), Fill(n, p))])
  {
    hide DoAll, Decides, FillsFor, NoFillYet;
    PollLeaves(b, c, o);
    var row, b' := b.orders.rows[c], DoAll(b, ApplyPlan(b, c, o));
    var fill := FillEvent(c, Some(row.symbol), Some(row.side), Fill(n, p));
    var news := [fill] + if c in b.tickets.rows && !WasApproved(b, c) then [Alert(FillOnUnapprovedDecision, c)] else [];
    assert Writes(b, b', c, row.(status := Filled, fill := Some(Fill(n, p))), news);
    hide ApplyPlan, AsPolled, WasApproved;
    OneFillSlice(b.events, c, fill, news);
    DecidesSlice(b, b', c, Executed);
  }

  lemma DeadAlone(b: Books, c: string, e: Echo, dead: OrderStatus, n: int, p: real)
    requires IsPending(b, c) && NoFillYet(b.events, c) && Ends(b.orders.rows[c].status, e.status, dead) && Reports(e, n, p)
    ensures var row := b.orders.rows[c];
            SliceOf(DoAll(b, ClosePlan(b, c, Got(e))), c)
            == Slice(Some(row.(status := dead, fill := Some(Fill(n, p)))), SliceOf(b, c).ticket,
                     Decided(SliceOf(b, c).decision, Executed),
                     [FillEvent(c, Some(row.symbol), Some(row.side), Fill(n, p))])
  {
    hide DoAll, Decides, FillsFor, NoFillYet, ClosePlan;
    ClosedHolding(b, c, Got(e), dead, n, p);
    var row := b.orders.rows[c];
    var fill := FillEvent(c, Some(row.symbol), Some(row.side), Fill(n, p));
    OneFillSlice(b.events, c, fill, [fill, Alert(OrderPartialThenDead, c)]);
    DecidesSlice(b, DoAll(b, ClosePlan(b, c, Got(e))), c, Executed);
  }

  lemma EmptyAlone(b: Books, c: string, e: Echo, dead: OrderStatus)
    requires IsPending(b, c) && NoFillYet(b.events, c) && Ends(b.orders.rows[c].status, e.status, dead) && NoneHeld(e)
    ensures SliceOf(DoAll(b, ClosePlan(b, c, Got(e))), c)
            == Slice(Some(b.orders.rows[c].(status := dead)), SliceOf(b, c).ticket,
                     Decided(SliceOf(b, c).decision, Failed), [])
  {
    hide DoAll, Decides, FillsFor, NoFillYet, ClosePlan;
    ClosedEmpty(b, c, Got(e), dead);
    NoFillSlice(b.events, c, Alert(OrderUnfilledAtCap, c));
    DecidesSlice(b, DoAll(b, ClosePlan(b, c, Got(e))), c, Failed);
  }

  // ---- the stage ----

  lemma PendingStays(b: Books, book: Book, ans: string -> Answer, after: string -> Answer,
                     pollS: real, maxWaitS: real, c: string)
    requires pollS > 0.0 && Inv(b, book) && AllVouched(book, ans) && IsPending(b, c)
    ensures SliceOf(StageResult(b, ans, Steady(ans, after), pollS, maxWaitS).b, c) == SliceOf(Settle(b, c, ans, after), c)
    ensures NoFillYet(b.events, c)
  {
    hide Inv, StageResult, AllVouched, Recovered, Settle, SliceOf, NoFillYet, Keyed;
    StageSlice(b, book, ans, after, pollS, maxWaitS, c);
    SettleSame(Recovered(b, ans).b, b, c, ans, after);
    PendingHasNoFill(b, book, c);
  }

  /** A filled order: whatever the number of rounds and the other orders, the
      stage leaves its row filled with the reported numbers, its approved
      decision executed, and exactly one fill event. */
  lemma StageFills(b: Books, book: Book, ans: string -> Answer, after: string -> Answer,
                   pollS: real, maxWaitS: real, c: string, o: Echo, n: int, p: real)
    requires pollS > 0.0 && Inv(b, book) && AllVouched(book, ans) && IsPending(b, c)
    requires ans(c) == Got(o) && o.status.WFilled? && Reports(o, n, p)
    ensures var row := b.orders.rows[c];
            SliceOf(StageResult(b, ans, Steady(ans, after), pollS, maxWaitS).b, c)
            == Slice(Some(row.(status := Filled, fill := Some(Fill(n, p)))), SliceOf(b, c).ticket,
                     Decided(SliceOf(b, c).decision, Executed),
                     [FillEvent(c, Some(row.symbol), Some(row.side), Fill(n, p))])
  {
    PendingStays(b, book, ans, after, pollS, maxWaitS, c);
    ParsedIsReported(o, n, p);
    hide Inv, StageResult, AllVouched, DoAll, PollPlan, SliceOf, NoFillYet;
    FilledAlone(b, c, o, n, p);
  }

  /** An order still working at the cap and then dead with shares: the row
      carries the shares, the approved decision is executed, one fill event. */
  lemma StageClosesHolding(b: Books, book: Book, ans: string -> Answer, after: string -> Answer,
                           pollS: real, maxWaitS: real, c: string, e: Echo, dead: OrderStatus, n: int, p: real)
    requires pollS > 0.0 && Inv(b, book) && AllVouched(book, ans) && IsPending(b, c)
    requires StillWorks(ans(c)) && after(c) == Got(e)
    requires Ends(b.orders.rows[c].status, e.status, dead) && Reports(e, n, p)
    ensures var row := b.orders.rows[c];
            SliceOf(StageResult(b, ans, Steady(ans, after), pollS, maxWaitS).b, c)
            == Slice(Some(row.(status := dead, fill := Some(Fill(n, p)))), SliceOf(b, c).ticket,
                     Decided(SliceOf(b, c).decision, Executed),
                     [FillEvent(c, Some(row.symbol), Some(row.side), Fill(n, p))])
  {
    PendingStays(b, book, ans, after, pollS, maxWaitS, c);
    hide Inv, StageResult, AllVouched, DoAll, ClosePlan, SliceOf, NoFillYet;
    DeadAlone(b, c, e, dead, n, p);
  }

  /** ... and dead with none: the approved decision failed, no fill event. */
  lemma StageClosesEmpty(b: Books, book: Book, ans: string -> Answer, after: string -> Answer,
                         pollS: real, maxWaitS: real, c: string, e: Echo, dead: OrderStatus)
    requires pollS > 0.0 && Inv(b, book) && AllVouched(book, ans) && IsPending(b, c)
    requires StillWorks(ans(c)) && after(c) == Got(e)
    requires Ends(b.orders.rows[c].status, e.status, dead) && NoneHeld(e)
    ensures SliceOf(StageResult(b, ans, Steady(ans, after), pollS, maxWaitS).b, c)
            == Slice(Some(b.orders.rows[c].(status := dead)), SliceOf(b, c).ticket,
                     Decided(SliceOf(b, c).decision, Failed), [])
  {
    PendingStays(b, book, ans, after, pollS, maxWaitS, c);
    hide Inv, StageResult, AllVouched, DoAll, ClosePlan, SliceOf, NoFillYet;
    EmptyAlone(b, c, e, dead);
  }

  /** The slice a lost order gets back when its matching answer is recovered. */
  lemma RecoveredSlice(b: Books, book: Book, ans: string -> Answer, c: string, e: Echo, n: int)
    requires Inv(b, book) && AllVouched(book, ans) && IsLost(b, c)
    requires ans(c) == Got(e) && Matches(e, c, b.tickets.rows[c], n)
    ensures var t := b.tickets.rows[c];
            SliceOf(RecoverAlone(b, c, ans), c)
            == SliceOf(b, c).(order := Some(Order(e.id, t.ticker, t.side, n, Working, None)),
                              ticket := Some(t.(status := Consumed)))
  {
    hide Inv, DoAll, RecoverPlan, RecoverableQty;
    assert VouchedForItself(book, ans(c));
    hide VouchedForItself;
    var t := b.tickets.rows[c];
    MatchedIff(e, c, t, n);
    hide Matches;
    RecoverLands(b, book, c, ans(c));
    BrokerIdIsFree(b, book, c, e.id);
    LandedSlice(b, c, NewRow(e, t.ticker, t.side, n));
  }

  /** A lost order that filled: one pass of the stage gives it its row, filled,
      its ticket consumed, its approved decision executed, one fill event. */
  lemma StageRecoversFill(b: Books, book: Book, ans: string -> Answer, after: string -> Answer,
                          pollS: real, maxWaitS: real, c: string, e: Echo, n: int, k: int, p: real)
    requires pollS > 0.0 && Inv(b, book) && AllVouched(book, ans) && IsLost(b, c)
    requires ans(c) == Got(e) && Matches(e, c, b.tickets.rows[c], n) && e.status.WFilled? && Reports(e, k, p)
    ensures var t := b.tickets.rows[c];
            SliceOf(StageResult(b, ans, Steady(ans, after), pollS, maxWaitS).b, c)
            == Slice(Some(Order(e.id, t.ticker, t.side, n, Filled, Some(Fill(k, p)))),
                     Some(t.(status := Consumed)), Decided(SliceOf(b, c).decision, Executed),
                     [FillEvent(c, Some(t.ticker), Some(t.side), Fill(k, p))])
  {
    RecoveredSlice(b, book, ans, c, e, n);
    StageSlice(b, book, ans, after, pollS, maxWaitS, c);
    LostHasNoFill(b, book, c);
    NoFillsFor(b.events, c);
    ParsedIsReported(e, k, p);
    var r := Recovered(b, ans).b;
    hide Inv, StageResult, AllVouched, DoAll, PollPlan, Recovered, RecoverAlone, Matches, NoFillYet, FillsFor, Keyed;
    FillsNone(r, c);
    FilledAlone(r, c, e, k, p);
  }

  lemma FillsNone(b: Books, c: string)
    requires FillsFor(b.events, c) == []
    ensures NoFillYet(b.events, c)
  {
    NoneAmong(b.events, c);
  }

  lemma NoneAmong(events: seq<Event>, c: string)
    requires FillsFor(events, c) == []
    ensures NoFillYet(events, c)
    decreases |events|
  {
    if events != [] { NoneAmong(events[..|events| - 1], c); }
  }
}
