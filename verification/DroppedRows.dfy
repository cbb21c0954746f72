/** The recorder's silent drop: a null symbol or side skips the order row, and
    the ticket is consumed all the same. When exactly that happens, that
    nothing repairs it, and what it does to recovery. */
module DroppedRows {
  import opened Records
  import opened FundTables
  import opened Broker
  import opened Plans
  import opened Safety
  import opened PlansAreLawful
  import opened Reconcile
  import opened OneOrder
  import opened ReconcileFacts
  import opened Confluence
  import opened Runs
  import Risk

  /** A consumed ticket without an order row. */
  predicate Orphaned(b: Books, c: string) {
    c in b.tickets.rows && b.tickets.rows[c].status == Consumed && c !in b.orders.rows
  }

  /** The response was readable, for this order, and named no symbol or side. */
  predicate NullCall(o: Echo, c: string) { Readable(o) && NullNamed(o) && o.coid == Some(c) }

  /** The response was readable, for this order, and complete. */
  predicate FullCall(o: Echo, c: string) { Readable(o) && !NullNamed(o) && o.coid == Some(c) }

  // ---- which commits can do it ----

  /** Touches neither tickets nor which orders have rows. */
  predicate Aside(m: Commit) {
    m.MoveDecision? || m.MoveOrder? || m.WriteFill? || m.Append? || m.DroppedInsert?
  }

  lemma {:induction false} AsideKeeps(b: Books, cs: seq<Commit>, c: string)
    requires forall i | 0 <= i < |cs| :: Aside(cs[i])
    ensures Orphaned(DoAll(b, cs), c) <==> Orphaned(b, c)
    decreases |cs|
  {
    if cs != [] { AsideKeeps(Do(b, cs[0]), cs[1..], c); }
  }

  /** Consumes no ticket. */
  predicate Sparing(m: Commit) {
    (m.MoveTicket? ==> m.tTo != Consumed) && (m.InsertTicket? ==> m.ticket.status != Consumed)
  }

  lemma {:induction false} OnlyConsumingOrphans(b: Books, cs: seq<Commit>, c: string)
    requires forall i | 0 <= i < |cs| :: Sparing(cs[i])
    ensures Orphaned(DoAll(b, cs), c) ==> Orphaned(b, c)
    decreases |cs|
  {
    if cs != [] { OnlyConsumingOrphans(Do(b, cs[0]), cs[1..], c); }
  }

  // ---- one recorder call, cut anywhere ----

  lemma TailIsAside(b: Books, o: Echo)
    requires |RecordPlan(b, o)| > 0
    ensures |RecordPlan(b, o)| >= 2
    ensures forall i | 2 <= i < |RecordPlan(b, o)| :: Aside(RecordPlan(b, o)[i])
  {
  }

  lemma TwoThenTail(b: Books, o: Echo, k: nat)
    requires 2 <= k <= |RecordPlan(b, o)|
    ensures var coid := o.coid.value;
            DoAll(b, RecordPlan(b, o)[..k])
            == DoAll(Do(Do(b, RecordInsert(o)), MoveTicket(coid, Open, Consumed)), RecordPlan(b, o)[2..k])
  {
    hide Do, DoAll, RecordInsert, RecordFillPlan, ForeignKeyFails;
    var plan := RecordPlan(b, o);
    var rest := plan[2..k];
    assert plan[..k] == [RecordInsert(o), MoveTicket(o.coid.value, Open, Consumed)] + rest;
    TwoFirst(b, RecordInsert(o), MoveTicket(o.coid.value, Open, Consumed), rest);
  }

  lemma OneOnly(b: Books, cs: seq<Commit>)
    requires |cs| >= 1
    ensures DoAll(b, cs[..1]) == Do(b, cs[0])
  {
    assert cs[..1] == [cs[0]] && [cs[0]][1..] == [];
  }

  lemma FirstTwoOrphan(b: Books, book: Book, o: Echo, c: string)
    requires Inv(b, book) && RecordPlan(b, o) != [] && Vouched(book, o.coid.value, Got(o))
    ensures var b1 := Do(b, RecordInsert(o));
            && (Orphaned(b1, c) <==> Orphaned(b, c) && !FullCall(o, c))
            && (Orphaned(Do(b1, MoveTicket(o.coid.value, Open, Consumed)), c) <==>
                  if Orphaned(b, c) then !FullCall(o, c) else NullCall(o, c) && IsLost(b, c))
  {
    hide Inv;
    var coid := o.coid.value;
    BookFact(b, book, coid);
    if coid !in b.orders.rows { BrokerIdIsFree(b, book, coid, o.id); }
  }

  /** Exactly when a recorder call, run to its end or killed after any commit,
      leaves a consumed ticket without an order row: the ticket was open with no
      row, the quantity was readable, symbol or side was null, and the ticket's
      move was reached; or it was so already and no complete response came. */
  lemma RecorderOrphansIff(b: Books, book: Book, o: Echo, k: nat, c: string)
    requires Inv(b, book) && (o.coid.Some? ==> Vouched(book, o.coid.value, Got(o)))
    requires k <= |RecordPlan(b, o)|
    ensures Orphaned(DoAll(b, RecordPlan(b, o)[..k]), c) <==>
              if Orphaned(b, c) then !(k >= 1 && FullCall(o, c))
              else k >= 2 && NullCall(o, c) && IsLost(b, c)
  {
    hide Inv, Orphaned, IsLost, RecordPlan, FullCall, NullCall, Do, DoAll;
    var plan := RecordPlan(b, o);
    if k == 0 {
      NoCommits(b);
      assert plan[..0] == [];
    } else {
      TailIsAside(b, o);
      PlanIsNotEmpty(b, o);
      FirstTwoOrphan(b, book, o, c);
      if k == 1 {
        OneOnly(b, plan);
      } else {
        TwoThenTail(b, o, k);
        AsideKeeps(Do(Do(b, RecordInsert(o)), MoveTicket(o.coid.value, Open, Consumed)), plan[2..k], c);
      }
    }
  }

  lemma PlanIsNotEmpty(b: Books, o: Echo)
    requires RecordPlan(b, o) != []
    ensures Readable(o) && RecordPlan(b, o)[0] == RecordInsert(o)
  {
  }

  // ---- over whole runs ----

  /** This move is a recorder call that drops the row and consumes the ticket. */
  ghost predicate DropsNow(w: World, m: Move, c: string) {
    m.Work? && m.e.Record? && m.k >= 2 && NullCall(m.e.o, c) && IsLost(w.b, c)
  }

  ghost predicate DroppedSomewhere(w: World, ms: seq<Move>, c: string)
    requires Run(w, ms)
    decreases |ms|
  {
    ms != [] && (DropsNow(w, ms[0], c) || DroppedSomewhere(Next(w, ms[0]), ms[1..], c))
  }

  /** Recovery consumes a ticket only once its row is in. */
  lemma RecoverNeverOrphans(b: Books, tid: string, a: Answer, k: nat, c: string)
    requires tid in b.tickets.rows && k <= |RecoverPlan(b, tid, a)|
    ensures Orphaned(DoAll(b, RecoverPlan(b, tid, a)[..k]), c) ==> Orphaned(b, c)
  {
    var plan := RecoverPlan(b, tid, a);
    if k >= 2 && plan[1].MoveTicket? {
      var b1 := Do(b, plan[0]);
      assert tid in b1.orders.rows;
      assert plan[..k] == [plan[0], plan[1]] + plan[2..k];
      TwoFirst(b, plan[0], plan[1], plan[2..k]);
      AsideKeeps(Do(b1, plan[1]), plan[2..k], c);
    } else if k >= 1 {
      OnlyConsumingOrphans(b, plan[..k], c);
    } else {
      assert plan[..0] == [];
    }
  }

  lemma OthersConsumeNothing(w: World, e: Episode)
    requires Runnable(w, e) && !e.Record? && !e.Recover?
    ensures forall i | 0 <= i < |PlanOf(w, e)| :: Sparing(PlanOf(w, e)[i])
  {
    match e
    case GateDecision(did, s, expiresAt, newId, raiseAt) => GateConsumesNothing(w.b, did, s, expiresAt, newId, raiseAt);
    case _ =>
  }

  lemma RejectConsumesNothing(b: Books, did: int, reason: Option<Risk.Reason>)
    ensures forall i | 0 <= i < |RejectPlan(b, did, reason)| :: Sparing(RejectPlan(b, did, reason)[i])
  {
  }

  lemma GateConsumesNothing(b: Books, did: int, s: Risk.Snapshot, expiresAt: int, newId: string, raiseAt: Option<nat>)
    requires did in b.decisions.rows
    ensures var cs := GatePlan(b, did, s, expiresAt, newId, raiseAt);
            forall i | 0 <= i < |cs| :: Sparing(cs[i])
  {
    hide RejectPlan, DoAll;
    var h := HandlePlan(b, did, s, expiresAt, newId);
    RejectConsumesNothing(b, did, RejectReason(b.decisions.rows[did], s));
    var cut := if raiseAt.Some? && raiseAt.value <= |h.commits| then raiseAt.value else |h.commits|;
    RejectConsumesNothing(DoAll(b, h.commits[..cut]), did, Some(Risk.GateError));
  }

  lemma MoveOrphans(w: World, m: Move, c: string)
    requires Safe(w) && Enabled(w, m)
    ensures Orphaned(Next(w, m).b, c) ==> Orphaned(w.b, c) || DropsNow(w, m, c)
    ensures DropsNow(w, m, c) ==> Orphaned(Next(w, m).b, c)
  {
    hide Inv, DoAll, RecordPlan, RecoverPlan, PollPlan, ClosePlan, ExpirePlan, GatePlan;
    if m.Work? {
      match m.e {
        case Record(o) => RecorderOrphansIff(w.b, w.book, o, m.k, c);
        case Recover(tid, a) => RecoverNeverOrphans(w.b, tid, a, m.k, c);
        case e =>
          OthersConsumeNothing(w, e);
          OnlyConsumingOrphans(w.b, PlanOf(w, e)[..m.k], c);
      }
    }
  }

  lemma {:induction false} OrphansComeFromNulls(w: World, ms: seq<Move>, c: string)
    requires Safe(w) && Run(w, ms)
    ensures Orphaned(After(w, ms).b, c) ==> Orphaned(w.b, c) || DroppedSomewhere(w, ms, c)
    decreases |ms|
  {
    hide Safe, Enabled, Next, Orphaned, DropsNow;
    if ms != [] {
      MoveKeepsSafe(w, ms[0]);
      MoveOrphans(w, ms[0], c);
      OrphansComeFromNulls(Next(w, ms[0]), ms[1..], c);
    }
  }

  // ---- nothing repairs it, and confluence needs the names ----

  /** The whole reconciliation stage leaves an orphaned ticket exactly as it
      found it: recovery looks at open tickets only and the poll at rows. */
  lemma OrphansStay(b: Books, book: Book, ans: string -> Answer, after: string -> Answer,
                    pollS: real, maxWaitS: real, c: string)
    requires pollS > 0.0 && Inv(b, book) && AllVouched(book, ans) && Orphaned(b, c)
    ensures SliceOf(StageResult(b, ans, Steady(ans, after), pollS, maxWaitS).b, c) == SliceOf(b, c)
    ensures Orphaned(StageResult(b, ans, Steady(ans, after), pollS, maxWaitS).b, c)
  {
    hide Inv, StageResult, AllVouched, Recovered;
    OrdersRecoverAlone(b, book, ans, c);
    SameSliceSamePending(Recovered(b, ans).b, b, c);
    StageSlice(b, book, ans, after, pollS, maxWaitS, c);
    SameOrphan(StageResult(b, ans, Steady(ans, after), pollS, maxWaitS).b, b, c);
  }

  lemma SameOrphan(b: Books, b': Books, c: string)
    requires SliceOf(b, c) == SliceOf(b', c)
    ensures Orphaned(b, c) <==> Orphaned(b', c)
  {
    if c in b.tickets.rows && c in b'.tickets.rows { assert b.tickets.rows[c] == b'.tickets.rows[c]; }
  }

  /** For a readable response the recorded and the lost order end the same if
      and only if the response named symbol and side. */
  lemma ConfluentIffNamed(b: Books, book: Book, c: string, resp: Echo, e: Echo,
                          ans: string -> Answer, after: string -> Answer, pollS: real, maxWaitS: real)
    requires pollS > 0.0 && Inv(b, book) && AllVouched(book, ans)
    requires c in book && IsLost(b, c)
    requires Readable(resp) && resp.coid == Some(c) && Describes(resp, book[c]) && Consistent(resp, e)
    requires ans(c) == Got(e) && Describes(e, book[c]) && RecoverableQty(e, c, b.tickets.rows[c]).Some?
    ensures (forall other ::
               SliceOf(StageResult(DoAll(b, RecordPlan(b, resp)), ans, Steady(ans, after), pollS, maxWaitS).b, other)
               == SliceOf(StageResult(b, ans, Steady(ans, after), pollS, maxWaitS).b, other))
            <==> !NullNamed(resp)
  {
    hide Inv, DoAll, RecordPlan, StageResult, AllVouched, SliceOf, LawfulAll;
    if !NullNamed(resp) {
      RecoveryIsConfluent(b, book, c, resp, e, ans, after, pollS, maxWaitS);
    } else {
      var plan := RecordPlan(b, resp);
      var a := DoAll(b, plan);
      NullPlanRuns(b, resp);
      RecorderOrphansIff(b, book, resp, |plan|, c);
      assert plan[..|plan|] == plan;
      RecordLawful(b, book, resp);
      LawfulPrefix(b, book, plan, |plan|);
      OrphansStay(a, book, ans, after, pollS, maxWaitS, c);
      RecoveredHasRow(b, book, c, e, ans, after, pollS, maxWaitS);
      SlicesTellRows(StageResult(a, ans, Steady(ans, after), pollS, maxWaitS).b,
                     StageResult(b, ans, Steady(ans, after), pollS, maxWaitS).b, c);
    }
  }

  lemma NullPlanRuns(b: Books, o: Echo)
    requires Readable(o) && NullNamed(o)
    ensures |RecordPlan(b, o)| >= 2
  {
  }

  lemma SlicesTellRows(b: Books, b': Books, c: string)
    ensures SliceOf(b, c) == SliceOf(b', c) ==> (c in b.orders.rows <==> c in b'.orders.rows)
  {
  }

  lemma RecoveredHasRow(b: Books, book: Book, c: string, e: Echo,
                        ans: string -> Answer, after: string -> Answer, pollS: real, maxWaitS: real)
    requires pollS > 0.0 && Inv(b, book) && AllVouched(book, ans) && IsLost(b, c)
    requires ans(c) == Got(e) && RecoverableQty(e, c, b.tickets.rows[c]).Some?
    ensures c in StageResult(b, ans, Steady(ans, after), pollS, maxWaitS).b.orders.rows
  {
    hide Inv, StageResult, DoAll, Recovered, PollPlan, ClosePlan, RecoverPlan, Read;
    assert VouchedForItself(book, ans(c));
    hide AllVouched, VouchedForItself;
    StageSlice(b, book, ans, after, pollS, maxWaitS, c);
    OrdersRecoverAlone(b, book, ans, c);
    RecoverLands(b, book, c, ans(c));
    var t := b.tickets.rows[c];
    var row := NewRow(e, t.ticker, t.side, RecoverableQty(e, c, t).value);
    LandedSlice(b, c, row);
    BrokerIdIsFreeFor(b, book, c, e, ans);
    var r := Recovered(b, ans).b;
    SlicesTellRows(r, RecoverAlone(b, c, ans), c);
    SettleKeepsRow(r, c, ans, after);
    SlicesTellRows(StageResult(b, ans, Steady(ans, after), pollS, maxWaitS).b, Settle(r, c, ans, after), c);
  }

  lemma BrokerIdIsFreeFor(b: Books, book: Book, c: string, e: Echo, ans: string -> Answer)
    requires Inv(b, book) && AllVouched(book, ans) && IsLost(b, c) && ans(c) == Got(e)
    requires RecoverableQty(e, c, b.tickets.rows[c]).Some?
    ensures BrokerIdFree(b, e.id)
  {
    hide Inv;
    assert VouchedForItself(book, ans(c));
    BrokerIdIsFree(b, book, c, e.id);
  }

  lemma SettleKeepsRow(b: Books, c: string, ans: string -> Answer, after: string -> Answer)
    requires c in b.orders.rows
    ensures c in Settle(b, c, ans, after).orders.rows
  {
    hide DoAll, PollPlan, ClosePlan, Read;
    PollRow(b, c, ans(c));
    CloseRow(b, c, after(c));
  }
}
