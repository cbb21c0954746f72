/** The order lifecycle's promises, read off any state any run can reach. */
module Guarantees {
  import opened Records
  import opened FundTables
  import opened Broker
  import opened Plans
  import opened Safety
  import opened PlansAreLawful
  import opened Runs
  import opened DroppedRows
  import Risk
  import OrderGate

  lemma Reached(ms: seq<Move>)
    requires Run(Genesis, ms)
    ensures Inv(After(Genesis, ms).b, After(Genesis, ms).book)
  {
    hide Inv, Run, After;
    GenesisIsSafe();
    EveryRunIsSafe(Genesis, ms);
  }

  /** The database never claims what the broker has not confirmed. */
  lemma NeverClaimsUnconfirmed(ms: seq<Move>, coid: string)
    requires Run(Genesis, ms) && coid in After(Genesis, ms).b.orders.rows
    ensures var w := After(Genesis, ms);
            var row := w.b.orders.rows[coid];
            && coid in w.book && row.qty == w.book[coid].req.qty
            && (row.status == Filled ==> w.book[coid].state.Complete?)
            && (row.status == Canceled ==> w.book[coid].state.Cancelled? || w.book[coid].state.TimedOut?)
            && (row.status == Refused ==> w.book[coid].state.Declined?)
            && (row.fill.Some? ==> 1 <= row.fill.value.qty <= w.book[coid].filled <= row.qty)
  {
    hide Inv, Run, After;
    var w := After(Genesis, ms);
    Reached(ms);
    OrderFact(w.b, w.book, coid);
    FilledWithinQty(w.b, w.book, coid);
  }

  lemma FilledWithinQty(b: Books, book: Book, coid: string)
    requires Inv(b, book) && coid in book
    ensures book[coid].filled <= book[coid].req.qty
  {
  }

  /** Every order the broker ever accepts was authorized: its client id is a
      ticket of a trading decision, ticker and side are the ticket's, the
      ticket's stop is the decision's, and its
      size is within the PM's ask and within size() on the snapshot the ticket
      was last written from when the gate let it through: a sell sells no more
      than was held, a buy fits cash, tier and sector. If the decision had left
      'submitted' by then, that is the ticket's snapshot for good. */
  lemma EveryOrderIsAuthorized(ms: seq<Move>, coid: string)
    requires Run(Genesis, ms) && coid in After(Genesis, ms).book
    ensures var w := After(Genesis, ms);
            var r := w.book[coid].req;
            && coid in w.b.tickets.rows
            && var t := w.b.tickets.rows[coid];
            && t.decisionId in w.b.decisions.rows
            && var d := w.b.decisions.rows[t.decisionId];
            && r.symbol == t.ticker == d.ticker && d.action == Trade(r.side) && t.side == r.side
            && t.stopPrice == d.stopPrice
            && 1 <= r.qty <= d.qty
            && Risk.Size(r.sizedOn, r.side).Approved? && r.qty <= Risk.Size(r.sizedOn, r.side).maxQty
            && Risk.Warrants(r.sizedOn, r.side, r.qty)
            && (r.settled ==> r.sizedOn == t.sizedOn && r.qty <= t.maxQty)
  {
    hide Inv, Run, After;
    var w := After(Genesis, ms);
    Reached(ms);
    BookFact(w.b, w.book, coid);
    TicketFact(w.b, w.book, coid);
    Risk.AllowsWarrants(w.book[coid].req.sizedOn, w.book[coid].req.side, w.book[coid].req.qty);
  }

  /** No decision is ever traded twice. */
  lemma OneBrokerOrderPerDecision(ms: seq<Move>, c: string, c': string)
    requires Run(Genesis, ms) && c in After(Genesis, ms).book && c' in After(Genesis, ms).book
    requires var w := After(Genesis, ms);
             c in w.b.tickets.rows && c' in w.b.tickets.rows
             && w.b.tickets.rows[c].decisionId == w.b.tickets.rows[c'].decisionId
    ensures c == c'
  {
    hide Inv, Run, After;
    Reached(ms);
    OnlyTicket(After(Genesis, ms).b, After(Genesis, ms).book, c);
  }

  /** Fill events: at most one per order over any number of crashes, re-fires
      and writers, and it reports the broker's final numbers, for the broker's
      symbol and side wherever it names them. */
  lemma FillEventsAreOnceAndFinal(ms: seq<Move>, i: nat, j: nat)
    requires Run(Genesis, ms)
    requires var events := After(Genesis, ms).b.events;
             i < |events| && j < |events| && events[i].FillEvent? && events[j].FillEvent?
    ensures var w := After(Genesis, ms);
            && (w.b.events[i].ticketId == w.b.events[j].ticketId ==> i == j)
            && w.b.events[i].ticketId in w.book
            && !w.book[w.b.events[i].ticketId].state.Live?
            && w.b.events[i].fill == Fill(w.book[w.b.events[i].ticketId].filled, w.book[w.b.events[i].ticketId].price)
            && w.b.events[i].fill.qty >= 1
            && (w.b.events[i].ticker.Some? ==> w.b.events[i].ticker.value == w.book[w.b.events[i].ticketId].req.symbol)
            && (w.b.events[i].side.Some? ==> w.b.events[i].side.value == w.book[w.b.events[i].ticketId].req.side)
  {
    hide Inv, Run, After;
    var w := After(Genesis, ms);
    Reached(ms);
    FillFact(w.b, w.book, i);
    OrderFact(w.b, w.book, w.b.events[i].ticketId);
    FillsDistinct(w.b, w.book, i, j);
  }

  lemma FillsDistinct(b: Books, book: Book, i: nat, j: nat)
    requires Inv(b, book) && i < |b.events| && j < |b.events| && b.events[i].FillEvent? && b.events[j].FillEvent?
    ensures b.events[i].ticketId == b.events[j].ticketId ==> i == j
  {
    if i < j { assert b.events[i].ticketId != b.events[j].ticketId; }
    if j < i { assert b.events[j].ticketId != b.events[i].ticketId; }
  }

  /** A decision's terminal status is the truth about its order. */
  lemma DecisionsTellTheTruth(ms: seq<Move>, did: int)
    requires Run(Genesis, ms) && did in After(Genesis, ms).b.decisions.rows
    ensures var w := After(Genesis, ms);
            var s := w.b.decisions.rows[did].status;
            && (PastGate(s) ==> exists tid :: tid in w.b.tickets.rows && w.b.tickets.rows[tid].decisionId == did)
            && forall tid | tid in w.b.tickets.rows && w.b.tickets.rows[tid].decisionId == did ::
                 && (forall other | other in w.b.tickets.rows && w.b.tickets.rows[other].decisionId == did :: other == tid)
                 && (s == Executed ==> HoldsShares(w.b.orders.rows, tid))
                 && (s == Failed ==> DeadWithout(w.b.orders.rows, w.book, tid))
                 && (s == Rejected || s == Held ==> w.b.tickets.rows[tid].status != Open)
                 && (s == Lapsed ==> w.b.tickets.rows[tid].status == Expired)
  {
    hide Inv, Run, After;
    var w := After(Genesis, ms);
    Reached(ms);
    HasTicketFact(w.b, w.book, did);
    forall tid | tid in w.b.tickets.rows && w.b.tickets.rows[tid].decisionId == did
      ensures TicketOk(w.b.decisions.rows, w.b.orders.rows, w.book, tid, w.b.tickets.rows[tid])
      ensures forall other | other in w.b.tickets.rows && w.b.tickets.rows[other].decisionId == did :: other == tid
    {
      TicketFact(w.b, w.book, tid);
      OnlyTicket(w.b, w.book, tid);
    }
  }

  lemma HasTicketFact(b: Books, book: Book, did: int)
    requires Inv(b, book) && did in b.decisions.rows
    ensures PastGate(b.decisions.rows[did].status) ==> HasTicket(b.tickets.rows, did)
  {
  }

  /** A consumed ticket has its order row, unless at some point of the run the
      recorder met a response that named no symbol or side for it. */
  lemma ConsumedTicketsHaveOrders(ms: seq<Move>, tid: string)
    requires Run(Genesis, ms) && tid in After(Genesis, ms).b.tickets.rows
    requires After(Genesis, ms).b.tickets.rows[tid].status == Consumed
    ensures tid in After(Genesis, ms).b.orders.rows || DroppedSomewhere(Genesis, ms, tid)
  {
    hide Inv, Run, After, DroppedSomewhere;
    GenesisIsSafe();
    OrphansComeFromNulls(Genesis, ms, tid);
  }

  // ---- approval and the ticket's life ----

  /** The decision's own ticket is live. */
  predicate LiveTicket(b: Books, did: int) {
    TicketFor(b.tickets, did).Some? && b.tickets.rows[TicketFor(b.tickets, did).value].status == Open
  }

  /** What a pass over this decision would approve: a trade the sizer leaves at
      least one share of, on its own ticket or on a free id. */
  ghost predicate Approvable(b: Books, did: int, s: Risk.Snapshot, newId: string)
    requires did in b.decisions.rows
  {
    && b.decisions.rows[did].action.Trade? && CappedQty(b.decisions.rows[did], s) >= 1
    && (TicketFor(b.tickets, did).Some? || newId !in b.tickets.rows)
  }

  /** The pass's ticket. */
  function TicketOfPass(b: Books, did: int, newId: string): string {
    match TicketFor(b.tickets, did) case Some(tid) => tid case None => newId
  }

  /** A statement raised after the approval was committed. */
  predicate RaisesLate(raiseAt: Option<nat>) { raiseAt.Some? && 2 <= raiseAt.value <= 3 }

  /** ... or before it. */
  predicate RaisesEarly(raiseAt: Option<nat>) { raiseAt.Some? && raiseAt.value <= 1 }

  /** The pass's own commits when it can approve. */
  lemma ApprovingCommits(b: Books, book: Book, did: int, s: Risk.Snapshot, expiresAt: int, newId: string)
    requires Inv(b, book) && did in b.decisions.rows && b.decisions.rows[did].status == Submitted
    requires Approvable(b, did, s, newId)
    ensures var h := HandlePlan(b, did, s, expiresAt, newId);
            var tid := TicketOfPass(b, did, newId);
            && !h.raises && |h.commits| == 3
            && h.commits[1] == MoveDecision(did, Submitted, Approved)
            && h.commits[2].Append? && !h.commits[0].MoveDecision?
            && var b1 := Do(b, h.commits[0]);
               && b1.decisions == b.decisions && b1.orders == b.orders
               && tid in b1.tickets.rows && b1.tickets.rows[tid].decisionId == did
               && (b1.tickets.rows[tid].status == Open <==> TicketFor(b.tickets, did).None? || LiveTicket(b, did))
  {
    hide Inv, CappedQty, RejectPlan;
    if TicketFor(b.tickets, did).None? { NoTicketFact(b, book, did); }
  }

  lemma {:induction false} NeverApproved(b: Books, cs: seq<Commit>, did: int)
    requires forall i | 0 <= i < |cs| && cs[i].MoveDecision? :: cs[i].dTo != Approved
    requires did in b.decisions.rows && b.decisions.rows[did].status != Approved
    ensures did in DoAll(b, cs).decisions.rows && DoAll(b, cs).decisions.rows[did].status != Approved
    decreases |cs|
  {
    if cs != [] { NeverApproved(Do(b, cs[0]), cs[1..], did); }
  }

  /** What can follow an approval in the same pass: the report, and the reject
      path a late raise takes. */
  predicate AfterApproval(c: Commit, did: int, tid: string) {
    c.Append? || c == MoveTicket(tid, Open, Expired) || c == MoveDecision(did, Submitted, Rejected)
  }

  lemma {:induction false} ApprovalStands(b: Books, cs: seq<Commit>, did: int, tid: string)
    requires forall i | 0 <= i < |cs| :: AfterApproval(cs[i], did, tid)
    requires did in b.decisions.rows && b.decisions.rows[did].status == Approved
    requires tid in b.tickets.rows && b.tickets.rows[tid].decisionId == did
    ensures var b' := DoAll(b, cs);
            && did in b'.decisions.rows && b'.decisions.rows[did].status == Approved
            && tid in b'.tickets.rows && b'.tickets.rows[tid].decisionId == did
            && (b'.tickets.rows[tid].status == Open <==>
                  b.tickets.rows[tid].status == Open && MoveTicket(tid, Open, Expired) !in cs)
    decreases |cs|
  {
    if cs != [] {
      assert forall c :: c in cs <==> c == cs[0] || c in cs[1..];
      ApprovalStands(Do(b, cs[0]), cs[1..], did, tid);
    }
  }

  lemma RejectNeverApproves(b: Books, did: int, reason: Option<Risk.Reason>)
    ensures forall i | 0 <= i < |RejectPlan(b, did, reason)| && RejectPlan(b, did, reason)[i].MoveDecision? ::
              RejectPlan(b, did, reason)[i].dTo != Approved
  {
  }

  /** The reject path on a decision already approved: close a live ticket, and a
      decision move that loses. */
  lemma LateReject(b: Books, did: int, tid: string, reason: Option<Risk.Reason>)
    requires TicketFor(b.tickets, did) == Some(tid)
    requires did in b.decisions.rows && b.decisions.rows[did].status == Approved
    ensures RejectPlan(b, did, reason) ==
            (if b.tickets.rows[tid].status == Open then [MoveTicket(tid, Open, Expired)] else [])
            + [MoveDecision(did, Submitted, Rejected)]
  {
    assert [MoveDecision(did, Submitted, Rejected)] + [] == [MoveDecision(did, Submitted, Rejected)];
  }

  /** A raise before the approve commit keeps only the ticket's write. */
  lemma NotApprovingPlan(b: Books, did: int, s: Risk.Snapshot, expiresAt: int, newId: string, raiseAt: Option<nat>)
    requires did in b.decisions.rows && RaisesEarly(raiseAt)
    requires var h := HandlePlan(b, did, s, expiresAt, newId); |h.commits| == 3 && !h.commits[0].MoveDecision?
    ensures var cs := GatePlan(b, did, s, expiresAt, newId, raiseAt);
            forall i | 0 <= i < |cs| && cs[i].MoveDecision? :: cs[i].dTo != Approved
  {
    hide HandlePlan, RejectPlan, DoAll;
    var h := HandlePlan(b, did, s, expiresAt, newId);
    RejectNeverApproves(DoAll(b, h.commits[..raiseAt.value]), did, Some(Risk.GateError));
  }

  lemma HandleApprovesOnly(b: Books, book: Book, did: int, s: Risk.Snapshot, expiresAt: int, newId: string)
    requires Inv(b, book) && did in b.decisions.rows && b.decisions.rows[did].status == Submitted
    requires !Approvable(b, did, s, newId)
    ensures var h := HandlePlan(b, did, s, expiresAt, newId);
            forall i | 0 <= i < |h.commits| && h.commits[i].MoveDecision? :: h.commits[i].dTo != Approved
  {
    hide Inv, CappedQty, RejectPlan;
    RejectNeverApproves(b, did, RejectReason(b.decisions.rows[did], s));
    if TicketFor(b.tickets, did).None? { NoTicketFact(b, book, did); }
  }

  /** The plan of a pass that approves, from its third commit on. */
  lemma LatePlan(b: Books, book: Book, did: int, s: Risk.Snapshot, expiresAt: int, newId: string, raiseAt: Option<nat>)
    requires Inv(b, book) && did in b.decisions.rows && b.decisions.rows[did].status == Submitted
    requires Approvable(b, did, s, newId) && !RaisesEarly(raiseAt)
    ensures var cs, h := GatePlan(b, did, s, expiresAt, newId, raiseAt), HandlePlan(b, did, s, expiresAt, newId);
            var tid := TicketOfPass(b, did, newId);
            var live := TicketFor(b.tickets, did).None? || LiveTicket(b, did);
            && |cs| >= 2 && cs[..2] == h.commits[..2]
            && (forall i | 2 <= i < |cs| :: AfterApproval(cs[i], did, tid))
            && (forall i | 2 <= i < |cs| ::
                  cs[i] == MoveTicket(tid, Open, Expired) <==> live && RaisesLate(raiseAt) && i == raiseAt.value)
            && (live && RaisesLate(raiseAt) ==> |cs| > raiseAt.value)
  {
    hide Inv, CappedQty, RejectPlan, HandlePlan, Approvable, DoAll;
    ApprovingCommits(b, book, did, s, expiresAt, newId);
    var h := HandlePlan(b, did, s, expiresAt, newId);
    if RaisesLate(raiseAt) {
      var r, tid := raiseAt.value, TicketOfPass(b, did, newId);
      var mid := DoAll(b, h.commits[..r]);
      MidState(b, book, did, s, expiresAt, newId, r);
      LateReject(mid, did, tid, Some(Risk.GateError));
    }
  }

  lemma MidState(b: Books, book: Book, did: int, s: Risk.Snapshot, expiresAt: int, newId: string, r: nat)
    requires Inv(b, book) && did in b.decisions.rows && b.decisions.rows[did].status == Submitted
    requires Approvable(b, did, s, newId) && 2 <= r <= 3
    ensures |HandlePlan(b, did, s, expiresAt, newId).commits| == 3
    ensures var mid := DoAll(b, HandlePlan(b, did, s, expiresAt, newId).commits[..r]);
            var tid := TicketOfPass(b, did, newId);
            && TicketFor(mid.tickets, did) == Some(tid)
            && did in mid.decisions.rows && mid.decisions.rows[did].status == Approved
            && (mid.tickets.rows[tid].status == Open <==> TicketFor(b.tickets, did).None? || LiveTicket(b, did))
  {
    hide Inv, CappedQty, RejectPlan, HandlePlan, Approvable, DoAll;
    ApprovingCommits(b, book, did, s, expiresAt, newId);
    var h, tid := HandlePlan(b, did, s, expiresAt, newId), TicketOfPass(b, did, newId);
    var x, y, z := h.commits[0], h.commits[1], h.commits[2];
    assert h.commits == [x, y, z] && h.commits[..3] == [x, y, z];
    assert h.commits[..2] + [] == h.commits[..2] && h.commits[..2] == [x, y];
    ThreeCommits(b, x, y, z);
    DoAllSnoc(b, [x], y);
    DoAllSnoc(b, [], x);
    NoCommits(b);
    assert [] + [x] == [x] && [x] + [y] == [x, y];
    HandleLawful(b, book, did, s, expiresAt, newId);
    LawfulPrefix(b, book, h.commits, r);
    OwnTicket(DoAll(b, h.commits[..r]), book, did, tid);
  }

  lemma OwnTicket(b: Books, book: Book, did: int, tid: string)
    requires Inv(b, book) && tid in b.tickets.rows && b.tickets.rows[tid].decisionId == did
    ensures TicketFor(b.tickets, did) == Some(tid)
  {
    hide Inv;
    OnlyTicket(b, book, tid);
    if TicketFor(b.tickets, did).None? { NoTicketFact(b, book, did); }
  }

  lemma NoCommits(b: Books)
    ensures DoAll(b, []) == b
  {
  }

  /** One gate pass over a decision, wherever a statement raises and wherever the
      process is killed. It leaves the decision approved exactly if the pass
      could approve, nothing raised before the approve commit, and that commit
      was reached. And then the ticket is live exactly if the pass found no
      ticket or an open one, and no later raise got as far as closing it. */
  lemma ApprovalIsLiveIff(b: Books, book: Book, did: int, s: Risk.Snapshot, expiresAt: int, newId: string,
                          raiseAt: Option<nat>, k: nat)
    requires Inv(b, book) && did in b.decisions.rows && b.decisions.rows[did].status == Submitted
    requires k <= |GatePlan(b, did, s, expiresAt, newId, raiseAt)|
    ensures var b' := DoAll(b, GatePlan(b, did, s, expiresAt, newId, raiseAt)[..k]);
            && did in b'.decisions.rows
            && (b'.decisions.rows[did].status == Approved <==>
                  Approvable(b, did, s, newId) && !RaisesEarly(raiseAt) && k >= 2)
            && (b'.decisions.rows[did].status == Approved ==>
                  (LiveTicket(b', did) <==>
                     && (TicketFor(b.tickets, did).None? || LiveTicket(b, did))
                     && !(RaisesLate(raiseAt) && k > raiseAt.value)))
  {
    hide Inv, CappedQty, DoAll, GatePlan, HandlePlan, RejectPlan, Approvable, LawfulAll;
    var cs := GatePlan(b, did, s, expiresAt, newId, raiseAt);
    if !Approvable(b, did, s, newId) {
      HandleApprovesOnly(b, book, did, s, expiresAt, newId);
      EarlyOrNever(b, did, s, expiresAt, newId, raiseAt);
      NeverApproved(b, cs[..k], did);
    } else if RaisesEarly(raiseAt) {
      ApprovingCommits(b, book, did, s, expiresAt, newId);
      NotApprovingPlan(b, did, s, expiresAt, newId, raiseAt);
      NeverApproved(b, cs[..k], did);
    } else {
      LatePlan(b, book, did, s, expiresAt, newId, raiseAt);
      ApprovingCommits(b, book, did, s, expiresAt, newId);
      if k <= 1 {
        NeverApproved(b, cs[..k], did);
      } else {
        LateOutcome(b, book, did, s, expiresAt, newId, raiseAt, k);
      }
    }
  }

  lemma EarlyOrNever(b: Books, did: int, s: Risk.Snapshot, expiresAt: int, newId: string, raiseAt: Option<nat>)
    requires did in b.decisions.rows
    requires var h := HandlePlan(b, did, s, expiresAt, newId);
             forall i | 0 <= i < |h.commits| && h.commits[i].MoveDecision? :: h.commits[i].dTo != Approved
    ensures var cs := GatePlan(b, did, s, expiresAt, newId, raiseAt);
            forall i | 0 <= i < |cs| && cs[i].MoveDecision? :: cs[i].dTo != Approved
  {
    hide HandlePlan, RejectPlan, DoAll;
    var h := HandlePlan(b, did, s, expiresAt, newId);
    var cut := if raiseAt.Some? && raiseAt.value <= |h.commits| then raiseAt.value else |h.commits|;
    RejectNeverApproves(DoAll(b, h.commits[..cut]), did, Some(Risk.GateError));
  }

  lemma LateOutcome(b: Books, book: Book, did: int, s: Risk.Snapshot, expiresAt: int, newId: string,
                    raiseAt: Option<nat>, k: nat)
    requires Inv(b, book) && did in b.decisions.rows && b.decisions.rows[did].status == Submitted
    requires Approvable(b, did, s, newId) && !RaisesEarly(raiseAt)
    requires 2 <= k <= |GatePlan(b, did, s, expiresAt, newId, raiseAt)|
    ensures var b' := DoAll(b, GatePlan(b, did, s, expiresAt, newId, raiseAt)[..k]);
            && did in b'.decisions.rows && b'.decisions.rows[did].status == Approved
            && (LiveTicket(b', did) <==>
                  && (TicketFor(b.tickets, did).None? || LiveTicket(b, did))
                  && !(RaisesLate(raiseAt) && k > raiseAt.value))
  {
    hide Inv, CappedQty, DoAll, GatePlan, HandlePlan, RejectPlan, Approvable, LawfulAll;
    var cs, h := GatePlan(b, did, s, expiresAt, newId, raiseAt), HandlePlan(b, did, s, expiresAt, newId);
    var tid := TicketOfPass(b, did, newId);
    LatePlan(b, book, did, s, expiresAt, newId, raiseAt);
    MidState(b, book, did, s, expiresAt, newId, 2);
    var mid, rest := DoAll(b, h.commits[..2]), cs[2..k];
    assert cs[..k] == h.commits[..2] + rest;
    DoAllConcat(b, h.commits[..2], rest);
    forall i | 0 <= i < |rest| ensures AfterApproval(rest[i], did, tid) { assert rest[i] == cs[i + 2]; }
    assert mid.tickets.rows[tid].decisionId == did;
    ApprovalStands(mid, rest, did, tid);
    var live := TicketFor(b.tickets, did).None? || LiveTicket(b, did);
    assert MoveTicket(tid, Open, Expired) in rest <==> live && RaisesLate(raiseAt) && k > raiseAt.value by {
      if live && RaisesLate(raiseAt) && k > raiseAt.value { assert rest[raiseAt.value - 2] == cs[raiseAt.value]; }
      if MoveTicket(tid, Open, Expired) in rest {
        var i :| 0 <= i < |rest| && rest[i] == MoveTicket(tid, Open, Expired);
        assert cs[i + 2] == rest[i];
      }
    }
    GateLawful(b, book, did, s, expiresAt, newId, raiseAt);
    LawfulPrefix(b, book, cs, k);
    OwnTicket(DoAll(b, cs[..k]), book, did, tid);
  }

  lemma ThreeCommits(b: Books, x: Commit, y: Commit, z: Commit)
    ensures DoAll(b, [x, y, z]) == Do(Do(Do(b, x), y), z)
  {
    hide Do;
    DoAllSnoc(b, [x, y], z);
    DoAllSnoc(b, [x], y);
    DoAllSnoc(b, [], x);
    assert [] + [x] == [x] && [x] + [y] == [x, y] && [x, y] + [z] == [x, y, z];
  }

  // ---- and the run that leaves an approved decision on a dead ticket ----

  const Holding := Risk.Inputs(Risk.GateInputs(100.0, 0.0, 1.0, 0.2, 0.3, 5, 1, 5.0, 0.0))
  const ToSell := Decision(0, "NVDA", Trade(Sell), 3, None, Submitted)

  /** Mint a ticket and die; re-fire on a feed that rejects and die after the
      ticket closed; re-fire on the first feed and approve. */
  const DeadApproval: seq<Move> := [
    Submit(1, ToSell),
    Work(GateDecision(1, Holding, 45, "t", None), 1),
    Work(GateDecision(1, Risk.Malformed, 90, "u", None), 1),
    Work(GateDecision(1, Holding, 135, "v", None), 3)]

  /** The books along that run: one decision, and its ticket in some state. */
  function Desk(d: DecisionStatus, ticket: Option<Ticket>, events: seq<Event>): Books {
    Books(
      Table([1], map[1 := ToSell.(status := d)]),
      (match ticket case None => EmptyTable() case Some(t) => Table(["t"], map["t" := t])),
      EmptyTable(), events)
  }

  const Minted := Ticket(1, "NVDA", Sell, 3, None, 45, Open, Holding)
  const Killed := Minted.(status := Expired)

  lemma MintsThenDies()
    ensures var b := Desk(Submitted, None, []);
            var cs := GatePlan(b, 1, Holding, 45, "t", None);
            |cs| >= 1 && DoAll(b, cs[..1]) == Desk(Submitted, Some(Minted), [])
  {
    var b := Desk(Submitted, None, []);
    var cs := GatePlan(b, 1, Holding, 45, "t", None);
    assert Risk.Size(Holding, Sell) == Risk.Approved(5, 5);
    assert cs[0] == InsertTicket("t", Minted);
    OneCommit(b, cs);
    assert Do(b, cs[0]) == Desk(Submitted, Some(Minted), []);
  }

  lemma ClosesThenDies()
    ensures var b := Desk(Submitted, Some(Minted), []);
            var cs := GatePlan(b, 1, Risk.Malformed, 90, "u", None);
            |cs| >= 1 && DoAll(b, cs[..1]) == Desk(Submitted, Some(Killed), [])
  {
    var b := Desk(Submitted, Some(Minted), []);
    var cs := GatePlan(b, 1, Risk.Malformed, 90, "u", None);
    assert TicketFor(b.tickets, 1) == Some("t");
    assert cs[0] == MoveTicket("t", Open, Expired);
    OneCommit(b, cs);
  }

  lemma ApprovesAnyway()
    ensures var b := Desk(Submitted, Some(Killed), []);
            var cs := GatePlan(b, 1, Holding, 135, "v", None);
            |cs| == 3 && DoAll(b, cs[..3]).decisions == Desk(Approved, Some(Killed), []).decisions
            && DoAll(b, cs[..3]).tickets == Desk(Approved, Some(Killed), []).tickets
  {
    var b := Desk(Submitted, Some(Killed), []);
    var cs := GatePlan(b, 1, Holding, 135, "v", None);
    assert TicketFor(b.tickets, 1) == Some("t");
    assert Risk.Size(Holding, Sell) == Risk.Approved(5, 5);
    assert cs == [Recap("t", 3, 135, Holding), MoveDecision(1, Submitted, Approved), Append(GateApproved("t", 3))];
    assert cs[..3] == cs;
    ThreeCommits(b, cs[0], cs[1], cs[2]);
    assert Do(b, cs[0]) == b;
  }

  lemma ApprovedOnADeadTicket()
    ensures Run(Genesis, DeadApproval)
    ensures var b := After(Genesis, DeadApproval).b;
            && 1 in b.decisions.rows && b.decisions.rows[1].status == Approved
            && "t" in b.tickets.rows && b.tickets.rows["t"].decisionId == 1 && b.tickets.rows["t"].status == Expired
  {
    hide GatePlan, DoAll;
    MintsThenDies();
    ClosesThenDies();
    ApprovesAnyway();
    var w1 := Next(Genesis, DeadApproval[0]);
    assert w1 == World(Desk(Submitted, None, []), map[], {});
    var w2 := Next(w1, DeadApproval[1]);
    var w3 := Next(w2, DeadApproval[2]);
    FourMoves(Genesis, DeadApproval, w1, w2, w3, Next(w3, DeadApproval[3]));
  }

  /** No crash is needed: the pass's own report fails after the approval. */
  const RaisedApproval: seq<Move> := [
    Submit(1, ToSell),
    Work(GateDecision(1, Holding, 45, "t", Some(2)), 4)]

  lemma ApprovesThenRaises()
    ensures var b := Desk(Submitted, None, []);
            var cs := GatePlan(b, 1, Holding, 45, "t", Some(2));
            |cs| == 4 && DoAll(b, cs[..4]) == Desk(Approved, Some(Killed), [])
  {
    var b := Desk(Submitted, None, []);
    var h := HandlePlan(b, 1, Holding, 45, "t");
    var x, y := InsertTicket("t", Minted), MoveDecision(1, Submitted, Approved);
    assert Risk.Size(Holding, Sell) == Risk.Approved(5, 5);
    assert h.commits == [x, y, Append(GateApproved("t", 3))];
    assert h.commits[..2] == [x, y] && [x, y] + [] == [x, y];
    OrdinaryPair(b, x, y);
    var mid := Desk(Approved, Some(Minted), []);
    assert Do(Do(b, x), y) == mid;
    assert TicketFor(mid.tickets, 1) == Some("t");
    LateReject(mid, 1, "t", Some(Risk.GateError));
    var u, v := MoveTicket("t", Open, Expired), MoveDecision(1, Submitted, Rejected);
    assert RejectPlan(mid, 1, Some(Risk.GateError)) == [u, v];
    OrdinaryPair(mid, u, v);
    assert Do(Do(mid, u), v) == Desk(Approved, Some(Killed), []);
    var cs := GatePlan(b, 1, Holding, 45, "t", Some(2));
    assert cs == [x, y] + [u, v] && cs[..4] == cs;
    DoAllConcat(b, [x, y], [u, v]);
  }

  lemma OrdinaryPair(b: Books, x: Commit, y: Commit)
    ensures DoAll(b, [x, y]) == Do(Do(b, x), y)
  {
    hide Do;
    DoAllSnoc(b, [x], y);
    DoAllSnoc(b, [], x);
    NoCommits(b);
    assert [] + [x] == [x] && [x] + [y] == [x, y];
  }

  lemma ApprovedThenRaised()
    ensures Run(Genesis, RaisedApproval)
    ensures var b := After(Genesis, RaisedApproval).b;
            && 1 in b.decisions.rows && b.decisions.rows[1].status == Approved
            && "t" in b.tickets.rows && b.tickets.rows["t"].decisionId == 1 && b.tickets.rows["t"].status == Expired
  {
    hide GatePlan, DoAll;
    ApprovesThenRaises();
    var w1 := Next(Genesis, RaisedApproval[0]);
    assert w1 == World(Desk(Submitted, None, []), map[], {});
    TwoMoves(Genesis, RaisedApproval, w1, Next(w1, RaisedApproval[1]));
  }

  lemma TwoMoves(w0: World, ms: seq<Move>, w1: World, w2: World)
    requires |ms| == 2
    requires Enabled(w0, ms[0]) && w1 == Next(w0, ms[0])
    requires Enabled(w1, ms[1]) && w2 == Next(w1, ms[1])
    ensures Run(w0, ms) && After(w0, ms) == w2
  {
    hide Enabled, Next;
    var t1, t2 := ms[1..], ms[2..];
    assert t2 == [] && t1[1..] == t2;
    assert Run(w2, t2) && After(w2, t2) == w2;
    assert Run(w1, t1) && After(w1, t1) == w2;
  }

  lemma OneCommit(b: Books, cs: seq<Commit>)
    requires |cs| >= 1
    ensures DoAll(b, cs[..1]) == Do(b, cs[0])
  {
    assert cs[..1] == [cs[0]] && [cs[0]][1..] == [];
  }

  lemma FourMoves(w0: World, ms: seq<Move>, w1: World, w2: World, w3: World, w4: World)
    requires |ms| == 4
    requires Enabled(w0, ms[0]) && w1 == Next(w0, ms[0])
    requires Enabled(w1, ms[1]) && w2 == Next(w1, ms[1])
    requires Enabled(w2, ms[2]) && w3 == Next(w2, ms[2])
    requires Enabled(w3, ms[3]) && w4 == Next(w3, ms[3])
    ensures Run(w0, ms) && After(w0, ms) == w4
  {
    hide Enabled, Next;
    var t1, t2, t3, t4 := ms[1..], ms[2..], ms[3..], ms[4..];
    assert t4 == [] && t3[1..] == t4 && t2[1..] == t3 && t1[1..] == t2;
    assert Run(w4, t4) && After(w4, t4) == w4;
    assert Run(w3, t3) && After(w3, t3) == w4;
    assert Run(w2, t2) && After(w2, t2) == w4;
    assert Run(w1, t1) && After(w1, t1) == w4;
  }
}
