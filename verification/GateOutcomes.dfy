/** What a gate pass that nothing disturbs does to one submitted decision, said
    over the ask, the account and the market. */
module GateOutcomes {
  import opened Records
  import opened FundTables
  import opened Plans
  import opened PlansAreLawful
  import opened Aftermath
  import opened Safety
  import Risk

  /** q is the most the PM asked for that the snapshot warrants. */
  predicate Most(d: Decision, s: Risk.Snapshot, q: int) {
    && d.action.Trade? && 1 <= q <= d.qty && Risk.Warrants(s, d.action.side, q)
    && (q == d.qty || !Risk.Warrants(s, d.action.side, q + 1))
  }

  /** The decision moves; no other decision changes. */
  predicate Moves(b: Books, b': Books, did: int, to: DecisionStatus)
    requires did in b.decisions.rows
  {
    b'.decisions == Put(b.decisions, did, b.decisions.rows[did].(status := to))
  }

  /** Its open ticket expires, if it has one. */
  predicate TicketCloses(b: Books, b': Books, did: int) {
    && b'.tickets.ids == b.tickets.ids && b'.tickets.rows.Keys == b.tickets.rows.Keys
    && forall t | t in b.tickets.rows ::
         b'.tickets.rows[t] ==
           if b.tickets.rows[t].decisionId == did && b.tickets.rows[t].status == Open
           then b.tickets.rows[t].(status := Expired) else b.tickets.rows[t]
  }

  /** A reused ticket is re-capped in place while it is open. */
  function Recapped(t: Ticket, q: int, expiresAt: int, s: Risk.Snapshot): Ticket {
    if t.status == Open then t.(maxQty := q, expiresAt := expiresAt, sizedOn := s) else t
  }

  predicate Refuses(b: Books, b': Books, did: int, reason: Option<Risk.Reason>)
    requires did in b.decisions.rows
  {
    && Moves(b, b', did, Rejected) && TicketCloses(b, b', did) && b'.orders == b.orders
    && b'.events == b.events + [GateRejected(did, reason)]
  }

  /** A hold is held. A trade not warranted for one share is rejected, with the
      sizer's reason and its open ticket closed. Any other is approved at the
      most that is warranted: its own ticket re-capped, or a new one minted
      with its ticker, side, stop and that cap; if the fresh id is taken, the
      mint fails and the decision is rejected. */
  ghost predicate AsGated(b: Books, b': Books, did: int, s: Risk.Snapshot, expiresAt: int, newId: string)
    requires did in b.decisions.rows
  {
    var d := b.decisions.rows[did];
    && (d.action.Hold? ==>
          Moves(b, b', did, Held) && b'.tickets == b.tickets && b'.orders == b.orders && b'.events == b.events)
    && (d.action.Trade? && (forall q: int :: !Most(d, s, q)) ==> Refuses(b, b', did, RejectReason(d, s)))
    && (forall q: int | Most(d, s, q) ::
          if HasTicket(b.tickets.rows, did) then
            forall tid | tid in b.tickets.rows && b.tickets.rows[tid].decisionId == did ::
              && Moves(b, b', did, Approved) && b'.orders == b.orders
              && b'.tickets == Put(b.tickets, tid, Recapped(b.tickets.rows[tid], q, expiresAt, s))
              && b'.events == b.events + [GateApproved(tid, q)]
          else if newId in b.tickets.rows then Refuses(b, b', did, Some(Risk.GateError))
          else
            && Moves(b, b', did, Approved) && b'.orders == b.orders
            && b'.tickets == Add(b.tickets, newId, Ticket(did, d.ticker, d.action.side, q, d.stopPrice, expiresAt, Open, s))
            && b'.events == b.events + [GateApproved(newId, q)])
  }

  // ---- the cap is that quantity ----

  lemma CapIsMost(d: Decision, s: Risk.Snapshot, q: int)
    ensures Most(d, s, q) <==> q >= 1 && CappedQty(d, s) == q
  {
    hide CappedQty, Risk.Warrants;
    if q >= 1 {
      CapIsExact(d, s, q);
      CapIsExact(d, s, q + 1);
    }
    if CappedQty(d, s) >= 1 { CapIsAllowed(d, s); }
  }

  lemma OneTicket(b: Books, did: int)
    requires b.tickets.Valid() && OneTicketEach(b.tickets.rows)
    ensures TicketFor(b.tickets, did).None? <==> !HasTicket(b.tickets.rows, did)
    ensures forall tid | tid in b.tickets.rows && b.tickets.rows[tid].decisionId == did ::
              TicketFor(b.tickets, did) == Some(tid)
  {
    if TicketFor(b.tickets, did).None? { NoTicketFor(b.tickets, did); }
  }

  // ---- the paths ----

  /** _gate_reject. */
  lemma RejectLeaves(b: Books, did: int, reason: Option<Risk.Reason>)
    requires b.tickets.Valid() && OneTicketEach(b.tickets.rows)
    requires did in b.decisions.rows && b.decisions.rows[did].status == Submitted
    ensures Refuses(b, DoAll(b, RejectPlan(b, did, reason)), did, reason)
  {
    hide DoAll, TicketFor;
    OneTicket(b, did);
    var existing := TicketFor(b.tickets, did);
    var move, report := MoveDecision(did, Submitted, Rejected), Append(GateRejected(did, reason));
    if existing.Some? && b.tickets.rows[existing.value].status == Open {
      var close := MoveTicket(existing.value, Open, Expired);
      assert RejectPlan(b, did, reason) == [close] + ([move] + [report]);
      RunFirst(b, close, [move] + [report]);
      RunFirst(Do(b, close), move, [report]);
      RunOne(Do(Do(b, close), move), report);
    } else {
      assert RejectPlan(b, did, reason) == [move] + [report];
      RunFirst(b, move, [report]);
      RunOne(Do(b, move), report);
    }
  }

  lemma HoldLeaves(b: Books, did: int, s: Risk.Snapshot, expiresAt: int, newId: string)
    requires did in b.decisions.rows && b.decisions.rows[did].status == Submitted && b.decisions.rows[did].action.Hold?
    ensures var b' := DoAll(b, GatePlan(b, did, s, expiresAt, newId, None));
            Moves(b, b', did, Held) && b'.tickets == b.tickets && b'.orders == b.orders && b'.events == b.events
  {
    RunOne(b, MoveDecision(did, Submitted, Held));
  }

  lemma ApproveLeaves(b: Books, did: int, s: Risk.Snapshot, expiresAt: int, newId: string)
    requires b.tickets.Valid() && OneTicketEach(b.tickets.rows)
    requires did in b.decisions.rows && b.decisions.rows[did].status == Submitted && CappedQty(b.decisions.rows[did], s) >= 1
    requires HasTicket(b.tickets.rows, did) || newId !in b.tickets.rows
    ensures var d, q := b.decisions.rows[did], CappedQty(b.decisions.rows[did], s);
            var b' := DoAll(b, GatePlan(b, did, s, expiresAt, newId, None));
            && d.action.Trade? && Moves(b, b', did, Approved) && b'.orders == b.orders
            && var existing := TicketFor(b.tickets, did);
               if existing.Some? then
                 && b'.tickets == Put(b.tickets, existing.value, Recapped(b.tickets.rows[existing.value], q, expiresAt, s))
                 && b'.events == b.events + [GateApproved(existing.value, q)]
               else
                 && b'.tickets == Add(b.tickets, newId, Ticket(did, d.ticker, d.action.side, q, d.stopPrice, expiresAt, Open, s))
                 && b'.events == b.events + [GateApproved(newId, q)]
  {
    hide DoAll, TicketFor, CappedQty, RejectPlan;
    OneTicket(b, did);
    CapIsAllowed(b.decisions.rows[did], s);
    var d, q, existing := b.decisions.rows[did], CappedQty(b.decisions.rows[did], s), TicketFor(b.tickets, did);
    var tid := if existing.Some? then existing.value else newId;
    var first := if existing.Some? then Recap(tid, q, expiresAt, s)
                 else InsertTicket(newId, Ticket(did, d.ticker, d.action.side, q, d.stopPrice, expiresAt, Open, s));
    var move, report := MoveDecision(did, Submitted, Approved), Append(GateApproved(tid, q));
    assert GatePlan(b, did, s, expiresAt, newId, None) == [first] + ([move] + [report]);
    hide GatePlan, HandlePlan;
    RunFirst(b, first, [move] + [report]);
    RunFirst(Do(b, first), move, [report]);
    RunOne(Do(Do(b, first), move), report);
    if existing.Some? && b.tickets.rows[tid].status != Open { PutSame(b.tickets, tid); }
  }

  /** Rejected for want of a cap, or because the mint failed. */
  lemma RefuseLeaves(b: Books, did: int, s: Risk.Snapshot, expiresAt: int, newId: string)
    requires b.tickets.Valid() && OneTicketEach(b.tickets.rows)
    requires did in b.decisions.rows && b.decisions.rows[did].status == Submitted && b.decisions.rows[did].action.Trade?
    requires CappedQty(b.decisions.rows[did], s) < 1 || (!HasTicket(b.tickets.rows, did) && newId in b.tickets.rows)
    ensures var d, b' := b.decisions.rows[did], DoAll(b, GatePlan(b, did, s, expiresAt, newId, None));
            Refuses(b, b', did, if CappedQty(d, s) < 1 then RejectReason(d, s) else Some(Risk.GateError))
  {
    hide DoAll, TicketFor, CappedQty, RejectPlan, Refuses, RejectReason;
    OneTicket(b, did);
    var d := b.decisions.rows[did];
    RejectLeaves(b, did, if CappedQty(d, s) < 1 then RejectReason(d, s) else Some(Risk.GateError));
    RunNone(b);
    var plan := GatePlan(b, did, s, expiresAt, newId, None);
    if CappedQty(d, s) < 1 {
      assert plan == RejectPlan(b, did, RejectReason(d, s));
    } else {
      assert plan == [] + RejectPlan(b, did, Some(Risk.GateError));
      assert plan == RejectPlan(b, did, Some(Risk.GateError));
    }
  }

  /** A gate pass that nothing disturbs leaves exactly this. */
  lemma GateLeaves(b: Books, did: int, s: Risk.Snapshot, expiresAt: int, newId: string)
    requires b.tickets.Valid() && OneTicketEach(b.tickets.rows)
    requires did in b.decisions.rows && b.decisions.rows[did].status == Submitted
    ensures AsGated(b, DoAll(b, GatePlan(b, did, s, expiresAt, newId, None)), did, s, expiresAt, newId)
  {
    hide DoAll, TicketFor, CappedQty, GatePlan, Refuses, Moves, Most;
    var d, cap := b.decisions.rows[did], CappedQty(b.decisions.rows[did], s);
    forall q: int ensures Most(d, s, q) <==> q >= 1 && cap == q { CapIsMost(d, s, q); }
    if d.action.Hold? {
      HoldLeaves(b, did, s, expiresAt, newId);
      HoldsHaveNoCap(d, s);
    } else if cap < 1 || (!HasTicket(b.tickets.rows, did) && newId in b.tickets.rows) {
      RefuseLeaves(b, did, s, expiresAt, newId);
    } else {
      OneTicket(b, did);
      ApproveLeaves(b, did, s, expiresAt, newId);
      assert Most(d, s, cap);
    }
  }

  lemma HoldsHaveNoCap(d: Decision, s: Risk.Snapshot)
    requires d.action.Hold?
    ensures CappedQty(d, s) < 1
  {
  }
}
