/** The gate stage: every submitted decision of the day settles, each on its
    own, through crashes, re-fires and raises. */
module GateStage {
  import opened Records
  import opened FundTables
  import opened Broker
  import opened Plans
  import opened Safety
  import opened PlansAreLawful
  import opened Ledger
  import GateOutcomes
  import Risk

  // ---- one decision ----

  /** What a run of statements has done when the next one raises. */
  function Cut(cs: seq<Commit>, raiseAt: Option<nat>): seq<Commit> {
    if raiseAt.Some? && raiseAt.value <= |cs| then cs[..raiseAt.value] else cs
  }

  predicate Cuts(cs: seq<Commit>, raiseAt: Option<nat>) {
    raiseAt.Some? && raiseAt.value <= |cs|
  }

  method GateReject(db: Connection, did: int, reason: Option<Risk.Reason>, raiseAt: Option<nat>) returns (raised: bool)
    requires db.Valid()
    modifies db
    ensures db.Valid() && db.base == old(db.base)
    ensures db.trail == old(db.trail) + Cut(RejectPlan(old(db.View()), did, reason), raiseAt)
    ensures raised == Cuts(RejectPlan(old(db.View()), did, reason), raiseAt)
  {
    hide DoAll, TicketFor;
    ghost var b := db.View();
    var existing := TicketFor(db.tickets, did);
    RejectShape(b, did, reason);
    var n := 0;
    if raiseAt == Some(n) { return true; }
    if existing.Some? && db.tickets.rows[existing.value].status == Open {
      var _ := db.TryMoveTicket(existing.value, Open, Expired);
      n := n + 1;
      if raiseAt == Some(n) { return true; }
    }
    hide RejectPlan;
    var moved := db.TryMoveDecision(did, Submitted, Rejected);
    n := n + 1;
    if raiseAt == Some(n) { return true; }
    if moved {
      db.AppendEvent(GateRejected(did, reason));
      n := n + 1;
      if raiseAt == Some(n) { return true; }
    }
    return false;
  }

  /** _gate_reject's statements, one list for each of its four paths. */
  lemma RejectShape(b: Books, did: int, reason: Option<Risk.Reason>)
    ensures var existing := TicketFor(b.tickets, did);
            var closes := existing.Some? && b.tickets.rows[existing.value].status == Open;
            var moves := Applies(b, MoveDecision(did, Submitted, Rejected));
            var move, report := MoveDecision(did, Submitted, Rejected), Append(GateRejected(did, reason));
            RejectPlan(b, did, reason) ==
              if closes && moves then [MoveTicket(existing.value, Open, Expired), move, report]
              else if closes then [MoveTicket(existing.value, Open, Expired), move]
              else if moves then [move, report]
              else [move]
  {
  }

  method GateHandle(db: Connection, did: int, s: Risk.Snapshot, expiresAt: int, newId: string, raiseAt: Option<nat>)
    returns (raised: bool)
    requires db.Valid() && did in db.decisions.rows
    modifies db
    ensures db.Valid() && db.base == old(db.base)
    ensures var h := HandlePlan(old(db.View()), did, s, expiresAt, newId);
            db.trail == old(db.trail) + Cut(h.commits, raiseAt)
            && raised == (h.raises || Cuts(h.commits, raiseAt))
  {
    hide DoAll;
    var d := db.decisions.rows[did];
    if raiseAt == Some(0) { return true; }
    if d.action.Hold? {
      var _ := db.TryMoveDecision(did, Submitted, Held);
      return raiseAt == Some(1);
    }
    var cap := CappedQty(d, s);
    if cap < 1 {
      raised := GateReject(db, did, RejectReason(d, s), raiseAt);
      return;
    }
    raised := GateApprove(db, did, s, expiresAt, newId, raiseAt);
  }

  method GateApprove(db: Connection, did: int, s: Risk.Snapshot, expiresAt: int, newId: string, raiseAt: Option<nat>)
    returns (raised: bool)
    requires db.Valid() && did in db.decisions.rows && raiseAt != Some(0)
    requires CappedQty(db.decisions.rows[did], s) >= 1
    modifies db
    ensures db.Valid() && db.base == old(db.base)
    ensures var h := HandlePlan(old(db.View()), did, s, expiresAt, newId);
            db.trail == old(db.trail) + Cut(h.commits, raiseAt)
            && raised == (h.raises || Cuts(h.commits, raiseAt))
  {
    hide DoAll, RejectPlan, CappedQty;
    var d := db.decisions.rows[did];
    var cap := CappedQty(d, s);
    CapIsAllowed(d, s);
    ApproveShape(db.View(), did, s, expiresAt, newId);
    hide HandlePlan;
    var existing := TicketFor(db.tickets, did);
    var tid := if existing.Some? then existing.value else newId;
    if existing.None? {
      var minted := Ticket(did, d.ticker, d.action.side, cap, d.stopPrice, expiresAt, Open, s);
      if !Applies(db.View(), InsertTicket(newId, minted)) { return true; }   // constraint failure
      var _ := db.InsertTicketRow(newId, minted);
    } else {
      db.RecapTicket(tid, cap, expiresAt, s);
    }
    if raiseAt == Some(1) { return true; }
    var moved := db.TryMoveDecision(did, Submitted, Approved);
    if raiseAt == Some(2) { return true; }
    if moved {
      db.AppendEvent(GateApproved(tid, cap));
      return raiseAt == Some(3);
    }
    return false;
  }

  /** _gate_handle's statements once the cap is at least one share. */
  lemma ApproveShape(b: Books, did: int, s: Risk.Snapshot, expiresAt: int, newId: string)
    requires did in b.decisions.rows && CappedQty(b.decisions.rows[did], s) >= 1
    ensures var d, cap := b.decisions.rows[did], CappedQty(b.decisions.rows[did], s);
            var existing := TicketFor(b.tickets, did);
            && d.action.Trade?
            && var minted := InsertTicket(newId, Ticket(did, d.ticker, d.action.side, cap, d.stopPrice, expiresAt, Open, s));
               var tid := if existing.Some? then existing.value else newId;
               var first := if existing.Some? then Recap(tid, cap, expiresAt, s) else minted;
               HandlePlan(b, did, s, expiresAt, newId) ==
                 if existing.None? && !Applies(b, minted) then Handled([], true)
                 else if d.status == Submitted
                 then Handled([first, MoveDecision(did, Submitted, Approved), Append(GateApproved(tid, cap))], false)
                 else Handled([first, MoveDecision(did, Submitted, Approved)], false)
  {
    hide RejectPlan, Applies;
    CapIsAllowed(b.decisions.rows[did], s);
  }

  method GateOne(db: Connection, did: int, s: Risk.Snapshot, expiresAt: int, newId: string, raiseAt: Option<nat>)
    requires db.Valid() && did in db.decisions.rows
    modifies db
    ensures db.Valid() && db.Ran(GatePlan(old(db.View()), did, s, expiresAt, newId, raiseAt))
    ensures old(Gateable(db.View(), did)) && raiseAt.None? ==>
              GateOutcomes.AsGated(old(db.View()), db.View(), did, s, expiresAt, newId)
  {
    hide DoAll, RejectPlan, HandlePlan, Do, GateOutcomes.AsGated;
    ghost var b := db.View();
    var raised := GateHandle(db, did, s, expiresAt, newId, raiseAt);
    ghost var h := HandlePlan(b, did, s, expiresAt, newId);
    db.TrailTells(Cut(h.commits, raiseAt));
    if raised {
      assert Cut(h.commits, raiseAt) == h.commits[..|Cut(h.commits, raiseAt)|];
      var again := GateReject(db, did, Some(Risk.GateError), None);
    }
    db.TrailTells(GatePlan(b, did, s, expiresAt, newId, raiseAt));
    if Gateable(b, did) { GateOutcomes.GateLeaves(b, did, s, expiresAt, newId); }
  }

  /** The decision is submitted, and no decision has two tickets. */
  ghost predicate Gateable(b: Books, did: int) {
    && b.tickets.Valid() && OneTicketEach(b.tickets.rows)
    && did in b.decisions.rows && b.decisions.rows[did].status == Submitted
  }

  // ---- what one decision's handling does to the decisions table ----

  ghost predicate OnlyMoves(cs: seq<Commit>, did: int) {
    forall i | 0 <= i < |cs| && cs[i].MoveDecision? :: cs[i].did == did && cs[i].dFrom == Submitted && cs[i].dTo != Submitted
  }

  lemma {:induction false} OthersStand(b: Books, cs: seq<Commit>, did: int)
    requires OnlyMoves(cs, did)
    ensures var b' := DoAll(b, cs);
            && b'.decisions.ids == b.decisions.ids && b'.decisions.rows.Keys == b.decisions.rows.Keys
            && (forall k | k in b.decisions.rows :: b'.decisions.rows[k].(status := Submitted) == b.decisions.rows[k].(status := Submitted))
            && (forall k | k in b.decisions.rows && k != did :: b'.decisions.rows[k] == b.decisions.rows[k])
            && (did in b.decisions.rows && b.decisions.rows[did].status != Submitted ==>
                  b'.decisions.rows[did].status == b.decisions.rows[did].status)
    decreases |cs|
  {
    if cs != [] { OthersStand(Do(b, cs[0]), cs[1..], did); }
  }

  /** A list of writes that tries to move the decision out of 'submitted' leaves
      it somewhere else. */
  lemma {:induction false} TryingSettles(b: Books, cs: seq<Commit>, did: int, i: nat)
    requires did in b.decisions.rows && OnlyMoves(cs, did) && i < |cs| && cs[i].MoveDecision?
    ensures DoAll(b, cs).decisions.rows.Keys == b.decisions.rows.Keys
    ensures DoAll(b, cs).decisions.rows[did].status != Submitted
    decreases |cs|
  {
    if i > 0 {
      assert cs[1..][i - 1] == cs[i];
      TryingSettles(Do(b, cs[0]), cs[1..], did, i - 1);
    } else {
      OthersStand(Do(b, cs[0]), cs[1..], did);
    }
  }

  lemma RejectSettles(b: Books, did: int, reason: Option<Risk.Reason>)
    requires did in b.decisions.rows
    ensures OnlyMoves(RejectPlan(b, did, reason), did)
    ensures DoAll(b, RejectPlan(b, did, reason)).decisions.rows.Keys == b.decisions.rows.Keys
    ensures DoAll(b, RejectPlan(b, did, reason)).decisions.rows[did].status != Submitted
  {
    hide DoAll, Do;
    var cs := RejectPlan(b, did, reason);
    var i := if cs[0].MoveDecision? then 0 else 1;
    TryingSettles(b, cs, did, i);
  }

  lemma GateSettles(b: Books, did: int, s: Risk.Snapshot, expiresAt: int, newId: string, raiseAt: Option<nat>)
    requires did in b.decisions.rows
    ensures OnlyMoves(GatePlan(b, did, s, expiresAt, newId, raiseAt), did)
    ensures DoAll(b, GatePlan(b, did, s, expiresAt, newId, raiseAt)).decisions.rows.Keys == b.decisions.rows.Keys
    ensures DoAll(b, GatePlan(b, did, s, expiresAt, newId, raiseAt)).decisions.rows[did].status != Submitted
  {
    hide DoAll, Do, RejectPlan;
    var h := HandlePlan(b, did, s, expiresAt, newId);
    RejectSettles(b, did, RejectReason(b.decisions.rows[did], s));
    assert OnlyMoves(h.commits, did);
    var cs := GatePlan(b, did, s, expiresAt, newId, raiseAt);
    OthersStand(b, h.commits, did);
    if h.raises || (raiseAt.Some? && raiseAt.value <= |h.commits|) {
      var cut := if raiseAt.Some? && raiseAt.value <= |h.commits| then raiseAt.value else |h.commits|;
      var mid := DoAll(b, h.commits[..cut]);
      OthersStand(b, h.commits[..cut], did);
      RejectSettles(mid, did, Some(Risk.GateError));
      DoAllConcat(b, h.commits[..cut], RejectPlan(mid, did, Some(Risk.GateError)));
      OthersStand(b, cs, did);
    } else if CappedQty(b.decisions.rows[did], s) >= 1 && b.decisions.rows[did].action.Trade? {
      TryingSettles(b, cs, did, 1);
    } else if b.decisions.rows[did].action.Hold? {
      TryingSettles(b, cs, did, 0);
    }
  }

  /** One decision settled, every other one as it was. */
  ghost predicate SettledOnly(before: Table<int, Decision>, after: Table<int, Decision>, did: int) {
    && after.ids == before.ids && after.rows.Keys == before.rows.Keys && did in before.rows
    && after.rows[did].runDate == before.rows[did].runDate
    && after.rows[did].status != Submitted
    && forall k | k in before.rows && k != did :: after.rows[k] == before.rows[k]
  }

  lemma GateStep(b: Books, did: int, s: Risk.Snapshot, expiresAt: int, newId: string, raiseAt: Option<nat>)
    requires did in b.decisions.rows
    ensures SettledOnly(b.decisions, DoAll(b, GatePlan(b, did, s, expiresAt, newId, raiseAt)).decisions, did)
  {
    hide DoAll, GatePlan, OnlyMoves;
    GateSettles(b, did, s, expiresAt, newId, raiseAt);
    OthersStand(b, GatePlan(b, did, s, expiresAt, newId, raiseAt), did);
  }

  // ---- the stage ----

  const TICKET_TTL_MIN := 45

  /** The day's submitted decisions, ordered by id. */
  function Due(decisions: Table<int, Decision>, date: int, i: nat): (r: seq<int>)
    ensures forall k | k in r :: k in decisions.rows
    ensures forall j | i <= j < |decisions.ids| && decisions.ids[j] in decisions.rows
              && decisions.rows[decisions.ids[j]].runDate == date
              && decisions.rows[decisions.ids[j]].status == Submitted :: decisions.ids[j] in r
    decreases |decisions.ids| - i
  {
    if i >= |decisions.ids| then []
    else
      var k := decisions.ids[i];
      if k in decisions.rows && decisions.rows[k].runDate == date && decisions.rows[k].status == Submitted
      then [k] + Due(decisions, date, i + 1) else Due(decisions, date, i + 1)
  }

  /** market_inputs.get(ticker) or {}: a missing ticker is a malformed feed. */
  function Snap(feed: map<string, Risk.Snapshot>, ticker: string): Risk.Snapshot {
    if ticker in feed then feed[ticker] else Risk.Malformed
  }

  /** Where a gate run stands: the decisions already handled have settled, the
      rest are as they were. */
  ghost predicate Progress(before: Table<int, Decision>, now: Table<int, Decision>, due: seq<int>, i: nat)
    requires i <= |due|
  {
    && now.ids == before.ids && now.rows.Keys == before.rows.Keys
    && (forall j | 0 <= j < i :: due[j] in now.rows && now.rows[due[j]].status != Submitted
                                 && now.rows[due[j]].runDate == before.rows[due[j]].runDate)
    && (forall k | k in before.rows && k !in due[..i] :: now.rows[k] == before.rows[k])
  }

  lemma ProgressStep(before: Table<int, Decision>, now: Table<int, Decision>, after: Table<int, Decision>, due: seq<int>, i: nat)
    requires i < |due| && Progress(before, now, due, i) && SettledOnly(now, after, due[i])
    requires due[i] in before.rows && due[i] !in due[..i]
    ensures Progress(before, after, due, i + 1)
  {
    forall j | 0 <= j < i ensures due[j] != due[i] { assert due[j] in due[..i]; }
    forall k | k in before.rows && k !in due[..i + 1] ensures after.rows[k] == before.rows[k] {
      assert due[..i + 1] == due[..i] + [due[i]];
    }
  }

  /** run_gate. Which statement of which decision raises, if any, and the ids
      the factory hands out are the environment's. */
  method RunGate(db: Connection, date: int, feed: map<string, Risk.Snapshot>, now: int,
                 ids: int -> string, raiseAt: int -> Option<nat>, ghost book: Book)
    requires db.Valid() && db.decisions.Valid()
    modifies db
    ensures db.Valid() && db.base == old(db.base) && old(db.trail) <= db.trail
    ensures db.decisions.rows.Keys == old(db.decisions.rows.Keys)
    // every decision of the day has settled
    ensures forall k | k in db.decisions.rows && db.decisions.rows[k].runDate == date ::
              db.decisions.rows[k].status != Submitted
    // and nothing else moved: other days' decisions and the settled ones stand
    ensures forall k | k in db.decisions.rows && (old(db.decisions).rows[k].runDate != date
              || old(db.decisions).rows[k].status != Submitted) ::
              db.decisions.rows[k] == old(db.decisions).rows[k]
    // each commit on the way was lawful
    ensures Inv(old(db.View()), book) ==> LawfulAll(old(db.View()), book, db.trail[|old(db.trail)|..])
  {
    hide DoAll, Do, GatePlan, Inv, LawfulAll, SettledOnly, Due;
    ghost var before, start, n0 := db.decisions, db.View(), |db.trail|;
    var due := Due(db.decisions, date, 0);
    DueAreSubmitted(before, date, 0);
    NothingIsLawful(start, book);
    assert db.trail[n0..] == [];
    for i := 0 to |due|
      invariant db.Valid() && db.base == old(db.base) && old(db.trail) <= db.trail && n0 <= |db.trail|
      invariant Progress(before, db.decisions, due, i)
      invariant Inv(start, book) ==> LawfulAll(start, book, db.trail[n0..])
      invariant db.View() == DoAll(start, db.trail[n0..])
    {
      var did := due[i];
      DueHandledOnce(before, date, due, i);
      ghost var b, cs0, decisions0 := db.View(), db.trail[n0..], db.decisions;
      assert did in before.rows && decisions0.rows[did] == before.rows[did];
      var s := Snap(feed, db.decisions.rows[did].ticker);
      ghost var cs := GatePlan(b, did, s, now + TICKET_TTL_MIN, ids(did), raiseAt(did));
      GateStep(b, did, s, now + TICKET_TTL_MIN, ids(did), raiseAt(did));
      GateSound(start, book, cs0, did, s, now + TICKET_TTL_MIN, ids(did), raiseAt(did));
      GateOne(db, did, s, now + TICKET_TTL_MIN, ids(did), raiseAt(did));
      ProgressStep(before, decisions0, db.decisions, due, i);
      assert db.trail[n0..] == cs0 + cs;
    }
    assert due[..|due|] == due;
    EveryoneSettled(before, db.decisions, date, due);
  }

  lemma GateSound(start: Books, book: Book, cs: seq<Commit>, did: int, s: Risk.Snapshot, expiresAt: int, newId: string, raiseAt: Option<nat>)
    requires Inv(start, book) ==> LawfulAll(start, book, cs)
    requires did in DoAll(start, cs).decisions.rows && DoAll(start, cs).decisions.rows[did].status == Submitted
    ensures var more := GatePlan(DoAll(start, cs), did, s, expiresAt, newId, raiseAt);
            && (Inv(start, book) ==> LawfulAll(start, book, cs + more))
            && DoAll(start, cs + more) == DoAll(DoAll(start, cs), more)
  {
    hide Inv, LawfulAll, DoAll, GatePlan;
    DoAllConcat(start, cs, GatePlan(DoAll(start, cs), did, s, expiresAt, newId, raiseAt));
    if Inv(start, book) { GateExtends(start, book, cs, did, s, expiresAt, newId, raiseAt); }
  }

  lemma EveryoneSettled(before: Table<int, Decision>, now: Table<int, Decision>, date: int, due: seq<int>)
    requires before.Valid() && due == Due(before, date, 0) && Progress(before, now, due, |due|)
    ensures now.rows.Keys == before.rows.Keys
    ensures forall k | k in now.rows && now.rows[k].runDate == date :: now.rows[k].status != Submitted
    ensures forall k | k in now.rows && (before.rows[k].runDate != date || before.rows[k].status != Submitted) ::
              now.rows[k] == before.rows[k]
  {
    DueAreSubmitted(before, date, 0);
    assert due[..|due|] == due;
    hide Due;
  }

  lemma NothingIsLawful(b: Books, book: Book)
    ensures LawfulAll(b, book, []) && DoAll(b, []) == b
  {
  }

  lemma GateExtends(b: Books, book: Book, cs: seq<Commit>, did: int, s: Risk.Snapshot, expiresAt: int, newId: string, raiseAt: Option<nat>)
    requires Inv(b, book) && LawfulAll(b, book, cs)
    requires did in DoAll(b, cs).decisions.rows && DoAll(b, cs).decisions.rows[did].status == Submitted
    ensures LawfulAll(b, book, cs + GatePlan(DoAll(b, cs), did, s, expiresAt, newId, raiseAt))
  {
    hide Inv, LawfulAll, DoAll, GatePlan;
    LawfulPrefix(b, book, cs, |cs|);
    assert cs[..|cs|] == cs;
    GateLawful(DoAll(b, cs), book, did, s, expiresAt, newId, raiseAt);
    LawfulJoin(b, book, cs, GatePlan(DoAll(b, cs), did, s, expiresAt, newId, raiseAt));
  }

  lemma DueHandledOnce(decisions: Table<int, Decision>, date: int, due: seq<int>, i: nat)
    requires decisions.Valid() && due == Due(decisions, date, 0) && i < |due|
    ensures due[i] !in due[..i]
  {
    DueDistinct(decisions, date, 0);
  }

  lemma {:induction false} DueAvoids(decisions: Table<int, Decision>, date: int, i: nat, k: int)
    requires forall j | i <= j < |decisions.ids| :: decisions.ids[j] != k
    ensures k !in Due(decisions, date, i)
    decreases |decisions.ids| - i
  {
    if i < |decisions.ids| { DueAvoids(decisions, date, i + 1, k); }
  }

  lemma {:induction false} DueDistinct(decisions: Table<int, Decision>, date: int, i: nat)
    requires decisions.Valid()
    ensures forall a, c | 0 <= a < c < |Due(decisions, date, i)| :: Due(decisions, date, i)[a] != Due(decisions, date, i)[c]
    decreases |decisions.ids| - i
  {
    if i < |decisions.ids| {
      DueDistinct(decisions, date, i + 1);
      DueAvoids(decisions, date, i + 1, decisions.ids[i]);
    }
  }

  lemma {:induction false} DueAreSubmitted(decisions: Table<int, Decision>, date: int, i: nat)
    requires decisions.Valid()
    ensures forall k | k in Due(decisions, date, i) :: decisions.rows[k].runDate == date && decisions.rows[k].status == Submitted
    ensures i == 0 ==> forall k | k in decisions.rows && decisions.rows[k].runDate == date
              && decisions.rows[k].status == Submitted :: k in Due(decisions, date, 0)
    decreases |decisions.ids| - i
  {
    if i < |decisions.ids| { DueAreSubmitted(decisions, date, i + 1); }
    if i == 0 {
      forall k | k in decisions.rows && decisions.rows[k].runDate == date && decisions.rows[k].status == Submitted
        ensures k in Due(decisions, date, 0)
      {
        assert k in decisions.ids;
      }
    }
  }
}
