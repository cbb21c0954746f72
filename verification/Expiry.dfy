/** The expiry sweep at the start of the execution stage. */
module Expiry {
  import opened Records
  import opened FundTables
  import opened Broker
  import opened Plans
  import opened Safety
  import opened PlansAreLawful
  import opened Ledger
  import opened ReconcileLoops

  predicate Past(t: Ticket, now: int) { t.status == Open && now >= t.expiresAt }

  /** The open tickets, in row order. */
  function OpenIds(t: Table<string, Ticket>, i: nat): (r: seq<string>)
    ensures forall k | k in r :: k in t.rows
    decreases |t.ids| - i
  {
    if i >= |t.ids| then []
    else if t.ids[i] in t.rows && t.rows[t.ids[i]].status == Open then [t.ids[i]] + OpenIds(t, i + 1)
    else OpenIds(t, i + 1)
  }

  lemma {:induction false} OpenIdsExact(t: Table<string, Ticket>, i: nat)
    requires t.Valid()
    ensures forall a, c | 0 <= a < c < |OpenIds(t, i)| :: OpenIds(t, i)[a] != OpenIds(t, i)[c]
    ensures forall k :: k in OpenIds(t, i) <==>
              exists j | i <= j < |t.ids| :: t.ids[j] == k && t.rows[k].status == Open
    decreases |t.ids| - i
  {
    if i < |t.ids| {
      OpenIdsExact(t, i + 1);
      forall k ensures k in OpenIds(t, i) <==>
                 exists j | i <= j < |t.ids| :: t.ids[j] == k && t.rows[k].status == Open
      {
        if k in OpenIds(t, i) {
          if k in OpenIds(t, i + 1) {
            var j :| i + 1 <= j < |t.ids| && t.ids[j] == k && t.rows[k].status == Open;
          } else {
            assert t.ids[i] == k;
          }
        }
        if j :| i <= j < |t.ids| && t.ids[j] == k && t.rows[k].status == Open {
          if j > i { assert k in OpenIds(t, i + 1); }
        }
      }
      assert t.ids[i] !in OpenIds(t, i + 1);
    }
  }

  // ---- the sweep, as a function of the tables it found ----

  function SweptTicket(t: Ticket, now: int): Ticket {
    if Past(t, now) then t.(status := Expired) else t
  }

  /** A decision lapses when it was approved and a ticket of its own expired. */
  ghost predicate LosesItsTicket(tickets: Tickets, did: int, now: int) {
    exists tid :: tid in tickets && tickets[tid].decisionId == did && Past(tickets[tid], now)
  }

  ghost function SweptDecision(tickets: Tickets, did: int, d: Decision, now: int): Decision {
    if d.status == Approved && LosesItsTicket(tickets, did, now) then d.(status := Lapsed) else d
  }

  /** Where the sweep stands: tickets in `seen` are as swept, the rest as found;
      decisions have lapsed exactly for the tickets seen. */
  ghost predicate Halfway(b: Books, now: Books, at: int, seen: set<string>) {
    && now.tickets.ids == b.tickets.ids && now.tickets.rows.Keys == b.tickets.rows.Keys
    && now.decisions.rows.Keys == b.decisions.rows.Keys && now.orders == b.orders && now.events == b.events
    && (forall t | t in b.tickets.rows ::
          now.tickets.rows[t] == if t in seen then SweptTicket(b.tickets.rows[t], at) else b.tickets.rows[t])
    && (forall d | d in b.decisions.rows ::
          now.decisions.rows[d] == SweptDecision(Seen(b.tickets.rows, seen), d, b.decisions.rows[d], at))
  }

  lemma NothingSeen(b: Books, at: int)
    ensures Halfway(b, b, at, {})
  {
  }

  ghost function Seen(tickets: Tickets, seen: set<string>): Tickets {
    map t | t in tickets && t in seen :: tickets[t]
  }

  lemma LosesStep(tickets: Tickets, seen: set<string>, tid: string, did: int, at: int)
    requires tid in tickets && tid !in seen
    ensures LosesItsTicket(Seen(tickets, seen + {tid}), did, at) <==>
            LosesItsTicket(Seen(tickets, seen), did, at) || (did == tickets[tid].decisionId && Past(tickets[tid], at))
  {
    var before, after := Seen(tickets, seen), Seen(tickets, seen + {tid});
    if LosesItsTicket(before, did, at) {
      var k :| k in before && before[k].decisionId == did && Past(before[k], at);
      assert k in after && after[k] == before[k];
    }
    if did == tickets[tid].decisionId && Past(tickets[tid], at) { assert after[tid] == tickets[tid]; }
    if LosesItsTicket(after, did, at) {
      var k :| k in after && after[k].decisionId == did && Past(after[k], at);
      assert k != tid ==> k in before && before[k] == after[k];
    }
  }

  lemma SweepStep(b: Books, now: Books, at: int, seen: set<string>, tid: string)
    requires Halfway(b, now, at, seen) && tid in b.tickets.rows && tid !in seen
    ensures Halfway(b, DoAll(now, ExpirePlan(now, tid, at)), at, seen + {tid})
  {
    var t := b.tickets.rows[tid];
    forall d ensures LosesItsTicket(Seen(b.tickets.rows, seen + {tid}), d, at) <==>
               LosesItsTicket(Seen(b.tickets.rows, seen), d, at) || (d == t.decisionId && Past(t, at))
    {
      LosesStep(b.tickets.rows, seen, tid, d, at);
    }
    if Past(t, at) { ExpireTwice(now, tid, at); } else { NothingSwept(now, tid, at); }
    hide LosesItsTicket, Seen, DoAll, ExpirePlan;
  }

  lemma ExpireTwice(b: Books, tid: string, at: int)
    requires tid in b.tickets.rows && Past(b.tickets.rows[tid], at)
    ensures var did := b.tickets.rows[tid].decisionId;
            DoAll(b, ExpirePlan(b, tid, at)) == Do(Do(b, MoveTicket(tid, Open, Expired)), MoveDecision(did, Approved, Lapsed))
  {
    var did := b.tickets.rows[tid].decisionId;
    var x, y := MoveTicket(tid, Open, Expired), MoveDecision(did, Approved, Lapsed);
    assert ExpirePlan(b, tid, at) == [x, y] && [x, y][1..] == [y] && [y][1..] == [];
    assert DoAll(Do(b, x), [y]) == Do(Do(b, x), y);
  }

  lemma NothingSwept(b: Books, tid: string, at: int)
    requires tid in b.tickets.rows && !Past(b.tickets.rows[tid], at)
    ensures DoAll(b, ExpirePlan(b, tid, at)) == b
  {
  }

  lemma SweepSound(b: Books, book: Book, tid: string, at: int)
    requires tid in b.tickets.rows
    ensures Inv(b, book) ==> LawfulAll(b, book, ExpirePlan(b, tid, at))
  {
    hide Inv, LawfulAll, ExpirePlan;
    if Inv(b, book) { ExpireLawful(b, book, tid, at); }
  }

  /** Everything seen is everything swept: an unseen ticket was not open. */
  lemma SweepOver(b: Books, now: Books, at: int, seen: set<string>)
    requires b.tickets.Valid() && Halfway(b, now, at, seen)
    requires forall t :: t in seen <==> t in OpenIds(b.tickets, 0)
    ensures forall t | t in b.tickets.rows :: now.tickets.rows[t] == SweptTicket(b.tickets.rows[t], at)
    ensures forall d | d in b.decisions.rows ::
              now.decisions.rows[d] == SweptDecision(b.tickets.rows, d, b.decisions.rows[d], at)
  {
    OpenIdsExact(b.tickets, 0);
    forall t | t in b.tickets.rows && b.tickets.rows[t].status == Open ensures t in seen {
      assert t in b.tickets.ids;
    }
    var all := Seen(b.tickets.rows, seen);
    forall d ensures LosesItsTicket(all, d, at) <==> LosesItsTicket(b.tickets.rows, d, at) {
      if LosesItsTicket(b.tickets.rows, d, at) {
        var k :| k in b.tickets.rows && b.tickets.rows[k].decisionId == d && Past(b.tickets.rows[k], at);
        assert k in all && all[k] == b.tickets.rows[k];
      }
      if LosesItsTicket(all, d, at) {
        var k :| k in all && all[k].decisionId == d && Past(all[k], at);
        assert b.tickets.rows[k] == all[k];
      }
    }
  }

  method ExpireOne(db: Connection, tid: string, now: int) returns (moved: bool)
    requires db.Valid() && tid in db.tickets.rows && db.tickets.rows[tid].status == Open
    modifies db
    ensures db.Valid() && db.Ran(ExpirePlan(old(db.View()), tid, now))
    ensures moved == Past(old(db.tickets.rows[tid]), now)
  {
    hide DoAll;
    ghost var b := db.View();
    var t := db.tickets.rows[tid];
    moved := false;
    if now >= t.expiresAt {
      moved := db.TryMoveTicket(tid, Open, Expired);
      if moved { var _ := db.TryMoveDecision(t.decisionId, Approved, Lapsed); }
    }
    db.TrailTells(ExpirePlan(b, tid, now));
  }

  /** expire_open_tickets: exactly the open tickets past their time expire, and
      exactly their approved decisions lapse. */
  method ExpireOpenTickets(db: Connection, now: int, ghost book: Book) returns (expired: seq<string>)
    requires db.Valid() && db.tickets.Valid()
    modifies db
    ensures db.Valid() && db.base == old(db.base) && old(db.trail) <= db.trail
    ensures db.tickets.rows.Keys == old(db.tickets.rows.Keys) && db.decisions.rows.Keys == old(db.decisions.rows.Keys)
    ensures forall t | t in db.tickets.rows :: db.tickets.rows[t] == SweptTicket(old(db.tickets).rows[t], now)
    ensures forall d | d in db.decisions.rows ::
              db.decisions.rows[d] == SweptDecision(old(db.tickets.rows), d, old(db.decisions).rows[d], now)
    ensures forall t :: t in expired <==> t in old(db.tickets.rows) && Past(old(db.tickets).rows[t], now)
    ensures Sound(old(db.View()), book, db.trail[|old(db.trail)|..])
  {
    hide DoAll, Do, ExpirePlan, Inv, LawfulAll, Halfway, Sound;
    ghost var start, n0 := db.View(), |db.trail|;
    expired := [];
    var ids := OpenIds(db.tickets, 0);
    OpenIdsExact(db.tickets, 0);
    ghost var seen: set<string> := {};
    NothingSeen(start, now);
    SoundStart(start, book);
    assert db.trail[n0..] == [];
    for i := 0 to |ids|
      invariant db.Valid() && db.base == old(db.base) && old(db.trail) <= db.trail && n0 <= |db.trail|
      invariant Halfway(start, db.View(), now, seen) && seen == (set t | t in ids[..i])
      invariant forall t :: t in expired <==> t in seen && Past(start.tickets.rows[t], now)
      invariant Sound(start, book, db.trail[n0..]) && db.View() == DoAll(start, db.trail[n0..])
    {
      var tid := ids[i];
      StillOpen(start, db.View(), now, seen, tid);
      ghost var b, cs0, cs := db.View(), db.trail[n0..], ExpirePlan(db.View(), tid, now);
      SweepStep(start, b, now, seen, tid);
      SweepSound(b, book, tid, now);
      SoundExtends(start, book, cs0, cs);
      var moved := ExpireOne(db, tid, now);
      if moved { expired := expired + [tid]; }
      seen := seen + {tid};
      assert ids[..i + 1] == ids[..i] + [tid];
      assert db.trail[n0..] == cs0 + cs;
    }
    assert ids[..|ids|] == ids;
    SweepOver(start, db.View(), now, seen);
    AllSeen(start, db.View(), now, seen);
  }

  lemma StillOpen(b: Books, now: Books, at: int, seen: set<string>, tid: string)
    requires Halfway(b, now, at, seen) && tid in b.tickets.rows && tid !in seen
    ensures tid in now.tickets.rows && now.tickets.rows[tid] == b.tickets.rows[tid]
  {
  }

  lemma AllSeen(b: Books, now: Books, at: int, seen: set<string>)
    requires b.tickets.Valid() && Halfway(b, now, at, seen)
    requires forall t :: t in seen <==> t in OpenIds(b.tickets, 0)
    ensures now.tickets.rows.Keys == b.tickets.rows.Keys && now.decisions.rows.Keys == b.decisions.rows.Keys
    ensures forall t | t in b.tickets.rows && Past(b.tickets.rows[t], at) :: t in seen
  {
    OpenIdsExact(b.tickets, 0);
    forall t | t in b.tickets.rows && Past(b.tickets.rows[t], at) ensures t in seen { assert t in b.tickets.ids; }
  }
}
