/** slackkit/outbox.py as written: the table updated in place, the drain as two
    nested loops over batches of unposted rows. */
module OutboxDrain {
  import opened Outbox

  class Events {
    var rows: seq<Message>
    var posted: set<nat>
    ghost var sent: seq<nat>
    ghost var dead: set<nat>

    /** Every effect since `base`, in order: the state was View after each
        prefix of `trail`, and that is what a crash would have left. */
    ghost var base: Queue
    ghost var trail: seq<Effect>

    ghost function View(): Queue reads this { Queue(rows, posted, sent, dead) }

    ghost predicate Valid() reads this {
      && View() == DoAll(base, trail)
      && forall k | k in posted :: k < |rows|
    }

    constructor ()
      ensures Valid() && View() == Fresh && trail == []
    {
      rows, posted, sent, dead := [], {}, [], {};
      base, trail := Fresh, [];
    }

    /** append_event: the new row's id. */
    method AppendEvent(m: Message) returns (id: nat)
      requires Valid()
      modifies this
      ensures Valid() && View() == Next(old(View()), AppendRow(m)) && id == |old(rows)|
    {
      id := |rows|;
      rows := rows + [m];
      base, trail := View(), [];
    }

    // ---- one effect each ----

    method SendRow(id: nat)
      requires Valid()
      modifies this
      ensures Valid() && View() == Do(old(View()), Send(id)) && Ran([Send(id)])
    {
      OneMore(base, trail, Send(id));
      sent, trail := sent + [id], trail + [Send(id)];
    }

    method MarkRow(id: nat)
      requires Valid() && id < |rows|
      modifies this
      ensures Valid() && View() == Do(old(View()), Mark(id)) && Ran([Mark(id)])
    {
      OneMore(base, trail, Mark(id));
      posted, trail := posted + {id}, trail + [Mark(id)];
    }

    /** _dead_letter */
    method DeadLetter(id: nat)
      requires Valid() && id < |rows|
      modifies this
      ensures Valid() && Ran(Burial(old(View()), id)) && View() == DoAll(old(View()), Burial(old(View()), id))
    {
      OneEffect(View(), Bury(id));
      TwoEffects(View(), Bury(id), Report(id));
      OneMore(base, trail, Bury(id));
      ghost var q := View();
      posted, dead, trail := posted + {id}, dead + {id}, trail + [Bury(id)];
      if rows[id].kind != PROJECTION_ERROR {
        OneMore(base, trail, Report(id));
        assert trail + [Report(id)] == old(trail) + Burial(q, id);
        rows := rows + [Message(PROJECTION_ERROR, Undelivered(id, rows[id].kind))];
        trail := trail + [Report(id)];
      }
    }

    twostate predicate Ran(es: seq<Effect>) reads this {
      base == old(base) && trail == old(trail) + es
    }

    // ---- the drain ----

    /** One row of a batch: render it, post it, mark it. */
    method HandleRow(id: nat, ch: Channel, calls: nat) returns (fate: Fate, calls': nat)
      requires Valid() && id < |rows|
      modifies this
      ensures Valid() && Ran(Handle(old(View()), id, ch, calls))
      ensures View() == DoAll(old(View()), Handle(old(View()), id, ch, calls))
      ensures fate == FateOf(old(View()), id, ch, calls) && calls' == CallsAfter(old(View()), id, ch, calls)
      ensures !fate.Stuck? ==> posted == old(posted) + {id}
    {
      Handled(View(), id, ch, calls);
      if !ch.renders(rows[id]) {
        DeadLetter(id);
        return Buried, calls;
      }
      calls' := calls + 1;
      match ch.reply(calls)
      case Refused =>
        DeadLetter(id);
        fate := Buried;
      case Failed(taken) =>
        if taken { SendRow(id); }
        fate := Stuck(taken);
      case Accepted =>
        SendRow(id);
        MarkRow(id);
        fate := Posted;
    }

    /** The for loop over one fetched batch. Rows appended meanwhile wait for
        the next batch. */
    method DrainBatch(batch: seq<nat>, ch: Channel, calls0: nat)
      returns (count: nat, calls: nat, stuck: bool, ghost done: seq<Effect>)
      requires Valid() && batch == Unposted(posted, 0, |rows|)
      modifies this
      ensures Valid() && Ran(done) && View() == DoAll(old(View()), done)
      ensures stuck ==> Scan(old(View()), 0, ch, calls0) == done
      ensures stuck ==> |OutcomeOf(old(View()), 0, ch, calls0).sent| == count
      ensures !stuck ==> Scan(old(View()), 0, ch, calls0) == done + Scan(View(), 0, ch, calls)
      ensures !stuck ==> |OutcomeOf(old(View()), 0, ch, calls0).sent| == count + |OutcomeOf(View(), 0, ch, calls).sent|
      ensures !stuck && batch != [] ==> Shrunk(old(View()), View())
    {
      hide DoAll, Scan, OutcomeOf, Handle, FateOf, CallsAfter, Shrunk, Unposted, Cleared;
      count, calls, stuck, done := 0, calls0, false, [];
      ghost var q, from, n := View(), 0, |rows|;
      NoEffects(q);
      NothingCleared(q);
      for k := 0 to |batch|
        invariant Valid() && Ran(done) && View() == DoAll(q, done)
        invariant n <= |rows| && Cleared(posted, from, n) && batch[k..] == Unposted(posted, from, n)
        invariant Scan(q, 0, ch, calls0) == done + Scan(View(), from, ch, calls)
        invariant |OutcomeOf(q, 0, ch, calls0).sent| == count + |OutcomeOf(View(), from, ch, calls).sent|
        invariant if k == 0 then View() == q else Shrunk(q, View())
      {
        var id := batch[k];
        assert batch[k..] == [id] + batch[k + 1..];
        UnpostedHead(posted, from, n, id, batch[k + 1..]);
        ghost var here, es := View(), Handle(View(), id, ch, calls);
        BatchStep(here, from, n, id, batch[k + 1..], ch, calls);
        DoAllConcat(q, done, es);
        ghost var next := DoAll(here, es);
        if k > 0 { ShrinksOn(q, here, next); }
        var fate;
        fate, calls := HandleRow(id, ch, calls);
        assert done + (es + Scan(next, id + 1, ch, calls)) == done + es + Scan(next, id + 1, ch, calls);
        done := done + es;
        if fate.Stuck? {
          stuck := true;
          return;
        }
        if fate.Posted? { count := count + 1; }
        from := id + 1;
      }
      assert batch[|batch|..] == [];
      BatchOver(View(), from, n, ch, calls);
    }

    /** Posts the queue oldest first and returns how many the channel accepted:
        two nested loops that amount to one scan of the growing table. */
    method Drain(ch: Channel) returns (count: nat)
      requires Valid()
      modifies this
      ensures Valid() && Ran(Scan(old(View()), 0, ch, 0))
      ensures View() == DoAll(old(View()), Scan(old(View()), 0, ch, 0))
      ensures count == |OutcomeOf(old(View()), 0, ch, 0).sent|
    {
      hide DoAll, Scan, OutcomeOf;
      count := 0;
      var calls := 0;
      ghost var q, done := View(), [];
      NoEffects(q);
      while true
        invariant Valid() && Ran(done) && View() == DoAll(q, done)
        invariant Scan(q, 0, ch, 0) == done + Scan(View(), 0, ch, calls)
        invariant |OutcomeOf(q, 0, ch, 0).sent| == count + |OutcomeOf(View(), 0, ch, calls).sent|
        decreases OrdinaryFrom(View(), 0), Queued(View())
      {
        var batch := Unposted(posted, 0, |rows|);
        if batch == [] {
          AllPosted(View(), ch, calls);
          assert done + [] == done;
          return;
        }
        ghost var here := View();
        var more, stuck;
        ghost var es;
        more, calls, stuck, es := DrainBatch(batch, ch, calls);
        DoAllConcat(q, done, es);
        assert done + (es + Scan(View(), 0, ch, calls)) == done + es + Scan(View(), 0, ch, calls);
        done, count := done + es, count + more;
        if stuck { return; }
      }
    }
  }

  lemma NoEffects(q: Queue)
    ensures DoAll(q, []) == q
  {
  }

  lemma ScanEmpty(q: Queue, i: nat, ch: Channel, calls: nat)
    requires i <= |q.rows| && forall k | i <= k < |q.rows| :: k in q.posted
    ensures Scan(q, i, ch, calls) == [] && OutcomeOf(q, i, ch, calls).sent == []
    decreases |q.rows| - i
  {
    if i < |q.rows| { ScanEmpty(q, i + 1, ch, calls); }
  }

  lemma {:induction false} ScanSkips(q: Queue, i: nat, j: nat, ch: Channel, calls: nat)
    requires i <= j <= |q.rows| && forall k | i <= k < j :: k in q.posted
    ensures Scan(q, i, ch, calls) == Scan(q, j, ch, calls)
    ensures OutcomeOf(q, i, ch, calls) == OutcomeOf(q, j, ch, calls)
    decreases j - i
  {
    if i < j { ScanSkips(q, i + 1, j, ch, calls); }
  }

  /** One row of a batch: the scan from anywhere in the posted stretch before
      it handles it next. */
  lemma ScanStep(q: Queue, from: nat, id: nat, ch: Channel, calls: nat)
    requires from <= id < |q.rows| && id !in q.posted && forall k | from <= k < id :: k in q.posted
    ensures var q' := DoAll(q, Handle(q, id, ch, calls));
            var calls' := CallsAfter(q, id, ch, calls);
            if FateOf(q, id, ch, calls).Stuck?
            then Scan(q, from, ch, calls) == Handle(q, id, ch, calls) && OutcomeOf(q, from, ch, calls).sent == []
            else
              && Scan(q, from, ch, calls) == Handle(q, id, ch, calls) + Scan(q', id + 1, ch, calls')
              && |OutcomeOf(q, from, ch, calls).sent|
                 == |OutcomeOf(q', id + 1, ch, calls').sent| + (if FateOf(q, id, ch, calls).Posted? then 1 else 0)
  {
    ScanSkips(q, from, id, ch, calls);
  }

  /** SELECT ... WHERE posted_at IS NULL ORDER BY id, between two ids. */
  function Unposted(posted: set<nat>, from: nat, n: nat): seq<nat>
    decreases n - from
  {
    if from >= n then []
    else if from in posted then Unposted(posted, from + 1, n)
    else [from] + Unposted(posted, from + 1, n)
  }

  ghost predicate Cleared(posted: set<nat>, from: nat, n: nat) {
    from <= n && forall id: nat | id < from :: id in posted
  }

  lemma {:induction false} UnpostedHead(posted: set<nat>, from: nat, n: nat, id: nat, rest: seq<nat>)
    requires Unposted(posted, from, n) == [id] + rest
    ensures from <= id < n && id !in posted && forall k | from <= k < id :: k in posted
    ensures Unposted(posted + {id}, id + 1, n) == rest
    decreases n - from
  {
    if from in posted {
      UnpostedHead(posted, from + 1, n, id, rest);
    } else {
      assert ([id] + rest)[1..] == rest == Unposted(posted, from + 1, n);
      UnpostedAhead(posted, id, from + 1, n);
    }
  }

  lemma {:induction false} UnpostedAhead(posted: set<nat>, id: nat, from: nat, n: nat)
    requires id < from
    ensures Unposted(posted + {id}, from, n) == Unposted(posted, from, n)
    decreases n - from
  {
    if from < n { UnpostedAhead(posted, id, from + 1, n); }
  }

  lemma {:induction false} NoneUnposted(posted: set<nat>, from: nat, n: nat)
    requires Unposted(posted, from, n) == []
    ensures forall k | from <= k < n :: k in posted
    decreases n - from
  {
    if from < n { NoneUnposted(posted, from + 1, n); }
  }

  lemma NothingCleared(q: Queue)
    ensures Cleared(q.posted, 0, |q.rows|)
  {
  }

  /** The termination measure: ordinary rows still queued, then all rows still
      queued. Giving up on an ordinary row lowers the first although it appends
      a row; anything else lowers the second. */
  ghost predicate Shrunk(q: Queue, q': Queue) {
    || OrdinaryFrom(q', 0) < OrdinaryFrom(q, 0)
    || (OrdinaryFrom(q', 0) == OrdinaryFrom(q, 0) && Queued(q') < Queued(q))
  }

  lemma ShrinksOn(q: Queue, q': Queue, q'': Queue)
    ensures Shrunk(q, q') && Shrunk(q', q'') ==> Shrunk(q, q'')
  {
  }

  /** One row of a batch, seen from the scan, the batch and the measure. */
  lemma BatchStep(q: Queue, from: nat, n: nat, id: nat, rest: seq<nat>, ch: Channel, calls: nat)
    requires n <= |q.rows| && Cleared(q.posted, from, n) && Unposted(q.posted, from, n) == [id] + rest
    ensures id < n
    ensures var es := Handle(q, id, ch, calls);
            var next := DoAll(q, es);
            var calls' := CallsAfter(q, id, ch, calls);
            if FateOf(q, id, ch, calls).Stuck?
            then Scan(q, from, ch, calls) == es && |OutcomeOf(q, from, ch, calls).sent| == 0
            else
              && Cleared(next.posted, id + 1, n) && Unposted(next.posted, id + 1, n) == rest
              && |q.rows| <= |next.rows| && Shrunk(q, next)
              && Scan(q, from, ch, calls) == es + Scan(next, id + 1, ch, calls')
              && |OutcomeOf(q, from, ch, calls).sent|
                 == |OutcomeOf(next, id + 1, ch, calls').sent| + (if FateOf(q, id, ch, calls).Posted? then 1 else 0)
  {
    hide Scan, OutcomeOf, DoAll, Unposted;
    UnpostedHead(q.posted, from, n, id, rest);
    ScanStep(q, from, id, ch, calls);
    Handled(q, id, ch, calls);
    if !FateOf(q, id, ch, calls).Stuck? { RowShrinks(q, id, ch, calls); }
  }

  lemma RowShrinks(q: Queue, id: nat, ch: Channel, calls: nat)
    requires id < |q.rows| && id !in q.posted && !FateOf(q, id, ch, calls).Stuck?
    ensures Shrunk(q, DoAll(q, Handle(q, id, ch, calls)))
  {
    hide DoAll;
    Handled(q, id, ch, calls);
    var next := DoAll(q, Handle(q, id, ch, calls));
    assert id in Queued(q) && id !in Queued(next);
    if Ordinary(q.rows[id]) {
      assert id in OrdinaryFrom(q, 0) && id !in OrdinaryFrom(next, 0);
    } else {
      assert next.rows == q.rows;
    }
  }

  lemma BatchOver(q: Queue, from: nat, n: nat, ch: Channel, calls: nat)
    requires n <= |q.rows| && Cleared(q.posted, from, n) && Unposted(q.posted, from, n) == []
    ensures Scan(q, from, ch, calls) == Scan(q, 0, ch, calls)
    ensures OutcomeOf(q, from, ch, calls) == OutcomeOf(q, 0, ch, calls)
  {
    NoneUnposted(q.posted, from, n);
    ScanSkips(q, from, n, ch, calls);
    ScanSkips(q, 0, n, ch, calls);
  }

  lemma AllPosted(q: Queue, ch: Channel, calls: nat)
    requires Unposted(q.posted, 0, |q.rows|) == []
    ensures Scan(q, 0, ch, calls) == [] && |OutcomeOf(q, 0, ch, calls).sent| == 0
  {
    NoneUnposted(q.posted, 0, |q.rows|);
    ScanEmpty(q, 0, ch, calls);
  }

  lemma OneMore(base: Queue, trail: seq<Effect>, e: Effect)
    ensures DoAll(base, trail + [e]) == Do(DoAll(base, trail), e)
  {
    DoAllConcat(base, trail, [e]);
    OneEffect(DoAll(base, trail), e);
  }
}
