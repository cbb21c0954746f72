/** What the poll loop guarantees, whatever the broker answers. */
module ReconcileFacts {
  import opened Records
  import opened FundTables
  import opened Broker
  import opened Plans
  import opened Ledger
  import opened Reconcile
  import opened OneOrder

  // ---- counting fills ----

  function FilledSet(b: Books): set<string> {
    set c | c in b.orders.rows && b.orders.rows[c].status == OrderStatus.Filled
  }

  /** _timeout_close's effect on the row alone. */
  function ClosedRow(row: Order, a: Answer): Order {
    if !a.Got? then row
    else if a.o.status.WFilled? || a.o.status.WPartial? then PolledRow(row, a)
    else if ConfirmedDead(a.o.status).None? || !OrderEdge(row.status, ConfirmedDead(a.o.status).value) then row
    else match ParseDeadFill(a.o)
      case Unreadable => row
      case NoShares => row.(status := ConfirmedDead(a.o.status).value)
      case Shares(f) => row.(fill := Some(f), status := ConfirmedDead(a.o.status).value)
  }

  lemma AlertsWriteNoOrder(b: Books, c: string)
    ensures DoAll(b, [Append(Alert(OrderUnreconciled, c))]).orders == b.orders
  {
    OrdersUntouched(b, [Append(Alert(OrderUnreconciled, c))]);
  }

  lemma CloseRow(b: Books, c: string, a: Answer)
    requires c in b.orders.rows
    ensures DoAll(b, ClosePlan(b, c, a)).orders == Put(b.orders, c, ClosedRow(b.orders.rows[c], a))
  {
    hide DoAll, Do;
    var row := b.orders.rows[c];
    AlertsWriteNoOrder(b, c);
    assert b.orders == Put(b.orders, c, row);
    if a.Got? && (a.o.status.WFilled? || a.o.status.WPartial?) {
      PollRow(b, c, a);
    } else if a.Got? && ConfirmedDead(a.o.status).Some? && OrderEdge(row.status, ConfirmedDead(a.o.status).value)
              && !ParseDeadFill(a.o).Unreadable? {
      DeadRow(b, c, a);
    }
  }

  lemma DeadRow(b: Books, c: string, a: Answer)
    requires c in b.orders.rows && a.Got? && ConfirmedDead(a.o.status).Some?
    requires OrderEdge(b.orders.rows[c].status, ConfirmedDead(a.o.status).value)
    requires !ParseDeadFill(a.o).Unreadable?
    ensures DoAll(b, ClosePlan(b, c, a)).orders == Put(b.orders, c, ClosedRow(b.orders.rows[c], a))
  {
    var cs := ClosePlan(b, c, a);
    var dead := ConfirmedDead(a.o.status).value;
    if ParseDeadFill(a.o).NoShares? {
      OrdersUntouched(Do(b, cs[0]), cs[1..]);
    } else {
      var f := ParseDeadFill(a.o).f;
      hide DoAll, Do;
      TwoFirst(b, WriteFill(c, f), MoveOrder(c, b.orders.rows[c].status, dead), cs[2..]);
      assert cs == [WriteFill(c, f), MoveOrder(c, b.orders.rows[c].status, dead)] + cs[2..];
      WriteThenMove(b, c, f, b.orders.rows[c].status, dead);
      OrdersUntouched(Do(Do(b, cs[0]), cs[1]), cs[2..]);
    }
  }

  lemma PutFilled(b: Books, b': Books, c: string, row: Order)
    requires c in b.orders.rows && b'.orders == Put(b.orders, c, row)
    requires b.orders.rows[c].status == OrderStatus.Filled ==> row.status == OrderStatus.Filled
    ensures FilledSet(b) <= FilledSet(b')
    ensures |FilledSet(b')| == |FilledSet(b)| +
              if row.status == OrderStatus.Filled && b.orders.rows[c].status != OrderStatus.Filled then 1 else 0
  {
    if row.status == OrderStatus.Filled {
      assert FilledSet(b') == FilledSet(b) + {c};
    } else {
      assert FilledSet(b') == FilledSet(b);
    }
  }

  ghost predicate Balanced(s: Tally, s': Tally) {
    FilledSet(s.b) <= FilledSet(s'.b) && |FilledSet(s'.b)| - |FilledSet(s.b)| == s'.filled - s.filled
  }

  lemma {:induction false} PollAllBalanced(s: Tally, ids: seq<string>, env: Env, round: nat)
    ensures Balanced(s, PollAll(s, ids, env, round))
    decreases |ids|
  {
    hide DoAll, PollPlan;
    if ids != [] {
      var c, a := ids[0], env.poll(round, ids[0]);
      var s' := PollOne(s, c, a);
      if c in s.b.orders.rows {
        PollRow(s.b, c, a);
        PutFilled(s.b, s'.b, c, PolledRow(s.b.orders.rows[c], a));
      }
      PollAllBalanced(s', ids[1..], env, round);
    }
  }

  lemma {:induction false} PollLoopBalanced(s: Tally, env: Env, waited: real, pollS: real, maxWaitS: real, round: nat)
    requires pollS > 0.0
    ensures Balanced(s, PollLoop(s, env, waited, pollS, maxWaitS, round).s)
    decreases SleepsLeft(waited, pollS, maxWaitS)
  {
    var pending := PendingIds(s.b.orders);
    if pending != [] {
      PollAllBalanced(s, pending, env, round);
      if waited < maxWaitS {
        SleepShortens(waited, pollS, maxWaitS);
        PollLoopBalanced(PollAll(s, pending, env, round), env, waited + pollS, pollS, maxWaitS, round + 1);
      }
    }
  }

  lemma {:induction false} CloseAllBalanced(s: Tally, ids: seq<string>, env: Env)
    ensures Balanced(s, CloseAll(s, ids, env)) && CloseAll(s, ids, env).problem == s.problem
    decreases |ids|
  {
    hide DoAll, ClosePlan;
    if ids != [] {
      var c, a := ids[0], env.requery(ids[0]);
      var b' := DoAll(s.b, ClosePlan(s.b, c, a));
      if c in s.b.orders.rows {
        CloseRow(s.b, c, a);
        PutFilled(s.b, b', c, ClosedRow(s.b.orders.rows[c], a));
      } else {
        AlertsWriteNoOrder(s.b, c);
        assert ClosePlan(s.b, c, a) == [Append(Alert(OrderUnreconciled, c))] by { CloseUnknown(s.b, c, a); }
        assert FilledSet(b') == FilledSet(s.b);
      }
      CloseAllBalanced(s.(b := b', filled := s.filled + if CloseFilled(s.b, c, a) then 1 else 0), ids[1..], env);
    }
  }

  lemma CloseUnknown(b: Books, c: string, a: Answer)
    requires c !in b.orders.rows
    ensures ClosePlan(b, c, a) == [Append(Alert(OrderUnreconciled, c))]
  {
  }

  lemma {:induction false} ReportBalanced(b: Books, ids: seq<string>)
    ensures Report(b, ids).orders == b.orders
    decreases |ids|
  {
    if ids != [] { ReportBalanced(Do(b, Append(Alert(OrderUnresolvedAtCap, ids[0]))), ids[1..]); }
  }

  /** The unresolved orders are reported one by one, in order, and nothing else
      is written then. */
  lemma {:induction false} ReportAppends(b: Books, ids: seq<string>)
    ensures Report(b, ids) == b.(events := b.events + seq(|ids|, i requires 0 <= i < |ids| => Alert(OrderUnresolvedAtCap, ids[i])))
    decreases |ids|
  {
    if ids == [] {
      assert b.events + [] == b.events;
    } else {
      var b' := Do(b, Append(Alert(OrderUnresolvedAtCap, ids[0])));
      ReportAppends(b', ids[1..]);
      assert seq(|ids|, i requires 0 <= i < |ids| => Alert(OrderUnresolvedAtCap, ids[i]))
             == [Alert(OrderUnresolvedAtCap, ids[0])]
                + seq(|ids[1..]|, i requires 0 <= i < |ids[1..]| => Alert(OrderUnresolvedAtCap, ids[1..][i]));
    }
  }

  /** The returned count is exactly the number of orders this call moved to
      'filled', over both the polling and the closing phase. */
  lemma CountIsExact(b: Books, env: Env, pollS: real, maxWaitS: real)
    requires pollS > 0.0
    ensures var r := Reconciled(b, env, pollS, maxWaitS);
            FilledSet(b) <= FilledSet(r.b) && r.filled == |FilledSet(r.b) - FilledSet(b)|
  {
    hide PollLoop, CloseAll, Report;
    var p := PollLoop(Start(b), env, 0.0, pollS, maxWaitS, 0);
    PollLoopBalanced(Start(b), env, 0.0, pollS, maxWaitS, 0);
    var r := Reconciled(b, env, pollS, maxWaitS);
    if !p.quiet {
      CloseAllBalanced(p.s, p.s.open, env);
      ReportBalanced(CloseAll(p.s, p.s.open, env).b, p.s.problem);
      assert FilledSet(r.b) == FilledSet(CloseAll(p.s, p.s.open, env).b);
    }
    assert |FilledSet(r.b)| - |FilledSet(b)| == r.filled;
    assert FilledSet(r.b) == FilledSet(b) + (FilledSet(r.b) - FilledSet(b));
  }

  // ---- bounding the rounds ----

  /** At most ceiling(max_wait / poll) + 1 rounds; exactly that many when
      orders are still pending at the cap. A cap of zero or less still polls
      once. */
  lemma {:induction false} RoundsAreBounded(s: Tally, env: Env, waited: real, pollS: real, maxWaitS: real, round: nat)
    requires pollS > 0.0
    ensures var p := PollLoop(s, env, waited, pollS, maxWaitS, round);
            && p.rounds - round <= SleepsLeft(waited, pollS, maxWaitS) + 1
            && (!p.quiet ==> p.rounds - round == SleepsLeft(waited, pollS, maxWaitS) + 1)
    decreases SleepsLeft(waited, pollS, maxWaitS)
  {
    hide PollAll;
    var pending := PendingIds(s.b.orders);
    if pending != [] && waited < maxWaitS {
      SleepShortens(waited, pollS, maxWaitS);
      RoundsAreBounded(PollAll(s, pending, env, round), env, waited + pollS, pollS, maxWaitS, round + 1);
    }
  }

  // ---- who is in which list at the cap ----

  predicate NoDuplicates(ids: seq<string>) {
    forall i, j | 0 <= i < j < |ids| :: ids[i] != ids[j]
  }

  predicate IsPending(b: Books, c: string) {
    c in b.orders.rows && Pending(b.orders.rows[c].status)
  }

  lemma {:induction false} PendingFromAvoids(orders: Table<string, Order>, i: nat, c: string)
    requires forall k | i <= k < |orders.ids| :: orders.ids[k] != c
    ensures c !in PendingFrom(orders, i)
    decreases |orders.ids| - i
  {
    if i < |orders.ids| { PendingFromAvoids(orders, i + 1, c); }
  }

  lemma ConsDistinct(x: string, s: seq<string>)
    requires NoDuplicates(s) && x !in s
    ensures NoDuplicates([x] + s)
  {
  }

  lemma {:induction false} PendingFromDistinct(orders: Table<string, Order>, i: nat)
    requires orders.Valid()
    ensures NoDuplicates(PendingFrom(orders, i))
    decreases |orders.ids| - i
  {
    if i < |orders.ids| {
      PendingFromDistinct(orders, i + 1);
      PendingFromAvoids(orders, i + 1, orders.ids[i]);
      ConsDistinct(orders.ids[i], PendingFrom(orders, i + 1));
      hide NoDuplicates;
    }
  }

  lemma PendingIdsExact(b: Books)
    requires b.orders.Valid()
    ensures NoDuplicates(PendingIds(b.orders))
    ensures forall c :: c in PendingIds(b.orders) <==> IsPending(b, c)
  {
    PendingFromDistinct(b.orders, 0);
    forall c | IsPending(b, c) ensures c in PendingIds(b.orders) {
      assert c in b.orders.ids;
    }
  }

  /** One round, order by order: the row as polled, and the list the answer
      puts it in. Orders not polled keep both. */
  lemma {:induction false} RoundFacts(s: Tally, ids: seq<string>, env: Env, round: nat)
    requires NoDuplicates(ids) && forall c | c in ids :: c in s.b.orders.rows
    ensures var s' := PollAll(s, ids, env, round);
            && s'.b.orders.ids == s.b.orders.ids && s'.b.orders.rows.Keys == s.b.orders.rows.Keys
            && (forall c | c in s.b.orders.rows ::
                  s'.b.orders.rows[c] == if c in ids then PolledRow(s.b.orders.rows[c], env.poll(round, c)) else s.b.orders.rows[c])
            && (forall c :: c in s'.open <==> if c in ids then Read(env.poll(round, c)).StillOpen? else c in s.open)
            && (forall c :: c in s'.problem <==> if c in ids then Read(env.poll(round, c)).Unusable? else c in s.problem)
    decreases |ids|
  {
    hide DoAll, PollPlan, PolledRow, Read;
    if ids != [] {
      var c0, a := ids[0], env.poll(round, ids[0]);
      var s1 := PollOne(s, c0, a);
      PollRow(s.b, c0, a);
      assert c0 !in ids[1..];
      assert forall c :: c in ids <==> c == c0 || c in ids[1..];
      InsertAdds(s.open, c0);
      InsertAdds(s.problem, c0);
      RoundFacts(s1, ids[1..], env, round);
    }
  }

  lemma InsertAdds(s: seq<string>, x: string)
    ensures forall y :: y in Insert(s, x) <==> y in s || y == x
  {
  }

  /** `open` and `problem` speak only of pending orders. */
  ghost predicate ListsArePending(s: Tally) {
    forall c | c in s.open || c in s.problem :: IsPending(s.b, c)
  }

  /** At the cap every pending order is in exactly one of three classes, by its
      last answer: confirmed still working (cancel requested), unusable
      (reported), or partially filled (left alone). */
  ghost predicate Sorted(s: Tally, env: Env, last: nat) {
    && s.b.orders.Valid()
    && ListsArePending(s)
    && forall c | IsPending(s.b, c) ::
        && (c in s.open <==> Read(env.poll(last, c)).StillOpen?)
        && (c in s.problem <==> Read(env.poll(last, c)).Unusable?)
        && (c !in s.open && c !in s.problem <==>
              env.poll(last, c).Got? && env.poll(last, c).o.status.WPartial? && ParseFill(env.poll(last, c).o).Some?)
  }

  lemma SameKeysValid(t: Table<string, Order>, t': Table<string, Order>)
    requires t.Valid() && t'.ids == t.ids && t'.rows.Keys == t.rows.Keys
    ensures t'.Valid()
  {
    forall k | k in t'.rows ensures k in t'.ids { assert k in t.rows; }
    forall i | 0 <= i < |t'.ids| ensures t'.ids[i] in t'.rows { assert t.ids[i] in t.rows; }
  }

  lemma RoundSorts(s: Tally, env: Env, round: nat)
    requires s.b.orders.Valid() && ListsArePending(s)
    ensures Sorted(PollAll(s, PendingIds(s.b.orders), env, round), env, round)
  {
    hide PollAll;
    PendingIdsExact(s.b);
    var ids := PendingIds(s.b.orders);
    RoundFacts(s, ids, env, round);
    var s' := PollAll(s, ids, env, round);
    SameKeysValid(s.b.orders, s'.b.orders);
    forall c | c in s'.open || c in s'.problem ensures IsPending(s'.b, c) {
      assert c in ids;
    }
    forall c | IsPending(s'.b, c) ensures IsPending(s.b, c) && c in ids {
      assert c in s.b.orders.rows;
    }
  }

  lemma {:induction false} LoopSorts(s: Tally, env: Env, waited: real, pollS: real, maxWaitS: real, round: nat)
    requires pollS > 0.0 && s.b.orders.Valid() && ListsArePending(s)
    ensures var p := PollLoop(s, env, waited, pollS, maxWaitS, round);
            && p.rounds >= round
            && (p.quiet ==> forall c :: !IsPending(p.s.b, c))
            && (!p.quiet ==> p.rounds > round && Sorted(p.s, env, p.rounds - 1))
    decreases SleepsLeft(waited, pollS, maxWaitS)
  {
    hide PollAll, IsPending;
    PendingIdsExact(s.b);
    var pending := PendingIds(s.b.orders);
    if pending != [] {
      RoundSorts(s, env, round);
      if waited < maxWaitS {
        SleepShortens(waited, pollS, maxWaitS);
        LoopSorts(PollAll(s, pending, env, round), env, waited + pollS, pollS, maxWaitS, round + 1);
      }
    }
  }

  /** The whole call: cancels go to exactly the orders whose last answer said
      they were still working, never to an unreadable or part-filled one. */
  lemma CancelsOnlyWorking(b: Books, env: Env, pollS: real, maxWaitS: real, c: string)
    requires pollS > 0.0 && b.orders.Valid()
    ensures var p := PollLoop(Start(b), env, 0.0, pollS, maxWaitS, 0);
            c in Cancels(b, env, pollS, maxWaitS) <==>
              !p.quiet && p.rounds > 0 && IsPending(p.s.b, c) && Read(env.poll(p.rounds - 1, c)).StillOpen?
  {
    hide PollLoop, IsPending, Read;
    LoopSorts(Start(b), env, 0.0, pollS, maxWaitS, 0);
  }
}
