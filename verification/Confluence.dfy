/** An order the recorder wrote and an order recovered after its response was
    lost end the same: same row, same fill numbers, same ticket, same decision,
    same fill events, whatever stable outcome the broker reports and whatever
    the other orders do. Alerts and timestamps are not compared. */
module Confluence {
  import opened Records
  import opened FundTables
  import opened Broker
  import opened Plans
  import opened Safety
  import opened PlansAreLawful
  import opened Ledger
  import opened Reconcile
  import opened OneOrder
  import opened ReconcileFacts
  import Aftermath

  // ---- a steady broker: every lookup of an order gets the same answer ----

  function Steady(ans: string -> Answer, after: string -> Answer): Env {
    Env((n, c) => ans(c), after)
  }

  /** What the stage does to one order, alone. */
  function Settle(b: Books, c: string, ans: string -> Answer, after: string -> Answer): Books {
    if !IsPending(b, c) then b
    else if Read(ans(c)).StillOpen? then DoAll(b, ClosePlan(b, c, after(c)))
    else DoAll(b, PollPlan(b, c, ans(c)))
  }

  predicate IsLost(b: Books, c: string) {
    c in b.tickets.rows && b.tickets.rows[c].status == Open && c !in b.orders.rows
  }

  function RecoverAlone(b: Books, c: string, ans: string -> Answer): Books {
    if IsLost(b, c) then DoAll(b, RecoverPlan(b, c, ans(c))) else b
  }

  // ---- polling, order by order ----

  lemma PollKeepsKeyed(b: Books, c: string, a: Answer)
    requires Keyed(b) && c in b.orders.rows
    ensures Keyed(DoAll(b, PollPlan(b, c, a)))
  {
    hide DoAll, PollPlan;
    PollConcerns(b, c, a);
    RunKeepsKeyed(b, PollPlan(b, c, a), c, b.tickets.rows[c].decisionId);
  }

  lemma {:induction false} PollAllSlice(s: Tally, ids: seq<string>, env: Env, round: nat, c: string)
    requires Keyed(s.b) && NoDuplicates(ids) && forall x | x in ids :: x in s.b.orders.rows
    ensures var s' := PollAll(s, ids, env, round);
            && Keyed(s'.b)
            && SliceOf(s'.b, c) == if c in ids then SliceOf(DoAll(s.b, PollPlan(s.b, c, env.poll(round, c))), c) else SliceOf(s.b, c)
    decreases |ids|
  {
    hide DoAll, PollPlan, SliceOf, AllConcern, Read;
    if ids != [] {
      var c0, a := ids[0], env.poll(round, ids[0]);
      var b' := DoAll(s.b, PollPlan(s.b, c0, a));
      PollKeepsKeyed(s.b, c0, a);
      PollRow(s.b, c0, a);
      PollConcerns(s.b, c0, a);
      assert c0 !in ids[1..] && forall x :: x in ids <==> x == c0 || x in ids[1..];
      PollAllSlice(PollOne(s, c0, a), ids[1..], env, round, c);
      if c != c0 {
        RunApart(s.b, PollPlan(s.b, c0, a), c0, c);
        if c in ids { PollSame(s.b, b', c, env.poll(round, c)); }
      }
    }
  }

  lemma PollSame(b: Books, b': Books, c: string, a: Answer)
    requires Keyed(b) && c in b.orders.rows && SliceOf(b, c) == SliceOf(b', c)
    ensures c in b'.orders.rows
    ensures SliceOf(DoAll(b, PollPlan(b, c, a)), c) == SliceOf(DoAll(b', PollPlan(b', c, a)), c)
  {
    hide DoAll, PollPlan, SliceOf, AllConcern;
    PlansReadOneSlice(b, b', c, a);
    PollConcerns(b, c, a);
    RunSame(b, b', PollPlan(b, c, a), c);
  }

  lemma CloseSame(b: Books, b': Books, c: string, a: Answer)
    requires Keyed(b) && c in b.orders.rows && SliceOf(b, c) == SliceOf(b', c)
    ensures SliceOf(DoAll(b, ClosePlan(b, c, a)), c) == SliceOf(DoAll(b', ClosePlan(b', c, a)), c)
  {
    hide DoAll, ClosePlan, SliceOf, AllConcern;
    PlansReadOneSlice(b, b', c, a);
    CloseConcerns(b, c, a);
    RunSame(b, b', ClosePlan(b, c, a), c);
  }

  /** Polling again on the same answer changes nothing more. */
  lemma PollTwice(b: Books, c: string, a: Answer)
    requires Keyed(b) && IsPending(b, c)
    ensures var b' := DoAll(b, PollPlan(b, c, a));
            IsPending(b', c) ==> SliceOf(DoAll(b', PollPlan(b', c, a)), c) == SliceOf(b', c)
  {
    var b' := DoAll(b, PollPlan(b, c, a));
    PollRow(b, c, a);
    if IsPending(b', c) && PollPlan(b', c, a) != [] {
      assert a.Got? && a.o.status.WPartial?;
      var f := ParseFill(a.o).value;
      assert b'.orders.rows[c].status == Partial && b'.orders.rows[c].fill == Some(f);
      assert PollPlan(b', c, a) == [WriteFill(c, f), MoveOrder(c, Working, Partial)];
      PartialAgain(b', c, f);
    } else if IsPending(b', c) {
      NoCommits(b');
    }
  }

  lemma PartialAgain(b: Books, c: string, f: Fill)
    requires c in b.orders.rows && b.orders.rows[c].status == Partial && b.orders.rows[c].fill == Some(f)
    ensures SliceOf(DoAll(b, [WriteFill(c, f), MoveOrder(c, Working, Partial)]), c) == SliceOf(b, c)
  {
    hide DoAll;
    TwoFirst(b, WriteFill(c, f), MoveOrder(c, Working, Partial), []);
    NoCommits(Do(Do(b, WriteFill(c, f)), MoveOrder(c, Working, Partial)));
    assert [WriteFill(c, f), MoveOrder(c, Working, Partial)] + [] == [WriteFill(c, f), MoveOrder(c, Working, Partial)];
  }

  // ---- the loop, for one order ----

  lemma {:induction false} LoopSlice(s: Tally, ans: string -> Answer, after: string -> Answer,
                                     waited: real, pollS: real, maxWaitS: real, round: nat, c: string)
    requires pollS > 0.0 && Keyed(s.b) && ListsArePending(s)
    ensures var p := PollLoop(s, Steady(ans, after), waited, pollS, maxWaitS, round);
            && Keyed(p.s.b)
            && SliceOf(p.s.b, c) == if IsPending(s.b, c) then SliceOf(DoAll(s.b, PollPlan(s.b, c, ans(c))), c) else SliceOf(s.b, c)
    decreases SleepsLeft(waited, pollS, maxWaitS)
  {
    hide DoAll, PollPlan, SliceOf, PollAll, Keyed, Read;
    var env := Steady(ans, after);
    KeyedIsValid(s.b);
    PendingIdsExact(s.b);
    var pending := PendingIds(s.b.orders);
    if pending != [] {
      var s' := PollAll(s, pending, env, round);
      PollAllSlice(s, pending, env, round, c);
      RoundSorts(s, env, round);
      if waited < maxWaitS {
        SleepShortens(waited, pollS, maxWaitS);
        LoopSlice(s', ans, after, waited + pollS, pollS, maxWaitS, round + 1, c);
        if IsPending(s.b, c) {
          var b1 := DoAll(s.b, PollPlan(s.b, c, ans(c)));
          PollTwice(s.b, c, ans(c));
          SameSliceSamePending(s'.b, b1, c);
          if IsPending(s'.b, c) {
            PollKeepsKeyed(s.b, c, ans(c));
            PollSame(b1, s'.b, c, ans(c));
          }
        } else {
          SameSliceSamePending(s'.b, s.b, c);
        }
      }
    }
  }

  lemma KeyedIsValid(b: Books)
    requires Keyed(b)
    ensures b.orders.Valid()
  {
  }

  lemma SameSliceSamePending(b: Books, b': Books, c: string)
    requires SliceOf(b, c) == SliceOf(b', c)
    ensures IsPending(b, c) <==> IsPending(b', c)
    ensures c in b.orders.rows <==> c in b'.orders.rows
    ensures IsLost(b, c) <==> IsLost(b', c)
  {
    if c in b.orders.rows && c in b'.orders.rows { assert b.orders.rows[c] == b'.orders.rows[c]; }
    if c in b.tickets.rows && c in b'.tickets.rows { assert b.tickets.rows[c] == b'.tickets.rows[c]; }
  }

  // ---- the closing phase, for one order ----

  lemma CloseAllStep(b: Books, c0: string, a: Answer, c: string)
    requires Keyed(b) && c0 in b.orders.rows
    ensures var b' := DoAll(b, ClosePlan(b, c0, a));
            Keyed(b') && (c != c0 ==> SliceOf(b', c) == SliceOf(b, c)) && b'.orders.rows.Keys == b.orders.rows.Keys
  {
    hide DoAll, ClosePlan, SliceOf, AllConcern;
    CloseConcerns(b, c0, a);
    RunKeepsKeyed(b, ClosePlan(b, c0, a), c0, b.tickets.rows[c0].decisionId);
    CloseRow(b, c0, a);
    if c != c0 { RunApart(b, ClosePlan(b, c0, a), c0, c); }
  }

  lemma {:induction false} CloseAllSlice(s: Tally, ids: seq<string>, env: Env, c: string)
    requires Keyed(s.b) && NoDuplicates(ids) && forall x | x in ids :: x in s.b.orders.rows
    ensures SliceOf(CloseAll(s, ids, env).b, c)
            == if c in ids then SliceOf(DoAll(s.b, ClosePlan(s.b, c, env.requery(c))), c) else SliceOf(s.b, c)
    decreases |ids|
  {
    hide DoAll, ClosePlan, SliceOf, Keyed, CloseFilled;
    if ids != [] {
      var c0, a := ids[0], env.requery(ids[0]);
      var b' := DoAll(s.b, ClosePlan(s.b, c0, a));
      CloseAllStep(s.b, c0, a, c);
      assert c0 !in ids[1..] && forall x :: x in ids <==> x == c0 || x in ids[1..];
      CloseAllSlice(s.(b := b', filled := s.filled + if CloseFilled(s.b, c0, a) then 1 else 0), ids[1..], env, c);
      if c != c0 && c in ids { CloseSame(s.b, b', c, env.requery(c)); }
    }
  }

  lemma {:induction false} ReportSlice(b: Books, ids: seq<string>, c: string)
    ensures SliceOf(Report(b, ids), c) == SliceOf(b, c)
    decreases |ids|
  {
    if ids != [] {
      var e := Alert(OrderUnresolvedAtCap, ids[0]);
      FillsForSnoc(b.events, e, c);
      ReportSlice(Do(b, Append(e)), ids[1..], c);
    }
  }

  /** `open` never lists an order twice. */
  lemma {:induction false} OpenDistinct(s: Tally, env: Env, waited: real, pollS: real, maxWaitS: real, round: nat)
    requires pollS > 0.0 && NoDuplicates(s.open)
    ensures NoDuplicates(PollLoop(s, env, waited, pollS, maxWaitS, round).s.open)
    decreases SleepsLeft(waited, pollS, maxWaitS)
  {
    hide PollAll, NoDuplicates;
    var pending := PendingIds(s.b.orders);
    if pending != [] {
      PollAllDistinct(s, pending, env, round);
      if waited < maxWaitS {
        SleepShortens(waited, pollS, maxWaitS);
        OpenDistinct(PollAll(s, pending, env, round), env, waited + pollS, pollS, maxWaitS, round + 1);
      }
    }
  }

  lemma {:induction false} PollAllDistinct(s: Tally, ids: seq<string>, env: Env, round: nat)
    requires NoDuplicates(s.open)
    ensures NoDuplicates(PollAll(s, ids, env, round).open)
    decreases |ids|
  {
    hide DoAll, PollPlan, Read;
    if ids != [] {
      DropDistinct(s.open, ids[0]);
      PollAllDistinct(PollOne(s, ids[0], env.poll(round, ids[0])), ids[1..], env, round);
    }
  }

  lemma {:induction false} DropDistinct(s: seq<string>, x: string)
    requires NoDuplicates(s)
    ensures NoDuplicates(Drop(s, x))
  {
    if s != [] {
      assert NoDuplicates(s[1..]);
      DropDistinct(s[1..], x);
      assert s[0] !in s[1..];
    }
  }

  /** Against a steady broker the whole polling stage settles every order on
      its own: the number of rounds and the other orders do not matter. */
  lemma OrdersSettleAlone(b: Books, ans: string -> Answer, after: string -> Answer, pollS: real, maxWaitS: real, c: string)
    requires pollS > 0.0 && Keyed(b)
    ensures SliceOf(Reconciled(b, Steady(ans, after), pollS, maxWaitS).b, c)
            == SliceOf(Settle(b, c, ans, after), c)
  {
    hide DoAll, PollPlan, ClosePlan, SliceOf, PollLoop, Keyed, CloseAll, Report;
    var env := Steady(ans, after);
    var p := PollLoop(Start(b), env, 0.0, pollS, maxWaitS, 0);
    KeyedIsValid(b);
    LoopSlice(Start(b), ans, after, 0.0, pollS, maxWaitS, 0, c);
    LoopSorts(Start(b), env, 0.0, pollS, maxWaitS, 0);
    OpenDistinct(Start(b), env, 0.0, pollS, maxWaitS, 0);
    if IsPending(b, c) {
      var b1 := DoAll(b, PollPlan(b, c, ans(c)));
      SameSliceSamePending(p.s.b, b1, c);
      PollRow(b, c, ans(c));
      if Read(ans(c)).StillOpen? { StillOpenWritesNothing(b, c, ans(c)); }
    } else {
      SameSliceSamePending(p.s.b, b, c);
    }
    assert IsPending(b, c) && Read(ans(c)).StillOpen? ==> !p.quiet && IsPending(p.s.b, c);
    if !p.quiet {
      assert c in p.s.open <==> IsPending(b, c) && Read(ans(c)).StillOpen?;
      CloseAllSlice(p.s, p.s.open, env, c);
      var closed := CloseAll(p.s, p.s.open, env);
      ReportSlice(closed.b, closed.problem, c);
      if c in p.s.open { CloseSame(p.s.b, b, c, after(c)); }
    }
  }

  lemma StillOpenWritesNothing(b: Books, c: string, a: Answer)
    requires c in b.orders.rows && Read(a).StillOpen?
    ensures DoAll(b, PollPlan(b, c, a)) == b
  {
  }

  // ---- recovery, for one order ----

  lemma RecoverConcerns(b: Books, c: string, a: Answer)
    requires c in b.tickets.rows
    ensures AllConcern(RecoverPlan(b, c, a), c, b.tickets.rows[c].decisionId)
  {
  }

  lemma InvIsKeyed(b: Books, book: Book)
    requires Inv(b, book)
    ensures Keyed(b)
  {
    forall c | c in b.orders.rows ensures c in b.tickets.rows { OrderFact(b, book, c); }
  }

  /** A recovery that matches always lands: the insert cannot lose over the
      broker's id, so it runs exactly insert, consume, report. */
  lemma RecoverLands(b: Books, book: Book, c: string, a: Answer)
    requires Inv(b, book) && IsLost(b, c) && VouchedForItself(book, a)
    requires a.Got? && RecoverableQty(a.o, c, b.tickets.rows[c]).Some?
    ensures var t := b.tickets.rows[c];
            RecoverPlan(b, c, a) == [
              InsertOrder(c, NewRow(a.o, t.ticker, t.side, RecoverableQty(a.o, c, t).value)),
              MoveTicket(c, Open, Consumed), Append(Alert(OrderRecovered, c))]
  {
    hide Inv;
    BrokerIdIsFree(b, book, c, a.o.id);
  }

  lemma RecoverSame(b: Books, b': Books, book: Book, c: string, a: Answer)
    requires Inv(b, book) && Inv(b', book) && VouchedForItself(book, a)
    requires SliceOf(b, c) == SliceOf(b', c) && IsLost(b, c)
    ensures IsLost(b', c)
    ensures SliceOf(DoAll(b, RecoverPlan(b, c, a)), c) == SliceOf(DoAll(b', RecoverPlan(b', c, a)), c)
  {
    hide Inv, DoAll;
    SameSliceSamePending(b, b', c);
    var t := b.tickets.rows[c];
    assert b'.tickets.rows[c] == t;
    if a.Got? && RecoverableQty(a.o, c, t).Some? {
      RecoverLands(b, book, c, a);
      RecoverLands(b', book, c, a);
      var row := NewRow(a.o, t.ticker, t.side, RecoverableQty(a.o, c, t).value);
      LandedSlice(b, c, row);
      LandedSlice(b', c, row);
      BrokerIdIsFree(b, book, c, a.o.id);
      BrokerIdIsFree(b', book, c, a.o.id);
    } else {
      InvIsKeyed(b, book);
      RunSame(b, b', RecoverPlan(b, c, a), c);
    }
  }

  /** The slice after an order row was inserted and its ticket consumed. */
  lemma LandedSlice(b: Books, c: string, row: Order)
    requires IsLost(b, c)
    ensures Applies(b, InsertOrder(c, row)) ==>
              SliceOf(DoAll(b, [InsertOrder(c, row), MoveTicket(c, Open, Consumed), Append(Alert(OrderRecovered, c))]), c)
              == SliceOf(b, c).(order := Some(row), ticket := Some(b.tickets.rows[c].(status := Consumed)))
  {
    hide DoAll;
    var b1 := Do(b, InsertOrder(c, row));
    var b2 := Do(b1, MoveTicket(c, Open, Consumed));
    var alert := Append(Alert(OrderRecovered, c));
    TwoFirst(b, InsertOrder(c, row), MoveTicket(c, Open, Consumed), [alert]);
    assert [InsertOrder(c, row), MoveTicket(c, Open, Consumed)] + [alert]
           == [InsertOrder(c, row), MoveTicket(c, Open, Consumed), alert];
    DoAllSnoc(b2, [], alert);
    assert [] + [alert] == [alert];
    NoCommits(b2);
    FillsForSnoc(b2.events, alert.event, c);
  }

  ghost predicate AllVouched(book: Book, ans: string -> Answer) {
    forall t :: VouchedForItself(book, ans(t))
  }

  lemma RecoverStep(b: Books, book: Book, c0: string, a: Answer, c: string)
    requires Inv(b, book) && IsLost(b, c0) && VouchedForItself(book, a)
    ensures var b' := DoAll(b, RecoverPlan(b, c0, a));
            Inv(b', book) && b'.tickets.rows.Keys == b.tickets.rows.Keys
            && (c != c0 ==> SliceOf(b', c) == SliceOf(b, c))
  {
    hide Inv, DoAll, SliceOf, AllConcern, LawfulAll, RecoverPlan;
    RecoverLawful(b, book, c0, a);
    var cs := RecoverPlan(b, c0, a);
    LawfulPrefix(b, book, cs, |cs|);
    assert cs[..|cs|] == cs;
    InvIsKeyed(b, book);
    RecoverConcerns(b, c0, a);
    RunKeepsKeyed(b, cs, c0, b.tickets.rows[c0].decisionId);
    if c != c0 { RunApart(b, cs, c0, c); }
  }

  lemma {:induction false} RecoverAllSlice(r: Recovery, book: Book, ids: seq<string>, ans: string -> Answer, c: string)
    requires Inv(r.b, book) && AllVouched(book, ans)
    requires NoDuplicates(ids) && forall t | t in ids :: IsLost(r.b, t)
    ensures var r' := RecoverAll(r, ids, ans);
            && Inv(r'.b, book)
            && SliceOf(r'.b, c) == if c in ids then SliceOf(RecoverAlone(r.b, c, ans), c) else SliceOf(r.b, c)
    decreases |ids|
  {
    hide Inv, DoAll, RecoverPlan, SliceOf, Recovers, IsLost, VouchedForItself;
    if ids != [] {
      var c0 := ids[0];
      LostHasTicket(r.b, c0);
      var b' := DoAll(r.b, RecoverPlan(r.b, c0, ans(c0)));
      assert VouchedForItself(book, ans(c0)) && VouchedForItself(book, ans(c));
      RecoverStep(r.b, book, c0, ans(c0), c);
      assert c0 !in ids[1..] && forall x :: x in ids <==> x == c0 || x in ids[1..];
      forall t | t in ids[1..] ensures IsLost(b', t) {
        RecoverStep(r.b, book, c0, ans(c0), t);
        SameSliceSamePending(r.b, b', t);
      }
      RecoverAllSlice(Recovery(b', r.recovered + if Recovers(r.b, c0, ans(c0)) then 1 else 0), book, ids[1..], ans, c);
      if c != c0 && c in ids { RecoverSame(r.b, b', book, c, ans(c)); }
    }
  }

  lemma LostHasTicket(b: Books, c: string)
    requires IsLost(b, c)
    ensures c in b.tickets.rows
  {
  }

  lemma {:induction false} LostFromAvoids(b: Books, i: nat, c: string)
    requires forall k | i <= k < |b.tickets.ids| :: b.tickets.ids[k] != c
    ensures c !in LostFrom(b, i)
    decreases |b.tickets.ids| - i
  {
    if i < |b.tickets.ids| { LostFromAvoids(b, i + 1, c); }
  }

  lemma {:induction false} LostFromDistinct(b: Books, i: nat)
    requires b.tickets.Valid()
    ensures NoDuplicates(LostFrom(b, i))
    decreases |b.tickets.ids| - i
  {
    if i < |b.tickets.ids| {
      LostFromDistinct(b, i + 1);
      LostFromAvoids(b, i + 1, b.tickets.ids[i]);
      ConsDistinct(b.tickets.ids[i], LostFrom(b, i + 1));
      hide NoDuplicates;
    }
  }

  lemma OrdersRecoverAlone(b: Books, book: Book, ans: string -> Answer, c: string)
    requires Inv(b, book) && AllVouched(book, ans)
    ensures Inv(Recovered(b, ans).b, book)
    ensures SliceOf(Recovered(b, ans).b, c) == SliceOf(RecoverAlone(b, c, ans), c)
  {
    hide DoAll, RecoverPlan, SliceOf, RecoverAll;
    LostFromDistinct(b, 0);
    forall t ensures t in LostTickets(b) <==> IsLost(b, t) {
      if IsLost(b, t) { assert t in b.tickets.ids; }
    }
    RecoverAllSlice(Recovery(b, 0), book, LostTickets(b), ans, c);
  }

  // ---- the recovered count ----

  ghost function ConsumedSet(b: Books): set<string> {
    set t | t in b.tickets.rows && b.tickets.rows[t].status == Consumed
  }

  lemma RecoveredTickets(b: Books, tid: string, a: Answer)
    requires tid in b.tickets.rows
    ensures DoAll(b, RecoverPlan(b, tid, a)).tickets
            == if Recovers(b, tid, a) then Put(b.tickets, tid, b.tickets.rows[tid].(status := Consumed)) else b.tickets
  {
    hide DoAll, RecoverPlan, RecoverableQty;
    Aftermath.RecoverLeaves(b, tid, a);
    if a.Got? {
      var q := RecoverableQty(a.o, tid, b.tickets.rows[tid]);
      if q.Some? { Aftermath.MatchedIff(a.o, tid, b.tickets.rows[tid], q.value); }
      forall n: int ensures q == Some(n) <==> Aftermath.Matches(a.o, tid, b.tickets.rows[tid], n) {
        Aftermath.MatchedIff(a.o, tid, b.tickets.rows[tid], n);
      }
    }
  }

  lemma {:induction false} RecoverAllCounts(r: Recovery, ids: seq<string>, lookup: string -> Answer)
    ensures var r' := RecoverAll(r, ids, lookup);
            && ConsumedSet(r.b) <= ConsumedSet(r'.b)
            && |ConsumedSet(r'.b)| - |ConsumedSet(r.b)| == r'.recovered - r.recovered
    decreases |ids|
  {
    hide DoAll, RecoverPlan, Recovers;
    if ids != [] {
      var c := ids[0];
      if c !in r.b.tickets.rows {
        RecoverAllCounts(r, ids[1..], lookup);
      } else {
        var next := Recovery(DoAll(r.b, RecoverPlan(r.b, c, lookup(c))),
                             r.recovered + if Recovers(r.b, c, lookup(c)) then 1 else 0);
        RecoveredTickets(r.b, c, lookup(c));
        RecoversOpen(r.b, c, lookup(c));
        assert ConsumedSet(next.b) == ConsumedSet(r.b) + if Recovers(r.b, c, lookup(c)) then {c} else {};
        RecoverAllCounts(next, ids[1..], lookup);
      }
    }
  }

  lemma RecoversOpen(b: Books, tid: string, a: Answer)
    requires tid in b.tickets.rows
    ensures Recovers(b, tid, a) ==> tid !in ConsumedSet(b)
  {
  }

  /** recover_lost_orders returns exactly how many tickets it consumed. */
  lemma RecoveredCountIsExact(b: Books, lookup: string -> Answer)
    ensures var r := Recovered(b, lookup);
            ConsumedSet(b) <= ConsumedSet(r.b) && r.recovered == |ConsumedSet(r.b) - ConsumedSet(b)|
  {
    hide RecoverAll;
    RecoverAllCounts(Recovery(b, 0), LostTickets(b), lookup);
    var r := Recovered(b, lookup);
    assert ConsumedSet(r.b) == ConsumedSet(b) + (ConsumedSet(r.b) - ConsumedSet(b));
  }

  // ---- confluence ----

  lemma SettleSame(b: Books, b': Books, c: string, ans: string -> Answer, after: string -> Answer)
    requires Keyed(b) && SliceOf(b, c) == SliceOf(b', c)
    ensures SliceOf(Settle(b, c, ans, after), c) == SliceOf(Settle(b', c, ans, after), c)
  {
    hide DoAll, PollPlan, ClosePlan, SliceOf, Read;
    SameSliceSamePending(b, b', c);
    if IsPending(b, c) {
      PollSame(b, b', c, ans(c));
      CloseSame(b, b', c, after(c));
    }
  }

  lemma StageSlice(b: Books, book: Book, ans: string -> Answer, after: string -> Answer, pollS: real, maxWaitS: real, c: string)
    requires pollS > 0.0 && Inv(b, book) && AllVouched(book, ans)
    ensures SliceOf(StageResult(b, ans, Steady(ans, after), pollS, maxWaitS).b, c)
            == SliceOf(Settle(Recovered(b, ans).b, c, ans, after), c)
    ensures SliceOf(Recovered(b, ans).b, c) == SliceOf(RecoverAlone(b, c, ans), c)
    ensures Keyed(Recovered(b, ans).b)
  {
    hide Inv, DoAll, SliceOf, Settle, Recovered, Reconciled, RecoverAlone;
    OrdersRecoverAlone(b, book, ans, c);
    InvIsKeyed(Recovered(b, ans).b, book);
    OrdersSettleAlone(Recovered(b, ans).b, ans, after, pollS, maxWaitS, c);
  }

  /** The response the hook was to see: this order, with every field the
      recorder's INSERT needs. */
  predicate Recordable(resp: Echo, c: string) {
    resp.coid == Some(c) && resp.symbol.Given? && resp.side.Given? && RecorderQty(resp.qty).Some?
  }

  /** The broker's stable report of the order agrees with what the response
      already said: same broker id, and still filled if it was filled then. */
  predicate Consistent(resp: Echo, e: Echo) {
    && e.id == resp.id
    && (resp.status.WFilled? && ParseFill(resp).Some? ==> e.status.WFilled? && ParseFill(e).Some?)
  }

  lemma RecordedApart(b: Books, c: string, resp: Echo, other: string)
    requires Keyed(b) && IsLost(b, c) && Recordable(resp, c) && other != c
    ensures SliceOf(DoAll(b, RecordPlan(b, resp)), other) == SliceOf(b, other)
  {
    hide DoAll, SliceOf, Keyed;
    assert AllConcern(RecordPlan(b, resp), c, b.tickets.rows[c].decisionId);
    RunApart(b, RecordPlan(b, resp), c, other);
  }

  // ---- the recorded and the recovered order, side by side ----

  /** Both writers insert the same row. */
  lemma SameRow(b: Books, book: Book, c: string, resp: Echo, e: Echo)
    requires Inv(b, book) && c in book && IsLost(b, c)
    requires Recordable(resp, c) && Describes(resp, book[c]) && Describes(e, book[c])
    requires Consistent(resp, e) && RecoverableQty(e, c, b.tickets.rows[c]).Some?
    ensures var t := b.tickets.rows[c];
            NewRow(resp, resp.symbol.value, resp.side.value, RecorderQty(resp.qty).value)
            == NewRow(e, t.ticker, t.side, RecoverableQty(e, c, t).value)
  {
    hide Inv;
    BookFact(b, book, c);
    ReadersAgree(resp, book[c]);
    ReadersAgree(e, book[c]);
  }

  /** The recorder's first two commits. */
  function Recorded(b: Books, c: string, row: Order): Books {
    Do(Do(b, InsertOrder(c, row)), MoveTicket(c, Open, Consumed))
  }

  lemma RecordedSlice(b: Books, c: string, row: Order)
    requires IsLost(b, c) && Applies(b, InsertOrder(c, row))
    ensures SliceOf(Recorded(b, c, row), c)
            == SliceOf(b, c).(order := Some(row), ticket := Some(b.tickets.rows[c].(status := Consumed)))
  {
  }

  /** What the recorder's plan comes to: the row and the ticket, then the fill
      if the response already carried one. */
  lemma RecordSplits(b: Books, c: string, resp: Echo)
    requires IsLost(b, c) && Recordable(resp, c)
    ensures var row := NewRow(resp, resp.symbol.value, resp.side.value, RecorderQty(resp.qty).value);
            DoAll(b, RecordPlan(b, resp)) ==
              if resp.status.WFilled? && ParseFill(resp).Some?
              then DoAll(Recorded(b, c, row),
                         RecordFillPlan(Recorded(b, c, row), c, OrNone(resp.symbol), OrNone(resp.side), ParseFill(resp).value))
              else Recorded(b, c, row)
  {
    hide Do, DoAll, RecordFillPlan;
    var row := NewRow(resp, resp.symbol.value, resp.side.value, RecorderQty(resp.qty).value);
    var rest := RecordPlan(b, resp)[2..];
    TwoFirst(b, InsertOrder(c, row), MoveTicket(c, Open, Consumed), rest);
    assert RecordPlan(b, resp) == [InsertOrder(c, row), MoveTicket(c, Open, Consumed)] + rest;
    NoCommits(Recorded(b, c, row));
  }

  lemma MoveAndWriteCommute(b: Books, c: string, f: Fill)
    ensures Do(Do(b, MoveOrder(c, Working, OrderStatus.Filled)), WriteFill(c, f))
            == Do(Do(b, WriteFill(c, f)), MoveOrder(c, Working, OrderStatus.Filled))
  {
  }

  lemma TailWithAlert(b: Books, b0: Books, c: string, symbol: Option<string>, side: Option<Side>, f: Fill)
    ensures SliceOf(DoAll(b, FilledTail(b0, c, symbol, side, f, true)), c)
            == SliceOf(DoAll(b, FilledTail(b0, c, symbol, side, f, false)), c)
  {
    hide DoAll, Do, SliceOf;
    var quiet := FilledTail(b0, c, symbol, side, f, false);
    var loud := FilledTail(b0, c, symbol, side, f, true);
    if loud != quiet {
      var alert := Append(Alert(FillOnUnapprovedDecision, c));
      assert loud == quiet + [alert];
      DoAllSnoc(b, quiet, alert);
      AlertSlice(DoAll(b, quiet), FillOnUnapprovedDecision, c);
    }
  }

  lemma AlertSlice(b: Books, code: AlertCode, c: string)
    ensures SliceOf(Do(b, Append(Alert(code, c))), c) == SliceOf(b, c)
  {
    FillsForSnoc(b.events, Alert(code, c), c);
  }

  /** Recording a fill from the response and polling the same fill later agree,
      although they write the status and the numbers in opposite orders. */
  lemma FillEitherWay(b: Books, c: string, e: Echo, f: Fill)
    requires c in b.orders.rows && b.orders.rows[c].status == Working
    requires e.status.WFilled? && ParseFill(e) == Some(f)
    ensures var row := b.orders.rows[c];
            SliceOf(DoAll(b, RecordFillPlan(b, c, Some(row.symbol), Some(row.side), f)), c)
            == SliceOf(DoAll(b, PollPlan(b, c, Got(e))), c)
  {
    hide Do, DoAll, SliceOf, FilledTail;
    var row := b.orders.rows[c];
    var move, write := MoveOrder(c, Working, OrderStatus.Filled), WriteFill(c, f);
    var quiet := FilledTail(b, c, Some(row.symbol), Some(row.side), f, false);
    var loud := FilledTail(b, c, Some(row.symbol), Some(row.side), f, true);
    TwoFirst(b, move, write, quiet);
    TwoFirst(b, write, move, loud);
    assert RecordFillPlan(b, c, Some(row.symbol), Some(row.side), f) == [move, write] + quiet;
    assert PollPlan(b, c, Got(e)) == [write, move] + loud;
    MoveAndWriteCommute(b, c, f);
    TailWithAlert(Do(Do(b, write), move), b, c, Some(row.symbol), Some(row.side), f);
  }

  /** For the order itself: settling what was recorded and settling what was
      recovered give the same slice. */
  lemma SameOrderConverges(b: Books, book: Book, c: string, resp: Echo, e: Echo, ans: string -> Answer, after: string -> Answer)
    requires Inv(b, book) && c in book && IsLost(b, c)
    requires Recordable(resp, c) && Describes(resp, book[c]) && Consistent(resp, e)
    requires ans(c) == Got(e) && Describes(e, book[c]) && RecoverableQty(e, c, b.tickets.rows[c]).Some?
    ensures var a := DoAll(b, RecordPlan(b, resp));
            var r := RecoverAlone(b, c, ans);
            && !IsLost(a, c)
            && SliceOf(Settle(a, c, ans, after), c) == SliceOf(Settle(r, c, ans, after), c)
  {
    hide Inv, DoAll, Do, PollPlan, ClosePlan, RecordFillPlan, RecoverPlan;
    var t := b.tickets.rows[c];
    var row := NewRow(e, t.ticker, t.side, RecoverableQty(e, c, t).value);
    SameRow(b, book, c, resp, e);
    BrokerIdIsFree(b, book, c, e.id);
    RecordSplits(b, c, resp);
    RecordedSlice(b, c, row);
    RecoverLands(b, book, c, ans(c));
    LandedSlice(b, c, row);
    var w, r := Recorded(b, c, row), RecoverAlone(b, c, ans);
    assert SliceOf(w, c) == SliceOf(r, c);
    assert w.orders.rows[c] == row by { assert SliceOf(w, c).order == Some(row); }
    RecordedKeyed(b, book, c, row);
    SettleSame(w, r, c, ans, after);
    if resp.status.WFilled? && ParseFill(resp).Some? {
      var f := ParseFill(e).value;
      assert ParseFill(resp) == Some(f);
      FillEitherWay(w, c, e, f);
      var a := DoAll(b, RecordPlan(b, resp));
      assert SliceOf(a, c) == SliceOf(DoAll(w, PollPlan(w, c, Got(e))), c);
      PollRow(w, c, Got(e));
      assert SliceOf(a, c).order == Some(PolledRow(row, Got(e)));
    }
  }

  lemma RecordedKeyed(b: Books, book: Book, c: string, row: Order)
    requires Inv(b, book) && IsLost(b, c)
    ensures Keyed(Recorded(b, c, row))
  {
    hide Inv, Keyed, Do;
    InvIsKeyed(b, book);
    var did := b.tickets.rows[c].decisionId;
    DoKeepsKeyed(b, InsertOrder(c, row), c, did);
    DoKeepsKeyed(Do(b, InsertOrder(c, row)), MoveTicket(c, Open, Consumed), c, did);
  }

  /** Recovery confluence. The same broker, the same starting books, one order
      whose ticket is open and whose row was never written: whether the
      response reached the recorder or was lost, the reconciliation stage
      leaves every order, ticket, decision and fill event the same. */
  lemma RecoveryIsConfluent(b: Books, book: Book, c: string, resp: Echo, e: Echo,
                            ans: string -> Answer, after: string -> Answer, pollS: real, maxWaitS: real)
    requires pollS > 0.0 && Inv(b, book) && AllVouched(book, ans)
    requires c in book && IsLost(b, c)
    requires Recordable(resp, c) && Describes(resp, book[c]) && Consistent(resp, e)
    requires ans(c) == Got(e) && Describes(e, book[c]) && RecoverableQty(e, c, b.tickets.rows[c]).Some?
    ensures forall other ::
              SliceOf(StageResult(DoAll(b, RecordPlan(b, resp)), ans, Steady(ans, after), pollS, maxWaitS).b, other)
              == SliceOf(StageResult(b, ans, Steady(ans, after), pollS, maxWaitS).b, other)
  {
    hide Inv, DoAll, RecordPlan, SliceOf, StageResult, Settle, Recovered, RecoverAlone, IsLost, LawfulAll;
    var a := DoAll(b, RecordPlan(b, resp));
    RecordLawful(b, book, resp);
    LawfulPrefix(b, book, RecordPlan(b, resp), |RecordPlan(b, resp)|);
    assert RecordPlan(b, resp)[..|RecordPlan(b, resp)|] == RecordPlan(b, resp);
    InvIsKeyed(b, book);
    forall other
      ensures SliceOf(StageResult(a, ans, Steady(ans, after), pollS, maxWaitS).b, other)
              == SliceOf(StageResult(b, ans, Steady(ans, after), pollS, maxWaitS).b, other)
    {
      StageSlice(a, book, ans, after, pollS, maxWaitS, other);
      StageSlice(b, book, ans, after, pollS, maxWaitS, other);
      if other == c {
        SameOrderConverges(b, book, c, resp, e, ans, after);
        RecoverOfRecorded(a, c, ans);
        SettleSame(Recovered(a, ans).b, a, c, ans, after);
        SettleSame(Recovered(b, ans).b, RecoverAlone(b, c, ans), c, ans, after);
      } else {
        RecordedApart(b, c, resp, other);
        RecoverAloneSame(a, b, book, other, ans);
        SettleSame(Recovered(a, ans).b, Recovered(b, ans).b, other, ans, after);
      }
    }
  }

  lemma RecoverOfRecorded(a: Books, c: string, ans: string -> Answer)
    requires !IsLost(a, c)
    ensures RecoverAlone(a, c, ans) == a
  {
  }

  lemma RecoverAloneSame(a: Books, b: Books, book: Book, c: string, ans: string -> Answer)
    requires Inv(a, book) && Inv(b, book) && AllVouched(book, ans) && SliceOf(a, c) == SliceOf(b, c)
    ensures SliceOf(RecoverAlone(a, c, ans), c) == SliceOf(RecoverAlone(b, c, ans), c)
  {
    hide Inv, DoAll, RecoverPlan, SliceOf, VouchedForItself;
    SameSliceSamePending(a, b, c);
    assert VouchedForItself(book, ans(c));
    if IsLost(a, c) { RecoverSame(a, b, book, c, ans(c)); }
  }
}
