/** The reconciliation stage as it runs: loops over rows, each write committed
    as it is made. */
module ReconcileLoops {
  import opened Records
  import opened FundTables
  import opened Broker
  import opened Plans
  import opened Safety
  import opened PlansAreLawful
  import opened Ledger
  import opened Reconcile
  import opened OneOrder
  import opened ReconcileFacts
  import opened Confluence

  // ---- every commit of a loop is lawful ----

  /** Every answer this run can get is one the broker's book bears out. */
  ghost predicate Truthful(env: Env, book: Book) {
    && (forall n, c :: Vouched(book, c, env.poll(n, c)))
    && (forall c :: Vouched(book, c, env.requery(c)))
  }

  /** From a sound state, the writes made so far were lawful one by one. */
  ghost predicate Sound(start: Books, book: Book, cs: seq<Commit>) {
    Inv(start, book) ==> LawfulAll(start, book, cs)
  }

  lemma SoundStart(start: Books, book: Book)
    ensures Sound(start, book, []) && DoAll(start, []) == start
  {
  }

  lemma SoundExtends(start: Books, book: Book, cs: seq<Commit>, more: seq<Commit>)
    requires Sound(start, book, cs)
    requires Inv(DoAll(start, cs), book) ==> LawfulAll(DoAll(start, cs), book, more)
    ensures Sound(start, book, cs + more)
    ensures DoAll(start, cs + more) == DoAll(DoAll(start, cs), more)
  {
    hide Inv, LawfulAll, DoAll;
    DoAllConcat(start, cs, more);
    if Inv(start, book) {
      LawfulPrefix(start, book, cs, |cs|);
      assert cs[..|cs|] == cs;
      LawfulJoin(start, book, cs, more);
    }
  }

  // ---- reconcile_orders ----

  method ReconcileOrders(db: Connection, env: Env, pollS: real, maxWaitS: real, ghost book: Book)
    returns (ok: bool, filled: nat, rounds: nat, cancels: seq<string>)
    requires db.Valid() && db.orders.Valid() && Truthful(env, book)
    modifies db
    ensures db.Valid() && db.base == old(db.base) && old(db.trail) <= db.trail
    ensures ok <==> pollS > 0.0            // otherwise ValueError, before any read or write
    ensures !ok ==> db.View() == old(db.View()) && db.trail == old(db.trail)
    ensures ok ==>
              && var r := Reconciled(old(db.View()), env, pollS, maxWaitS);
              && db.View() == r.b && filled == r.filled
              && rounds == PollLoop(Start(old(db.View())), env, 0.0, pollS, maxWaitS, 0).rounds
              && cancels == Cancels(old(db.View()), env, pollS, maxWaitS)
    ensures Sound(old(db.View()), book, db.trail[|old(db.trail)|..])
  {
    hide DoAll, Do, Sound, ListsArePending, NoDuplicates, Truthful, PollAll, CloseAll, Report;
    ghost var start, n0 := db.View(), |db.trail|;
    SoundStart(start, book);
    assert db.trail[n0..] == [];
    ok, filled, rounds, cancels := pollS > 0.0, 0, 0, [];
    if !ok { return; }
    ghost var whole := PollLoop(Start(start), env, 0.0, pollS, maxWaitS, 0);
    var waited := 0.0;
    var open: seq<string>, problem: seq<string> := [], [];
    EmptyLists(start);
    while true
      invariant db.Valid() && db.base == old(db.base) && old(db.trail) <= db.trail && n0 <= |db.trail|
      invariant cancels == []
      invariant PollLoop(Tally(db.View(), filled, open, problem), env, waited, pollS, maxWaitS, rounds) == whole
      invariant Sound(start, book, db.trail[n0..]) && db.View() == DoAll(start, db.trail[n0..])
      invariant db.orders.Valid() && ListsArePending(Tally(db.View(), filled, open, problem)) && NoDuplicates(open)
      decreases SleepsLeft(waited, pollS, maxWaitS)
    {
      var pending := PendingIds(db.orders);
      if pending == [] { return; }
      RoundKeepsLists(Tally(db.View(), filled, open, problem), env, rounds);
      filled, open, problem := PollRound(db, pending, env, rounds, filled, open, problem, book, start, n0);
      rounds := rounds + 1;
      if waited >= maxWaitS { break; }
      SleepShortens(waited, pollS, maxWaitS);
      waited := waited + pollS;
    }
    assert whole == Polled(Tally(db.View(), filled, open, problem), rounds, false);
    OpenArePending(Tally(db.View(), filled, open, problem));
    filled := CloseOpen(db, open, env, filled, problem, book, start, n0);
    cancels := open;
    ReportProblems(db, problem, book, start, n0);
  }

  lemma RoundKeepsLists(s: Tally, env: Env, round: nat)
    requires s.b.orders.Valid() && ListsArePending(s) && NoDuplicates(s.open)
    ensures var s' := PollAll(s, PendingIds(s.b.orders), env, round);
            s'.b.orders.Valid() && ListsArePending(s') && NoDuplicates(s'.open)
  {
    hide PollAll, ListsArePending, NoDuplicates;
    RoundSorts(s, env, round);
    PollAllDistinct(s, PendingIds(s.b.orders), env, round);
  }

  lemma OpenArePending(s: Tally)
    requires ListsArePending(s)
    ensures forall c | c in s.open :: IsPending(s.b, c)
  {
  }

  lemma EmptyLists(b: Books)
    ensures ListsArePending(Start(b)) && NoDuplicates(Start(b).open)
  {
  }

  lemma PollSound(b: Books, book: Book, c: string, a: Answer)
    requires IsPending(b, c) && Vouched(book, c, a)
    ensures Inv(b, book) ==> LawfulAll(b, book, PollPlan(b, c, a))
  {
    hide Inv, DoAll;
    if Inv(b, book) && a.Got? { ApplyLawful(b, book, c, a.o); }
  }

  /** One iteration's body, with the three things it may conclude. */
  method PollOrder(db: Connection, c: string, a: Answer, filled0: nat, open0: seq<string>, problem0: seq<string>)
    returns (filled: nat, open: seq<string>, problem: seq<string>)
    requires db.Valid() && c in db.orders.rows
    modifies db
    ensures db.Valid() && db.Ran(PollPlan(old(db.View()), c, a))
    ensures Tally(db.View(), filled, open, problem) == PollOne(Tally(old(db.View()), filled0, open0, problem0), c, a)
  {
    hide DoAll, Do, ApplyPlan;
    filled, open, problem := filled0, open0, problem0;
    var out := Kept;
    if a.Got? { out := Apply(db, c, a.o); } else { NoCommits(db.View()); }
    if a.Raised? || out.Raise? {
      open, problem := Drop(open, c), Insert(problem, c);
    } else {
      if out.Moved? { filled := filled + 1; }
      problem := Drop(problem, c);
      open := if a.Got? && (a.o.status.WFilled? || a.o.status.WPartial?) then Drop(open, c) else Insert(open, c);
    }
  }

  lemma PollOthersPending(b: Books, c: string, a: Answer, other: string)
    requires IsPending(b, c) && IsPending(b, other) && other != c
    ensures IsPending(DoAll(b, PollPlan(b, c, a)), other)
  {
    hide DoAll, PollPlan, PolledRow;
    PollRow(b, c, a);
  }

  method PollRound(db: Connection, pending: seq<string>, env: Env, round: nat,
                   filled0: nat, open0: seq<string>, problem0: seq<string>,
                   ghost book: Book, ghost start: Books, ghost n0: nat)
    returns (filled: nat, open: seq<string>, problem: seq<string>)
    requires db.Valid() && db.orders.Valid() && pending == PendingIds(db.orders)
    requires Truthful(env, book) && n0 <= |db.trail|
    requires Sound(start, book, db.trail[n0..]) && db.View() == DoAll(start, db.trail[n0..])
    modifies db
    ensures db.Valid() && db.base == old(db.base) && old(db.trail) <= db.trail
    ensures Tally(db.View(), filled, open, problem)
            == PollAll(Tally(old(db.View()), filled0, open0, problem0), pending, env, round)
    ensures Sound(start, book, db.trail[n0..]) && db.View() == DoAll(start, db.trail[n0..])
  {
    hide DoAll, Do, Sound, PollPlan, PollOne, Truthful, Vouched, Insert, StillToAsk, PendingIds;
    filled, open, problem := filled0, open0, problem0;
    ghost var whole := PollAll(Tally(db.View(), filled, open, problem), pending, env, round);
    AsksPending(db.View());
    assert pending[0..] == pending;
    for i := 0 to |pending|
      invariant db.Valid() && db.base == old(db.base) && old(db.trail) <= db.trail
      invariant PollAll(Tally(db.View(), filled, open, problem), pending[i..], env, round) == whole
      invariant StillToAsk(db.View(), pending[i..])
      invariant Sound(start, book, db.trail[n0..]) && db.View() == DoAll(start, db.trail[n0..])
    {
      var c := pending[i];
      assert pending[i..][0] == c && pending[i..][1..] == pending[i + 1..];
      var a := env.poll(round, c);
      ghost var b, cs0 := db.View(), db.trail[n0..];
      OneAsked(b, a, pending[i..]);
      PollIsTrue(env, book, round, c);
      PollSound(b, book, c, a);
      SoundExtends(start, book, cs0, PollPlan(b, c, a));
      filled, open, problem := PollOrder(db, c, a, filled, open, problem);
      assert db.trail[n0..] == cs0 + PollPlan(b, c, a);
    }
    assert pending[|pending|..] == [];
  }

  /** The ids a round has still to ask about: distinct, and each can move. */
  ghost predicate StillToAsk(b: Books, ids: seq<string>) {
    NoDuplicates(ids) && forall j | 0 <= j < |ids| :: IsPending(b, ids[j])
  }

  lemma AsksPending(b: Books)
    requires b.orders.Valid()
    ensures StillToAsk(b, PendingIds(b.orders))
  {
    PendingIdsExact(b);
  }

  lemma OneAsked(b: Books, a: Answer, ids: seq<string>)
    requires ids != [] && StillToAsk(b, ids)
    ensures IsPending(b, ids[0]) && StillToAsk(DoAll(b, PollPlan(b, ids[0], a)), ids[1..])
  {
    hide DoAll, PollPlan;
    assert IsPending(b, ids[0]);
    forall j | 0 <= j < |ids[1..]| ensures IsPending(DoAll(b, PollPlan(b, ids[0], a)), ids[1..][j]) {
      assert ids[1..][j] == ids[j + 1];
      PollOthersPending(b, ids[0], a, ids[j + 1]);
    }
  }

  lemma PollIsTrue(env: Env, book: Book, n: nat, c: string)
    requires Truthful(env, book)
    ensures Vouched(book, c, env.poll(n, c)) && Vouched(book, c, env.requery(c))
  {
  }

  lemma CloseSound(b: Books, book: Book, c: string, a: Answer)
    requires IsPending(b, c) && Vouched(book, c, a)
    ensures Inv(b, book) ==> LawfulAll(b, book, ClosePlan(b, c, a))
  {
    hide Inv, DoAll;
    if Inv(b, book) { CloseLawful(b, book, c, a); }
  }

  method CloseOpen(db: Connection, open: seq<string>, env: Env, filled0: nat, ghost problem: seq<string>,
                   ghost book: Book, ghost start: Books, ghost n0: nat)
    returns (filled: nat)
    requires db.Valid() && Truthful(env, book) && n0 <= |db.trail|
    requires NoDuplicates(open) && forall c | c in open :: IsPending(db.View(), c)
    requires Sound(start, book, db.trail[n0..]) && db.View() == DoAll(start, db.trail[n0..])
    modifies db
    ensures db.Valid() && db.base == old(db.base) && old(db.trail) <= db.trail
    ensures Tally(db.View(), filled, open, problem)
            == CloseAll(Tally(old(db.View()), filled0, open, problem), open, env)
    ensures Sound(start, book, db.trail[n0..]) && db.View() == DoAll(start, db.trail[n0..])
  {
    hide DoAll, Do, ClosePlan, Sound, ClosedRow, Truthful, Vouched, CloseFilled;
    filled := filled0;
    ghost var whole := CloseAll(Tally(db.View(), filled, open, problem), open, env);
    for i := 0 to |open|
      invariant db.Valid() && db.base == old(db.base) && old(db.trail) <= db.trail
      invariant CloseAll(Tally(db.View(), filled, open, problem), open[i..], env) == whole
      invariant forall j | i <= j < |open| :: IsPending(db.View(), open[j])
      invariant Sound(start, book, db.trail[n0..]) && db.View() == DoAll(start, db.trail[n0..])
    {
      assert open[i..][1..] == open[i + 1..];
      var a := env.requery(open[i]);
      PollIsTrue(env, book, 0, open[i]);
      ghost var b, cs0 := db.View(), db.trail[n0..];
      CloseSound(b, book, open[i], a);
      CloseRow(b, open[i], a);
      SoundExtends(start, book, cs0, ClosePlan(b, open[i], a));
      var won := TimeoutClose(db, open[i], a);
      if won { filled := filled + 1; }
      assert db.trail[n0..] == cs0 + ClosePlan(b, open[i], a);
    }
    assert open[|open|..] == [];
  }

  method ReportProblems(db: Connection, problem: seq<string>, ghost book: Book, ghost start: Books, ghost n0: nat)
    requires db.Valid() && n0 <= |db.trail|
    requires Sound(start, book, db.trail[n0..]) && db.View() == DoAll(start, db.trail[n0..])
    modifies db
    ensures db.Valid() && db.base == old(db.base) && old(db.trail) <= db.trail
    ensures db.View() == Report(old(db.View()), problem)
    ensures Sound(start, book, db.trail[n0..]) && db.View() == DoAll(start, db.trail[n0..])
  {
    hide DoAll, Do, Sound;
    ghost var whole := Report(db.View(), problem);
    for i := 0 to |problem|
      invariant db.Valid() && db.base == old(db.base) && old(db.trail) <= db.trail
      invariant Report(db.View(), problem[i..]) == whole
      invariant Sound(start, book, db.trail[n0..]) && db.View() == DoAll(start, db.trail[n0..])
    {
      assert problem[i..][1..] == problem[i + 1..];
      ghost var b, cs0 := db.View(), db.trail[n0..];
      var e := Alert(OrderUnresolvedAtCap, problem[i]);
      AlertSound(b, book, e);
      SoundExtends(start, book, cs0, [Append(e)]);
      db.AppendEvent(e);
      assert db.trail[n0..] == cs0 + [Append(e)];
      DoAllSnoc(b, [], Append(e));
      NoCommits(b);
      assert [] + [Append(e)] == [Append(e)];
    }
    assert problem[|problem|..] == [];
  }

  lemma AlertSound(b: Books, book: Book, e: Event)
    requires !e.FillEvent?
    ensures Inv(b, book) ==> LawfulAll(b, book, [Append(e)])
  {
    hide Inv;
    if Inv(b, book) { AlertsLawful(b, book, [Append(e)]); }
  }

  // ---- recover_lost_orders ----

  method RecoverLostOrders(db: Connection, lookup: string -> Answer, ghost book: Book) returns (recovered: nat)
    requires db.Valid() && AllVouched(book, lookup)
    modifies db
    ensures db.Valid() && db.base == old(db.base) && old(db.trail) <= db.trail
    ensures Recovery(db.View(), recovered) == Recovered(old(db.View()), lookup)
    ensures Sound(old(db.View()), book, db.trail[|old(db.trail)|..])
  {
    hide DoAll, Do, RecoverPlan, Sound, VouchedForItself;
    recovered := 0;
    ghost var start, n0 := db.View(), |db.trail|;
    SoundStart(start, book);
    assert db.trail[n0..] == [];
    var ids := LostTickets(db.View());
    ghost var whole := RecoverAll(Recovery(db.View(), 0), ids, lookup);
    for i := 0 to |ids|
      invariant db.Valid() && db.base == old(db.base) && old(db.trail) <= db.trail && n0 <= |db.trail|
      invariant RecoverAll(Recovery(db.View(), recovered), ids[i..], lookup) == whole
      invariant Sound(start, book, db.trail[n0..]) && db.View() == DoAll(start, db.trail[n0..])
    {
      assert ids[i..][1..] == ids[i + 1..];
      if ids[i] in db.tickets.rows {
        var a := lookup(ids[i]);
        ghost var b, cs0 := db.View(), db.trail[n0..];
        assert VouchedForItself(book, a);
        RecoverSound(b, book, ids[i], a);
        SoundExtends(start, book, cs0, RecoverPlan(b, ids[i], a));
        var won := RecoverOne(db, ids[i], a);
        if won { recovered := recovered + 1; }
        assert db.trail[n0..] == cs0 + RecoverPlan(b, ids[i], a);
      }
    }
    assert ids[|ids|..] == [];
  }

  lemma RecoverSound(b: Books, book: Book, tid: string, a: Answer)
    requires tid in b.tickets.rows && VouchedForItself(book, a)
    ensures Inv(b, book) ==> LawfulAll(b, book, RecoverPlan(b, tid, a))
  {
    hide Inv, DoAll;
    if Inv(b, book) { RecoverLawful(b, book, tid, a); }
  }

  /** reconcile_stage: the pass that repairs lost rows, then the poll. */
  method ReconcileStage(db: Connection, lookup: string -> Answer, env: Env, pollS: real, maxWaitS: real, ghost book: Book)
    returns (ok: bool, filled: nat)
    requires db.Valid() && Inv(db.View(), book) && AllVouched(book, lookup) && Truthful(env, book)
    modifies db
    ensures db.Valid() && db.base == old(db.base) && old(db.trail) <= db.trail
    ensures ok <==> pollS > 0.0
    ensures ok ==>
              && var r := StageResult(old(db.View()), lookup, env, pollS, maxWaitS);
              && db.View() == r.b && filled == r.filled
    // at every commit point, wherever the process dies, the invariant holds
    ensures LawfulAll(old(db.View()), book, db.trail[|old(db.trail)|..])
  {
    hide DoAll, Do, LawfulAll, Truthful, AllVouched, Inv, Recovered, Reconciled, PollLoop, Cancels;
    ghost var start, n0 := db.View(), |db.trail|;
    var _ := RecoverLostOrders(db, lookup, book);
    ghost var mid, first := db.View(), db.trail[n0..];
    db.TrailTells(first);
    LawfulPrefix(start, book, first, |first|);
    assert first[..|first|] == first;
    TablesValid(mid, book);
    var rounds, cancels;
    ok, filled, rounds, cancels := ReconcileOrders(db, env, pollS, maxWaitS, book);
    ghost var second := db.trail[n0 + |first|..];
    LawfulJoin(start, book, first, second);
    assert db.trail[n0..] == first + second;
  }

  lemma TablesValid(b: Books, book: Book)
    requires Inv(b, book)
    ensures b.orders.Valid()
  {
  }
}
