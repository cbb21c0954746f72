/** The fill-poll loop and the recovery pass over all orders. */
module Reconcile {
  import opened Records
  import opened FundTables
  import opened Broker
  import opened Plans
  import opened Ledger

  // ---- sets kept in insertion order, as the source's dicts are ----

  function Insert(s: seq<string>, x: string): seq<string> { if x in s then s else s + [x] }

  function Drop(s: seq<string>, x: string): (r: seq<string>)
    ensures forall y :: y in r <==> y in s && y != x
  {
    if s == [] then [] else if s[0] == x then Drop(s[1..], x) else [s[0]] + Drop(s[1..], x)
  }

  // ---- the broker as this run meets it ----

  /** The answer to every lookup the run can make: by round and order while
      polling, by order once its cancel was requested. */
  datatype Env = Env(poll: (nat, string) -> Answer, requery: string -> Answer)

  /** SELECT client_order_id FROM orders WHERE status is pending, in rowid order. */
  function PendingIds(orders: Table<string, Order>): seq<string> { PendingFrom(orders, 0) }

  function PendingFrom(orders: Table<string, Order>, i: nat): (r: seq<string>)
    ensures forall c | c in r :: c in orders.rows && Pending(orders.rows[c].status)
    ensures forall k | i <= k < |orders.ids| && orders.ids[k] in orders.rows
              && Pending(orders.rows[orders.ids[k]].status) :: orders.ids[k] in r
    decreases |orders.ids| - i
  {
    if i >= |orders.ids| then []
    else if orders.ids[i] in orders.rows && Pending(orders.rows[orders.ids[i]].status)
      then [orders.ids[i]] + PendingFrom(orders, i + 1)
    else PendingFrom(orders, i + 1)
  }

  // ---- the loop's state and its iterations ----

  /** `open`: last confirmed still working; `problem`: last unreachable or
      unparseable. */
  datatype Tally = Tally(b: Books, filled: nat, open: seq<string>, problem: seq<string>)

  /** What a poll's answer makes of the order. */
  datatype Reading = Unusable | Traded | StillOpen

  function Read(a: Answer): Reading {
    if a.Raised? || (a.Got? && (a.o.status.WFilled? || a.o.status.WPartial?) && ParseFill(a.o).None?) then Unusable
    else if a.Got? && (a.o.status.WFilled? || a.o.status.WPartial?) then Traded
    else StillOpen
  }

  predicate PollFills(b: Books, c: string, a: Answer) {
    a.Got? && c in b.orders.rows && ApplyOutcome(b, c, a.o).Moved?
  }

  function PollOne(s: Tally, c: string, a: Answer): Tally {
    if c !in s.b.orders.rows then s
    else
      var b := DoAll(s.b, PollPlan(s.b, c, a));
      match Read(a)
      case Unusable => Tally(b, s.filled, Drop(s.open, c), Insert(s.problem, c))
      case Traded => Tally(b, s.filled + (if PollFills(s.b, c, a) then 1 else 0), Drop(s.open, c), Drop(s.problem, c))
      case StillOpen => Tally(b, s.filled, Insert(s.open, c), Drop(s.problem, c))
  }

  function PollAll(s: Tally, ids: seq<string>, env: Env, round: nat): Tally
    decreases |ids|
  {
    if ids == [] then s else PollAll(PollOne(s, ids[0], env.poll(round, ids[0])), ids[1..], env, round)
  }

  /** How many more sleeps fit under the cap: the ceiling of what is left over
      the cadence. */
  function SleepsLeft(waited: real, pollS: real, maxWaitS: real): nat
    requires pollS > 0.0
  {
    if waited >= maxWaitS then 0 else CeilingOfPositive((maxWaitS - waited) / pollS)
  }

  function CeilingOfPositive(x: real): (n: nat)
    ensures x > 0.0 ==> n as real - 1.0 < x <= n as real
  {
    if x <= 0.0 then 0 else -((-x).Floor)
  }

  lemma OneLess(x: real, p: real)
    requires p > 0.0
    ensures (x - p) / p == x / p - 1.0
  {
    var y, q := x / p, (x - p) / p;
    assert y * p == x && q * p == x - p;
    var z := y - 1.0 - q;
    assert z * p == y * p - p - q * p == 0.0;
    assert (z > 0.0 ==> z * p > 0.0) && (z < 0.0 ==> z * p < 0.0);
  }

  lemma SleepShortens(waited: real, pollS: real, maxWaitS: real)
    requires pollS > 0.0 && waited < maxWaitS
    ensures SleepsLeft(waited + pollS, pollS, maxWaitS) == SleepsLeft(waited, pollS, maxWaitS) - 1
  {
    var left := maxWaitS - waited;
    OneLess(left, pollS);
    assert maxWaitS - (waited + pollS) == left - pollS;
    var x := left / pollS;
    assert x * pollS == left;
    if waited + pollS >= maxWaitS {
      assert x > 1.0 ==> x * pollS > pollS;
    } else {
      assert x <= 1.0 ==> x * pollS <= pollS;
    }
    assert x > 0.0;
  }

  /** `quiet`: the loop stopped because nothing was pending any more. */
  datatype Polled = Polled(s: Tally, rounds: nat, quiet: bool)

  function PollLoop(s: Tally, env: Env, waited: real, pollS: real, maxWaitS: real, round: nat): Polled
    requires pollS > 0.0
    decreases SleepsLeft(waited, pollS, maxWaitS)
  {
    var pending := PendingIds(s.b.orders);
    if pending == [] then Polled(s, round, true)
    else
      var s' := PollAll(s, pending, env, round);
      if waited >= maxWaitS then Polled(s', round + 1, false)
      else
        SleepShortens(waited, pollS, maxWaitS);
        PollLoop(s', env, waited + pollS, pollS, maxWaitS, round + 1)
  }

  function CloseAll(s: Tally, ids: seq<string>, env: Env): Tally
    decreases |ids|
  {
    if ids == [] then s
    else
      var a := env.requery(ids[0]);
      CloseAll(s.(b := DoAll(s.b, ClosePlan(s.b, ids[0], a)),
                  filled := s.filled + if CloseFilled(s.b, ids[0], a) then 1 else 0),
               ids[1..], env)
  }

  function Report(b: Books, ids: seq<string>): Books
    decreases |ids|
  {
    if ids == [] then b else Report(Do(b, Append(Alert(OrderUnresolvedAtCap, ids[0]))), ids[1..])
  }

  function Start(b: Books): Tally { Tally(b, 0, [], []) }

  /** reconcile_orders, given the broker's answers. */
  function Reconciled(b: Books, env: Env, pollS: real, maxWaitS: real): Tally
    requires pollS > 0.0
  {
    var p := PollLoop(Start(b), env, 0.0, pollS, maxWaitS, 0);
    if p.quiet then p.s
    else
      var s := CloseAll(p.s, p.s.open, env);
      s.(b := Report(s.b, s.problem))
  }

  /** The orders a cancel is requested for. */
  function Cancels(b: Books, env: Env, pollS: real, maxWaitS: real): seq<string>
    requires pollS > 0.0
  {
    var p := PollLoop(Start(b), env, 0.0, pollS, maxWaitS, 0);
    if p.quiet then [] else p.s.open
  }

  lemma NoCommits(b: Books)
    ensures DoAll(b, []) == b
  {
  }

  // ---- the recovery pass ----

  /** open_tickets_without_orders, in creation order. */
  function LostTickets(b: Books): seq<string> { LostFrom(b, 0) }

  function LostFrom(b: Books, i: nat): (r: seq<string>)
    ensures forall t | t in r ::
              t in b.tickets.rows && b.tickets.rows[t].status == Open && t !in b.orders.rows
    ensures forall k | i <= k < |b.tickets.ids| && b.tickets.ids[k] in b.tickets.rows
              && b.tickets.rows[b.tickets.ids[k]].status == Open && b.tickets.ids[k] !in b.orders.rows ::
              b.tickets.ids[k] in r
    decreases |b.tickets.ids| - i
  {
    if i >= |b.tickets.ids| then []
    else
      var t := b.tickets.ids[i];
      if t in b.tickets.rows && b.tickets.rows[t].status == Open && t !in b.orders.rows
      then [t] + LostFrom(b, i + 1) else LostFrom(b, i + 1)
  }

  datatype Recovery = Recovery(b: Books, recovered: nat)

  function RecoverAll(r: Recovery, ids: seq<string>, lookup: string -> Answer): Recovery
    decreases |ids|
  {
    if ids == [] then r
    else if ids[0] !in r.b.tickets.rows then RecoverAll(r, ids[1..], lookup)
    else
      var a := lookup(ids[0]);
      RecoverAll(Recovery(DoAll(r.b, RecoverPlan(r.b, ids[0], a)),
                          r.recovered + if Recovers(r.b, ids[0], a) then 1 else 0),
                 ids[1..], lookup)
  }

  function Recovered(b: Books, lookup: string -> Answer): Recovery {
    RecoverAll(Recovery(b, 0), LostTickets(b), lookup)
  }

  /** reconcile_stage: recover, then poll. */
  function StageResult(b: Books, lookup: string -> Answer, env: Env, pollS: real, maxWaitS: real): Tally
    requires pollS > 0.0
  {
    Reconciled(Recovered(b, lookup).b, env, pollS, maxWaitS)
  }
}
