/** The events outbox: an append-only table whose rows are projected to a chat
    channel. The drain appends to the very queue it drains. */
module Outbox {
  import opened Records


  const PROJECTION_ERROR := "projection_error"

  datatype Payload = Fields(text: string) | Undelivered(eventId: nat, eventKind: string)

  datatype Message = Message(kind: string, payload: Payload)

  /** The rows by event id, the ids marked posted, every post the channel
      accepted in the order it accepted them, and the ids given up on. The last
      two are history: the table itself stores only the mark. */
  datatype Queue = Queue(rows: seq<Message>, posted: set<nat>, sent: seq<nat>, dead: set<nat>)

  const Fresh := Queue([], {}, [], {})

  /** One call of post(): accepted; refused for good; or any other error,
      possibly after the channel took the message. */
  datatype Reply = Accepted | Refused | Failed(taken: bool)

  /** What the drain meets: whether a message renders at all (for ever the same
      answer), and the reply to its n-th post. */
  datatype Channel = Channel(renders: Message -> bool, reply: nat -> Reply)

  /** The drain's visible effects; all but Send are committed writes. */
  datatype Effect = Send(sentId: nat) | Mark(markId: nat) | Bury(buryId: nat) | Report(reportId: nat)

  function Ordinary(m: Message): bool { m.kind != PROJECTION_ERROR }

  function ErrorFor(q: Queue, id: nat): Message
    requires id < |q.rows|
  {
    Message(PROJECTION_ERROR, Undelivered(id, q.rows[id].kind))
  }

  function Do(q: Queue, e: Effect): Queue {
    match e
    case Send(id) => q.(sent := q.sent + [id])
    case Mark(id) => q.(posted := q.posted + {id})
    case Bury(id) => q.(posted := q.posted + {id}, dead := q.dead + {id})
    case Report(id) => if id < |q.rows| then q.(rows := q.rows + [ErrorFor(q, id)]) else q
  }

  function DoAll(q: Queue, es: seq<Effect>): Queue
    decreases |es|
  {
    if es == [] then q else DoAll(Do(q, es[0]), es[1..])
  }

  lemma {:induction false} DoAllConcat(q: Queue, xs: seq<Effect>, ys: seq<Effect>)
    ensures DoAll(q, xs + ys) == DoAll(DoAll(q, xs), ys)
    decreases |xs|
  {
    if xs == [] {
      assert xs + ys == ys;
    } else {
      assert (xs + ys)[1..] == xs[1..] + ys;
      DoAllConcat(Do(q, xs[0]), xs[1..], ys);
    }
  }

  // ---- one drain, as a single scan up the ids ----

  /** _dead_letter: the mark is committed before the report. */
  function Burial(q: Queue, id: nat): seq<Effect>
    requires id < |q.rows|
  {
    if Ordinary(q.rows[id]) then [Bury(id), Report(id)] else [Bury(id)]
  }

  /** What becomes of the unposted row `id`. */
  datatype Fate = Posted | Buried | Stuck(taken: bool)

  function FateOf(q: Queue, id: nat, ch: Channel, calls: nat): Fate
    requires id < |q.rows|
  {
    if !ch.renders(q.rows[id]) then Buried
    else match ch.reply(calls)
      case Accepted => Posted
      case Refused => Buried
      case Failed(taken) => Stuck(taken)
  }

  function CallsAfter(q: Queue, id: nat, ch: Channel, calls: nat): nat
    requires id < |q.rows|
  {
    if ch.renders(q.rows[id]) then calls + 1 else calls
  }

  /** The effects on one row. */
  function Handle(q: Queue, id: nat, ch: Channel, calls: nat): seq<Effect>
    requires id < |q.rows|
  {
    match FateOf(q, id, ch, calls)
    case Posted => [Send(id), Mark(id)]
    case Buried => Burial(q, id)
    case Stuck(taken) => if taken then [Send(id)] else []
  }

  ghost function OrdinaryFrom(q: Queue, i: nat): set<nat> {
    set k | i <= k < |q.rows| && k !in q.posted && Ordinary(q.rows[k])
  }

  lemma HandleShrinks(q: Queue, i: nat, ch: Channel, calls: nat)
    requires i < |q.rows| && i !in q.posted
    ensures var q' := DoAll(q, Handle(q, i, ch, calls));
            && q.rows <= q'.rows
            && (FateOf(q, i, ch, calls).Buried? && Ordinary(q.rows[i])
                ==> OrdinaryFrom(q', i + 1) < OrdinaryFrom(q, i) && q'.rows == q.rows + [ErrorFor(q, i)])
            && (!(FateOf(q, i, ch, calls).Buried? && Ordinary(q.rows[i]))
                ==> OrdinaryFrom(q', i + 1) <= OrdinaryFrom(q, i) && q'.rows == q.rows)
  {
    hide DoAll, Handle;
    Handled(q, i, ch, calls);
    var q' := DoAll(q, Handle(q, i, ch, calls));
    assert forall k | i + 1 <= k < |q.rows| :: q'.rows[k] == q.rows[k];
    if FateOf(q, i, ch, calls).Buried? && Ordinary(q.rows[i]) {
      assert !Ordinary(q'.rows[|q.rows|]);
      assert i in OrdinaryFrom(q, i) && i !in OrdinaryFrom(q', i + 1);
    }
  }

  lemma OneEffect(q: Queue, e: Effect)
    ensures DoAll(q, [e]) == Do(q, e)
  {
    assert [e][1..] == [];
  }

  lemma TwoEffects(q: Queue, e: Effect, f: Effect)
    ensures DoAll(q, [e, f]) == Do(Do(q, e), f)
  {
    assert [e, f][1..] == [f];
    OneEffect(Do(q, e), f);
  }

  /** The queue after one row, spelled out. */
  lemma Handled(q: Queue, id: nat, ch: Channel, calls: nat)
    requires id < |q.rows|
    ensures DoAll(q, Handle(q, id, ch, calls)) ==
            match FateOf(q, id, ch, calls)
            case Posted => q.(sent := q.sent + [id], posted := q.posted + {id})
            case Buried => q.(posted := q.posted + {id}, dead := q.dead + {id},
                              rows := q.rows + if Ordinary(q.rows[id]) then [ErrorFor(q, id)] else [])
            case Stuck(taken) => q.(sent := q.sent + if taken then [id] else [])
  {
    assert q.rows + [] == q.rows && q.sent + [] == q.sent;
    match FateOf(q, id, ch, calls)
    case Posted => TwoEffects(q, Send(id), Mark(id));
    case Buried => TwoEffects(q, Bury(id), Report(id)); OneEffect(q, Bury(id));
    case Stuck(taken) => OneEffect(q, Send(id));
  }

  /** Everything a drain does if nothing kills it, scanning from id `i`. The
      scan follows rows appended under its feet. */
  function Scan(q: Queue, i: nat, ch: Channel, calls: nat): seq<Effect>
    decreases OrdinaryFrom(q, i), |q.rows| - i
  {
    if i >= |q.rows| then []
    else if i in q.posted then
      assert OrdinaryFrom(q, i + 1) == OrdinaryFrom(q, i);
      Scan(q, i + 1, ch, calls)
    else if FateOf(q, i, ch, calls).Stuck? then Handle(q, i, ch, calls)
    else
      HandleShrinks(q, i, ch, calls);
      var q' := DoAll(q, Handle(q, i, ch, calls));
      assert OrdinaryFrom(q', i + 1) == OrdinaryFrom(q, i) || OrdinaryFrom(q', i + 1) < OrdinaryFrom(q, i);
      Handle(q, i, ch, calls) + Scan(q', i + 1, ch, CallsAfter(q, i, ch, calls))
  }

  // ---- the order and conservation invariant ----

  ghost predicate Ascending(s: seq<nat>) {
    forall a, b | 0 <= a < b < |s| :: s[a] <= s[b]
  }

  /** Accepted posts never go back in event id; whatever is still queued comes
      at or after everything already accepted; and every row that left the
      queue left by an accepted post or a dead letter. */
  ghost predicate Orderly(q: Queue) {
    && (forall id | id in q.posted :: id < |q.rows|)
    && (forall id | id in q.sent :: id < |q.rows|)
    && Ascending(q.sent)
    && (forall s, u: nat | s in q.sent && u < |q.rows| && u !in q.posted :: s <= u)
    && (forall id | id in q.posted :: id in q.sent || id in q.dead)
    && q.dead <= q.posted
  }

  /** The next effect respects the order: it is about the oldest unposted row,
      and marks it only after an accepted post. */
  ghost predicate Lawful(q: Queue, e: Effect) {
    match e
    case Send(id) => id < |q.rows| && id !in q.posted && forall k | 0 <= k < id :: k in q.posted
    case Mark(id) => id in q.sent
    case Bury(id) => id < |q.rows|
    case Report(id) => true
  }

  lemma LawfulKeepsOrder(q: Queue, e: Effect)
    requires Orderly(q) && Lawful(q, e)
    ensures Orderly(Do(q, e))
  {
    var q' := Do(q, e);
    if e.Send? {
      forall a, b | 0 <= a < b < |q'.sent| ensures q'.sent[a] <= q'.sent[b] {
        assert q.sent[a] in q.sent;
      }
      forall s, u: nat | s in q'.sent && u < |q.rows| && u !in q.posted ensures s <= u {
        assert u < e.sentId ==> u in q.posted;
      }
    }
  }

  ghost predicate LawfulAll(q: Queue, es: seq<Effect>)
    decreases |es|
  {
    es == [] || (Lawful(q, es[0]) && LawfulAll(Do(q, es[0]), es[1..]))
  }

  lemma {:induction false} LawfulJoin(q: Queue, xs: seq<Effect>, ys: seq<Effect>)
    requires LawfulAll(q, xs) && LawfulAll(DoAll(q, xs), ys)
    ensures LawfulAll(q, xs + ys)
    decreases |xs|
  {
    if xs == [] {
      assert xs + ys == ys;
    } else {
      assert (xs + ys)[1..] == xs[1..] + ys;
      LawfulJoin(Do(q, xs[0]), xs[1..], ys);
    }
  }

  lemma {:induction false} LawfulPrefixOrderly(q: Queue, es: seq<Effect>, k: nat)
    requires Orderly(q) && LawfulAll(q, es) && k <= |es|
    ensures Orderly(DoAll(q, es[..k]))
    decreases |es|
  {
    if k > 0 {
      LawfulKeepsOrder(q, es[0]);
      LawfulPrefixOrderly(Do(q, es[0]), es[1..], k - 1);
      assert es[..k][1..] == es[1..][..k - 1];
    }
  }

  lemma HandleLawful(q: Queue, i: nat, ch: Channel, calls: nat)
    requires i < |q.rows| && i !in q.posted && forall k | 0 <= k < i :: k in q.posted
    ensures LawfulAll(q, Handle(q, i, ch, calls))
  {
    var es := Handle(q, i, ch, calls);
    if |es| >= 1 { assert es[1..] == if |es| == 2 then [es[1]] else []; }
    if |es| == 2 { assert [es[1]][1..] == []; }
    if es == [Send(i), Mark(i)] { assert Do(q, es[0]).sent[|q.sent|] == i; }
  }

  lemma {:induction false} ScanLawful(q: Queue, i: nat, ch: Channel, calls: nat)
    requires forall k | 0 <= k < i && k < |q.rows| :: k in q.posted
    ensures LawfulAll(q, Scan(q, i, ch, calls))
    decreases OrdinaryFrom(q, i), |q.rows| - i
  {
    if i < |q.rows| {
      if i in q.posted {
        assert OrdinaryFrom(q, i + 1) == OrdinaryFrom(q, i);
        ScanLawful(q, i + 1, ch, calls);
      } else {
        HandleLawful(q, i, ch, calls);
        if !FateOf(q, i, ch, calls).Stuck? {
          HandleShrinks(q, i, ch, calls);
          Handled(q, i, ch, calls);
          var q' := DoAll(q, Handle(q, i, ch, calls));
          assert OrdinaryFrom(q', i + 1) == OrdinaryFrom(q, i) || OrdinaryFrom(q', i + 1) < OrdinaryFrom(q, i);
          ScanLawful(q', i + 1, ch, CallsAfter(q, i, ch, calls));
          LawfulJoin(q, Handle(q, i, ch, calls), Scan(q', i + 1, ch, CallsAfter(q, i, ch, calls)));
        }
      }
    }
  }

  // ---- any life of the table ----

  /** An append, or a drain killed after its first k effects (after all of
      them: it returned). */
  datatype Op = AppendRow(m: Message) | DrainFor(ch: Channel, k: nat)

  function Next(q: Queue, op: Op): Queue {
    match op
    case AppendRow(m) => q.(rows := q.rows + [m])
    case DrainFor(ch, k) =>
      var es := Scan(q, 0, ch, 0);
      DoAll(q, if k <= |es| then es[..k] else es)
  }

  function After(q: Queue, ops: seq<Op>): Queue
    decreases |ops|
  {
    if ops == [] then q else After(Next(q, ops[0]), ops[1..])
  }

  lemma NextKeepsOrder(q: Queue, op: Op)
    requires Orderly(q)
    ensures Orderly(Next(q, op))
  {
    match op
    case AppendRow(m) =>
    case DrainFor(ch, k) =>
      var es := Scan(q, 0, ch, 0);
      ScanLawful(q, 0, ch, 0);
      LawfulPrefixOrderly(q, es, if k <= |es| then k else |es|);
      assert es[..|es|] == es;
  }

  lemma {:induction false} OrderlyAfter(q: Queue, ops: seq<Op>)
    requires Orderly(q)
    ensures Orderly(After(q, ops))
    decreases |ops|
  {
    if ops != [] {
      NextKeepsOrder(q, ops[0]);
      OrderlyAfter(Next(q, ops[0]), ops[1..]);
    }
  }

  /** Over any appends, drains, failures and crashes: posts are accepted in
      event order, so a repeat is adjacent to the first; and no row leaves the
      queue except by an accepted post or a dead letter. */
  lemma NothingLostNothingReordered(ops: seq<Op>)
    ensures var q := After(Fresh, ops);
            && (forall a, b | 0 <= a < b < |q.sent| :: q.sent[a] <= q.sent[b])
            && (forall a, b, c | 0 <= a < b < c < |q.sent| && q.sent[a] == q.sent[c] :: q.sent[b] == q.sent[a])
            && (forall id | id in q.posted :: id in q.sent || id in q.dead)
  {
    OrderlyAfter(Fresh, ops);
  }

  // ---- one drain that nothing kills ----

  /** What a drain did: the rows it posted and the rows it gave up on, in
      order; the row it stopped at (one past the last if none failed); and
      whether the channel took that one although the call raised. */
  datatype Outcome = Outcome(sent: seq<nat>, buried: seq<nat>, stop: nat, taken: bool)

  function OutcomeOf(q: Queue, i: nat, ch: Channel, calls: nat): Outcome
    decreases OrdinaryFrom(q, i), |q.rows| - i
  {
    if i >= |q.rows| then Outcome([], [], |q.rows|, false)
    else if i in q.posted then
      assert OrdinaryFrom(q, i + 1) == OrdinaryFrom(q, i);
      OutcomeOf(q, i + 1, ch, calls)
    else
      match FateOf(q, i, ch, calls)
      case Stuck(taken) => Outcome([], [], i, taken)
      case fate =>
        HandleShrinks(q, i, ch, calls);
        var q' := DoAll(q, Handle(q, i, ch, calls));
        assert OrdinaryFrom(q', i + 1) == OrdinaryFrom(q, i) || OrdinaryFrom(q', i + 1) < OrdinaryFrom(q, i);
        var rest := OutcomeOf(q', i + 1, ch, CallsAfter(q, i, ch, calls));
        if fate.Posted? then rest.(sent := [i] + rest.sent) else rest.(buried := [i] + rest.buried)
  }

  function Ids(s: seq<nat>): set<nat> { set k | k in s }

  /** The reports left for the rows given up on, in order: one for each row
      that was not itself a report. */
  function Reports(rows: seq<Message>, buried: seq<nat>): seq<Message> {
    if buried == [] then []
    else
      (if buried[0] < |rows| && Ordinary(rows[buried[0]])
       then [Message(PROJECTION_ERROR, Undelivered(buried[0], rows[buried[0]].kind))] else [])
      + Reports(rows, buried[1..])
  }

  lemma {:induction false} ReportsIgnoreReports(rows: seq<Message>, m: Message, buried: seq<nat>)
    requires !Ordinary(m)
    ensures Reports(rows + [m], buried) == Reports(rows, buried)
  {
    if buried != [] { ReportsIgnoreReports(rows, m, buried[1..]); }
  }

  /** The table a drain leaves. */
  function Settled(q: Queue, o: Outcome): Queue {
    Queue(q.rows + Reports(q.rows, o.buried),
          q.posted + Ids(o.sent) + Ids(o.buried),
          q.sent + o.sent + (if o.taken then [o.stop] else []),
          q.dead + Ids(o.buried))
  }

  lemma {:induction false} ScanSettles(q: Queue, i: nat, ch: Channel, calls: nat)
    ensures DoAll(q, Scan(q, i, ch, calls)) == Settled(q, OutcomeOf(q, i, ch, calls))
    decreases OrdinaryFrom(q, i), |q.rows| - i
  {
    if i >= |q.rows| {
      assert Settled(q, Outcome([], [], |q.rows|, false)) == q;
    } else if i in q.posted {
      assert OrdinaryFrom(q, i + 1) == OrdinaryFrom(q, i);
      ScanSettles(q, i + 1, ch, calls);
    } else {
      Handled(q, i, ch, calls);
      var q' := DoAll(q, Handle(q, i, ch, calls));
      match FateOf(q, i, ch, calls) {
        case Stuck(taken) => assert q' == Settled(q, Outcome([], [], i, taken));
        case fate =>
          HandleShrinks(q, i, ch, calls);
          assert OrdinaryFrom(q', i + 1) == OrdinaryFrom(q, i) || OrdinaryFrom(q', i + 1) < OrdinaryFrom(q, i);
          var calls' := CallsAfter(q, i, ch, calls);
          ScanSettles(q', i + 1, ch, calls');
          DoAllConcat(q, Handle(q, i, ch, calls), Scan(q', i + 1, ch, calls'));
          SettledStep(q, i, ch, calls, OutcomeOf(q', i + 1, ch, calls'));
      }
    }
  }

  lemma SettledAfterPost(q: Queue, i: nat, rest: Outcome)
    ensures Settled(q.(sent := q.sent + [i], posted := q.posted + {i}), rest)
            == Settled(q, rest.(sent := [i] + rest.sent))
  {
    var tail := if rest.taken then [rest.stop] else [];
    assert q.sent + [i] + rest.sent + tail == q.sent + ([i] + rest.sent) + tail;
    assert Ids([i] + rest.sent) == {i} + Ids(rest.sent);
  }

  lemma SettledAfterBurial(q: Queue, i: nat, rest: Outcome)
    requires i < |q.rows|
    ensures Settled(q.(posted := q.posted + {i}, dead := q.dead + {i},
                       rows := q.rows + if Ordinary(q.rows[i]) then [ErrorFor(q, i)] else []), rest)
            == Settled(q, rest.(buried := [i] + rest.buried))
  {
    var buried := [i] + rest.buried;
    assert buried[1..] == rest.buried && Ids(buried) == {i} + Ids(rest.buried);
    var later := Reports(q.rows, rest.buried);
    if Ordinary(q.rows[i]) {
      ReportsIgnoreReports(q.rows, ErrorFor(q, i), rest.buried);
      assert q.rows + [ErrorFor(q, i)] + later == q.rows + ([ErrorFor(q, i)] + later);
    } else {
      assert q.rows + [] == q.rows && [] + later == later;
    }
  }

  lemma SettledStep(q: Queue, i: nat, ch: Channel, calls: nat, rest: Outcome)
    requires i < |q.rows| && !FateOf(q, i, ch, calls).Stuck?
    ensures Settled(DoAll(q, Handle(q, i, ch, calls)), rest)
            == Settled(q, if FateOf(q, i, ch, calls).Posted?
                          then rest.(sent := [i] + rest.sent) else rest.(buried := [i] + rest.buried))
  {
    hide DoAll, Settled;
    Handled(q, i, ch, calls);
    if FateOf(q, i, ch, calls).Posted? { SettledAfterPost(q, i, rest); } else { SettledAfterBurial(q, i, rest); }
  }

  lemma {:induction false} OutcomeCovers(q: Queue, i: nat, ch: Channel, calls: nat)
    requires (forall k | k in q.posted :: k < |q.rows|)
    ensures var o := OutcomeOf(q, i, ch, calls);
            && (i <= |q.rows| ==> i <= o.stop <= |Settled(q, o).rows|)
            && (forall k: nat :: k in o.sent || k in o.buried <==> i <= k < o.stop && k !in q.posted)
            && (forall k | k in o.sent :: k !in o.buried)
            && (o.taken ==> o.stop < |Settled(q, o).rows|)
            && (o.stop < |Settled(q, o).rows| ==> o.stop !in q.posted)
    decreases OrdinaryFrom(q, i), |q.rows| - i
  {
    if i < |q.rows| {
      if i in q.posted {
        assert OrdinaryFrom(q, i + 1) == OrdinaryFrom(q, i);
        OutcomeCovers(q, i + 1, ch, calls);
      } else if !FateOf(q, i, ch, calls).Stuck? {
        Handled(q, i, ch, calls);
        var q' := DoAll(q, Handle(q, i, ch, calls));
        HandleShrinks(q, i, ch, calls);
        assert OrdinaryFrom(q', i + 1) == OrdinaryFrom(q, i) || OrdinaryFrom(q', i + 1) < OrdinaryFrom(q, i);
        var calls' := CallsAfter(q, i, ch, calls);
        OutcomeCovers(q', i + 1, ch, calls');
        SettledStep(q, i, ch, calls, OutcomeOf(q', i + 1, ch, calls'));
      }
    }
  }

  ghost function Queued(q: Queue): set<nat> { set k | 0 <= k < |q.rows| && k !in q.posted }

  /** The account of one drain that nothing kills. What it sent and what it
      gave up on are exactly the rows queued below its stopping point, new ones
      included; what stays queued is exactly the failing row and everything
      after it, or nothing; and the table grew by exactly one report per
      ordinary row given up on. */
  lemma DrainAccount(q: Queue, ch: Channel)
    requires forall k | k in q.posted :: k < |q.rows|
    ensures var o := OutcomeOf(q, 0, ch, 0);
            var q' := DoAll(q, Scan(q, 0, ch, 0));
            && q' == Settled(q, o)
            && (forall k: nat :: k in o.sent || k in o.buried <==> k < o.stop && k !in q.posted)
            && (forall k | k in o.sent :: k !in o.buried)
            && Queued(q') == (set k | o.stop <= k < |q'.rows| && k !in q.posted)
            && (o.stop < |q'.rows| <==> Queued(q') != {})
            && (o.taken ==> o.stop in Queued(q'))
  {
    ScanSettles(q, 0, ch, 0);
    OutcomeCovers(q, 0, ch, 0);
    var o := OutcomeOf(q, 0, ch, 0);
    if o.stop < |Settled(q, o).rows| { assert o.stop in Queued(Settled(q, o)); }
  }

  // ---- why a row was posted, given up on or left ----

  /** How many posts a drain makes for the rows from id `i` up to `id`. */
  function PostsBefore(rows: seq<Message>, posted: set<nat>, ch: Channel, i: nat, id: nat): nat
    requires id <= |rows|
    decreases id - i
  {
    if i >= id then 0
    else (if i !in posted && ch.renders(rows[i]) then 1 else 0) + PostsBefore(rows, posted, ch, i + 1, id)
  }

  lemma {:induction false} PostsBeforeIgnores(rows: seq<Message>, posted: set<nat>, ch: Channel, i: nat, id: nat, gone: nat)
    requires id <= |rows| && gone < i
    ensures PostsBefore(rows, posted + {gone}, ch, i, id) == PostsBefore(rows, posted, ch, i, id)
    decreases id - i
  {
    if i < id { PostsBeforeIgnores(rows, posted, ch, i + 1, id, gone); }
  }

  /** The channel's answer to row `id`: nothing renders, or the reply to the one
      post made for it. */
  function AnswerTo(rows: seq<Message>, posted: set<nat>, ch: Channel, i: nat, calls: nat, id: nat): Option<Reply>
    requires id < |rows|
  {
    if !ch.renders(rows[id]) then None else Some(ch.reply(calls + PostsBefore(rows, posted, ch, i, id)))
  }

  /** A queued row below the stopping point was posted if and only if its own
      post was accepted, and given up on if and only if it does not render or
      its own post was refused for good; the row it stopped at renders and its
      post failed. */
  ghost predicate AsAnswered(o: Outcome, rows: seq<Message>, posted: set<nat>, ch: Channel, i: nat, calls: nat) {
    && i <= o.stop <= |rows|
    && (forall id: nat | i <= id < o.stop && id !in posted ::
          && (id in o.sent <==> AnswerTo(rows, posted, ch, i, calls, id) == Some(Accepted))
          && (id in o.buried <==> AnswerTo(rows, posted, ch, i, calls, id) in {None, Some(Refused)}))
    && (o.stop < |rows| ==> AnswerTo(rows, posted, ch, i, calls, o.stop) == Some(Failed(o.taken)))
  }

  lemma AnswersAfter(rows: seq<Message>, posted: set<nat>, ch: Channel, i: nat, calls: nat, id: nat)
    requires i < id < |rows| && i !in posted
    ensures AnswerTo(rows, posted, ch, i, calls, id)
            == AnswerTo(rows, posted + {i}, ch, i + 1, if ch.renders(rows[i]) then calls + 1 else calls, id)
  {
    PostsBeforeIgnores(rows, posted, ch, i + 1, id, i);
  }

  lemma OneMoreAnswer(rest: Outcome, rows: seq<Message>, posted: set<nat>, ch: Channel, i: nat, calls: nat, sent: bool)
    requires i < |rows| && i !in posted && i !in rest.sent && i !in rest.buried
    requires AsAnswered(rest, rows, posted + {i}, ch, i + 1, if ch.renders(rows[i]) then calls + 1 else calls)
    requires if sent then ch.renders(rows[i]) && ch.reply(calls) == Accepted
             else !ch.renders(rows[i]) || ch.reply(calls) == Refused
    ensures AsAnswered(if sent then rest.(sent := [i] + rest.sent) else rest.(buried := [i] + rest.buried),
                       rows, posted, ch, i, calls)
  {
    var o := if sent then rest.(sent := [i] + rest.sent) else rest.(buried := [i] + rest.buried);
    assert PostsBefore(rows, posted, ch, i, i) == 0;
    hide AnswerTo;
    assert AnswerTo(rows, posted, ch, i, calls, i)
           == if ch.renders(rows[i]) then Some(ch.reply(calls)) else None by { AnswerHere(rows, posted, ch, i, calls); }
    forall id: nat | i <= id < o.stop && id !in posted
      ensures id in o.sent <==> AnswerTo(rows, posted, ch, i, calls, id) == Some(Accepted)
      ensures id in o.buried <==> AnswerTo(rows, posted, ch, i, calls, id) in {None, Some(Refused)}
    {
      if id > i { AnswersAfter(rows, posted, ch, i, calls, id); }
    }
    if o.stop < |rows| { AnswersAfter(rows, posted, ch, i, calls, o.stop); }
  }

  lemma AnswerHere(rows: seq<Message>, posted: set<nat>, ch: Channel, i: nat, calls: nat)
    requires i < |rows|
    ensures AnswerTo(rows, posted, ch, i, calls, i) == if ch.renders(rows[i]) then Some(ch.reply(calls)) else None
  {
  }

  lemma AnswersSkip(o: Outcome, rows: seq<Message>, posted: set<nat>, ch: Channel, i: nat, calls: nat)
    requires i < |rows| && i in posted && AsAnswered(o, rows, posted, ch, i + 1, calls)
    ensures AsAnswered(o, rows, posted, ch, i, calls)
  {
  }

  /** The verdicts of a drain that nothing kills, row by row. */
  lemma {:induction false} Verdicts(q: Queue, i: nat, ch: Channel, calls: nat)
    requires i <= |q.rows| && forall k | k in q.posted :: k < |q.rows|
    ensures AsAnswered(OutcomeOf(q, i, ch, calls), Settled(q, OutcomeOf(q, i, ch, calls)).rows, q.posted, ch, i, calls)
    decreases OrdinaryFrom(q, i), |q.rows| - i
  {
    hide Settled, AsAnswered, DoAll, Handle;
    if i == |q.rows| || (i !in q.posted && FateOf(q, i, ch, calls).Stuck?) {
      StoppedHere(q, i, ch, calls);
    } else if i in q.posted {
      assert OrdinaryFrom(q, i + 1) == OrdinaryFrom(q, i);
      Verdicts(q, i + 1, ch, calls);
      SettledKeepsRows(q, OutcomeOf(q, i, ch, calls));
      AnswersSkip(OutcomeOf(q, i, ch, calls), Settled(q, OutcomeOf(q, i, ch, calls)).rows, q.posted, ch, i, calls);
    } else {
      Handled(q, i, ch, calls);
      var q' := DoAll(q, Handle(q, i, ch, calls));
      HandleShrinks(q, i, ch, calls);
      assert OrdinaryFrom(q', i + 1) == OrdinaryFrom(q, i) || OrdinaryFrom(q', i + 1) < OrdinaryFrom(q, i);
      var calls' := CallsAfter(q, i, ch, calls);
      var rest := OutcomeOf(q', i + 1, ch, calls');
      Verdicts(q', i + 1, ch, calls');
      NotAgain(q', i, ch, calls');
      SettledStep(q, i, ch, calls, rest);
      SettledKeepsRows(q', rest);
      hide OutcomeOf, OrdinaryFrom, CallsAfter;
      var rows := Settled(q', rest).rows;
      assert rows[i] == q.rows[i];
      OneMoreAnswer(rest, rows, q.posted, ch, i, calls, FateOf(q, i, ch, calls).Posted?);
    }
  }

  lemma StoppedHere(q: Queue, i: nat, ch: Channel, calls: nat)
    requires i == |q.rows| || (i < |q.rows| && i !in q.posted && FateOf(q, i, ch, calls).Stuck?)
    ensures AsAnswered(OutcomeOf(q, i, ch, calls), Settled(q, OutcomeOf(q, i, ch, calls)).rows, q.posted, ch, i, calls)
  {
    if i < |q.rows| { AnswerHere(q.rows, q.posted, ch, i, calls); }
    assert q.rows + [] == q.rows;
  }

  lemma NotAgain(q: Queue, i: nat, ch: Channel, calls: nat)
    requires forall k | k in q.posted :: k < |q.rows|
    ensures i !in OutcomeOf(q, i + 1, ch, calls).sent && i !in OutcomeOf(q, i + 1, ch, calls).buried
  {
    OutcomeCovers(q, i + 1, ch, calls);
  }

  lemma SettledKeepsRows(q: Queue, o: Outcome)
    ensures q.rows <= Settled(q, o).rows
  {
  }

  /** A drain from table `q` finds row `id` queued, and it does not render or
      the reply to its own post is a permanent refusal. */
  ghost predicate Undeliverable(q: Queue, ch: Channel, id: nat) {
    var rows := Settled(q, OutcomeOf(q, 0, ch, 0)).rows;
    && id < |rows| && id !in q.posted
    && (!ch.renders(rows[id]) || ch.reply(PostsBefore(rows, q.posted, ch, 0, id)) == Refused)
  }

  lemma {:induction false} DeadByBurial(q: Queue, es: seq<Effect>, id: nat)
    ensures id in DoAll(q, es).dead <==> id in q.dead || Bury(id) in es
    decreases |es|
  {
    if es != [] {
      DeadByBurial(Do(q, es[0]), es[1..], id);
      assert es == [es[0]] + es[1..];
    }
  }

  lemma BuriedForAReason(q: Queue, ch: Channel, k: nat, id: nat)
    requires Orderly(q)
    requires id in Next(q, DrainFor(ch, k)).dead && id !in q.dead
    ensures Undeliverable(q, ch, id)
  {
    hide DoAll;
    var es, o := Scan(q, 0, ch, 0), OutcomeOf(q, 0, ch, 0);
    DeadByBurial(q, es, id);
    if k <= |es| { DeadByBurial(q, es[..k], id); }
    ScanSettles(q, 0, ch, 0);
    assert id in o.buried;
    OutcomeCovers(q, 0, ch, 0);
    Verdicts(q, 0, ch, 0);
  }

  /** Over any appends, drains, failures and crashes, a row is given up on only
      by a drain that found it queued and could not render it, or had its own
      post refused for good. */
  lemma {:induction false} DeadForAReason(q: Queue, ops: seq<Op>, id: nat)
    requires Orderly(q) && id in After(q, ops).dead && id !in q.dead
    ensures exists i :: 0 <= i < |ops| && ops[i].DrainFor? && Undeliverable(After(q, ops[..i]), ops[i].ch, id)
    decreases |ops|
  {
    NextKeepsOrder(q, ops[0]);
    var next := Next(q, ops[0]);
    if id in next.dead {
      assert After(q, ops[..0]) == q;
      BuriedForAReason(q, ops[0].ch, ops[0].k, id);
    } else {
      DeadForAReason(next, ops[1..], id);
      var i :| 0 <= i < |ops| - 1 && ops[1..][i].DrainFor? && Undeliverable(After(next, ops[1..][..i]), ops[1..][i].ch, id);
      assert ops[..i + 1][1..] == ops[1..][..i] && ops[i + 1] == ops[1..][i];
    }
  }
}
