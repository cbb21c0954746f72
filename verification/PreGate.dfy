/** The pre-gate pass: which tickers the desks are asked about today, and the
    budget the PM is shown, from the sizer the gate enforces. */
module PreGate {
  import opened Records
  import opened FundTables
  import opened Plans
  import Risk

  datatype Feed = Feed(ticker: string, snapshot: Risk.Snapshot)

  /** market_inputs: a dict, so one snapshot a ticker, in feed order. */
  ghost predicate OnePerTicker(feeds: seq<Feed>) {
    forall i, j | 0 <= i < j < |feeds| :: feeds[i].ticker != feeds[j].ticker
  }

  datatype Shapes = Shapes(buy: int, sell: int)

  datatype Budget = Budget(ticker: string, shapes: Shapes)

  function Shape(s: Risk.Snapshot, side: Side): int {
    match Risk.Size(s, side) case Approved(m, _) => m case Rejected(_) => 0
  }

  /** allowed_actions: what the PM is shown. */
  function AllowedActions(feeds: seq<Feed>): seq<Budget> {
    if feeds == [] then []
    else
      var shapes := Shapes(Shape(feeds[0].snapshot, Buy), Shape(feeds[0].snapshot, Sell));
      (if shapes.buy != 0 || shapes.sell != 0 then [Budget(feeds[0].ticker, shapes)] else [])
      + AllowedActions(feeds[1..])
  }

  function Tickers(budgets: seq<Budget>): seq<string> {
    if budgets == [] then [] else [budgets[0].ticker] + Tickers(budgets[1..])
  }

  /** The tickers to report: neither shape could even be computed. */
  function Broken(feeds: seq<Feed>): seq<string> {
    if feeds == [] then []
    else
      (if Risk.Size(feeds[0].snapshot, Buy) == Risk.Rejected(Risk.GateError)
          && Risk.Size(feeds[0].snapshot, Sell) == Risk.Rejected(Risk.GateError)
       then [feeds[0].ticker] else [])
      + Broken(feeds[1..])
  }

  /** What the gate will size this ticker's decision on. */
  function FeedFor(feeds: seq<Feed>, ticker: string): Risk.Snapshot {
    if feeds == [] then Risk.Malformed
    else if feeds[0].ticker == ticker then feeds[0].snapshot
    else FeedFor(feeds[1..], ticker)
  }

  // ---- the stage as written ----

  class Desk {
    var offered: seq<string>     // today's rows, unique by ticker
    var alerts: seq<string>      // gate_error alerts, by ticker

    constructor (offered0: seq<string>, alerts0: seq<string>)
      ensures offered == offered0 && alerts == alerts0
    {
      offered, alerts := offered0, alerts0;
    }

    /** _pre_gate_stage: keep what can be traded, report what cannot be read,
        and record what the desks are asked about. */
    method PreGateStage(feeds: seq<Feed>) returns (active: seq<string>)
      modifies this
      ensures active == Tickers(AllowedActions(feeds))
      ensures alerts == old(alerts) + Broken(feeds)
      ensures offered == Offer(old(offered), active) && old(offered) <= offered
      ensures forall t :: t in offered <==> t in old(offered) || t in active
      ensures OnceEach(old(offered)) ==> OnceEach(offered)
    {
      active := Triage(feeds);
      OfferAll(active);
      OfferIsExact(old(offered), active);
    }

    method Triage(feeds: seq<Feed>) returns (active: seq<string>)
      modifies `alerts
      ensures active == Tickers(AllowedActions(feeds))
      ensures alerts == old(alerts) + Broken(feeds)
    {
      hide AllowedActions, Broken, Tickers;
      active := [];
      for i := 0 to |feeds|
        invariant active + Tickers(AllowedActions(feeds[i..])) == Tickers(AllowedActions(feeds))
        invariant alerts + Broken(feeds[i..]) == old(alerts) + Broken(feeds)
      {
        var f := feeds[i];
        var buy, sell := Risk.Size(f.snapshot, Buy), Risk.Size(f.snapshot, Sell);
        assert feeds[i..] == [f] + feeds[i + 1..];
        OneFeed(f, feeds[i + 1..]);
        hide Risk.Size;
        ghost var rest, broken := Tickers(AllowedActions(feeds[i + 1..])), Broken(feeds[i + 1..]);
        if buy.Approved? || sell.Approved? {
          assert active + ([f.ticker] + rest) == active + [f.ticker] + rest;
          active := active + [f.ticker];
        } else if buy == Risk.Rejected(Risk.GateError) && sell == Risk.Rejected(Risk.GateError) {
          assert alerts + ([f.ticker] + broken) == alerts + [f.ticker] + broken;
          alerts := alerts + [f.ticker];
        }
      }
      assert feeds[|feeds|..] == [];
      NoFeeds();
    }

    method OfferAll(active: seq<string>)
      modifies `offered
      ensures offered == Offer(old(offered), active)
    {
      for i := 0 to |active|
        invariant Offer(offered, active[i..]) == Offer(old(offered), active)
      {
        assert active[i..][0] == active[i] && active[i..][1..] == active[i + 1..];
        if active[i] !in offered { offered := offered + [active[i]]; }
      }
      assert active[|active|..] == [];
    }
  }

  lemma NoFeeds()
    ensures Tickers(AllowedActions([])) == [] && Broken([]) == []
  {
  }

  /** One ticker of the feed: kept if either shape is approved, reported if
      neither could be computed, otherwise silently dropped. */
  lemma OneFeed(f: Feed, rest: seq<Feed>)
    ensures var buy, sell := Risk.Size(f.snapshot, Buy), Risk.Size(f.snapshot, Sell);
            && Tickers(AllowedActions([f] + rest))
               == (if buy.Approved? || sell.Approved? then [f.ticker] else []) + Tickers(AllowedActions(rest))
            && Broken([f] + rest)
               == (if buy == Risk.Rejected(Risk.GateError) && sell == Risk.Rejected(Risk.GateError)
                   then [f.ticker] else []) + Broken(rest)
            && !(buy.Approved? && buy == Risk.Rejected(Risk.GateError))
  {
    ApprovedIsPositive(f.snapshot, Buy);
    ApprovedIsPositive(f.snapshot, Sell);
    hide Risk.Size;
    assert ([f] + rest)[0] == f && ([f] + rest)[1..] == rest;
    var more := AllowedActions(rest);
    var budget := Budget(f.ticker, Shapes(Shape(f.snapshot, Buy), Shape(f.snapshot, Sell)));
    assert ([budget] + more)[0] == budget && ([budget] + more)[1..] == more && [] + more == more;
    assert [] + Tickers(more) == Tickers(more) && [] + Broken(rest) == Broken(rest);
  }

  /** INSERT OR IGNORE, ticker by ticker. */
  function Offer(rows: seq<string>, active: seq<string>): seq<string>
    decreases |active|
  {
    if active == [] then rows
    else Offer(if active[0] in rows then rows else rows + [active[0]], active[1..])
  }

  ghost predicate OnceEach(rows: seq<string>) {
    forall i, j | 0 <= i < j < |rows| :: rows[i] != rows[j]
  }

  /** What is offered: the day's earlier rows stay in front, every active ticker
      has a row and no other ticker gains one, and none gets a second. */
  lemma {:induction false} OfferIsExact(rows: seq<string>, active: seq<string>)
    ensures var after := Offer(rows, active);
            && rows <= after
            && (forall t :: t in after <==> t in rows || t in active)
            && (OnceEach(rows) ==> OnceEach(after))
    decreases |active|
  {
    if active != [] {
      var next := if active[0] in rows then rows else rows + [active[0]];
      OfferIsExact(next, active[1..]);
      assert active == [active[0]] + active[1..];
    }
  }

  // ---- what it is for ----

  lemma ApprovedIsPositive(s: Risk.Snapshot, side: Side)
    ensures Risk.Size(s, side).Approved? ==> Risk.Size(s, side).maxQty >= 1
  {
  }

  lemma {:induction false} BudgetOf(feeds: seq<Feed>, ticker: string)
    requires OnePerTicker(feeds)
    ensures ticker in Tickers(AllowedActions(feeds)) <==>
              Shape(FeedFor(feeds, ticker), Buy) != 0 || Shape(FeedFor(feeds, ticker), Sell) != 0
    ensures forall b | b in AllowedActions(feeds) && b.ticker == ticker ::
              b.shapes == Shapes(Shape(FeedFor(feeds, ticker), Buy), Shape(FeedFor(feeds, ticker), Sell))
    ensures ticker in Tickers(AllowedActions(feeds)) ==> exists f :: f in feeds && f.ticker == ticker
    ensures forall b | b in AllowedActions(feeds) :: b.ticker in Tickers(AllowedActions(feeds))
  {
    if feeds != [] {
      var rest := feeds[1..];
      forall b | b in AllowedActions(rest) ensures b.ticker in Tickers(AllowedActions(rest)) {
        BudgetOf(rest, b.ticker);
      }
      BudgetOf(rest, ticker);
      BudgetOf(rest, feeds[0].ticker);
      var all, more := AllowedActions(feeds), AllowedActions(rest);
      if all != more {
        assert all[0].ticker == feeds[0].ticker && all[1..] == more;
      }
      if ticker in Tickers(more) {
        var f :| f in rest && f.ticker == ticker;
        assert f in feeds;
      } else if ticker == feeds[0].ticker {
        assert feeds[0] in feeds;
      }
    }
  }

  /** The PM's budget is the gate's cap. On an unchanged feed an ask of at most
      the shown shares is ticketed at exactly the ask, a larger one at exactly
      what was shown, and a ticker or shape that was not shown is rejected
      whatever is asked. */
  lemma ShownIsEnforced(feeds: seq<Feed>, d: Decision)
    requires OnePerTicker(feeds) && d.action.Trade?
    ensures var cap := CappedQty(d, FeedFor(feeds, d.ticker));
            && (forall b | b in AllowedActions(feeds) && b.ticker == d.ticker ::
                  var shown := if d.action.side == Buy then b.shapes.buy else b.shapes.sell;
                  cap == if d.qty <= shown then d.qty else shown)
            && (d.ticker !in Tickers(AllowedActions(feeds)) ==> cap < 1)
  {
    BudgetOf(feeds, d.ticker);
    ApprovedIsPositive(FeedFor(feeds, d.ticker), d.action.side);
  }

  /** A ticker is reported exactly when its feed is unusable, never because
      nothing can be traded on it. */
  lemma ReportedIffUnusable(feeds: seq<Feed>, ticker: string)
    ensures ticker in Broken(feeds) <==>
            exists f :: f in feeds && f.ticker == ticker && (f.snapshot.Malformed? || !Risk.InRange(f.snapshot.i))
  {
    if feeds != [] {
      ReportedIffUnusable(feeds[1..], ticker);
      assert forall f :: f in feeds <==> f == feeds[0] || f in feeds[1..];
    }
  }
}
