/** The accounting check: shares the fund's own orders account for that the
    broker does not hold, reported once per change. */
module Accounting {
  import opened Records
  import opened Dicts
  import opened FundTables

  /** One event: a finding about a symbol, its clearing, or anything else. */
  datatype Note =
    | Shortfall(symbol: string, recorded: int, held: int)
    | Cleared(symbol: string)
    | Unverified
    | Unrelated

  /** A broker position as read: no symbol reads as "", and a count that is not
      a positive whole number as None. */
  datatype Line = Line(symbol: string, qty: Option<nat>)

  /** open_positions(): raised, or lines. */
  datatype Positions = Raised | Lines(lines: seq<Line>)

  // ---- what the two sides say ----

  /** recorded_holdings over the rows from the i-th on. */
  function RecordedFrom(net: Dict<int>, orders: Table<string, Order>, i: nat): Dict<int>
    decreases |orders.ids| - i
  {
    if i >= |orders.ids| then net
    else RecordedFrom(AddFill(net, orders, orders.ids[i]), orders, i + 1)
  }

  function AddFill(net: Dict<int>, orders: Table<string, Order>, id: string): Dict<int> {
    if id !in orders.rows || orders.rows[id].fill.None? || orders.rows[id].fill.value.qty <= 0 then net
    else
      var row := orders.rows[id];
      var signed := if row.side == Buy then row.fill.value.qty else -row.fill.value.qty;
      SetKey(net, row.symbol, Get(net, row.symbol, 0) + signed)
  }

  function Positive(d: Dict<int>): Dict<int> {
    if d == [] then [] else (if d[0].1 > 0 then [d[0]] else []) + Positive(d[1..])
  }

  /** { s: q for s, q in recorded_holdings(conn).items() if q > 0 } */
  function Holdings(orders: Table<string, Order>): Dict<int> { Positive(RecordedFrom([], orders, 0)) }

  /** _held_by_symbol: nothing at all if any line is unreadable. */
  function HeldFrom(out: Dict<int>, lines: seq<Line>): Option<Dict<int>>
    decreases |lines|
  {
    if lines == [] then Some(out)
    else if lines[0].symbol == "" || lines[0].qty.None? then None
    else HeldFrom(SetKey(out, lines[0].symbol, Get(out, lines[0].symbol, 0) + lines[0].qty.value), lines[1..])
  }

  predicate AnyShort(recorded: Dict<int>, held: Dict<int>) {
    recorded != [] && (Get(held, recorded[0].0, 0) < recorded[0].1 || AnyShort(recorded[1..], held))
  }

  // ---- sorted(recorded) ----

  predicate LessEq(a: string, b: string) {
    a == "" || (b != "" && (a[0] < b[0] || (a[0] == b[0] && LessEq(a[1..], b[1..]))))
  }

  function InsertName(names: seq<string>, x: string): seq<string> {
    if names == [] then [x]
    else if LessEq(x, names[0]) then [x] + names
    else [names[0]] + InsertName(names[1..], x)
  }

  function SortedNames(d: Dict<int>): seq<string> {
    if d == [] then [] else InsertName(SortedNames(d[1..]), d[0].0)
  }

  // ---- one symbol ----

  /** _last_accounting: the most recent thing said about the symbol. */
  function LastSaid(events: seq<Note>, symbol: string): Option<Note> {
    if events == [] then None
    else
      var e := events[|events| - 1];
      if (e.Shortfall? || e.Cleared?) && e.symbol == symbol then Some(e)
      else LastSaid(events[..|events| - 1], symbol)
  }

  /** What an observation of `have` held against `want` recorded makes the
      check say, given what it said last. */
  function Says(last: Option<Note>, symbol: string, want: int, have: int): Option<Note> {
    var standing := last.Some? && last.value.Shortfall?;
    if have >= want then (if standing then Some(Cleared(symbol)) else None)
    else if standing && want >= last.value.recorded
         && last.value.recorded - last.value.held == want - have then None
    else Some(Shortfall(symbol, want, have))
  }

  function SayOne(events: seq<Note>, symbol: string, want: int, have: int): seq<Note> {
    match Says(LastSaid(events, symbol), symbol, want, have)
    case None => events
    case Some(note) => events + [note]
  }

  function SayAll(events: seq<Note>, symbols: seq<string>, recorded: Dict<int>, held: Dict<int>): seq<Note>
    decreases |symbols|
  {
    if symbols == [] then events
    else
      var s := symbols[0];
      SayAll(SayOne(events, s, Get(recorded, s, 0), Get(held, s, 0)), symbols[1..], recorded, held)
  }

  // ---- the whole check ----

  datatype Check = Check(log: seq<Note>, lookups: nat)

  /** What the read that counts returned: the first, or the one re-read made
      when the first was unreadable or short. */
  datatype Reading = Unread(lookups: nat) | Readable(held: Dict<int>, lookups: nat)

  function ReadPositions(recorded: Dict<int>, first: Positions, second: Positions): Reading {
    if first.Raised? then Unread(1)
    else
      var held := HeldFrom([], first.lines);
      if held.Some? && !AnyShort(recorded, held.value) then Readable(held.value, 1)
      else if second.Raised? || HeldFrom([], second.lines).None? then Unread(2)
      else Readable(HeldFrom([], second.lines).value, 2)
  }

  /** assert_positions_accounted. `broker` is what its first and second read
      would answer, or None when none is wired. */
  function Accounted(events: seq<Note>, orders: Table<string, Order>, broker: Option<(Positions, Positions)>): Check {
    var recorded := Holdings(orders);
    if recorded == [] then Check(events, 0)
    else if broker.None? then Check(events + [Unverified], 0)
    else
      match ReadPositions(recorded, broker.value.0, broker.value.1)
      case Unread(n) => Check(events + [Unverified], n)
      case Readable(held, n) => Check(SayAll(events, SortedNames(recorded), recorded, held), n)
  }

  // ---- as written ----

  method RecordedHoldings(orders: Table<string, Order>) returns (net: Dict<int>)
    ensures net == RecordedFrom([], orders, 0)
    ensures forall s :: Get(net, s, 0) == Bought(orders, s) - Sold(orders, s)
  {
    forall s ensures Get(RecordedFrom([], orders, 0), s, 0) == Bought(orders, s) - Sold(orders, s) {
      RecordedIsNet(orders, s);
    }
    net := [];
    for i := 0 to |orders.ids|
      invariant RecordedFrom(net, orders, i) == RecordedFrom([], orders, 0)
    {
      var id := orders.ids[i];
      if id in orders.rows && orders.rows[id].fill.Some? && orders.rows[id].fill.value.qty > 0 {
        var row := orders.rows[id];
        var signed := if row.side == Buy then row.fill.value.qty else -row.fill.value.qty;
        net := SetKey(net, row.symbol, Get(net, row.symbol, 0) + signed);
      }
    }
  }

  method HeldBySymbol(lines: seq<Line>) returns (out: Option<Dict<int>>)
    ensures out == HeldFrom([], lines)
    ensures out.None? <==> exists i :: 0 <= i < |lines| && Unreadable(lines[i])
    ensures out.Some? ==> forall s :: Get(out.value, s, 0) == SharesHeld(lines, s)
  {
    HeldIsSum(lines, "");
    if HeldFrom([], lines).Some? {
      forall s ensures Get(HeldFrom([], lines).value, s, 0) == SharesHeld(lines, s) { HeldIsSum(lines, s); }
    }
    var net: Dict<int> := [];
    for i := 0 to |lines|
      invariant HeldFrom(net, lines[i..]) == HeldFrom([], lines)
    {
      var line := lines[i];
      assert lines[i..][0] == line && lines[i..][1..] == lines[i + 1..];
      if line.symbol == "" || line.qty.None? { return None; }
      net := SetKey(net, line.symbol, Get(net, line.symbol, 0) + line.qty.value);
    }
    assert lines[|lines|..] == [];
    out := Some(net);
  }

  class EventLog {
    var events: seq<Note>

    constructor (e: seq<Note>)
      ensures events == e
    {
      events := e;
    }

    method AssertPositionsAccounted(orders: Table<string, Order>, broker: Option<(Positions, Positions)>)
      returns (appended: nat, lookups: nat)
      modifies this
      ensures Check(events, lookups) == Accounted(old(events), orders, broker)
      ensures old(events) <= events && appended == |events| - |old(events)|
    {
      appended, lookups := 0, 0;
      var net := RecordedHoldings(orders);
      var recorded := Positive(net);
      if recorded == [] { return; }
      if broker.None? {
        events := events + [Unverified];
        return 1, 0;
      }
      lookups := 1;
      var held: Option<Dict<int>> := None;
      if broker.value.0.Raised? {
        events := events + [Unverified];
        return 1, 1;
      }
      held := HeldBySymbol(broker.value.0.lines);
      if held.None? || AnyShort(recorded, held.value) {
        lookups := 2;
        if broker.value.1.Raised? {
          events := events + [Unverified];
          return 1, 2;
        }
        held := HeldBySymbol(broker.value.1.lines);
      }
      if held.None? {
        events := events + [Unverified];
        return 1, lookups;
      }
      var symbols := SortedNames(recorded);
      ghost var whole := SayAll(events, symbols, recorded, held.value);
      for i := 0 to |symbols|
        invariant SayAll(events, symbols[i..], recorded, held.value) == whole
        invariant old(events) <= events && appended == |events| - |old(events)|
      {
        var s := symbols[i];
        assert symbols[i..][0] == s && symbols[i..][1..] == symbols[i + 1..];
        var have, want := Get(held.value, s, 0), Get(recorded, s, 0);
        var last := LastSaid(events, s);
        if have >= want {
          if last.Some? && last.value.Shortfall? {
            events, appended := events + [Cleared(s)], appended + 1;
          }
        } else if last.Some? && last.value.Shortfall? && want >= last.value.recorded
                  && last.value.recorded - last.value.held == want - have {
          // the same gap, and nothing written off
        } else {
          events, appended := events + [Shortfall(s, want, have)], appended + 1;
        }
      }
      assert symbols[|symbols|..] == [];
    }
  }

  // ---- the listing names each recorded symbol once ----

  lemma {:induction false} InsertNameHas(names: seq<string>, x: string)
    ensures multiset(InsertName(names, x)) == multiset(names) + multiset{x}
  {
    if names != [] && !LessEq(x, names[0]) {
      InsertNameHas(names[1..], x);
      assert names == [names[0]] + names[1..];
    }
  }

  function Keys(d: Dict<int>): seq<string> { if d == [] then [] else [d[0].0] + Keys(d[1..]) }

  lemma {:induction false} SortedNamesAreKeys(d: Dict<int>)
    ensures multiset(SortedNames(d)) == multiset(Keys(d))
  {
    if d != [] {
      SortedNamesAreKeys(d[1..]);
      InsertNameHas(SortedNames(d[1..]), d[0].0);
    }
  }

  ghost predicate Listing(names: seq<string>, recorded: Dict<int>) {
    forall s :: multiset(names)[s] == if Has(recorded, s) then 1 else 0
  }

  lemma {:induction false} KeysOnce(d: Dict<int>, s: string)
    requires OncePerKey(d)
    ensures multiset(Keys(d))[s] == if Has(d, s) then 1 else 0
  {
    if d != [] {
      KeysOnce(d[1..], s);
      HasIff(d[1..], d[0].0);
    }
  }

  lemma {:induction false} PositiveKeeps(d: Dict<int>)
    requires OncePerKey(d)
    ensures OncePerKey(Positive(d))
    ensures forall e :: e in Positive(d) ==> e in d && e.1 > 0
  {
    if d != [] {
      PositiveKeeps(d[1..]);
      var r := Positive(d[1..]);
      forall j | 0 <= j < |r| ensures r[j].0 != d[0].0 {
        var e := r[j];
        assert e in r;
        InTail(d, e);
      }
    }
  }

  lemma {:induction false} RecordedOnce(net: Dict<int>, orders: Table<string, Order>, i: nat)
    requires OncePerKey(net)
    ensures OncePerKey(RecordedFrom(net, orders, i))
    decreases |orders.ids| - i
  {
    if i < |orders.ids| {
      var id := orders.ids[i];
      if AddFill(net, orders, id) != net {
        var row := orders.rows[id];
        SetKeyKeeps(net, row.symbol, Get(net, row.symbol, 0) + if row.side == Buy then row.fill.value.qty else -row.fill.value.qty);
      }
      RecordedOnce(AddFill(net, orders, id), orders, i + 1);
    }
  }

  lemma HoldingsListed(orders: Table<string, Order>)
    ensures OncePerKey(Holdings(orders)) && Listing(SortedNames(Holdings(orders)), Holdings(orders))
  {
    RecordedOnce([], orders, 0);
    PositiveKeeps(RecordedFrom([], orders, 0));
    var d := Holdings(orders);
    SortedNamesAreKeys(d);
    forall s ensures multiset(SortedNames(d))[s] == if Has(d, s) then 1 else 0 { KeysOnce(d, s); }
  }

  // ---- one observation, seen from one symbol ----

  lemma LastSaidSnoc(events: seq<Note>, e: Note, symbol: string)
    ensures LastSaid(events + [e], symbol)
            == if (e.Shortfall? || e.Cleared?) && e.symbol == symbol then Some(e) else LastSaid(events, symbol)
  {
    assert (events + [e])[..|events|] == events;
  }

  lemma SayOneElsewhere(events: seq<Note>, other: string, want: int, have: int, symbol: string)
    requires other != symbol
    ensures LastSaid(SayOne(events, other, want, have), symbol) == LastSaid(events, symbol)
  {
    match Says(LastSaid(events, other), other, want, have)
    case None =>
    case Some(note) => LastSaidSnoc(events, note, symbol);
  }

  /** After the pass, the last thing said about a symbol is what it was unless
      this pass said something, whatever else it said in between. */
  lemma {:induction false} SayAllAbout(events: seq<Note>, names: seq<string>, recorded: Dict<int>, held: Dict<int>, symbol: string)
    requires multiset(names)[symbol] <= 1
    ensures var said := Says(LastSaid(events, symbol), symbol, Get(recorded, symbol, 0), Get(held, symbol, 0));
            LastSaid(SayAll(events, names, recorded, held), symbol)
            == if symbol in names && said.Some? then said else LastSaid(events, symbol)
    ensures About(SayAll(events, names, recorded, held), symbol)
            == About(events, symbol) + (
                 var said := Says(LastSaid(events, symbol), symbol, Get(recorded, symbol, 0), Get(held, symbol, 0));
                 if symbol in names && said.Some? then [said.value] else [])
    decreases |names|
  {
    if names == [] {
      assert About(events, symbol) + [] == About(events, symbol);
    } else {
      var s, rest := names[0], names[1..];
      assert names == [s] + rest;
      assert multiset(names) == multiset{s} + multiset(rest);
      var next := SayOne(events, s, Get(recorded, s, 0), Get(held, s, 0));
      SayAllAbout(next, rest, recorded, held, symbol);
      SaidAbout(events, s, Get(recorded, s, 0), Get(held, s, 0), symbol);
      if s == symbol {
        assert multiset(rest)[symbol] == 0;
        assert symbol !in rest;
      } else {
        SayOneElsewhere(events, s, Get(recorded, s, 0), Get(held, s, 0), symbol);
      }
    }
  }

  /** Everything the log says about one symbol, in order. */
  function About(events: seq<Note>, symbol: string): seq<Note> {
    if events == [] then []
    else
      var e := events[|events| - 1];
      About(events[..|events| - 1], symbol)
      + if (e.Shortfall? || e.Cleared?) && e.symbol == symbol then [e] else []
  }

  lemma AboutSnoc(events: seq<Note>, e: Note, symbol: string)
    ensures About(events + [e], symbol)
            == About(events, symbol) + if (e.Shortfall? || e.Cleared?) && e.symbol == symbol then [e] else []
  {
    assert (events + [e])[..|events|] == events;
  }

  lemma SaidAbout(events: seq<Note>, s: string, want: int, have: int, symbol: string)
    ensures About(SayOne(events, s, want, have), symbol)
            == About(events, symbol)
               + (if s == symbol && Says(LastSaid(events, s), s, want, have).Some?
                  then [Says(LastSaid(events, s), s, want, have).value] else [])
    ensures s == symbol ==>
              LastSaid(SayOne(events, s, want, have), s)
              == if Says(LastSaid(events, s), s, want, have).Some?
                 then Says(LastSaid(events, s), s, want, have) else LastSaid(events, s)
  {
    match Says(LastSaid(events, s), s, want, have)
    case None => assert About(events, symbol) + [] == About(events, symbol);
    case Some(note) => AboutSnoc(events, note, symbol); LastSaidSnoc(events, note, symbol);
  }

  // ---- what the counts are ----

  /** The row records a fill of this symbol and side. */
  predicate Fills(row: Order, symbol: string, side: Side) {
    row.symbol == symbol && row.side == side && row.fill.Some? && row.fill.value.qty > 0
  }

  /** Shares of a symbol filled on one side, over the rows listed. */
  function SharesIn(rows: map<string, Order>, ids: seq<string>, symbol: string, side: Side): int {
    if ids == [] then 0
    else
      (if ids[0] in rows && Fills(rows[ids[0]], symbol, side) then rows[ids[0]].fill.value.qty else 0)
      + SharesIn(rows, ids[1..], symbol, side)
  }

  function Bought(orders: Table<string, Order>, symbol: string): int { SharesIn(orders.rows, orders.ids, symbol, Buy) }

  function Sold(orders: Table<string, Order>, symbol: string): int { SharesIn(orders.rows, orders.ids, symbol, Sell) }

  lemma {:induction false} RecordedFromIsNet(net: Dict<int>, orders: Table<string, Order>, i: nat, symbol: string)
    requires i <= |orders.ids|
    ensures Get(RecordedFrom(net, orders, i), symbol, 0)
            == Get(net, symbol, 0) + SharesIn(orders.rows, orders.ids[i..], symbol, Buy)
               - SharesIn(orders.rows, orders.ids[i..], symbol, Sell)
    decreases |orders.ids| - i
  {
    if i < |orders.ids| {
      var id := orders.ids[i];
      assert orders.ids[i..][0] == id && orders.ids[i..][1..] == orders.ids[i + 1..];
      if id in orders.rows {
        var row := orders.rows[id];
        if row.fill.Some? {
          var q := row.fill.value.qty;
          GetSetKey(net, row.symbol, Get(net, row.symbol, 0) + q, symbol, 0);
          GetSetKey(net, row.symbol, Get(net, row.symbol, 0) - q, symbol, 0);
        }
      }
      RecordedFromIsNet(AddFill(net, orders, id), orders, i + 1, symbol);
    }
  }

  /** For every symbol the recorded count is the shares bought minus the shares
      sold. */
  lemma RecordedIsNet(orders: Table<string, Order>, symbol: string)
    ensures Get(RecordedFrom([], orders, 0), symbol, 0) == Bought(orders, symbol) - Sold(orders, symbol)
  {
    RecordedFromIsNet([], orders, 0, symbol);
    assert orders.ids[0..] == orders.ids;
  }

  lemma {:induction false} SharesWithout(rows: map<string, Order>, ids: seq<string>, j: nat, symbol: string, side: Side)
    requires j < |ids|
    ensures SharesIn(rows, ids, symbol, side)
            == SharesIn(rows, [ids[j]], symbol, side) + SharesIn(rows, ids[..j] + ids[j + 1..], symbol, side)
  {
    var rest := ids[..j] + ids[j + 1..];
    if j == 0 {
      assert rest == ids[1..];
    } else {
      SharesWithout(rows, ids[1..], j - 1, symbol, side);
      assert rest[0] == ids[0] && rest[1..] == ids[1..][..j - 1] + ids[1..][j..];
    }
  }

  lemma RemoveOne(ids: seq<string>, j: nat)
    requires j < |ids|
    ensures multiset(ids) == multiset{ids[j]} + multiset(ids[..j] + ids[j + 1..])
  {
    assert ids == ids[..j] + ([ids[j]] + ids[j + 1..]);
    assert multiset(ids) == multiset(ids[..j]) + (multiset{ids[j]} + multiset(ids[j + 1..]));
  }

  lemma Cancel(x: string, a: multiset<string>, b: multiset<string>)
    requires multiset{x} + a == multiset{x} + b
    ensures a == b
  {
    assert a == multiset{x} + a - multiset{x};
    assert b == multiset{x} + b - multiset{x};
  }

  lemma Without(rows: map<string, Order>, ids: seq<string>, x: string, symbol: string, side: Side) returns (rest: seq<string>)
    requires x in ids
    ensures multiset(ids) == multiset{x} + multiset(rest)
    ensures SharesIn(rows, ids, symbol, side) == SharesIn(rows, [x], symbol, side) + SharesIn(rows, rest, symbol, side)
  {
    hide SharesIn;
    var j :| 0 <= j < |ids| && ids[j] == x;
    rest := ids[..j] + ids[j + 1..];
    RemoveOne(ids, j);
    SharesWithout(rows, ids, j, symbol, side);
  }

  lemma HeadFirst(rows: map<string, Order>, ids: seq<string>, symbol: string, side: Side)
    requires ids != []
    ensures multiset(ids) == multiset{ids[0]} + multiset(ids[1..])
    ensures SharesIn(rows, ids, symbol, side) == SharesIn(rows, [ids[0]], symbol, side) + SharesIn(rows, ids[1..], symbol, side)
  {
    assert ids == [ids[0]] + ids[1..] && [ids[0]][1..] == [];
  }

  lemma AlsoIn(x: string, a: seq<string>, b: seq<string>)
    requires multiset(a) == multiset(b) && x in a
    ensures x in b
  {
    assert x in multiset(b);
  }

  lemma NoRows(b: seq<string>)
    requires multiset(b) == multiset([])
    ensures b == []
  {
    assert |multiset(b)| == 0;
  }

  /** The order of the rows does not matter. */
  lemma {:induction false} RowOrderDoesNotMatter(rows: map<string, Order>, a: seq<string>, b: seq<string>, symbol: string, side: Side)
    requires multiset(a) == multiset(b)
    ensures SharesIn(rows, a, symbol, side) == SharesIn(rows, b, symbol, side)
    decreases |a|
  {
    hide SharesIn;
    if a == [] {
      NoRows(b);
    } else {
      AlsoIn(a[0], a, b);
      var rest := Without(rows, b, a[0], symbol, side);
      HeadFirst(rows, a, symbol, side);
      Cancel(a[0], multiset(a[1..]), multiset(rest));
      RowOrderDoesNotMatter(rows, a[1..], rest, symbol, side);
    }
  }

  lemma {:induction false} PositiveCounts(d: Dict<int>, symbol: string)
    requires OncePerKey(d)
    ensures Has(Positive(d), symbol) <==> Get(d, symbol, 0) > 0
    ensures Get(Positive(d), symbol, 0) == if Get(d, symbol, 0) > 0 then Get(d, symbol, 0) else 0
  {
    if d != [] {
      PositiveCounts(d[1..], symbol);
      assert [] + Positive(d[1..]) == Positive(d[1..]) && ([d[0]] + Positive(d[1..]))[1..] == Positive(d[1..]);
      if d[0].0 == symbol { HasNone(d[1..], symbol); }
    }
  }

  lemma {:induction false} HasNone(d: Dict<int>, symbol: string)
    requires forall i | 0 <= i < |d| :: d[i].0 != symbol
    ensures Get(d, symbol, 0) == 0
  {
    if d != [] { HasNone(d[1..], symbol); }
  }

  /** A symbol is recorded as held exactly when more was bought than sold, and
      then at the difference: a symbol sold out is not there. */
  lemma HoldingsAreNet(orders: Table<string, Order>, symbol: string)
    ensures Has(Holdings(orders), symbol) <==> Bought(orders, symbol) > Sold(orders, symbol)
    ensures Get(Holdings(orders), symbol, 0)
            == if Bought(orders, symbol) > Sold(orders, symbol) then Bought(orders, symbol) - Sold(orders, symbol) else 0
  {
    RecordedIsNet(orders, symbol);
    RecordedOnce([], orders, 0);
    PositiveCounts(RecordedFrom([], orders, 0), symbol);
  }

  /** Shares of a symbol over position lines. */
  function SharesHeld(lines: seq<Line>, symbol: string): int {
    if lines == [] then 0
    else (if lines[0].symbol == symbol && lines[0].qty.Some? then lines[0].qty.value else 0) + SharesHeld(lines[1..], symbol)
  }

  predicate Unreadable(line: Line) { line.symbol == "" || line.qty.None? }

  lemma {:induction false} HeldFromIsSum(out: Dict<int>, lines: seq<Line>, symbol: string)
    ensures HeldFrom(out, lines).None? <==> exists i :: 0 <= i < |lines| && Unreadable(lines[i])
    ensures HeldFrom(out, lines).Some? ==>
              Get(HeldFrom(out, lines).value, symbol, 0) == Get(out, symbol, 0) + SharesHeld(lines, symbol)
    decreases |lines|
  {
    if lines != [] && !Unreadable(lines[0]) {
      var x, q := lines[0].symbol, lines[0].qty.value;
      GetSetKey(out, x, Get(out, x, 0) + q, symbol, 0);
      HeldFromIsSum(SetKey(out, x, Get(out, x, 0) + q), lines[1..], symbol);
      forall i | 0 <= i < |lines| && Unreadable(lines[i])
        ensures exists j :: 0 <= j < |lines[1..]| && Unreadable(lines[1..][j])
      {
        assert lines[1..][i - 1] == lines[i];
      }
      if j :| 0 <= j < |lines[1..]| && Unreadable(lines[1..][j]) { assert lines[j + 1] == lines[1..][j]; }
    } else if lines != [] {
      assert Unreadable(lines[0]);
    }
  }

  /** The broker's count of a symbol is the sum over its lines; one unreadable
      line and there is none. */
  lemma HeldIsSum(lines: seq<Line>, symbol: string)
    ensures HeldFrom([], lines).None? <==> exists i :: 0 <= i < |lines| && Unreadable(lines[i])
    ensures HeldFrom([], lines).Some? ==> Get(HeldFrom([], lines).value, symbol, 0) == SharesHeld(lines, symbol)
  {
    HeldFromIsSum([], lines, symbol);
  }

  lemma {:induction false} AnyShortIff(recorded: Dict<int>, held: Dict<int>)
    ensures AnyShort(recorded, held) <==>
              exists i :: 0 <= i < |recorded| && Get(held, recorded[i].0, 0) < recorded[i].1
  {
    if recorded != [] {
      AnyShortIff(recorded[1..], held);
      if i :| 0 <= i < |recorded[1..]| && Get(held, recorded[1..][i].0, 0) < recorded[1..][i].1 {
        assert recorded[i + 1] == recorded[1..][i];
      }
      forall i | 0 <= i < |recorded| && Get(held, recorded[i].0, 0) < recorded[i].1
        ensures AnyShort(recorded, held)
      {
        if i > 0 { assert recorded[1..][i - 1] == recorded[i]; }
      }
    }
  }

  lemma {:induction false} GetAt(d: Dict<int>, i: nat)
    requires OncePerKey(d) && i < |d|
    ensures Get(d, d[i].0, 0) == d[i].1
  {
    if i > 0 {
      assert d[1..][i - 1] == d[i];
      GetAt(d[1..], i - 1);
    }
  }

  ghost predicate Readables(p: Positions) {
    p.Lines? && forall i | 0 <= i < |p.lines| :: !Unreadable(p.lines[i])
  }

  /** Some symbol is held at the broker in fewer shares than were bought net. */
  ghost predicate FallsShort(orders: Table<string, Order>, lines: seq<Line>) {
    exists s: string :: Bought(orders, s) > Sold(orders, s) && SharesHeld(lines, s) < Bought(orders, s) - Sold(orders, s)
  }

  lemma ShortIff(orders: Table<string, Order>, lines: seq<Line>)
    requires HeldFrom([], lines).Some?
    ensures AnyShort(Holdings(orders), HeldFrom([], lines).value) <==> FallsShort(orders, lines)
  {
    var d, held := Holdings(orders), HeldFrom([], lines).value;
    AnyShortIff(d, held);
    HoldingsListed(orders);
    if i :| 0 <= i < |d| && Get(held, d[i].0, 0) < d[i].1 {
      GetAt(d, i);
      HasIff(d, d[i].0);
      HoldingsAreNet(orders, d[i].0);
      HeldIsSum(lines, d[i].0);
    }
    if s: string :| Bought(orders, s) > Sold(orders, s) && SharesHeld(lines, s) < Bought(orders, s) - Sold(orders, s) {
      HoldingsAreNet(orders, s);
      HeldIsSum(lines, s);
      HasIff(d, s);
      var i :| 0 <= i < |d| && d[i].0 == s;
      GetAt(d, i);
    }
  }

  /** The positions that count: the first read, or, if a line of it was
      unreadable or some symbol fell short, the second; none if the one that
      counts could not be read. */
  function Counted(orders: Table<string, Order>, first: Positions, second: Positions): Option<seq<Line>> {
    if first.Raised? then None
    else
      var held := HeldFrom([], first.lines);
      if held.Some? && !AnyShort(Holdings(orders), held.value) then Some(first.lines)
      else if second.Raised? || HeldFrom([], second.lines).None? then None
      else Some(second.lines)
  }

  lemma CountedIff(orders: Table<string, Order>, first: Positions, second: Positions)
    ensures Counted(orders, first, second) ==
              if Readables(first) && !FallsShort(orders, first.lines) then Some(first.lines)
              else if first.Lines? && Readables(second) then Some(second.lines)
              else None
  {
    if first.Lines? {
      HeldIsSum(first.lines, "");
      if HeldFrom([], first.lines).Some? { ShortIff(orders, first.lines); }
    }
    if second.Lines? { HeldIsSum(second.lines, ""); }
  }

  /** The whole check, symbol by symbol, from the rows and the lines: a symbol
      with nothing left of it is not mentioned, and any other gets what the
      shares bought less the shares sold, against the sum over the lines that
      count, make the check say after what it last said. Without lines that
      count the check says only that it could not tell. */
  lemma CheckSays(events: seq<Note>, orders: Table<string, Order>, first: Positions, second: Positions, symbol: string)
    ensures var log := Accounted(events, orders, Some((first, second))).log;
            var net := Bought(orders, symbol) - Sold(orders, symbol);
            match Counted(orders, first, second)
            case None => log == if Holdings(orders) == [] then events else events + [Unverified]
            case Some(lines) =>
              About(log, symbol) == About(events, symbol) +
                if net <= 0 then []
                else match Says(LastSaid(events, symbol), symbol, net, SharesHeld(lines, symbol))
                  case None => []
                  case Some(note) => [note]
  {
    hide AddFill, Says, About, LastSaid;
    var d := Holdings(orders);
    HoldingsAreNet(orders, symbol);
    HoldingsListed(orders);
    hide Bought, Sold, RecordedFrom, Positive;
    if Counted(orders, first, second).Some? {
      var lines := Counted(orders, first, second).value;
      HeldIsSum(lines, symbol);
      if d != [] {
        SayAllAbout(events, SortedNames(d), d, HeldFrom([], lines).value, symbol);
        assert symbol in SortedNames(d) <==> multiset(SortedNames(d))[symbol] > 0;
      } else {
        assert !Has(d, symbol);
      }
      assert About(events, symbol) + [] == About(events, symbol);
    }
  }

  // ---- in name order ----

  lemma {:induction false} LessEqTotal(a: string, b: string)
    ensures LessEq(a, b) || LessEq(b, a)
  {
    if a != "" && b != "" { LessEqTotal(a[1..], b[1..]); }
  }

  lemma {:induction false} LessEqTransitive(a: string, b: string, c: string)
    requires LessEq(a, b) && LessEq(b, c)
    ensures LessEq(a, c)
  {
    if a != "" && a[0] == b[0] == c[0] { LessEqTransitive(a[1..], b[1..], c[1..]); }
  }

  ghost predicate Ascends(names: seq<string>) {
    forall i, j | 0 <= i < j < |names| :: LessEq(names[i], names[j])
  }

  lemma {:induction false} InsertAscends(names: seq<string>, x: string)
    requires Ascends(names)
    ensures Ascends(InsertName(names, x))
  {
    if names != [] && LessEq(x, names[0]) {
      forall j | 0 <= j < |names| ensures LessEq(x, names[j]) {
        if j > 0 { LessEqTransitive(x, names[0], names[j]); }
      }
    } else if names != [] {
      LessEqTotal(x, names[0]);
      var r := InsertName(names[1..], x);
      InsertAscends(names[1..], x);
      InsertNameHas(names[1..], x);
      forall j | 0 <= j < |r| ensures LessEq(names[0], r[j]) {
        assert r[j] in multiset(r);
        if r[j] != x {
          assert r[j] in multiset(names[1..]);
          var k :| 0 <= k < |names[1..]| && names[1..][k] == r[j];
          assert names[k + 1] == r[j];
        }
      }
    }
  }

  /** The symbols are taken in name order. */
  lemma {:induction false} NamesAscend(d: Dict<int>)
    ensures Ascends(SortedNames(d))
  {
    if d != [] {
      NamesAscend(d[1..]);
      InsertAscends(SortedNames(d[1..]), d[0].0);
    }
  }

  // ---- change points over any run of readable observations ----

  /** What the records and the broker said at one check. */
  datatype Observation = Observation(recorded: Dict<int>, held: Dict<int>)

  ghost predicate Proper(o: Observation) { Listing(SortedNames(o.recorded), o.recorded) }

  /** The log after the first n checks. */
  function LogAfter(obs: seq<Observation>, n: nat): seq<Note>
    requires n <= |obs|
  {
    if n == 0 then []
    else
      var o := obs[n - 1];
      SayAll(LogAfter(obs, n - 1), SortedNames(o.recorded), o.recorded, o.held)
  }

  function Gap(o: Observation, symbol: string): int {
    var gap := Get(o.recorded, symbol, 0) - Get(o.held, symbol, 0);
    if gap > 0 then gap else 0
  }

  /** Held throughout, and never written off. */
  ghost predicate Growing(obs: seq<Observation>, symbol: string) {
    && (forall i | 0 <= i < |obs| :: Proper(obs[i]) && Has(obs[i].recorded, symbol))
    && (forall i, j | 0 <= i < j < |obs| ::
          Get(obs[i].recorded, symbol, 0) <= Get(obs[j].recorded, symbol, 0))
  }

  function GapBefore(obs: seq<Observation>, i: nat, symbol: string): int
    requires i <= |obs|
  {
    if i == 0 then 0 else Gap(obs[i - 1], symbol)
  }

  /** What the i-th observation should make the check say. */
  function Change(obs: seq<Observation>, i: nat, symbol: string): seq<Note>
    requires i < |obs|
  {
    var o := obs[i];
    if Gap(o, symbol) == GapBefore(obs, i, symbol) then []
    else if Gap(o, symbol) == 0 then [Cleared(symbol)]
    else [Shortfall(symbol, Get(o.recorded, symbol, 0), Get(o.held, symbol, 0))]
  }

  function Changes(obs: seq<Observation>, n: nat, symbol: string): seq<Note>
    requires n <= |obs|
  {
    if n == 0 then [] else Changes(obs, n - 1, symbol) + Change(obs, n - 1, symbol)
  }

  /** The standing finding is the last observed gap, raised when no more was
      recorded than now. */
  ghost predicate StandsAt(last: Option<Note>, gap: int, want: int) {
    if gap == 0 then last.None? || last.value.Cleared?
    else last.Some? && last.value.Shortfall? && last.value.recorded - last.value.held == gap && last.value.recorded <= want
  }

  lemma StandStep(last: Option<Note>, gap: int, before: int, symbol: string, want: int, have: int)
    requires StandsAt(last, gap, before) && (gap > 0 ==> before <= want) && gap >= 0
    ensures var gap' := if want > have then want - have else 0;
            var said := Says(last, symbol, want, have);
            && StandsAt(if said.Some? then said else last, gap', want)
            && said == if gap' == gap then None
                       else if gap' == 0 then Some(Cleared(symbol)) else Some(Shortfall(symbol, want, have))
  {
  }

  /** One more observation, seen from one symbol. */
  lemma ObserveStep(log: seq<Note>, o: Observation, gap: int, before: int, symbol: string)
    requires Proper(o) && Has(o.recorded, symbol)
    requires StandsAt(LastSaid(log, symbol), gap, before) && gap >= 0
    requires gap > 0 ==> before <= Get(o.recorded, symbol, 0)
    ensures var log' := SayAll(log, SortedNames(o.recorded), o.recorded, o.held);
            && StandsAt(LastSaid(log', symbol), Gap(o, symbol), Get(o.recorded, symbol, 0))
            && About(log', symbol) == About(log, symbol)
                 + if Gap(o, symbol) == gap then []
                   else if Gap(o, symbol) == 0 then [Cleared(symbol)]
                   else [Shortfall(symbol, Get(o.recorded, symbol, 0), Get(o.held, symbol, 0))]
  {
    hide LastSaid, About, SayAll, SortedNames, Says, StandsAt;
    assert multiset(SortedNames(o.recorded))[symbol] == 1;
    SayAllAbout(log, SortedNames(o.recorded), o.recorded, o.held, symbol);
    StandStep(LastSaid(log, symbol), gap, before, symbol, Get(o.recorded, symbol, 0), Get(o.held, symbol, 0));
  }

  lemma GrowingStep(obs: seq<Observation>, n: nat, symbol: string)
    requires Growing(obs, symbol) && 0 < n <= |obs|
    ensures Proper(obs[n - 1]) && Has(obs[n - 1].recorded, symbol)
    ensures n > 1 ==> Get(obs[n - 2].recorded, symbol, 0) <= Get(obs[n - 1].recorded, symbol, 0)
  {
  }

  /** After n checks: the standing finding is right, and everything said about
      the symbol so far is its changes. */
  ghost predicate TrueSoFar(obs: seq<Observation>, n: nat, symbol: string)
    requires n <= |obs|
  {
    && StandsAt(LastSaid(LogAfter(obs, n), symbol), GapBefore(obs, n, symbol),
                if n == 0 then 0 else Get(obs[n - 1].recorded, symbol, 0))
    && About(LogAfter(obs, n), symbol) == Changes(obs, n, symbol)
  }

  lemma TrueAtFirst(obs: seq<Observation>, symbol: string)
    ensures TrueSoFar(obs, 0, symbol)
  {
  }

  lemma TrueNext(obs: seq<Observation>, n: nat, symbol: string)
    requires Growing(obs, symbol) && 0 < n <= |obs| && TrueSoFar(obs, n - 1, symbol)
    ensures TrueSoFar(obs, n, symbol)
  {
    hide LastSaid, About, SayAll, SortedNames, Says, StandsAt;
    GrowingStep(obs, n, symbol);
    hide Growing, Proper, Has, Get;
    ObserveStep(LogAfter(obs, n - 1), obs[n - 1], GapBefore(obs, n - 1, symbol),
                if n == 1 then 0 else Get(obs[n - 2].recorded, symbol, 0), symbol);
  }

  lemma {:induction false} Standing(obs: seq<Observation>, n: nat, symbol: string)
    requires Growing(obs, symbol) && n <= |obs|
    ensures TrueSoFar(obs, n, symbol)
  {
    hide Growing, TrueSoFar;
    if n == 0 {
      TrueAtFirst(obs, symbol);
    } else {
      Standing(obs, n - 1, symbol);
      TrueNext(obs, n, symbol);
    }
  }

  /** Over any run of readable checks in which a symbol stays recorded and is
      never written off, what the log says about it is exactly one alert at
      each change of max(0, recorded - held), clearing included and re-armed
      after it, however many other symbols share the log. */
  lemma AlertsAreChangePoints(obs: seq<Observation>, symbol: string)
    requires Growing(obs, symbol)
    ensures About(LogAfter(obs, |obs|), symbol) == Changes(obs, |obs|, symbol)
  {
    Standing(obs, |obs|, symbol);
  }

  /** Without that assumption, exactly one more thing speaks: a write-off below
      what the standing finding was raised at, even at the same gap. Whatever
      speaks says the gap as it is. */
  lemma SilentIff(last: Option<Note>, symbol: string, want: int, have: int)
    requires last.Some? && last.value.Shortfall? ==> last.value.held < last.value.recorded
    ensures var standing := if last.Some? && last.value.Shortfall? then last.value.recorded - last.value.held else 0;
            var gap := if want > have then want - have else 0;
            && (Says(last, symbol, want, have).None? <==>
                  gap == standing && (gap > 0 ==> want >= last.value.recorded))
            && (Says(last, symbol, want, have).Some? ==>
                  Says(last, symbol, want, have).value
                  == if gap == 0 then Cleared(symbol) else Shortfall(symbol, want, have))
  {
  }

  /** The method's own pass is one such observation; it re-reads at most once. */
  lemma ChecksObserve(events: seq<Note>, orders: Table<string, Order>, broker: Option<(Positions, Positions)>)
    ensures Accounted(events, orders, broker).lookups <= 2
    ensures broker.Some? && Holdings(orders) != []
              && ReadPositions(Holdings(orders), broker.value.0, broker.value.1).Readable? ==>
              exists o :: Proper(o) && o.recorded == Holdings(orders)
                && Accounted(events, orders, broker).log == SayAll(events, SortedNames(o.recorded), o.recorded, o.held)
  {
    HoldingsListed(orders);
    if broker.Some? && ReadPositions(Holdings(orders), broker.value.0, broker.value.1).Readable? {
      var o := Observation(Holdings(orders), ReadPositions(Holdings(orders), broker.value.0, broker.value.1).held);
      assert Proper(o);
    }
  }
}
