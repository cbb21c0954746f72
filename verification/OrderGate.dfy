/** The PreToolUse order gate: which broker tools may run at all, and the
    ticket check every order-placing call must pass. */
module OrderGate {
  import opened Records
  import opened FundTables
  import opened Broker

  // ---- which verbs reach the broker ----

  const BROKER_PREFIX := "mcp__alpaca__"
  const PLACE_PREFIX := "mcp__alpaca__place_"
  const READ_PREFIX := "mcp__alpaca__get_"
  const READ_VERBS := {
    "mcp__alpaca__search_alpaca_api_specs", "mcp__alpaca__search_alpaca_docs",
    "mcp__alpaca__fetch_alpaca_doc", "mcp__alpaca__list_alpaca_api_endpoints"}

  datatype Policy = Allow | Gated | Deny

  function VerbPolicy(tool: string): Policy {
    if !(BROKER_PREFIX <= tool) then Allow
    else if PLACE_PREFIX <= tool then Gated
    else if READ_PREFIX <= tool || tool in READ_VERBS then Allow
    else Deny
  }

  // ---- tool input ----

  datatype Json = Null | Flag(b: bool) | Int(n: int) | Float(r: real) | Text(s: string) | Structure

  datatype ToolInput = NotAnObject | Object(fields: map<string, Json>)

  /** Python's own string coercers where this model does not read the string
      itself: float(s) for anything but plain decimals; int(s) where s.isdigit()
      and s is not all ASCII; and s.strip().lower(). */
  datatype Lexer = Lexer(
    asFloat: string -> Option<real>, asDigits: string -> Option<int>, normalize: string -> string)

  function Field(input: ToolInput, k: string): Json {
    if input.Object? && k in input.fields then input.fields[k] else Null
  }

  predicate Ascii(s: string) { forall i | 0 <= i < |s| :: s[i] as int < 128 }

  function ShareCount(lex: Lexer, v: Json): Option<int> {
    match v
    case Int(n) => Some(n)
    case Text(s) =>
      if s != "" && AllDigits(s) then Some(DigitsValue(s))
      else if Ascii(s) then None
      else lex.asDigits(s)
    case _ => None
  }

  function Tens(n: nat): (r: real)
    ensures r >= 1.0
  {
    if n == 0 then 1.0 else 10.0 * Tens(n - 1)
  }

  /** Digits, a point, digits; the point or either side may be missing, but
      not every digit. */
  function PlainDecimal(s: string): Option<real> {
    var d := DotAt(s, 0);
    if !AllDigits(s[..d]) then None
    else if d == |s| then (if d == 0 then None else Some(DigitsValue(s) as real))
    else if |s| < 2 || !AllDigits(s[d + 1..]) then None
    else Some(DigitsValue(s[..d]) as real + DigitsValue(s[d + 1..]) as real / Tens(|s| - d - 1))
  }

  function Price(lex: Lexer, v: Json): Option<real> {
    match v
    case Int(n) => Some(n as real)
    case Float(r) => Some(r)
    case Text(s) => (match PlainDecimal(s) case Some(x) => Some(x) case None => lex.asFloat(s))
    case _ => None
  }

  function SideName(s: Side): string { if s == Buy then "buy" else "sell" }

  // ---- the ticket check ----

  datatype DenyReason =
    | Malformed | NoClientOrderId | NoTicket | NotOpen | PastExpiry | WrongSymbol | WrongSide
    | BadQty | OverCap | NestedLeg | LegOnUnstoppedTicket | ExtraLeg | WrongStop | NotOto | NotGtc
    | VerbNotGated

  datatype Verdict = Ok | Denied(why: DenyReason)

  function ValidateOrder(b: Books, lex: Lexer, input: ToolInput, now: int): Verdict {
    var coid := Field(input, "client_order_id");
    if input.NotAnObject? then Denied(Malformed)
    else if !coid.Text? || coid.s == "" then Denied(NoClientOrderId)
    else if coid.s !in b.tickets.rows then Denied(NoTicket)
    else
      var t := b.tickets.rows[coid.s];
      var qty := ShareCount(lex, Field(input, "qty"));
      if t.status != Open then Denied(NotOpen)
      else if now >= t.expiresAt then Denied(PastExpiry)
      else if Field(input, "symbol") != Text(t.ticker) then Denied(WrongSymbol)
      else if Field(input, "side") != Text(SideName(t.side)) then Denied(WrongSide)
      else if qty.None? || qty.value < 1 then Denied(BadQty)
      else if qty.value > t.maxQty then Denied(OverCap)
      else if Field(input, "stop_loss") != Null || Field(input, "take_profit") != Null then Denied(NestedLeg)
      else ValidateLegs(lex, input, t.stopPrice)
  }

  function ValidateLegs(lex: Lexer, input: ToolInput, stop: Option<real>): Verdict {
    var stopLeg := Field(input, "stop_loss_stop_price");
    var limitLeg := Field(input, "stop_loss_limit_price");
    var profitLeg := Field(input, "take_profit_limit_price");
    var tif := Field(input, "time_in_force");
    if stop.None? then
      if stopLeg != Null || limitLeg != Null || profitLeg != Null then Denied(LegOnUnstoppedTicket) else Ok
    else if limitLeg != Null || profitLeg != Null then Denied(ExtraLeg)
    else if Price(lex, stopLeg) != stop then Denied(WrongStop)
    else if Field(input, "order_class") != Text("oto") then Denied(NotOto)
    else if !tif.Text? || lex.normalize(tif.s) != "gtc" then Denied(NotGtc)
    else Ok
  }

  /** The hook's answer to one tool call: Ok lets the call through. */
  function Gate(b: Books, lex: Lexer, tool: string, input: ToolInput, now: int): Verdict {
    match VerbPolicy(tool)
    case Allow => Ok
    case Deny => Denied(VerbNotGated)
    case Gated => ValidateOrder(b, lex, input, now)
  }

  /** The order a validated call asks the broker to accept. */
  function RequestOf(b: Books, lex: Lexer, input: ToolInput, now: int): Request
    requires ValidateOrder(b, lex, input, now).Ok?
  {
    var coid := Field(input, "client_order_id").s;
    var t := b.tickets.rows[coid];
    Request(coid, t.ticker, t.side, ShareCount(lex, Field(input, "qty")).value, t.sizedOn,
            t.decisionId in b.decisions.rows && b.decisions.rows[t.decisionId].status != Submitted)
  }

  // ---- what getting through means ----

  /** The field says n shares: the integer n, or a text all of digits worth n.
      A boolean, a float and any other ASCII text say nothing. */
  predicate SaysShares(lex: Lexer, v: Json, n: int) {
    || v == Int(n)
    || (v.Text? && v.s != "" && AllDigits(v.s) && DigitsValue(v.s) == n)
    || (v.Text? && !Ascii(v.s) && lex.asDigits(v.s) == Some(n))
  }

  /** s spells the digits w, a point and the digits z (or w alone), of which
      there is at least one. */
  predicate Spells(s: string, w: string, z: string) {
    && AllDigits(w) && AllDigits(z) && w + z != ""
    && (s == w + "." + z || (z == "" && s == w))
  }

  /** The field says the price x: a number equal to x, or a decimal text worth
      x; a text spelled any other way says what float() makes of it. */
  ghost predicate SaysPrice(lex: Lexer, v: Json, x: real) {
    || v == Float(x)
    || (v.Int? && v.n as real == x)
    || (v.Text? && exists w: string, z: string ::
          Spells(v.s, w, z) && x == DigitsValue(w) as real + DigitsValue(z) as real / Tens(|z|))
    || (v.Text? && !(exists w: string, z: string :: Spells(v.s, w, z)) && lex.asFloat(v.s) == Some(x))
  }

  /** The order as the broker will read it, field by field. */
  predicate AsksFor(lex: Lexer, input: ToolInput, coid: string, symbol: string, side: Side, qty: int) {
    && input.Object?
    && Field(input, "client_order_id") == Text(coid)
    && Field(input, "symbol") == Text(symbol)
    && Field(input, "side") == Text(SideName(side))
    && SaysShares(lex, Field(input, "qty"), qty)
  }

  lemma SharesAreRead(lex: Lexer, v: Json, n: int)
    ensures ShareCount(lex, v) == Some(n) <==> SaysShares(lex, v, n)
  {
    if v.Text? && AllDigits(v.s) {
      assert forall i | 0 <= i < |v.s| :: IsDigit(v.s[i]);
      assert Ascii(v.s);
    }
  }

  lemma PointIsAt(w: string, z: string)
    requires AllDigits(w)
    ensures DotAt(w + "." + z, 0) == |w|
  {
    var s := w + "." + z;
    assert s[|w|] == '.';
    assert forall i | 0 <= i < |w| :: s[i] == w[i] && IsDigit(w[i]) && s[i] != '.';
  }

  lemma NoPoint(w: string)
    requires AllDigits(w)
    ensures DotAt(w, 0) == |w|
  {
    assert forall i | 0 <= i < |w| :: IsDigit(w[i]) && w[i] != '.';
  }

  lemma PointIsFound(s: string, w: string, z: string)
    requires Spells(s, w, z)
    ensures PlainDecimal(s) == Some(DigitsValue(w) as real + DigitsValue(z) as real / Tens(|z|))
  {
    if s == w + "." + z {
      PointIsAt(w, z);
      assert s[..|w|] == w && s[|w| + 1..] == z && |s| - |w| - 1 == |z|;
      assert |s| >= 2;
      hide DigitsValue, Tens, DotAt, AllDigits;
    } else {
      NoPoint(w);
      assert s[..|w|] == w;
      assert DigitsValue("") as real / Tens(|z|) == 0.0;
      hide DigitsValue, Tens, DotAt, AllDigits;
    }
  }

  lemma PlainIsSpelled(s: string)
    requires PlainDecimal(s).Some?
    ensures exists w: string, z: string ::
              Spells(s, w, z) && PlainDecimal(s).value == DigitsValue(w) as real + DigitsValue(z) as real / Tens(|z|)
  {
    var d := DotAt(s, 0);
    if d == |s| {
      assert s[..d] == s && AllDigits("") && s + "" == s;
      assert DigitsValue("") == 0;
      assert Spells(s, s, "") && PlainDecimal(s).value == DigitsValue(s) as real + DigitsValue("") as real / Tens(|""|);
    } else {
      assert s == s[..d] + "." + s[d + 1..];
      assert Spells(s, s[..d], s[d + 1..]);
    }
  }

  lemma PlainIff(s: string, x: real)
    ensures PlainDecimal(s) == Some(x) <==>
              exists w: string, z: string :: Spells(s, w, z) && x == DigitsValue(w) as real + DigitsValue(z) as real / Tens(|z|)
  {
    hide PlainDecimal;
    if PlainDecimal(s) == Some(x) { PlainIsSpelled(s); }
    if w: string, z: string :| Spells(s, w, z) && x == DigitsValue(w) as real + DigitsValue(z) as real / Tens(|z|) {
      PointIsFound(s, w, z);
    }
  }

  lemma PlainOrOther(s: string)
    ensures PlainDecimal(s).Some? <==> exists w: string, z: string :: Spells(s, w, z)
  {
    hide PlainDecimal;
    if PlainDecimal(s).Some? { PlainIsSpelled(s); }
    if w: string, z: string :| Spells(s, w, z) { PointIsFound(s, w, z); }
  }

  lemma PriceIsRead(lex: Lexer, v: Json, x: real)
    ensures Price(lex, v) == Some(x) <==> SaysPrice(lex, v, x)
  {
    hide PlainDecimal, Spells, DigitsValue, Tens;
    if v.Text? {
      PlainIff(v.s, x);
      PlainOrOther(v.s);
    }
  }

  /** The exit an order carries: none, or one stop-market leg good till
      cancelled. Every other combination of leg fields is neither. */
  predicate NoExit(input: ToolInput) {
    forall k | k in {"stop_loss", "take_profit", "stop_loss_stop_price",
                     "stop_loss_limit_price", "take_profit_limit_price"} :: Field(input, k) == Null
  }

  ghost predicate StopMarketExit(lex: Lexer, input: ToolInput, stop: real) {
    && (forall k | k in {"stop_loss", "take_profit", "stop_loss_limit_price",
                         "take_profit_limit_price"} :: Field(input, k) == Null)
    && SaysPrice(lex, Field(input, "stop_loss_stop_price"), stop)
    && Field(input, "order_class") == Text("oto")
    && Field(input, "time_in_force").Text?
    && lex.normalize(Field(input, "time_in_force").s) == "gtc"
  }

  /** The order this input asks for is one that this ticket names: live and
      unexpired, ticker, side, at most the cap, and exactly the ticket's exit. */
  ghost predicate Named(lex: Lexer, input: ToolInput, now: int, coid: string, t: Ticket, qty: int) {
    && AsksFor(lex, input, coid, t.ticker, t.side, qty)
    && t.status == Open && now < t.expiresAt && 1 <= qty <= t.maxQty
    && match t.stopPrice
       case None => NoExit(input)
       case Some(stop) => StopMarketExit(lex, input, stop)
  }

  lemma LegsAreTheExit(lex: Lexer, input: ToolInput, stop: Option<real>)
    requires Field(input, "stop_loss") == Null && Field(input, "take_profit") == Null
    ensures ValidateLegs(lex, input, stop).Ok? <==>
              match stop case None => NoExit(input) case Some(x) => StopMarketExit(lex, input, x)
  {
    hide Price, SaysPrice;
    if stop.Some? { PriceIsRead(lex, Field(input, "stop_loss_stop_price"), stop.value); }
  }

  lemma ValidatedIsNamed(b: Books, lex: Lexer, input: ToolInput, now: int)
    requires ValidateOrder(b, lex, input, now).Ok?
    ensures var r := RequestOf(b, lex, input, now);
            && AsksFor(lex, input, r.coid, r.symbol, r.side, r.qty)
            && r.coid != "" && r.coid in b.tickets.rows
            && Named(lex, input, now, r.coid, b.tickets.rows[r.coid], r.qty)
  {
    hide ValidateLegs, ShareCount, SaysShares, StopMarketExit;
    var r := RequestOf(b, lex, input, now);
    SharesAreRead(lex, Field(input, "qty"), r.qty);
    LegsAreTheExit(lex, input, b.tickets.rows[r.coid].stopPrice);
  }

  lemma NamedIsValidated(b: Books, lex: Lexer, input: ToolInput, now: int, coid: string, qty: int)
    requires coid != "" && coid in b.tickets.rows && Named(lex, input, now, coid, b.tickets.rows[coid], qty)
    ensures ValidateOrder(b, lex, input, now).Ok?
    ensures RequestOf(b, lex, input, now).qty == qty
  {
    hide ValidateLegs, ShareCount, SaysShares, SaysPrice;
    SharesAreRead(lex, Field(input, "qty"), qty);
    LegsAreTheExit(lex, input, b.tickets.rows[coid].stopPrice);
  }

  /** A call is let through exactly when it cannot touch an order (it is
      outside the broker's namespace or a known read), or it places precisely
      an order that some ticket names; the quantity and the stop are what the
      raw fields say. */
  lemma GateOpensIff(b: Books, lex: Lexer, tool: string, input: ToolInput, now: int)
    ensures Gate(b, lex, tool, input, now).Ok? <==>
            || !(BROKER_PREFIX <= tool)
            || (READ_PREFIX <= tool || tool in READ_VERBS)
            || (PLACE_PREFIX <= tool && exists coid, qty ::
                  coid != "" && coid in b.tickets.rows && Named(lex, input, now, coid, b.tickets.rows[coid], qty))
  {
    hide Named, ValidateOrder;
    ReadsAreNotPlacements(tool);
    if ValidateOrder(b, lex, input, now).Ok? { ValidatedIsNamed(b, lex, input, now); }
    forall coid, qty | coid != "" && coid in b.tickets.rows && Named(lex, input, now, coid, b.tickets.rows[coid], qty)
      ensures ValidateOrder(b, lex, input, now).Ok?
    {
      NamedIsValidated(b, lex, input, now, coid, qty);
    }
  }

  /** A text quantity is one number only: a call let through for "100" asks for
      100, never for what its first digits say. */
  lemma NumeralsAreAskedInFull(b: Books, lex: Lexer, input: ToolInput, now: int, n: nat)
    requires Field(input, "qty") == Text(Numeral(n)) && ValidateOrder(b, lex, input, now).Ok?
    ensures RequestOf(b, lex, input, now).qty == n
    ensures n <= b.tickets.rows[RequestOf(b, lex, input, now).coid].maxQty
  {
    NumeralIsRead(n);
  }

  lemma ReadsAreNotPlacements(tool: string)
    ensures PLACE_PREFIX <= tool ==> BROKER_PREFIX <= tool && !(READ_PREFIX <= tool) && tool !in READ_VERBS
    ensures READ_PREFIX <= tool ==> BROKER_PREFIX <= tool
    ensures tool in READ_VERBS ==> BROKER_PREFIX <= tool
  {
    if PLACE_PREFIX <= tool {
      assert tool[13] == PLACE_PREFIX[13] == 'p';
      assert READ_PREFIX[13] == 'g';
      assert BROKER_PREFIX == PLACE_PREFIX[..13];
    }
    assert BROKER_PREFIX == READ_PREFIX[..13];
  }
}
