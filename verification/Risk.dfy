/** The deterministic position sizer of gate/risk.py, over exact reals. */
module Risk {
  import opened Records

  const SECTOR_CAP := 0.60
  const MAX_POSITIONS := 8
  const CIRCUIT_BREAKER := -0.03

  /** A feed that passed GateInputs' typing and finiteness validators. */
  datatype GateInputs = GateInputs(
    equity: real, cash: real, price: real, vol60d: real, avgCorr: real,
    heldQty: int, positionCount: int, sectorValue: real, dailyPnlPct: real)

  /** What the market feed supplied: validated inputs, or anything else. */
  datatype Snapshot = Malformed | Inputs(i: GateInputs)

  datatype Reason = GateError | NothingHeld | CircuitBreaker | PositionCount | NoHeadroom

  datatype Sizing = Approved(maxQty: int, preSectorQty: int) | Rejected(reason: Reason)

  function VolTier(vol: real): real {
    if vol < 0.15 then 0.25 else if vol <= 0.50 then 0.20 else 0.10
  }

  function CorrMult(corr: real): real {
    if corr >= 0.8 then 0.70
    else if corr >= 0.6 then 0.85
    else if corr >= 0.4 then 0.95
    else if corr >= 0.2 then 1.00
    else 1.10
  }

  predicate InRange(i: GateInputs) {
    && i.price > 0.0 && i.equity > 0.0 && i.cash >= 0.0 && i.heldQty >= 0
    && i.vol60d >= 0.0 && i.sectorValue >= 0.0 && i.positionCount >= 0
    && -1.0 <= i.avgCorr <= 1.0
  }

  function Min(a: int, b: int): int { if a <= b then a else b }
  function MinReal(a: real, b: real): real { if a <= b then a else b }
  function MaxReal(a: real, b: real): real { if a >= b then a else b }

  function TierDollars(i: GateInputs): real {
    i.equity * VolTier(i.vol60d) * CorrMult(i.avgCorr)
  }

  function Size(s: Snapshot, side: Side): Sizing {
    if s.Malformed? || !InRange(s.i) then Rejected(GateError)
    else
      var i := s.i;
      if side == Sell then
        if i.heldQty > 0 then Approved(i.heldQty, i.heldQty) else Rejected(NothingHeld)
      else if i.dailyPnlPct <= CIRCUIT_BREAKER then Rejected(CircuitBreaker)
      else if i.heldQty == 0 && i.positionCount >= MAX_POSITIONS then Rejected(PositionCount)
      else
        var preSector := (MinReal(TierDollars(i), i.cash) / i.price).Floor;
        var headroom := SECTOR_CAP * i.equity - i.sectorValue;
        var qty := Min(preSector, (MaxReal(headroom, 0.0) / i.price).Floor);
        if qty < 1 then Rejected(NoHeadroom) else Approved(qty, preSector)
  }

  /** The sizer authorizes q shares of this side on this snapshot. */
  predicate Allows(s: Snapshot, side: Side, q: int) {
    Size(s, side).Approved? && q <= Size(s, side).maxQty
  }

  // ---- what the number means ----

  /** What q shares cost. */
  function Value(q: int, price: real): real { q as real * price }

  /** q shares at this price stay within a cash balance, a dollar tier and
      the room left under a sector cap. */
  predicate Within(q: int, price: real, cash: real, dollars: real, sector: real, cap: real) {
    && Value(q, price) <= cash
    && Value(q, price) <= dollars
    && sector + Value(q, price) <= cap
  }

  /** q shares respect cash, the volatility/correlation tier and the
      post-trade sector cap. */
  predicate Fits(i: GateInputs, q: int) {
    Within(q, i.price, i.cash, TierDollars(i), i.sectorValue, SECTOR_CAP * i.equity)
  }

  /** The two switches that refuse a buy before any arithmetic. */
  predicate MayBuy(i: GateInputs) {
    && InRange(i)
    && i.dailyPnlPct > CIRCUIT_BREAKER
    && (i.heldQty > 0 || i.positionCount < MAX_POSITIONS)
  }

  lemma FloorQuotient(x: real, p: real, q: int)
    requires p > 0.0
    ensures q <= (x / p).Floor <==> Value(q, p) <= x
  {
    var f := (x / p).Floor;
    assert f as real <= x / p < f as real + 1.0;
    assert (x / p) * p == x;
    if q <= f {
      assert q as real <= x / p;
      assert q as real * p <= (x / p) * p;
    } else {
      assert q as real >= f as real + 1.0;
      assert q as real * p > (x / p) * p;
    }
  }

  lemma FitsIffBelowCap(i: GateInputs, q: int)
    requires InRange(i) && q >= 1
    ensures Fits(i, q) <==>
            q <= (MinReal(TierDollars(i), i.cash) / i.price).Floor
            && q <= (MaxReal(SECTOR_CAP * i.equity - i.sectorValue, 0.0) / i.price).Floor
  {
    hide TierDollars, Value;
    var dollars, cap, spent := TierDollars(i), SECTOR_CAP * i.equity, Value(q, i.price);
    FloorQuotient(MinReal(dollars, i.cash), i.price, q);
    FloorQuotient(MaxReal(cap - i.sectorValue, 0.0), i.price, q);
    ValueIsPositive(q, i.price);
    BothRooms(spent, i.cash, dollars, i.sectorValue, cap);
  }

  lemma ValueIsPositive(q: int, price: real)
    requires q >= 1 && price > 0.0
    ensures Value(q, price) > 0.0
  {
  }

  lemma BothRooms(spent: real, cash: real, dollars: real, sector: real, cap: real)
    requires spent > 0.0
    ensures spent <= cash && spent <= dollars && sector + spent <= cap <==>
            spent <= MinReal(dollars, cash) && spent <= MaxReal(cap - sector, 0.0)
  {
  }

  /** A buy of q shares is authorized exactly when the switches are off and q
      shares fit. */
  lemma BuyAllowedIff(i: GateInputs, q: int)
    requires q >= 1
    ensures Allows(Inputs(i), Buy, q) <==> MayBuy(i) && Fits(i, q)
  {
    if MayBuy(i) {
      FitsIffBelowCap(i, q);
      hide Fits, TierDollars;
    }
  }

  /** The approved quantity is the largest that fits: one share more breaks the
      cash, tier or sector bound. */
  lemma BuyIsMaximal(i: GateInputs)
    requires Size(Inputs(i), Buy).Approved?
    ensures var m := Size(Inputs(i), Buy).maxQty; m >= 1 && Fits(i, m) && !Fits(i, m + 1)
  {
    hide Fits, TierDollars;
    var m := Size(Inputs(i), Buy).maxQty;
    BuyAllowedIff(i, m);
    BuyAllowedIff(i, m + 1);
  }

  /** A buy is refused for headroom exactly when not even one share fits. */
  lemma NoHeadroomIff(i: GateInputs)
    requires MayBuy(i)
    ensures Size(Inputs(i), Buy) == Rejected(NoHeadroom) <==> !Fits(i, 1)
  {
    hide Fits, TierDollars;
    BuyAllowedIff(i, 1);
  }

  /** A sell of q shares is authorized exactly when that many are held, whatever
      the breaker, the cash, the tier and the sector. */
  lemma SellAllowedIff(i: GateInputs, q: int)
    requires q >= 1
    ensures Allows(Inputs(i), Sell, q) <==> InRange(i) && q <= i.heldQty
  {
  }

  /** What a refusal means, reason by reason; NoHeadroomIff has the last one. */
  lemma ReasonsMean(s: Snapshot, side: Side)
    ensures Size(s, side) == Rejected(GateError) <==> s.Malformed? || !InRange(s.i)
    ensures Size(s, side) == Rejected(NothingHeld) <==>
              s.Inputs? && InRange(s.i) && side == Sell && s.i.heldQty == 0
    ensures Size(s, side) == Rejected(CircuitBreaker) <==>
              s.Inputs? && InRange(s.i) && side == Buy && s.i.dailyPnlPct <= CIRCUIT_BREAKER
    ensures Size(s, side) == Rejected(PositionCount) <==>
              s.Inputs? && InRange(s.i) && side == Buy && s.i.dailyPnlPct > CIRCUIT_BREAKER
              && s.i.heldQty == 0 && s.i.positionCount >= MAX_POSITIONS
    ensures Size(s, side) == Rejected(NoHeadroom) ==> side == Buy && s.Inputs? && MayBuy(s.i)
  {
  }

  /** The tier is never above 27.5 nor below 7 percent of equity. */
  lemma TierIsBounded(i: GateInputs)
    requires InRange(i)
    ensures 0.07 * i.equity <= TierDollars(i) <= 0.275 * i.equity
  {
    var v, c := VolTier(i.vol60d), CorrMult(i.avgCorr);
    TierProduct(v, c);
    assert TierDollars(i) == i.equity * (v * c);
    assert i.equity * 0.07 <= i.equity * (v * c) <= i.equity * 0.275;
  }

  lemma TierProduct(v: real, c: real)
    requires 0.10 <= v <= 0.25 && 0.70 <= c <= 1.10
    ensures 0.07 <= v * c <= 0.275
  {
    assert 0.10 * c <= v * c <= 0.25 * c;
  }

  /** The golden day's account and market: 100000 of equity, 30000 in cash, two
      tech positions worth 48040, NVDA at 180. */
  const Golden := GateInputs(100000.0, 30000.0, 180.0, 0.42, 0.55, 0, 2, 48040.0, -0.004)

  /** What the golden day and its boundaries size to: 66 shares of 105; the tier
      at each volatility and correlation boundary; and the sector cap's edge, a
      share of headroom apart. */
  lemma GoldenDay()
    ensures Size(Inputs(Golden), Buy) == Approved(66, 105)
    ensures forall v: real | v in {0.15, 0.499, 0.50} :: TierDollars(Golden.(vol60d := v, avgCorr := 0.0)) == 22000.0
    ensures TierDollars(Golden.(vol60d := 0.149, avgCorr := 0.0)) == 27500.0
    ensures TierDollars(Golden.(vol60d := 0.501, avgCorr := 0.0)) == 11000.0
    ensures TierDollars(Golden.(avgCorr := 0.19)) == 22000.0
    ensures forall c: real | c in {0.2, 0.39} :: TierDollars(Golden.(avgCorr := c)) == 20000.0
    ensures TierDollars(Golden.(avgCorr := 0.4)) == 19000.0
    ensures forall c: real | c in {0.6, 0.79} :: TierDollars(Golden.(avgCorr := c)) == 17000.0
    ensures TierDollars(Golden.(avgCorr := 0.8)) == 14000.0
    ensures Size(Inputs(Golden.(sectorValue := 59640.0)), Buy) == Approved(2, 105)
    ensures Size(Inputs(Golden.(sectorValue := 59820.0)), Buy) == Approved(1, 105)
    ensures forall x: real | x in {59820.01, 60000.0, 61000.0} ::
              Size(Inputs(Golden.(sectorValue := x)), Buy) == Rejected(NoHeadroom)
  {
  }

  /** The reported pre-sector quantity is the most that cash and tier allow; a
      sell's is its cap. */
  lemma PreSectorIgnoresTheSector(i: GateInputs, side: Side)
    requires Size(Inputs(i), side).Approved?
    ensures var r := Size(Inputs(i), side);
            match side
            case Sell => r.preSectorQty == r.maxQty == i.heldQty
            case Buy =>
              && r.maxQty <= r.preSectorQty
              && Value(r.preSectorQty, i.price) <= MinReal(i.cash, TierDollars(i))
              && Value(r.preSectorQty + 1, i.price) > MinReal(i.cash, TierDollars(i))
  {
    if side == Buy {
      var pre := Size(Inputs(i), Buy).preSectorQty;
      hide TierDollars, Value;
      FloorQuotient(MinReal(TierDollars(i), i.cash), i.price, pre);
      FloorQuotient(MinReal(TierDollars(i), i.cash), i.price, pre + 1);
    }
  }

  /** The facts that authorize q shares. */
  predicate Warrants(s: Snapshot, side: Side, q: int) {
    && s.Inputs? && InRange(s.i)
    && match side
       case Sell => q <= s.i.heldQty
       case Buy => MayBuy(s.i) && Fits(s.i, q)
  }

  /** What an approval warrants, for both sides. */
  lemma AllowsWarrants(s: Snapshot, side: Side, q: int)
    requires q >= 1
    ensures Allows(s, side, q) <==> Warrants(s, side, q)
  {
    if s.Inputs? {
      hide Fits, TierDollars;
      BuyAllowedIff(s.i, q);
      SellAllowedIff(s.i, q);
    }
  }

  /** j is at least as favourable a market and account as i. */
  predicate Easier(i: GateInputs, j: GateInputs) {
    && j.cash >= i.cash && j.equity >= i.equity && j.price <= i.price
    && j.vol60d <= i.vol60d && j.avgCorr <= i.avgCorr && j.sectorValue <= i.sectorValue
    && j.heldQty == i.heldQty && j.positionCount == i.positionCount
    && j.dailyPnlPct == i.dailyPnlPct
  }

  lemma TierDollarsMonotone(i: GateInputs, j: GateInputs)
    requires InRange(i) && Easier(i, j)
    ensures TierDollars(i) <= TierDollars(j)
  {
    var a, b := VolTier(i.vol60d), VolTier(j.vol60d);
    var c, d := CorrMult(i.avgCorr), CorrMult(j.avgCorr);
    assert 0.0 < a <= b && 0.0 < c <= d;
    assert a * c <= b * c <= b * d;
    assert i.equity * (a * c) <= j.equity * (a * c) <= j.equity * (b * d);
    assert TierDollars(i) == i.equity * (a * c) && TierDollars(j) == j.equity * (b * d);
  }

  lemma WithinMonotone(q: int, p: real, p': real, c: real, c': real, d: real, d': real,
                       s: real, s': real, e: real, e': real)
    requires q >= 0 && p' <= p && c <= c' && d <= d' && s' <= s && e <= e'
    requires Within(q, p, c, d, s, e)
    ensures Within(q, p', c', d', s', e')
  {
    ValueMonotone(q, p', p);
    hide Value;
  }

  lemma ValueMonotone(q: int, p: real, p': real)
    requires q >= 0 && p <= p'
    ensures Value(q, p) <= Value(q, p')
  {
  }

  /** Whatever was approved stays approved when the inputs only get easier. */
  lemma BuyIsMonotone(i: GateInputs, j: GateInputs, q: int)
    requires Easier(i, j) && InRange(j)
    requires q >= 1 && Allows(Inputs(i), Buy, q)
    ensures Allows(Inputs(j), Buy, q)
  {
    BuyAllowedIff(i, q);
    TierDollarsMonotone(i, j);
    WithinMonotone(q, i.price, j.price, i.cash, j.cash, TierDollars(i), TierDollars(j),
                   i.sectorValue, j.sectorValue, SECTOR_CAP * i.equity, SECTOR_CAP * j.equity);
    BuyAllowedIff(j, q);
  }
}
