/** The broker as a second state machine, and the payloads it answers with. */
module Broker {
  import opened Records
  import opened FundTables
  import Risk

  /** An order the gate let through: what the agent asked for, and (history
      variables) the snapshot the ticket was sized on at that moment and
      whether its decision had already left 'submitted'. */
  datatype Request = Request(
    coid: string, symbol: string, side: Side, qty: int,
    sizedOn: Risk.Snapshot, settled: bool)

  datatype BrokerState = Live | Complete | Cancelled | TimedOut | Declined

  datatype BrokerOrder = BrokerOrder(
    req: Request, id: string, state: BrokerState, filled: nat, price: real)

  type Book = map<string, BrokerOrder>

  /** One order may gain shares and then stop for good; what it is never
      changes. */
  predicate OrderEvolves(o: BrokerOrder, o': BrokerOrder) {
    && o'.req == o.req && o'.id == o.id
    && o.filled <= o'.filled <= o.req.qty
    && (!o.state.Live? ==> o' == o)
  }

  /** The broker never forgets an order and takes none on by itself. */
  ghost predicate Evolves(k: Book, k': Book) {
    && k'.Keys == k.Keys
    && forall c | c in k :: OrderEvolves(k[c], k'[c])
  }

  // ---- answers ----

  /** A numeric field as float() meets it: null or absent, the empty string,
      text it rejects, or a number. */
  datatype Wire = Missing | Blank | Garbage | Number(r: real)

  /** The qty field of an order payload, by Python type. */
  datatype QtyField = NoQty | IntQty(n: int) | TextQty(s: string) | BoolQty(b: bool) | FloatQty(f: real)

  /** A field the recorder reads by key: no such key, null, or a value. A value
      SQLite cannot bind raises as a missing key does. */
  datatype Entry<+T> = Absent | IsNull | Given(value: T)

  datatype WireStatus =
    | WFilled | WPartial | WCanceled | WExpired | WRejected | WOther(name: string)

  datatype Echo = Echo(
    coid: Option<string>, id: Option<string>, symbol: Entry<string>, side: Entry<Side>,
    qty: QtyField, status: WireStatus, filledQty: Wire, avgPrice: Wire)

  /** A lookup: the call raised, found nothing, or returned a payload. */
  datatype Answer = Raised | Nothing | Got(o: Echo)

  // ---- coercers ----

  /** reconcile._parse_fill (and runtime._parse_fill): a positive whole share
      count at a positive price, or nothing. */
  function ParseFill(o: Echo): Option<Fill> {
    if o.filledQty.Number? && o.avgPrice.Number?
       && o.filledQty.r == o.filledQty.r.Floor as real
       && o.filledQty.r.Floor > 0 && o.avgPrice.r > 0.0
    then Some(Fill(o.filledQty.r.Floor, o.avgPrice.r))
    else None
  }

  datatype DeadFill = NoShares | Shares(f: Fill) | Unreadable

  function ParseDeadFill(o: Echo): DeadFill {
    if o.filledQty.Missing? || o.filledQty.Blank? || o.filledQty == Number(0.0) then NoShares
    else match ParseFill(o)
      case Some(f) => Shares(f)
      case None => Unreadable
  }

  /** _CONFIRMED_DEAD: broker statuses that mean no more shares are coming. */
  function ConfirmedDead(s: WireStatus): Option<OrderStatus> {
    match s
    case WCanceled => Some(Canceled)
    case WExpired => Some(Canceled)
    case WRejected => Some(Refused)
    case _ => None
  }

  predicate IsDigit(c: char) { '0' <= c <= '9' }

  predicate AllDigits(s: string) { forall i | 0 <= i < |s| :: IsDigit(s[i]) }

  predicate AllZeros(s: string) { forall i | 0 <= i < |s| :: s[i] == '0' }

  function DigitsValue(s: string): nat
    requires AllDigits(s)
  {
    if s == [] then 0
    else 10 * DigitsValue(s[..|s| - 1]) + (s[|s| - 1] - '0') as nat
  }

  /** The decimal numeral of n. */
  function Numeral(n: nat): (s: string)
    ensures s != "" && AllDigits(s)
  {
    if n < 10 then ['0' + n as char] else Numeral(n / 10) + ['0' + (n % 10) as char]
  }

  /** A numeral is read as the number it spells, leading zeros or not ... */
  lemma {:induction false} NumeralIsRead(n: nat)
    ensures DigitsValue(Numeral(n)) == n
  {
    var s := Numeral(n);
    if n < 10 {
      assert s[..0] == "";
    } else {
      NumeralIsRead(n / 10);
      assert s[..|s| - 1] == Numeral(n / 10);
    }
  }

  lemma {:induction false} LeadingZeros(z: string, s: string)
    requires AllZeros(z) && AllDigits(s)
    ensures AllDigits(z + s) && DigitsValue(z + s) == DigitsValue(s)
  {
    if s == "" {
      assert z + s == z;
      if z != "" {
        LeadingZeros(z[..|z| - 1], "");
        assert z[..|z| - 1] + "" == z[..|z| - 1];
      }
    } else {
      LeadingZeros(z, s[..|s| - 1]);
      assert (z + s)[..|z + s| - 1] == z + s[..|s| - 1];
    }
  }

  lemma NumeralGrows(front: string, last: char)
    requires AllDigits(front) && IsDigit(last) && DigitsValue(front) > 0
    ensures Numeral(DigitsValue(front + [last])) == Numeral(DigitsValue(front)) + [last]
  {
    assert (front + [last])[..|front|] == front;
    var v, d := DigitsValue(front), (last - '0') as nat;
    assert DigitsValue(front + [last]) == 10 * v + d && d < 10;
    assert (10 * v + d) / 10 == v && (10 * v + d) % 10 == d;
  }

  lemma ZeroThenDigit(front: string, last: char)
    requires AllDigits(front) && IsDigit(last) && DigitsValue(front) == 0
    ensures Numeral(DigitsValue(front + [last])) == [last]
  {
    assert (front + [last])[..|front|] == front;
    assert DigitsValue(front + [last]) == (last - '0') as nat;
  }

  /** ... and nothing else is: digits worth n are n's numeral after zeros. */
  lemma {:induction false} OnlyTheNumeral(s: string) returns (z: string)
    requires s != "" && AllDigits(s)
    ensures AllZeros(z) && s == z + Numeral(DigitsValue(s))
  {
    hide DigitsValue, Numeral;
    var front, last := s[..|s| - 1], s[|s| - 1];
    assert s == front + [last];
    if front == "" {
      z := "";
      NoDigits();
      ZeroThenDigit(front, last);
    } else {
      var y := OnlyTheNumeral(front);
      if DigitsValue(front) == 0 {
        ZeroThenDigit(front, last);
        ZeroNumeral();
        z := front;
      } else {
        NumeralGrows(front, last);
        z := y;
        assert s == z + (Numeral(DigitsValue(front)) + [last]);
      }
    }
  }

  lemma NoDigits()
    ensures DigitsValue("") == 0
  {
  }

  lemma ZeroNumeral()
    ensures Numeral(0) == "0"
  {
  }

  function DotAt(s: string, i: nat): (r: nat)
    requires i <= |s|
    ensures i <= r <= |s|
    ensures forall k | i <= k < r :: s[k] != '.'
    ensures r < |s| ==> s[r] == '.'
    decreases |s| - i
  {
    if i == |s| || s[i] == '.' then i else DotAt(s, i + 1)
  }

  /** The share count in a broker's decimal string: digits, or digits, a point
      and zeros. A real fraction is refused, never floored. */
  function DecimalQty(s: string): Option<nat> {
    var d := DotAt(s, 0);
    if d == 0 || !AllDigits(s[..d]) then None
    else if d == |s| then Some(DigitsValue(s))
    else if d + 1 < |s| && AllZeros(s[d + 1..]) then Some(DigitsValue(s[..d]))
    else None
  }

  /** Exactly which spellings recover, and as what. */
  lemma DecimalQtyForms(s: string, n: nat)
    ensures DecimalQty(s) == Some(n) <==>
            exists w: string, z: string ::
              && |w| > 0 && AllDigits(w) && DigitsValue(w) == n && AllZeros(z)
              && (s == w || (|z| > 0 && s == w + "." + z))
  {
    var d := DotAt(s, 0);
    if DecimalQty(s) == Some(n) {
      if d == |s| {
        assert s[..d] == s && AllZeros("") && (s == s || (|""| > 0 && s == s + "." + ""));
      } else {
        assert s == s[..d] + "." + s[d + 1..];
      }
    }
    forall w: string, z: string |
      |w| > 0 && AllDigits(w) && DigitsValue(w) == n && AllZeros(z)
      && (s == w || (|z| > 0 && s == w + "." + z))
      ensures DecimalQty(s) == Some(n)
    {
      if s == w {
        assert forall i | 0 <= i < |s| :: IsDigit(s[i]) && s[i] != '.';
        assert s[..d] == s;
      } else {
        assert s[|w|] == '.';
        assert forall i | 0 <= i < |w| :: s[i] == w[i] && IsDigit(w[i]) && s[i] != '.';
        assert d == |w| && s[..d] == w && s[d + 1..] == z;
      }
    }
  }

  /** reconcile._recoverable_qty's reading of the qty field. */
  function RecoverQty(q: QtyField): Option<int> {
    match q
    case IntQty(n) => Some(n)
    case TextQty(s) => (match DecimalQty(s) case Some(n) => Some(n) case None => None)
    case _ => None
  }

  /** int(order["qty"]) in the recorder; None where int() raises. */
  function RecorderQty(q: QtyField): Option<int> {
    match q
    case IntQty(n) => Some(n)
    case BoolQty(b) => Some(if b then 1 else 0)
    case FloatQty(f) => Some(if f >= 0.0 then f.Floor else -((-f).Floor))
    case TextQty(s) => if s != [] && AllDigits(s) then Some(DigitsValue(s)) else None
    case NoQty => None
  }

  /** The qty of an order that matches the ticket authorizing it. */
  function RecoverableQty(o: Echo, tid: string, t: Ticket): Option<int> {
    if o.symbol != Given(t.ticker) || o.side != Given(t.side) || o.coid != Some(tid) then None
    else match RecoverQty(o.qty)
      case Some(n) => if 1 <= n <= t.maxQty then Some(n) else None
      case None => None
  }

  // ---- truthfulness ----

  /** The qty field, where it can be read at all, says n. */
  predicate QtySays(q: QtyField, n: int) {
    match q
    case NoQty => true
    case IntQty(k) => k == n
    case BoolQty(_) => false
    case FloatQty(f) => f == n as real
    case TextQty(s) => DecimalQty(s).Some? ==> DecimalQty(s).value == n
  }

  /** A payload the broker could have returned for this order at some moment up
      to now: identity as placed; a terminal status only if the order has it,
      with the final numbers (a missing count meaning zero); otherwise counts
      that have since only grown. Any field may be missing, null or unreadable. */
  predicate Describes(o: Echo, k: BrokerOrder) {
    && (o.symbol.Given? ==> o.symbol.value == k.req.symbol)
    && (o.side.Given? ==> o.side.value == k.req.side)
    && (o.id.Some? ==> o.id.value == k.id)
    && QtySays(o.qty, k.req.qty)
    && (match o.status
        case WFilled => k.state.Complete?
        case WCanceled => k.state.Cancelled?
        case WExpired => k.state.TimedOut?
        case WRejected => k.state.Declined?
        case WPartial => k.filled >= 1
        case WOther(_) => true)
    && (o.status.WFilled? || ConfirmedDead(o.status).Some? ==>
          && (o.filledQty.Number? ==> o.filledQty.r == k.filled as real)
          && (o.filledQty.Missing? || o.filledQty.Blank? ==> k.filled == 0)
          && (o.avgPrice.Number? ==> o.avgPrice.r == k.price))
    && (o.filledQty.Number? ==> o.filledQty.r <= k.filled as real)
  }

  /** A truthful answer stays truthful as the broker moves on. */
  lemma DescribesPersists(o: Echo, k: BrokerOrder, k': BrokerOrder)
    requires Describes(o, k) && OrderEvolves(k, k')
    ensures Describes(o, k')
  {
  }

  /** On a whole-share broker the two quantity readers agree wherever both
      read, so a recovered row carries the qty a recorded one would. */
  lemma ReadersAgree(o: Echo, k: BrokerOrder)
    requires Describes(o, k)
    ensures RecoverQty(o.qty).Some? ==> RecoverQty(o.qty).value == k.req.qty
    ensures RecorderQty(o.qty).Some? ==> RecorderQty(o.qty).value == k.req.qty
  {
    match o.qty
    case TextQty(s) =>
      if s != [] && AllDigits(s) {
        DecimalQtyForms(s, DigitsValue(s));
        assert AllZeros("") && (s == s || (|""| > 0 && s == s + "." + ""));
      }
    case _ =>
  }
}
