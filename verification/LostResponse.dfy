/** One order whose response is lost: the assumptions of recovery confluence
    are met by a concrete fund, broker and pair of answers. */
module LostResponse {
  import opened Records
  import opened FundTables
  import opened Broker
  import opened Safety
  import opened OneOrder
  import opened Confluence
  import Guarantees
  import opened Plans
  import opened Reconcile
  import opened DroppedRows
  import Risk

  /** An approved decision to sell three shares on an open ticket, no row. */
  function Books0(): Books { Guarantees.Desk(Approved, Some(Guarantees.Minted), []) }

  const Accepted := Request("t", "NVDA", Sell, 3, Guarantees.Holding, true)

  /** The broker filled the order. */
  const Sold: Book := map["t" := BrokerOrder(Accepted, "o-1", Complete, 3, 10.0)]

  /** What the lost response said, and what the broker says for good. */
  const Lost := Echo(Some("t"), Some("o-1"), Given("NVDA"), Given(Sell), IntQty(3), WOther("new"), Missing, Missing)
  const Final := Echo(Some("t"), Some("o-1"), Given("NVDA"), Given(Sell), TextQty("3"), WFilled, Number(3.0), Number(10.0))

  function Replies(c: string): Answer { if c == "t" then Got(Final) else Nothing }

  lemma BooksAreSound()
    ensures Inv(Books0(), Sold)
  {
    var b := Books0();
    assert Risk.Size(Guarantees.Holding, Sell) == Risk.Approved(5, 5);
    assert HasTicket(b.tickets.rows, 1) by { assert b.tickets.rows["t"].decisionId == 1; }
    assert RequestOk(b.decisions.rows, b.tickets.rows, Accepted);
  }

  lemma FinalIsThree()
    ensures RecoverQty(Final.qty) == Some(3)
  {
    var w := "3";
    assert AllDigits(w) && AllZeros("");
    assert DigitsValue(w) == 10 * DigitsValue(w[..0]) + 3;
    assert w == w || (|""| > 0 && w == w + "." + "");
    DecimalQtyForms(w, 3);
  }

  /** Recovery confluence applies here. */
  lemma ConfluenceApplies()
    ensures Inv(Books0(), Sold) && AllVouched(Sold, Replies)
    ensures "t" in Sold && IsLost(Books0(), "t")
    ensures Recordable(Lost, "t") && Describes(Lost, Sold["t"]) && Consistent(Lost, Final)
    ensures Replies("t") == Got(Final) && Describes(Final, Sold["t"])
    ensures RecoverableQty(Final, "t", Books0().tickets.rows["t"]) == Some(3)
  {
    BooksAreSound();
    FinalIsThree();
  }

  /** The same response with its symbol null. */
  const Nameless := Lost.(symbol := IsNull)

  /** The failing payload: true of the broker's order, read without an error, and
      it leaves a consumed ticket with no order row. */
  lemma NamelessDropsTheRow()
    ensures Inv(Books0(), Sold) && Describes(Nameless, Sold["t"]) && Readable(Nameless)
    ensures Orphaned(DoAll(Books0(), RecordPlan(Books0(), Nameless)), "t")
  {
    ConfluenceApplies();
    var plan := RecordPlan(Books0(), Nameless);
    assert |plan| == 2 && plan[..2] == plan;
    RecorderOrphansIff(Books0(), Sold, Nameless, 2, "t");
  }

  /** For this order it does not matter whether the full response was recorded
      or lost; it does matter for the nameless one. */
  lemma EitherWay(pollS: real, maxWaitS: real)
    requires pollS > 0.0
    ensures forall other ::
              SliceOf(StageResult(DoAll(Books0(), RecordPlan(Books0(), Lost)), Replies,
                                  Steady(Replies, Replies), pollS, maxWaitS).b, other)
              == SliceOf(StageResult(Books0(), Replies, Steady(Replies, Replies), pollS, maxWaitS).b, other)
    ensures exists other ::
              SliceOf(StageResult(DoAll(Books0(), RecordPlan(Books0(), Nameless)), Replies,
                                  Steady(Replies, Replies), pollS, maxWaitS).b, other)
              != SliceOf(StageResult(Books0(), Replies, Steady(Replies, Replies), pollS, maxWaitS).b, other)
  {
    ConfluenceApplies();
    NamelessDropsTheRow();
    ConfluentIffNamed(Books0(), Sold, "t", Lost, Final, Replies, Replies, pollS, maxWaitS);
    ConfluentIffNamed(Books0(), Sold, "t", Nameless, Final, Replies, Replies, pollS, maxWaitS);
  }
}
