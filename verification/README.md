# Fund: a verified model

This project models the parts of the fund that move money or decide what counts
as evidence, and proves what the source's own comments promise about them. To
verify: `dafny verify dfyconfig.toml`.

**The order lifecycle.** A decision is sized (`Risk`), ticketed by the gate stage
(`GateStage`), let through by the order hook (`OrderGate`), recorded from the
broker's response or recovered after the response was lost, and polled to a
terminal state (`Ledger`, `Reconcile`, `ReconcileLoops`). The tables are rows by
key in insertion order (`Records`, `FundTables`). Every database statement is one
committed `Commit`; an operation is the list of commits it makes from a state and
a broker answer (`Plans`), and a crash leaves the state after a prefix of that
list. The methods of `Ledger` and the loop modules execute the statements in the
source's order, keep a ghost trail of them, and are proved to leave exactly the
plan on the trail. The broker is a second state machine (`Broker`): a client id
is accepted once, terminal states are stable, filled counts never fall, and an
answer is a payload that was true at some moment, or nothing. `Safety` states the
invariant and when one commit keeps it; `PlansAreLawful` shows every plan lawful
commit by commit; `Runs` closes the argument over every interleaving of agent
calls, broker moves, submissions and operations cut anywhere; `Guarantees` reads
the promises off. `OneOrder`, `ReconcileFacts` and `Confluence` show that orders
do not interfere, that the poll loop counts and classifies exactly, and that a
recorded and a recovered order end the same; `LostResponse` is a concrete case.
What an operation leaves behind is stated a second time without its plan, over
the fields of the broker's answer and the rows before and after: `Aftermath` for
one poll, cap close, recording and recovery, `StageOutcomes` for the whole
reconciliation stage, `GateOutcomes` for a gate pass.

Two of the promises have exact conditions. The recorder inserts with OR IGNORE,
never reads whether the row landed, and consumes the ticket either way, so a
readable response whose symbol or side is null leaves a consumed ticket with no
order row (`DroppedRows`: exactly when, that nothing repairs it, and that
recovery is confluent exactly without it). And a raise or a crash after the gate's
approval can leave an approved decision with a closed ticket
(`Guarantees.ApprovalIsLiveIff`). `TradingDays` composes the lifecycle with the
day's stages, so that an order's bounds are those of its ticket for good.

**The day** (`Day`, `PreGate`, `Expiry`): checkpointed stages under re-fires, the
pre-gate budget, and the expiry sweep.

**The events outbox** (`Outbox`, `OutboxDrain`): a drain that appends to the
queue it drains.

**The backtest engine and registry** (`Engine`, `EngineFacts`, `EngineEarnings`,
`DipBuyerFacts`, `Registry`, `RegistryFacts`): whole-frame expressions against a
per-bar automaton, what a bar earns and pays, what the rule's signals mean, no
lookahead, and an append-only log over arbitrary call sequences.

**Calibration** (`Scoring`, `ScoringFacts`, `CalibrationFacts`, `PmWeights`,
`PmWeightFacts`): the Murphy decomposition and the PM's weights in exact reals.
The comment on pm_weights says a seat graded too rarely gets exactly the mean
weight; that holds if and only if no tested seat is lifted to the floor
(`PmWeightFacts.UntestedIsMeanIff`).

**Two smaller machines** (`Accounting`, `Scopes`): the accounting alert and the
purity lint's scope resolver. `Dicts` is Python's insertion-ordered dict.

Inputs that come from outside are parameters: broker answers (`Env`, `lookup`),
the chat channel's replies (`Channel`), which statement or stage body raises
(`raiseAt`, `raises`), fresh ids, the clock's minutes, Python's string coercers
(`Lexer`), and what a backtest takes from a finished study (`Lab`). Three fields
are history only: `Ticket.sizedOn` (the snapshot a cap was last computed from),
`Request.sizedOn` and `Request.settled` (that snapshot when the hook let the call
through, and whether the decision had left 'submitted' by then).

## Model

| member | source | states |
|---|---|---|
| Risk.BuyAllowedIff | gate/risk.py:59-98 | A buy of q >= 1 shares is authorized if and only if the feed is usable, the circuit breaker and position count allow a buy, and q shares stay within cash, the volatility/correlation tier and 60% of equity in the sector after the trade |
| Risk.BuyIsMaximal | gate/risk.py:85-98 | An approved quantity fits all three bounds and one share more breaks one |
| Risk.NoHeadroomIff | gate/risk.py:92-98 | A permitted buy is refused for headroom if and only if not even one share fits |
| Risk.BuyIsMonotone | gate/risk.py:47-98 | An approved quantity stays approved when cash or equity rises or price, volatility, correlation or sector value falls |
| Risk.SellAllowedIff | gate/risk.py:82-85 | A sell of q >= 1 shares is authorized if and only if the feed is usable and q shares are held, whatever the breaker, cash, tier and sector |
| Risk.AllowsWarrants | gate/risk.py:76-96 | For both sides, what size() authorizes is what the account and the market warrant: for a sell the shares held, for a buy the switches and the three bounds |
| Risk.ReasonsMean | gate/risk.py:76-96 | Each refusal reason is given if and only if its own condition holds: an unusable feed, nothing held, the breaker, the position count |
| Risk.PreSectorIgnoresTheSector | gate/risk.py:82-96 | The reported pre-sector quantity is the most that cash and tier allow, one share more being too many; for a sell it is the cap |
| Risk.TierIsBounded | gate/risk.py:47-57 | The tier is never above 27.5 nor below 7 percent of equity |
| Risk.GoldenDay | tests/test_risk.py:41-232 | The golden day sizes to 66 of 105, and the tier, correlation and sector boundaries fall where the tests put them |
| Broker.DecimalQtyForms | orchestrator/reconcile.py:287-354 | A broker's decimal string recovers as n if and only if it is digits worth n, optionally with a point and zeros; a real fraction never does |
| Broker.ReadersAgree | orchestrator/reconcile.py:294-354 | Where the recorder and the recovery pass can both read a truthful payload's quantity, both read the quantity the order was placed with |
| Broker.NumeralIsRead | gate/tickets.py:98-109 | A number's decimal numeral is read back as that number |
| Broker.LeadingZeros | gate/tickets.py:98-109 | Leading zeros change nothing |
| Broker.OnlyTheNumeral | gate/tickets.py:98-109 | Digits worth n are n's numeral after zeros, and nothing else |
| Broker.DescribesPersists | orchestrator/reconcile.py:226-256 | A payload that was true of an order stays true of it as the broker moves on; any field may be missing or null |
| OrderGate.GateOpensIff | gate/tickets.py:155-242 | A tool call gets through if and only if it is outside the broker's namespace, a known read, or a placement naming an open unexpired ticket with its ticker, its side, 1 to max_qty shares and exactly its exit leg; the quantity is the integer field or the whole value of an all-digit text, the stop a number or the value of a decimal text; booleans, floats and other ASCII texts are no quantity |
| OrderGate.ValidatedIsNamed | gate/tickets.py:155-242 | The order a validated call asks for is the one its raw fields spell, and the one its ticket names |
| OrderGate.SharesAreRead | gate/tickets.py:98-109 | The hook reads n shares if and only if the raw field says n |
| OrderGate.PriceIsRead | gate/tickets.py:119-136 | The hook reads the price x if and only if the field is a number equal to x, a text of digits with or without a point worth x, or any other text float() makes x of |
| OrderGate.NumeralsAreAskedInFull | gate/tickets.py:189-194 | A call let through for the numeral of n asks for n shares, within max_qty |
| OrderGate.ReadsAreNotPlacements | agents/runtime.py:58-74 | The placing verbs are disjoint from the verbs allowed without a ticket |
| Safety.LawfulKeeps | state/transition.py:8-32 | Any single commit that is lawful for its state keeps the whole invariant: one ticket a decision, caps within ask and size(), rows the broker confirms, fill events once and final, decision statuses backed by their order |
| Safety.MoveDecisionKeeps | state/transition.py:9-12 | A decision may move only along an edge and only to a status its ticket and order back |
| Safety.UpdateTicketKeeps | gate/tickets.py:80-95 | Closing, consuming or re-capping a ticket keeps one ticket a decision and every accepted order's bounds |
| Safety.InsertTicketKeeps | gate/tickets.py:15-28 | Minting a ticket within ask and size() for a submitted decision, with the decision's ticker, side and stop, keeps the invariant |
| Safety.OrderRowKeeps | state/schema.sql:84-96 | Inserting an order row, moving it along an edge the broker confirms, or writing its numbers before any fill event keeps the invariant |
| PlansAreLawful.RecordLawful | agents/runtime.py:203-262 | Every commit of the order recorder is lawful on any truthful response: when it moves the row to 'filled' before writing the numbers, and when a null symbol or side drops the row and the ticket is consumed all the same |
| PlansAreLawful.ApplyLawful | orchestrator/reconcile.py:40-104 | Every commit that mirrors a polled payload into a pending row is lawful |
| PlansAreLawful.CloseLawful | orchestrator/reconcile.py:119-223 | Every commit of the cap close is lawful, with a fill that won the race, with shares held on a dead order, and with none |
| PlansAreLawful.RecoverLawful | orchestrator/reconcile.py:357-488 | Every commit of recovering a lost order is lawful |
| PlansAreLawful.ExpireLawful | gate/tickets.py:80-95 | Expiring a ticket and lapsing its decision is lawful at both commits |
| PlansAreLawful.GateLawful | orchestrator/daily.py:249-335 | Handling one decision at the gate is lawful commit by commit on any feed, wherever a raise sends it to the reject path |
| PlansAreLawful.CapIsAllowed | orchestrator/daily.py:279-287 | The gate's cap is at most the ask, at most size() on the snapshot it was computed from, and warranted there: for a sell at most the shares held |
| PlansAreLawful.CapIsExact | orchestrator/daily.py:279-287 | A quantity is within the cap if and only if it is within the ask and warranted by the snapshot |
| PlansAreLawful.LawfulPrefix | state/transition.py:63-111 | The invariant holds after every prefix of a lawful plan, hence wherever a crash cuts it |
| Runs.MoveKeepsSafe | orchestrator/daily.py:484-518 | Each move of the world keeps it safe: broker progress, agent tool calls, acceptance, submission, and any operation cut after any commit |
| Runs.EveryRunIsSafe | orchestrator/daily.py:484-518 | Every state of every run is safe |
| Runs.LetThrough | agents/runtime.py:124-160 | What the hook lets through is what the call's raw fields ask for, bounded by the ticket it names: ticker, side, the PM's ask and size() |
| Runs.DriftKeeps | orchestrator/reconcile.py:119-223 | Nothing the broker does on its own breaks the books |
| Guarantees.NeverClaimsUnconfirmed | orchestrator/reconcile.py:40-223 | Over every run a row filled, canceled or rejected implies the broker's order is filled, canceled or expired, or rejected; recorded shares never exceed the broker's |
| Guarantees.EveryOrderIsAuthorized | gate/tickets.py:155-242 | Over every interleaving, with no assumption about stages, each order the broker accepted has a ticket id as client id, that ticket's ticker and side, the decision's stop on the ticket, and 1 <= qty <= the ask and <= size() on the ticket's snapshot when the call got through, so a sell sells at most the shares held there and a buy fits cash, tier and sector; also the cap and snapshot last written if the decision had left 'submitted' by then, which TradingDays.OrdersFitTheirTickets derives from the stages |
| Guarantees.OneBrokerOrderPerDecision | orchestrator/daily.py:268-311 | Over every run no decision gets two broker orders |
| Guarantees.FillEventsAreOnceAndFinal | agents/runtime.py:243-259 | Over every run fill events are at most one per order across all three writers, on a settled row, and report the broker's final numbers and, where they name one, its symbol and side |
| Guarantees.DecisionsTellTheTruth | orchestrator/reconcile.py:53-223 | Over every run a decision past the gate has exactly one ticket; executed means its order holds shares, failed means its order is dead at the broker with none, rejected and held mean no open ticket, expired means its ticket expired |
| Guarantees.ConsumedTicketsHaveOrders | agents/runtime.py:225-241 | Over every run a consumed ticket has its order row, unless at some point of that run the recorder met a readable response for it with a null symbol or side while the ticket was open and had no row |
| DroppedRows.RecorderOrphansIff | agents/runtime.py:218-241 | One recorder call, cut after any commit, leaves a consumed ticket without a row if and only if the ticket was open with no row, the quantity was readable, symbol or side was null and the consuming commit was reached, or it was so before and no complete response was inserted |
| DroppedRows.OrphansComeFromNulls | agents/runtime.py:225-241 | Over every run nothing else produces such a ticket: not recovery, the poll, the cap close, the gate, expiry, nor any crash |
| DroppedRows.OrphansStay | orchestrator/reconcile.py:357-500 | The whole reconciliation stage leaves such a ticket exactly as it found it, whatever the broker answers |
| DroppedRows.ConfluentIffNamed | agents/runtime.py:218-241 | For a readable response and an order recovery can read, recorded and lost end with the same slices for every order if and only if the response named symbol and side |
| Guarantees.ApprovalIsLiveIff | orchestrator/daily.py:258-335 | A gate pass, with a raise at any statement and a crash after any commit, leaves the decision approved if and only if it could approve, nothing raised before the approving commit, and that commit was reached; its ticket is then live if and only if the pass found no ticket or an open one and no later raise got as far as closing it |
| Guarantees.ApprovedOnADeadTicket | orchestrator/daily.py:258-262 | A run of two crashes and a recovered feed ends with an approved decision on an expired ticket, so approval alone does not promise a live one |
| Guarantees.ApprovedThenRaised | orchestrator/daily.py:306-335 | One pass with no ticket before it and no crash: the statement after the approval raises, the reject path closes the ticket, and the decision stays approved |
| Ledger.Connection.TryMoveDecision | state/transition.py:63-111 | Swaps the status if and only if the row is in the expected one, reports which, and logs one commit |
| Ledger.Connection.TryMoveTicket | state/transition.py:63-111 | The same for a ticket |
| Ledger.Connection.TryMoveOrder | state/transition.py:63-111 | The same for an order |
| Ledger.Connection.InsertOrderRow | agents/runtime.py:225-236 | INSERT OR IGNORE: lands if and only if symbol and side are given, id and broker id are new and the ticket exists; is dropped silently on a null column or a taken id; fails on the ticket foreign key otherwise |
| Ledger.Connection.InsertTicketRow | gate/tickets.py:15-28 | A ticket insert lands if and only if its id and its decision are new to the table |
| Ledger.Connection.RecapTicket | orchestrator/daily.py:296-305 | Re-caps a ticket in place while it is open, and nothing otherwise |
| Ledger.RecordOrder | agents/runtime.py:211-262 | The recorder as written runs exactly its plan and leaves what the response's fields say: nothing on an unreadable response or a failed foreign key; otherwise the row if it can be added and the ticket consumed; and on a filled response for a row nothing has moved yet, the row filled with the numbers, its approved decision executed and one fill event |
| Ledger.Apply | orchestrator/reconcile.py:40-104 | Mirroring a payload runs exactly its plan, reports whether this call moved the row to 'filled' or raised, and leaves what the payload's fields say: a pending row reported filled becomes filled with those numbers, its approved decision executed, one fill event appended |
| Ledger.TimeoutClose | orchestrator/reconcile.py:119-223 | The cap close runs exactly its plan, reports a fill that won the race, and leaves what the re-query's fields say: dead with shares, executed with one fill event; dead with none, failed; anything unclear, one alert |
| Ledger.RecoverOne | orchestrator/reconcile.py:374-488 | One recovery runs exactly its plan, reports whether it won, and leaves what the answer's fields say: a matching order gets the row the recorder would have written and its ticket is consumed |
| Aftermath.PollLeaves | orchestrator/reconcile.py:40-104 | For every row, status and number fields of a payload: the row, the decision and the events a poll leaves. A fill of a pending row executes the approved decision and appends one fill event, plus an alert if there was a decision but none approved; a first part-fill is alerted once; numbers that do not parse write nothing |
| Aftermath.CloseLeaves | orchestrator/reconcile.py:119-223 | The same for the cap close and every answer to its re-query |
| Aftermath.RecordLeaves | agents/runtime.py:211-262 | The same for the recorder and every response, retries, dropped inserts and foreign-key failures included |
| Aftermath.RecoverLeaves | orchestrator/reconcile.py:374-488 | The same for recovering one ticket |
| StageOutcomes.StageFills | orchestrator/reconcile.py:491-500 | Against a steady broker, whatever the rounds and the other orders, the stage leaves a pending order that filled with its numbers, its ticket as it was, its approved decision executed, and exactly one fill event |
| StageOutcomes.StageClosesHolding | orchestrator/reconcile.py:119-223 | An order still working at the cap and then dead with shares ends with those numbers, its approved decision executed, exactly one fill event |
| StageOutcomes.StageClosesEmpty | orchestrator/reconcile.py:119-223 | ... and dead with none: its approved decision failed, no fill event |
| StageOutcomes.StageRecoversFill | orchestrator/reconcile.py:357-500 | One pass of the stage gives a lost order that filled its row, filled, its ticket consumed, its approved decision executed, exactly one fill event |
| OneOrder.RunApart | orchestrator/reconcile.py:226-283 | A list of commits about one order leaves every other order's row, ticket, decision and fill events as they were |
| OneOrder.PlansReadOneSlice | orchestrator/reconcile.py:40-223 | What polling or closing an order does depends only on that order's own row, ticket, decision and fill events |
| OneOrder.PollRow | orchestrator/reconcile.py:40-104 | The order row a poll leaves, for every status and payload |
| ReconcileFacts.CountIsExact | orchestrator/reconcile.py:226-283 | The returned count is exactly the number of orders this call moved to 'filled', polling and closing together |
| ReconcileFacts.ReportAppends | orchestrator/reconcile.py:271-283 | At the cap each unresolved order is alerted once, in order, and nothing else is written |
| ReconcileFacts.RoundsAreBounded | orchestrator/reconcile.py:240-266 | At most ceil(max_wait / poll) + 1 rounds, and exactly that many unless nothing was left pending |
| ReconcileFacts.LoopSorts | orchestrator/reconcile.py:246-270 | At the cap every pending order is in exactly one class by its last answer: confirmed open, problem, or last seen partial |
| ReconcileFacts.CancelsOnlyWorking | orchestrator/reconcile.py:267-270 | A cancel is requested if and only if the order's last answer said it was still working, never for an unreadable or part-filled one |
| ReconcileFacts.PendingIdsExact | orchestrator/reconcile.py:19-20 | The poll selects exactly the rows that can still move, each once |
| ReconcileFacts.CloseRow | orchestrator/reconcile.py:119-223 | The order row the cap close leaves, for every answer |
| Confluence.OrdersSettleAlone | orchestrator/reconcile.py:226-283 | Against a steady broker the polling stage settles each order as if alone, whatever the number of rounds and the other orders |
| Confluence.OrdersRecoverAlone | orchestrator/reconcile.py:357-488 | The recovery pass recovers each lost order as if alone |
| Confluence.RecoveredCountIsExact | orchestrator/reconcile.py:374-488 | The recovery pass returns exactly the number of tickets it consumed |
| Confluence.FillEitherWay | agents/runtime.py:243-259 | Recording a fill from the response and polling it later agree, although they write the status and the numbers in opposite orders |
| Confluence.RecoveryIsConfluent | orchestrator/reconcile.py:357-500 | For any stable broker outcome, the response recorded and the response lost end with the same order, ticket, decision and fill events for every order after the reconciliation stage |
| LostResponse.ConfluenceApplies | agents/runtime.py:203-262 | The assumptions of recovery confluence are met by a concrete sell order whose response was lost and which the broker filled |
| LostResponse.NamelessDropsTheRow | agents/runtime.py:218-241 | The failing payload: the same true response with a null symbol leaves its ticket consumed and no order row |
| LostResponse.EitherWay | orchestrator/reconcile.py:357-500 | For that order the full response recorded or lost ends the same in every slice; the nameless one recorded or lost does not |
| ReconcileLoops.ReconcileOrders | orchestrator/reconcile.py:226-283 | The loop as written equals its function: state, count, rounds, cancels; a non-positive poll_s is refused before any write; every commit on the way is lawful |
| ReconcileLoops.RecoverLostOrders | orchestrator/reconcile.py:357-488 | The recovery loop as written equals its function and commits lawfully |
| ReconcileLoops.ReconcileStage | orchestrator/reconcile.py:491-500 | Recovery then polling equals the stage's function, every commit lawful |
| GateStage.GateReject | orchestrator/daily.py:249-265 | Closes an open ticket before the decision, cut wherever a statement raises |
| GateStage.GateHandle | orchestrator/daily.py:268-311 | Handles one decision exactly as planned, up to the statement that raises |
| GateStage.GateOne | orchestrator/daily.py:331-335 | The try/except around one decision runs exactly its plan, and undisturbed leaves what GateOutcomes.GateLeaves says |
| GateOutcomes.GateLeaves | orchestrator/daily.py:249-311 | An undisturbed pass on a submitted decision: a hold is held; a trade not warranted for one share is rejected with the sizer's reason and its open ticket closed; any other is approved at the most that ask and snapshot warrant, its ticket re-capped or a new one minted with its ticker, side, stop and expiry; a mint under a taken id is a rejection |
| GateStage.GateSettles | orchestrator/daily.py:268-335 | However it is handled and wherever it raises, a decision leaves 'submitted' |
| GateStage.RunGate | orchestrator/daily.py:314-335 | On return no decision of the day is submitted, every other decision is as it was, and each commit was lawful |
| Expiry.ExpireOpenTickets | gate/tickets.py:80-95 | Exactly the open tickets past their time expire and are returned, exactly their approved decisions lapse, and every commit is lawful |
| Day.LawfulKeepsOrder | orchestrator/daily.py:59-83 | Each checkpoint step keeps: a stage has a row only when every earlier stage is done, bodies start in order, a done stage ran |
| Day.StagesInOrder | orchestrator/daily.py:484-518 | Over any fires each killed anywhere, done stages are a prefix with at most one under way, and no body starts after a later one did, so the gate never runs once execution began |
| Day.QuietFireEndsTheDay | orchestrator/daily.py:484-518 | A fire that nothing kills and nothing raises in completes every stage from any reachable checkpoint state |
| Day.StageLawful | orchestrator/daily.py:59-83 | run_stage skips a done stage, resumes a running one and finishes it unless the body raises |
| Day.Runner.RunStage | orchestrator/daily.py:59-83 | run_stage as written takes exactly its planned steps |
| Day.Runner.RunDay | orchestrator/daily.py:484-518 | run_day as written takes exactly the planned steps of its seven stages, ending at the first raise |
| TradingDays.OrdersFitTheirTickets | orchestrator/daily.py:484-518 | Over any number of days of fires, crashes and agent calls, every order the broker accepted carries its ticket's id, ticker and side, its decision has left 'submitted', and 1 <= qty <= the ticket's cap <= the ask, within size() on the snapshot that last wrote the ticket: for a sell at most the shares held there |
| TradingDays.EveryLifeIsKept | orchestrator/daily.py:484-518 | The invariant behind it over every life: books safe, stages in order, every ticket expiring before the day after its decision's own, and once the gate is done none of the day's waiting for approval |
| TradingDays.CallIsSettled | gate/tickets.py:155-176 | A call the hook lets through during execution names a decision that has left 'submitted', because an older ticket has expired and today's gate is done |
| TradingDays.FiresAreAllowed | orchestrator/daily.py:484-518 | Every checkpoint step of a fire of run_day, wherever the previous one died, is one those lives allow |
| PreGate.Desk.PreGateStage | orchestrator/daily.py:127-159 | The active list is exactly the key list of allowed_actions, alerts are exactly the unreadable feeds, earlier rows stay in front, every active ticker has a row and no other gains one, and none has two |
| PreGate.OfferIsExact | orchestrator/daily.py:154-159 | INSERT OR IGNORE ticker by ticker, repeats included, adds each active ticker exactly once and nothing else |
| PreGate.ShownIsEnforced | orchestrator/daily.py:93-114 | On an unchanged feed an ask within the shown budget is capped at exactly the ask, a larger one at exactly what was shown, and an unlisted ticker gets nothing |
| PreGate.ReportedIffUnusable | orchestrator/daily.py:147-153 | A ticker is reported if and only if its feed is malformed or out of range, never because nothing can be traded |
| PreGate.ApprovedIsPositive | gate/risk.py:59-98 | An approval is for at least one share, which is why a zero shape means a refused one |
| Outbox.NothingLostNothingReordered | slackkit/outbox.py:1-5 | Over any appends, drains, failures and crashes, accepted posts never go back in event id, repeats are adjacent, and a row leaves the queue only by an accepted post or a dead letter |
| Outbox.LawfulKeepsOrder | slackkit/outbox.py:65-146 | Each effect of a drain keeps the order and conservation invariant |
| Outbox.ScanLawful | slackkit/outbox.py:112-146 | Every effect a drain makes is lawful where it is made |
| Outbox.ScanSettles | slackkit/outbox.py:82-146 | A drain nothing kills leaves exactly the table its outcome describes: marks, posts, and one projection_error per ordinary row given up on |
| Outbox.OutcomeCovers | slackkit/outbox.py:113-146 | What a drain posted and what it gave up on are disjoint and together exactly the rows queued below its stopping point |
| Outbox.DrainAccount | slackkit/outbox.py:82-146 | Crash-free, what stays queued is exactly the failing row and everything after it with this call's projection_errors, or nothing |
| Outbox.Verdicts | slackkit/outbox.py:112-146 | A queued row below the stopping point was posted if and only if the reply to its own post was an acceptance, and given up on if and only if it does not render or that reply was a permanent refusal; the row stopped at renders and its post failed. Posts are numbered by the rendering rows queued before it |
| Outbox.DeadForAReason | slackkit/outbox.py:65-137 | Over any appends, drains, failures and crashes, a row is given up on only by a drain that found it queued and could not render it or had its own post refused for good |
| OutboxDrain.Events.DeadLetter | slackkit/outbox.py:65-79 | Marks the row, then reports it unless it was itself a report |
| OutboxDrain.Events.Drain | slackkit/outbox.py:82-146 | The nested loops over fetched batches terminate and amount to one scan of the growing table; the count is exactly the posts that returned, one the channel took before raising left out |
| OutboxDrain.RowShrinks | slackkit/outbox.py:109-111 | The termination measure: unposted ordinary rows, then all unposted rows, falls with every row handled |
| EngineFacts.EngineIsAutomaton | fundbt/engine_pandas.py:35-79 | The forward-filled, shifted frame is a flat/in automaton (entry beats exit) executed one bar late, and n_trades is exactly the entries it executes |
| EngineFacts.FullyInvestedOrOut | fundbt/engine_pandas.py:63-67 | Weights are never negative, positive exactly for the names held, and sum to 1 or, holding nothing, to 0 |
| EngineFacts.TurnoverIsAtMostTwo | fundbt/engine_pandas.py:72-72 | Per-bar turnover lies between 0 and 2 |
| EngineFacts.StressIsLinear | fundbt/engine_pandas.py:69-74 | Net at m times the cost is gross minus m times the cost |
| EngineFacts.StressNeverHelps | fundbt/engine_pandas.py:73-76 | Equity never increases with the cost multiple, bar by bar, while no bar loses more than everything |
| EngineEarnings.NetIsMeanRatio | fundbt/engine_pandas.py:63-74 | With k names held, one plus a bar's net plus what it paid is the equal-weight mean of their close ratios; with none held it earns nothing; what is paid is the cost rate times the part of the book moved |
| EngineEarnings.TurnoverIsMoved | fundbt/engine_pandas.py:72-73 | Turnover from the counts alone: 0 when nothing is held before or after, 1 when moving in or out, otherwise 2 - 2k/max(a, b) for k of a names kept and b held after |
| EngineEarnings.OneNameTelescopes | fundbt/engine_pandas.py:68-75 | While one name is held from bar a to bar b, equity at b times its close at a equals equity at a times its close at b |
| EngineEarnings.StartsAtOne | fundbt/engine_pandas.py:61-75 | The first bar holds nothing and equity starts at one |
| EngineFacts.NoLookahead | fundbt/engine_pandas.py:7-8 | Histories that agree before bar t give equal weights through bar t and equal net returns and equity through bar t - 1 |
| EngineFacts.PrefixRun | fundbt/rules.py:15-36 | Running on a prefix of the history gives the prefix of the full run |
| EngineFacts.PrefixTrades | fundbt/engine_pandas.py:72-79 | The prefix run's trade count is the full run's entries executed within the prefix |
| EngineFacts.NameLooksBack | fundbt/rules.py:24-36 | A bar's dip, trend and rebound depend only on closes up to that bar |
| DipBuyerFacts.RuleMeans | fundbt/rules.py:15-36 | Entry if and only if the close is at most (1 - pct) of the close dip_days ago and above the mean of the last trend_days closes; exit if and only if the close is at least each of the dip_days closes before it or is not above that mean; refused for a negative window |
| Registry.RunBacktest | fundbt/run_backtest.py:126-238 | The tool as written equals its function: validation, cache, budget, quarantine, computation, log |
| Registry.EvaluateHoldout | fundbt/run_backtest.py:241-321 | The one-shot holdout as written equals its function |
| Registry.Validate | fundbt/run_backtest.py:141-149 | The validation loop returns the first undeclared or out-of-range parameter |
| Registry.TrialRegistry.LogTrial | fundbt/registry.py:62-83 | Logging ignores a repeated key and refuses an unregistered spec |
| Registry.TrialRegistry.ConsumeHoldout | fundbt/registry.py:116-157 | A spec's holdout is consumed once; a second attempt changes nothing and says so |
| RegistryFacts.BudgetHolds | fundbt/run_backtest.py:160-169 | Over any sequence of calls, fresh non-rejected non-holdout trials per spec never exceed search_budget |
| RegistryFacts.RefusedIff | fundbt/run_backtest.py:141-169 | Over any calls, a valid call under a run key not yet logged is refused for budget if and only if at least search_budget trials of its registered spec are in the log, rejections and holdouts counted |
| RegistryFacts.FreshAnswerIff | fundbt/run_backtest.py:141-238 | Over any calls, a backtest is answered afresh if and only if it is valid, its run key new, its registered spec under budget, the history without a hole and at least 504 bars long up to the cutoff, and study and statistics compute |
| RegistryFacts.StudyComputesIff | fundbt/run_backtest.py:170-184 | A study computes if and only if the liquidity bucket is known and the three parameters are there with neither window negative |
| RegistryFacts.LastDateIsLatest | fundbt/run_backtest.py:173-174 | The cutoff is counted back from the latest date |
| RegistryFacts.FamilyStatsListed | fundbt/run_backtest.py:186-201 | The earlier results a study is graded against are one for each trial of its family |
| RegistryFacts.TrialKnowsItsRank | fundbt/run_backtest.py:190-193 | Every logged run's n_trials_family is its rank in its family's log, rejections and holdouts counted |
| RegistryFacts.FamilyNeverShrinks | fundbt/registry.py:85-95 | Family N never decreases over any sequence of calls |
| RegistryFacts.RepeatIsFree | fundbt/run_backtest.py:155-158 | Any validated call whose run key is already in the log, by whichever call, changes nothing and returns the stored statistics, whatever came between |
| RegistryFacts.SameKeySameAnswer | fundbt/run_backtest.py:151-158 | Two calls with one run key: once the first was logged the second returns what it stored, a budget rejection included, and changes nothing |
| RegistryFacts.MonthsShareAKey | fundbt/run_backtest.py:151-158 | The run key leaves holdout_months out: the same call under any other number of months gets the first call's statistics back, measured on the first cutoff |
| RegistryFacts.StoredByACall | fundbt/run_backtest.py:160-237 | Every stored non-holdout trial was computed or refused by an earlier call with its key |
| RegistryFacts.HoldoutAnswersOnce | fundbt/run_backtest.py:286-321 | evaluate_holdout answers normally at most once per spec, whatever the parameters, data and crashes between its two commits |
| RegistryFacts.HoldoutAnswersIff | fundbt/run_backtest.py:286-321 | Over any calls, a holdout evaluation answers if and only if its spec is registered, it computes, nothing kills it between its commits, and no earlier one on that spec answered |
| RegistryFacts.RejectionComesBackAsAResult | fundbt/run_backtest.py:155-169 | Over any calls, a call gets a budget rejection back as a cached result, with no error, if and only if it is valid and an earlier call with its run key was refused for budget |
| RegistryFacts.ValidatedIff | fundbt/run_backtest.py:141-149 | Parameters pass validation if and only if each is declared and in range |
| RegistryFacts.BlindAfterCutoff | fundbt/run_backtest.py:170-238 | A first run's whole answer, the dip-buyer's trades and net series through the engine included, does not depend on any price after the holdout cutoff |
| RegistryFacts.StudyIsFullRunStopped | fundbt/run_backtest.py:170-184 | The stored net series at 1x, 2x and 3x are the full-history runs of the rule and engine cut at the holdout cutoff, and the stored trade count is their entries executed by then |
| RegistryFacts.FullRunsAgreeUpToCutoff | fundbt/run_backtest.py:170-184 | Full-history runs on two price histories that agree up to the cutoff, whatever their later prices, both cut to the study the first run stored |
| RegistryFacts.StressLadder | fundbt/run_backtest.py:176-184 | The 1x, 2x and 3x net returns of a study fall bar by bar in equal steps |
| ScoringFacts.ByValuePartitions | calibration/scoring.py:95-97 | The unique-value bins hold every call once |
| ScoringFacts.EqualMassPartitions | calibration/scoring.py:70-72 | The equal-mass bins hold every call once |
| ScoringFacts.EqualMassBinsAreSlices | calibration/scoring.py:70-72 | The equal-mass bins are slices of the calls in stable forecast order, sizes within one of each other |
| ScoringFacts.MurphyIdentity | calibration/scoring.py:75-108 | For any partition of binary outcomes, Brier = reliability - resolution + uncertainty + the mean within-bin (p-pk)^2 - 2(p-pk)(o-ok) |
| ScoringFacts.ExactOnUniqueValues | calibration/scoring.py:81-84 | On the unique-value branch the decomposition is exact |
| ScoringFacts.EceIsBounded | calibration/scoring.py:99-106 | The squared calibration error never exceeds reliability |
| CalibrationFacts.ErrorAtLeastBias | calibration/scoring.py:99-106 | The calibration error is at least the distance between the mean forecast and the base rate, whatever the bins |
| CalibrationFacts.ZeroIffCalibrated | calibration/scoring.py:99-106 | Reliability and the calibration error are never negative, and zero if and only if in every bin the mean forecast is the mean outcome |
| CalibrationFacts.ZeroIffFlat | calibration/scoring.py:99-106 | Resolution is never negative, and zero if and only if every bin has the base rate |
| CalibrationFacts.UncertaintyIsTheBaseRates | calibration/scoring.py:107-108 | Uncertainty is the Brier score of always forecasting the base rate |
| CalibrationFacts.HowManyBins | calibration/scoring.py:91-98 | One bin per distinct forecast where there are few enough, otherwise one per 20 calls, at least one and at most ten |
| ScoringFacts.MurphyDecomposition | calibration/scoring.py:75-108 | The loop as written computes the three terms, the calibration error and the bin count, or nothing below 20 calls |
| PmWeights.PmWeightsMethod | calibration/scoring.py:169-194 | pm_weights as written equals its function |
| PmWeights.RawIsLastScore | calibration/scoring.py:180-186 | Each scored seat appears once, valued by its last score |
| PmWeightFacts.WeightsAreFair | calibration/scoring.py:169-194 | The weights list every scored seat once, sum to 1, and each is at least f/(n+(n-1)f) for floor fraction f, 1/(3n-1) at the default |
| PmWeightFacts.IsProbability | calibration/scoring.py:187-194 | The normalised floored values are a probability vector |
| PmWeightFacts.SeatsCompared | calibration/scoring.py:180-194 | Among seats past the minimum a better clipped score never weighs less; all seats under it weigh alike, at most 1/n |
| PmWeightFacts.WeightsAreStakes | calibration/scoring.py:180-194 | Exactly which weights: in proportion to each seat's clipped last skill, or the mean of the others' where it has none, raised to the floor; all equal if every stake is zero |
| PmWeightFacts.UntestedIsMeanIff | calibration/scoring.py:172-178 | A seat graded too rarely gets exactly 1/n if and only if no seat with a worth of its own is lifted to the floor |
| PmWeightFacts.UntestedBelowMean | calibration/scoring.py:172-178 | Skilled, unskilled and untested: the untested seat gets 2/7, not 1/3 |
| PmWeightFacts.FloorIsTight | calibration/scoring.py:188-194 | For every n > 1 and every grading minimum there are scores of n seats whose weights from pm_weights put a seat at exactly 1/(3n-1) |
| Accounting.RecordedHoldings | orchestrator/protection.py:304-325 | The loop over filled rows computes, for every symbol, shares bought minus shares sold |
| Accounting.HeldBySymbol | orchestrator/protection.py:328-339 | For every symbol the sum over its position lines, or nothing if and only if a line is unreadable |
| Accounting.HoldingsAreNet | orchestrator/protection.py:304-325 | A symbol is recorded as held if and only if more was bought than sold, and then at the difference |
| Accounting.RowOrderDoesNotMatter | orchestrator/protection.py:304-325 | Shares bought and shares sold do not depend on the order of the rows |
| Accounting.CountedIff | orchestrator/protection.py:440-460 | The first read counts if it is readable and no symbol falls short, else the second if that is readable, else none |
| Accounting.CheckSays | orchestrator/protection.py:372-495 | The whole check symbol by symbol, from rows and lines: a symbol sold out is not mentioned; any other is judged on shares bought less sold against the sum over the lines that count; with none that count the check says only that |
| Accounting.NamesAscend | orchestrator/protection.py:458-495 | Symbols are taken in name order |
| Accounting.EventLog.AssertPositionsAccounted | orchestrator/protection.py:372-495 | The check as written equals its function, reads the broker at most twice and returns the alerts appended |
| Accounting.AlertsAreChangePoints | orchestrator/protection.py:401-417 | Over any run of readable checks where a symbol stays recorded and never falls, the log says about it exactly one alert per change of max(0, recorded - held), re-armed after a clear, whatever other symbols share the log |
| Accounting.SilentIff | orchestrator/protection.py:458-495 | The check is silent if and only if the gap is the standing one and nothing was written off below what it was raised at; otherwise it says the gap as it is |
| Accounting.ChecksObserve | orchestrator/protection.py:440-460 | A readable check is one such observation over exactly the recorded symbols, with at most one re-read |
| Scopes.DictionaryIsResolution | scripts/check_purity.py:357-491 | At every scope and name of the fragment the dictionary gives exactly the import target of the scope Python resolves the name to (section 4.2.2 of the Python Language Reference), and nothing if that scope does not import it |
| Scopes.LintIsExact | scripts/check_purity.py:509-562 | The lint reports exactly the uses that resolve to a forbidden target, in order, over a whole tree of scopes |
| Scopes.Rebind | scripts/check_purity.py:357-491 | The rebinding loop reaches the same dictionary in any order of names |
| Scopes.ScanScope | scripts/check_purity.py:357-562 | The recursive scan as written equals its function |
| Scopes.ForbidsIsComponentPrefix | scripts/check_purity.py:117-130 | An entry forbids a name if and only if its dotted components are a prefix of the name's |

## Left out

- Timestamps, alert wording, Block Kit rendering, redaction, and JSON or SQL text; alerts and timestamps are not compared in `Confluence.RecoveryIsConfluent`.
- Real connections, locks, subprocesses and sessions: processes run one at a time, each cut after any commit, and the broker and the agent move between them.
- Database write failures other than a raise inside the gate's handling of one decision.
- Non-finite and exotic float spellings (signs, exponents, spaces, underscores) and digits outside ASCII: Python's own coercers are parameters for those in `OrderGate`, and a payload field is a number, blank, missing or garbage.
- runtime's `_parse_fill` can raise on a non-finite quantity although its comment says it never does; the model treats that payload as unreadable.
- A lookup that finds nothing (None) is classed as confirmed open and gets a cancel at the cap, although the comment at orchestrator/reconcile.py:237-240 speaks of what the broker confirmed; the model follows the code.
- The recorder does not check that its INSERT landed; the model keeps that, and `DroppedRows` says what follows. A value SQLite cannot bind is treated as an absent key: it raises and writes nothing.
- A fill event the recorder appends carries the response's own symbol and side, null if the response gave none; the promise about them covers the ones given.
- TradingDays.OrdersFitTheirTickets: it takes agent calls only while the execution stage runs, gate work only on the day's own decisions while the gate stage runs, that the gate stage finishes as `GateStage.RunGate` proves, and that tickets expire before the next day opens.
- The stop leg of an order, hand-placed orders and broker positions outside `Accounting`.
- `run_execution_stage`, which runs execution outside `run_day`, and the trader turn and unexecuted-ticket alert inside the execution stage.
- Research and decision stage bodies; a PM revision is modelled only before the decision has a ticket.
- The events table is modelled twice: as the fund's record in `FundTables`, as the outbox queue in `Outbox`.
- Outbox.DrainAccount: crash-free; under a crash between a dead letter's mark and its report the report is lost, because the mark is committed first.
- Guarantees.NeverClaimsUnconfirmed: a row is 'filled' before its numbers are written when the recorder dies between the two, so it does not promise numbers on every filled row.
- Float rounding throughout; prices are positive reals, so zero, negative and missing closes inside the engine are not modelled.
- Sharpe, deflated Sharpe, drawdown, walk-forward, regime and neighbour statistics: a function (`Lab.grade`) of the study, the visible prices and the family's log; a neighbour run that raises counts as that function raising. The study itself (trades and the three net series) is the modelled rule and engine.
- RegistryFacts.BlindAfterCutoff: the two calls start from the same log, whose earlier results the deflated Sharpe's family variance reads; the run key hashes all prices and does change.
- RegistryFacts.StudyIsFullRunStopped: for dates in ascending order; without that the visible slice is a selection of rows, not a prefix.
- The holdout evaluation's own statistics, and the date arithmetic of the cutoff.
- SHA-256: a spec record stands for its id and a run key for its fields; the data digest is any function.
- cost_share and annual_turnover of the engine's result, and the vectorbt adapter.
- In `Aftermath` a numeric text with spaces or a sign is unreadable to the recorder, although int() takes it.
- brier_skill_score, batting and slugging, shrinkage and recency weights: single expressions.
- In the scope resolver: class bodies, comprehensions, walruses, aliases, parameter defaults, star imports and the arity rules.
- Scopes.DictionaryIsResolution: `__import__` rebound at module level still resolves to the builtin, as the lint intends for uses before the rebinding.
- The protective-stop guard, dispatch, improvement jobs, nightly scripts and evaluations.
