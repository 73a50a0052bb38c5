# Network orders: protocol, outbox and read model, verified

This project models how the network-fulfillment service answers demand from an external retail network, and how
what it answered reaches its report. To check it, run `dafny verify dfyconfig.toml` with Dafny 4.11.

Four processes share state. The **poller** fetches demand and hands each unit to the **receive** use case, which
records the order, raises a hold with order-management, and answers: it commits the answer with its event, tells the
network, and releases or has cancelled the hold. The **sweep** refuses orders whose 24 hours are over. The **outbox
relay** forwards the events that were committed with the rows. The **analytics consumer** applies them to daily
rollups. All port calls can fail, with or without effect; processes interleave at every call and may be lost at any.

## How the files fit together

- `Domain`, `Translation`: the aggregate, its events, lines and quantities.
- `Protocol`: receive call, sweep, tables, planner and network as one transition system; one action is one port call,
  one statement of a transaction, or a change of the environment. `History` reads the outbox back per order.
  `ProtocolInvariant` is what every step keeps; `ProtocolWrites` says what can change durable state at all.
- `Relay`, `Consumer`, `Projection`, `Tallies`: the relay and the consumer as transition systems, the rollup as sums
  over distinct events, and the counting of events on their way. `Pipeline` composes everything; a run is a sequence
  of its steps, and `Guarantees`, `Window` and `Convergence` are theorems about all runs.
- `World` is the running system under application code: before each call takes its step, all other processes take any
  number of theirs. `ReceiveDemand`, `SweepDeadlines`, `RelayWorker`, `ConsumerWorker` and `Polling` are the source's
  methods, written against it with their loops, early returns and objects changed in place. In a *calm* world no call
  fails, no process is lost, demand comes only by seeding and the clock keeps a call within its bound; there the same
  methods are shown to succeed. In a world where relay commits *land* they take effect though they may be reported as
  failed, and in a *patient* one nobody tells a process to stop; a calm world is both.
- `Stores`, `Repository`, `UnitOfWork`, `StubNetwork` are the adapters: the two projection stores
  against one abstract store, the order repository with its two tables, transaction scopes, and the stub network. A
  *reliable* database fails no statement its tables accept.

## What is assumed

- Transactional mode with Postgres, one process and one relay, as `charts/network-fulfillment/values.yaml` deploys it.
- The clock does not go back, and arrivals at the network are stamped by the same clock. Time is an integer count of
  nanoseconds since the zero time, latency an integer.
- No answer commits later than a bound after its call first read the clock. The theorems hold for every bound up to
  24 hours; `Window.SafeExactlyWithinWindow` shows that this is exactly the limit.
- Order-management returns ids it never returned before, and every event id is new (CloudEvents 1.0, "REQUIRED
  Attributes": `source` and `id` together identify an event).
- The fate of a commit whose outcome was reported wrongly is decided by the time the call returns.
- A transaction one of whose statements failed at the server cannot commit, as PostgreSQL documents.
- A failing `MarkProcessed` marks nothing, as the consumer itself relies on.
- The gateway returns at least everything that arrived at or after the watermark and is not answered; the stub does
  (`Polling.StubIsComplete`).
- The product dictionary is fixed at boot; a lookup tells the truth or fails.
- No row locks are modelled; more interleavings are allowed than Postgres lets happen.
- Line refs sort in some total order; the model uses the lexicographic one.

## Where code and comments differ

The model follows the code.

- The sweep's comments say its point is to free holds. Rows still unanswered never carry a local order, so that
  branch is never taken (`ProtocolInvariant.SweepNeverCancels`); holds that failed calls leave behind stay (`Guarantees.OrphansStay`).
- `reject` says a failed submission will be retried. A redelivered demand finds its row and is returned as success, so
  an answer is submitted at most once and a failed submission is final (`Guarantees.OneAnswerPerOrder`).
- `rejectUntranslatable` speaks of a synthetic line; the order it records has none.
- The comment on the acknowledged event says the network has been told; the event commits before that.
- The repository's lines are keyed by line ref, so of two lines sharing one only the first is kept
  (`Repository.RoundTrip`).
- `Publish` outside a scope is not atomic over its encoders (`UnitOfWork.Database.PublishEvent`).

## Model

| member | source | states |
|---|---|---|
| `Domain.NewLine` | internal/domain/networkorder/network_order.go:75-89 | a line exists exactly for a nonempty line ref, product and SKU and a positive quantity; an empty SKU, and only that, reads as an unknown product |
| `Domain.NetworkOrder.Acknowledge` | internal/domain/networkorder/network_order.go:189-195 | a NEW order becomes ACKNOWLEDGED and nothing else changes; any other is left alone with "already answered" |
| `Domain.NetworkOrder.Reject` | internal/domain/networkorder/network_order.go:201-207 | a NEW order becomes REJECTED and nothing else changes; any other is left alone with "already answered" |
| `Domain.NetworkOrder.LinkLocalOrder` | internal/domain/networkorder/network_order.go:212-221 | only an acknowledged order without a link takes one; the two errors are told apart and leave the order alone |
| `Domain.NetworkOrder.ConfirmShipment` | internal/domain/networkorder/network_order.go:225-231 | only an acknowledged order is confirmed |
| `Domain.NetworkOrder.SKUQuantities` | internal/domain/networkorder/network_order.go:245-251 | the loop fills the map the specification function gives, whose keys, totals and order independence are proved in Translation |
| `Domain.Lifecycle` | internal/domain/networkorder/network_order.go:185-231 | after any sequence of requests an order was answered at most once, a refusal is final, a link sits only on a yes and is never replaced, and everything fixed at intake is unchanged |
| `Translation.TranslationVerdict` | internal/application/usecases/receive_network_demand.go:142-156 | translating a demand fails with an error exactly when its first failing line fails with it; otherwise every line comes through, in order |
| `Translation.QuantitiesAt` | internal/domain/networkorder/network_order.go:245-251 | the projection has exactly the SKUs of the lines, each with the units of its lines |
| `Translation.QuantitiesTotal` | internal/domain/networkorder/network_order.go:245-251 | the quantities add up to the units of all lines |
| `Translation.QuantitiesPermute` | internal/domain/networkorder/network_order.go:245-251 | permuting the lines does not change the projection |
| `Translation.RequestConserves` | internal/application/usecases/receive_network_demand.go:80-105 | the planner is asked for exactly the translated SKUs, each with a positive quantity, and for as many units in all as the network asked for |
| `Translation.LineOrderIrrelevant` | internal/application/usecases/receive_network_demand.go:80-105 | permuted demands are translatable together or not at all, and ask the planner for the same |
| `History.EventsCommit` | internal/adapters/outbound/postgres/outbox_publisher.go:49-75 | committing the one row an order has on a topic appends its event to what the topic says about the order |
| `ProtocolInvariant.StepKeeps` | internal/application/usecases/receive_network_demand.go:66-251 | every step of the receive call, the sweep, a crash or the clock keeps the protocol invariant, as long as no answer commits after its window |
| `ProtocolInvariant.CommitStories` | internal/adapters/outbound/postgres/outbox_publisher.go:49-75 | a transaction that may commit keeps every order's row and events telling the same story on every topic |
| `ProtocolInvariant.RecordingCommittable` | internal/application/usecases/receive_network_demand.go:124-138 | a receive call that passed the lookup records a ref nobody recorded meanwhile |
| `ProtocolInvariant.ExecKeepsItsPlace` | internal/application/usecases/sweep_acknowledgement_deadlines.go:72-98 | the sweep's commit never touches an order whose receive call is still inside its window |
| `ProtocolInvariant.SweepKeepsItsPlace` | internal/application/usecases/receive_network_demand.go:223-243 | a receive call's commit never touches an order a sweep pass holds as overdue |
| `ProtocolInvariant.SweepNeverCancels` | internal/application/usecases/sweep_acknowledgement_deadlines.go:73-80 | in no reachable state does the sweep have a hold to cancel: unanswered rows carry no local order |
| `ProtocolWrites.Writes` | internal/adapters/outbound/postgres/network_order_repo.go:42-93 | the table changes only by a commit, which upserts one order and reveals its outbox rows together |
| `ProtocolWrites.CommitsAreCommittable` | internal/adapters/outbound/postgres/network_order_repo.go:55-69 | every committed upsert is a first insert with its receipt, or the answer to an unanswered row with the same intake, so the unconditional upsert overwrites nothing |
| `ProtocolWrites.AnswersStand` | internal/adapters/outbound/postgres/network_order_repo.go:55-69 | one step never changes an answered row, nor what the network fixed |
| `ProtocolWrites.RecordsDemand` | internal/domain/networkorder/network_order.go:128-180 | a row appears only by the commit of a receive call, with the site and the ship-by deadline of the demand that call was given, received at the call's first clock read and due 24 hours later |
| `ProtocolWrites.OutboxGrows` | internal/adapters/outbound/postgres/outbox_publisher.go:49-75 | no outbox row of an order becomes visible below one of the same order that already is |
| `ProtocolWrites.ReportKeeps` | internal/application/usecases/sweep_acknowledgement_deadlines.go:54-69 | every order a pass has counted, or whose failed commit landed, is rejected, with a deadline-missed event as its last on every topic; every other order for which a call of the pass failed is still NEW and overdue |
| `ProtocolWrites.OverdueStays` | internal/application/usecases/sweep_acknowledgement_deadlines.go:46-69 | nothing but a commit of the sweep itself answers an order whose window closed |
| `ProtocolWrites.HoldStays` | internal/application/usecases/receive_network_demand.go:185-190 | one step never settles a hold left behind by a call that has ended |
| `Guarantees.RowAndHistoryAgree` | internal/application/usecases/receive_network_demand.go:124-243 | in every reachable state the events of a ref on each topic are none without a row, [Received] while NEW, and [Received, the row's own answer] once answered; no row is CONFIRMED; the deadline is receipt plus 24h, and a yes was recorded inside it; a refusal says DeadlineMissed if and only if it was recorded after it, and otherwise UntranslatableSku if and only if the order has no lines, InfeasibleDeadline if and only if a hold of the order was called infeasible and cancelled |
| `Guarantees.HistoryClosed` | internal/application/usecases/receive_network_demand.go:194-243 | from any state of a run in which an order is answered to any later one, neither its row nor what any topic says about it changes |
| `Guarantees.RowsStand` | internal/adapters/outbound/postgres/network_order_repo.go:38-93 | from any state of a run to any later one, rows stay, what intake fixed stays, and an answered row is never overwritten by poller or sweep, whatever fails |
| `Guarantees.OneAnswerPerOrder` | internal/application/usecases/receive_network_demand.go:207-246 | at most one answer per ref is ever submitted; it is the one the row durably shows, and the event that says the same is enqueued on every topic |
| `Guarantees.HoldLedger` | internal/application/usecases/receive_network_demand.go:101-113 | every hold is for a recorded, translated order; released and cancelled exclude each other; only holds called infeasible are cancelled; a released one was called feasible and is the link of a durable yes the network confirmed; an outstanding one belongs to the running call or to one that failed or crashed |
| `Guarantees.OrphansStay` | internal/application/usecases/receive_network_demand.go:74-78 | a hold that a failed or lost call left outstanding is outstanding in every later state of the run |
| `Guarantees.LedgerClosed` | internal/application/usecases/sweep_acknowledgement_deadlines.go:73-80 | only raised holds are released or cancelled, and the sweep's cancellation is never enabled |
| `Guarantees.RelayOrder` | internal/adapters/outbound/postgres/outbox_relay.go:94-193 | the first delivery of a row comes after a delivery of every earlier row of its key, duplicates and failures included; a published row was sent; what is delivered is what was enqueued |
| `Guarantees.ReportAgreesWithTable` | internal/adapters/inbound/kafka/analytics_consumer.go:214-244 | summed over all days the report never counts more receipts, acknowledgements or refusals than the order table; it counts exactly as many if and only if every enqueued event was applied |
| `Guarantees.ReportAgreesWithHistory` | internal/adapters/inbound/kafka/analytics_consumer.go:214-244 | every figure of the report, latencies and single causes included, is the sum over the announced events but for those that still wait to be applied |
| `Guarantees.EventCountsItsOrder` | internal/adapters/inbound/kafka/analytics_consumer.go:350-371 | what an event on the analytics topic counts is what its order's row shows: one receipt; one yes with the time it took, at most 24 hours; or one refusal, under missed if it came after the deadline, else under untranslatable without lines and under the domain figure with a declined hold |
| `Tallies.EventCounts` | internal/adapters/inbound/kafka/analytics_consumer.go:350-371 | event by event: the instant is the event's, the latency is max(0, at - receivedAt), and each cause adds one to its own figure and to no other |
| `Guarantees.TableFiguresCountRows` | internal/adapters/outbound/postgres/network_order_repo.go:120-126 | the table's three figures are the numbers of its rows, of its ACKNOWLEDGED rows and of its REJECTED rows |
| `Guarantees.SettledReportIsExact` | internal/adapters/inbound/kafka/analytics_consumer.go:214-258 | with the outbox drained, every message handled, nothing dead-lettered and no marking call cut short, report and table agree exactly |
| `Guarantees.ConsumerAccounting` | internal/adapters/inbound/kafka/analytics_consumer.go:214-291 | the rows are the sums over the distinct applied events, each applied event is marked and was enqueued with that content, and a marked event is applied, dead-lettered, or its marking call did not return nil |
| `Pipeline.StepOk` | internal/adapters/outbound/postgres/outbox_relay.go:32-193 | every step of any part keeps the invariant of the whole pipeline, including the balance between table, outbox and rollup |
| `Pipeline.RunOk` | cmd/netfulfil/main.go:316-345 | every state of every run of the composed processes satisfies that invariant |
| `Window.SafeExactlyWithinWindow` | internal/adapters/outbound/postgres/network_order_repo.go:61-63 | if answers may commit up to a bound after the call's first clock read, no answered row is ever changed if and only if the bound is at most 24h |
| `Window.LateAnswerOverwrites` | internal/adapters/outbound/postgres/network_order_repo.go:61-63 | for any larger bound, a run in which a late yes overwrites the sweep's recorded refusal |
| `Convergence.Converged` | internal/application/usecases/receive_network_demand.go:66-251 | while every receive call returned an order and none runs: every row is answered, the network was sent exactly that answer, the hold of every yes is released and none is outstanding |
| `Convergence.StepDone` | internal/application/usecases/receive_network_demand.go:66-251 | every step keeps rows done unless a call fails or is lost |
| `Convergence.DoneStays` | internal/application/usecases/receive_network_demand.go:74-78 | an order answered, announced and settled in one state of a run is so in every later one |
| `World.Runtime.Interfere` | cmd/netfulfil/main.go:328-343 | while one process waits for a call, the others take any steps: its own progress is kept, and for a receive call also the holds, the network and the set of recorded refs; overdue orders stay overdue for the sweep; in a calm world no demand arrives meanwhile |
| `World.QuietStays` | internal/application/usecases/sweep_acknowledgement_deadlines.go:54-58 | with every row answered and no call running, no step of the sweep or of any other process changes table, outbox, holds or network |
| `World.CalmIsPrompt` | internal/domain/networkorder/network_order.go:115-120 | in a calm world the call in progress is never later than the bound |
| `ReceiveDemand.ReceiveNetworkDemand.Execute` | internal/application/usecases/receive_network_demand.go:66-114 | it returns an order only if the row is there: the row found for a known ref, leaving network, holds and recorded refs as they were; or the row it wrote, new under the demand's ref with its site, its ship-by deadline, the instant of the call's first clock read as receipt, a deadline 24h later and the dictionary's lines (or none and a refusal for an unknown product), answered inside those 24h with the event on every topic naming the right cause, submitted once with the same verdict and left without an outstanding hold, a yes resting on a hold called feasible, a no on an unknown product or a hold called infeasible and cancelled; every other ending is an error, and a row left behind by one carries the demand just the same; when no call fails, every well-formed demand comes back as an order |
| `ReceiveDemand.ReceiveNetworkDemand.Handle` | internal/application/usecases/receive_network_demand.go:80-114 | from translation on the call ends failed, or with its order concluded and carrying what the dictionary makes of the demand; a row it leaves, on whichever ending, has the demand's site and ship-by deadline, this receipt and a deadline 24h later; when no call fails, a well-formed demand is concluded |
| `ReceiveDemand.ReceiveNetworkDemand.Proceed` | internal/application/usecases/receive_network_demand.go:93-100 | a translated demand is recorded, then settled; the row it leaves, on whichever ending, has the demand's site and ship-by deadline, the given lines, this receipt and a deadline 24h later; when no call fails, it is settled |
| `ReceiveDemand.ReceiveNetworkDemand.Settle` | internal/application/usecases/receive_network_demand.go:101-114 | the hold is raised with the order's SKU quantities and the order answered as order-management judges it |
| `ReceiveDemand.ReceiveNetworkDemand.SaveAndPublishReceived` | internal/application/usecases/receive_network_demand.go:124-138 | the order and its receipt are recorded in one transaction, the receipt last on every topic, or the call has failed |
| `ReceiveDemand.ReceiveNetworkDemand.Translate` | internal/application/usecases/receive_network_demand.go:142-156 | the result is the dictionary's verdict on the lines, or the failure of a lookup; when no lookup fails, it is the verdict |
| `ReceiveDemand.ReceiveNetworkDemand.RejectUntranslatable` | internal/application/usecases/receive_network_demand.go:162-171 | a lineless order is recorded and refused as untranslatable, without a hold; the row it leaves, on whichever ending, has the demand's site and ship-by deadline, this receipt and a deadline 24h later |
| `ReceiveDemand.ReceiveNetworkDemand.RecordAnswer` | internal/application/usecases/receive_network_demand.go:194-206 | the answered order and its event are committed together before anything is submitted: on every topic the order then has its receipt and one answer, recorded inside its 24h, that names the local order of a yes and the given cause of a no |
| `ReceiveDemand.ReceiveNetworkDemand.PublishAnswer` | internal/application/usecases/receive_network_demand.go:198-203 | the answer transaction holds one row per encoder, and they tell the order's answer with the given cause |
| `ReceiveDemand.ReceiveNetworkDemand.Reject` | internal/application/usecases/receive_network_demand.go:185-211 | the hold is cancelled first, then the refusal is recorded, then submitted; success means all of it, with the row REJECTED, no hold outstanding, and every topic naming untranslatable for a lineless order and infeasible for any other |
| `ReceiveDemand.ReceiveNetworkDemand.Acknowledge` | internal/application/usecases/receive_network_demand.go:223-251 | the linked yes is recorded, then submitted, and only then is the hold released; success means all of it, with every topic naming the local order |
| `ReceiveDemand.Ports.FindByRef` | internal/adapters/outbound/postgres/network_order_repo.go:97-111 | the lookup ends the call with the row there is, or lets it go on because there is none |
| `ReceiveDemand.Ports.Publish` | internal/adapters/outbound/postgres/outbox_publisher.go:49-75 | one outbox row per encoder joins the open transaction, or the call has failed |
| `ReceiveDemand.Ports.SubmitAcknowledgement` | internal/application/usecases/receive_network_demand.go:207-210 | exactly one answer is sent, to the stub too when that is the network; a submitted refusal concludes its order, a submitted yes leaves the hold to release, a failure ends the call |
| `ReceiveDemand.Ports.ReleaseHeldOrder` | internal/application/usecases/receive_network_demand.go:247-250 | the release concludes an acknowledged order or the call has failed |
| `SweepDeadlines.SweepAcknowledgementDeadlines.Execute` | internal/application/usecases/sweep_acknowledgement_deadlines.go:46-70 | at the instant its clock read, with the pass's record left in the state: of the orders overdue then, exactly those for which a call failed without its commit landing are left; the others are durably REJECTED with a deadline-missed event last; only orders past their deadline are touched; Missed is the number moved; overdue orders are conserved (left + missed + landed = overdue before + recorded late), so without a late record or an ambiguous commit their number drops by exactly Missed; when no call fails nothing overdue is left out |
| `SweepDeadlines.SweepAcknowledgementDeadlines.Handle` | internal/application/usecases/sweep_acknowledgement_deadlines.go:54-69 | moved and failed orders together are exactly the overdue ones of the list, disjointly, and those whose failed commit did not land are still overdue |
| `SweepDeadlines.SweepAcknowledgementDeadlines.Loop` | internal/application/usecases/sweep_acknowledgement_deadlines.go:54-69 | one failed order does not stop the loop; the count is the number of moved orders |
| `SweepDeadlines.SweepAcknowledgementDeadlines.MissOne` | internal/application/usecases/sweep_acknowledgement_deadlines.go:72-98 | the order is moved and counted only if its refusal and event committed; any error leaves it to a later pass |
| `SweepDeadlines.SweepPorts.ListUnanswered` | internal/adapters/outbound/postgres/network_order_repo.go:120-163 | every order overdue when the listing began is on the list, although each is loaded after the query and others run in between |
| `SweepDeadlines.SweepPorts.UnansweredRefs` | internal/adapters/outbound/postgres/network_order_repo.go:120-126 | the query: exactly the NEW refs, in the order of their deadlines |
| `SweepDeadlines.PassBalances` | internal/application/usecases/sweep_acknowledgement_deadlines.go:46-70 | from what a pass did to each order follows what it leaves, and the balance of overdue orders before and after |
| `RelayWorker.OutboxRelay.Run` | internal/adapters/outbound/postgres/outbox_relay.go:71-86 | what is published stays published; when no call fails and nothing is added, there is no pause before the outbox is empty, and with a positive batch size as many passes as rows are pending empty it |
| `RelayWorker.OutboxRelay.PassAndPause` | internal/adapters/outbound/postgres/outbox_relay.go:72-84 | when no call fails and nothing is added, a pass takes min(pending, batch size) rows off the front and is followed by a pause exactly when fewer than a batch were pending |
| `RelayWorker.OutboxRelay.RelayOnce` | internal/adapters/outbound/postgres/outbox_relay.go:100-112 | the oldest unpublished rows of a state the pass went through are claimed, at most a batch; without an error all of them are marked and counted, so that what was pending loses exactly its first min(pending, batch size) rows; with one, the durable marks are none or exactly those before the failure, and when commits land a failed send leaves exactly those; only sent rows count; when no call fails there is no error |
| `RelayWorker.OutboxRelay.ClaimOutboxRows` | internal/adapters/outbound/postgres/outbox_relay.go:116-151 | the claim is exactly the first rows, by id, that are visible and unpublished |
| `RelayWorker.OutboxRelay.PublishBatch` | internal/adapters/outbound/postgres/outbox_relay.go:158-178 | rows are sent and marked in order up to the first failure; a row is marked only after its send succeeded; when commits land, a failed send leaves exactly the rows before it published |
| `RelayWorker.OutboxRelay.RecordSendFailure` | internal/adapters/outbound/postgres/outbox_relay.go:183-193 | after a failed send the pass commits and sends nothing more: when commits land exactly the rows marked before it become published, otherwise those or none |
| `RelayWorker.PassDrains` | internal/adapters/outbound/postgres/outbox_relay.go:100-178 | with no new rows a pass without an error takes min(pending, batch size) rows off the front of what is pending; a short batch means nothing is pending |
| `RelayWorker.Drained` | internal/adapters/outbound/postgres/outbox_relay.go:71-86 | with a positive batch size, as many such passes as there are pending rows leave none |
| `Relay.RelayStepKeeps` | internal/adapters/outbound/postgres/outbox_relay.go:100-193 | every send, mark, commit, failure or loss keeps the relay's order and at-least-once invariant |
| `Relay.SendOrder` | internal/adapters/outbound/postgres/outbox_relay.go:158-163 | when a row is sent, every earlier visible row of its key was sent |
| `Relay.StoppedPassKeepsMarks` | internal/adapters/outbound/postgres/outbox_relay.go:180-193 | once the commit after a failed send took effect, what is pending has lost exactly the rows marked before the failure, each of which was sent; the failed row and those claimed behind it are still pending |
| `Relay.RelayFrame` | internal/adapters/outbound/postgres/outbox_publisher.go:49-75 | rows that writers add or commit meanwhile do not disturb a pass |
| `ConsumerWorker.AnalyticsConsumer.Consume` | internal/adapters/inbound/kafka/analytics_consumer.go:175-188 | every message fetched before the first fetch or handling error is done with; messages handled stay handled; when no call fails, only the reader ends the loop before the budget is used up |
| `ConsumerWorker.AnalyticsConsumer.HandleMessage` | internal/adapters/inbound/kafka/analytics_consumer.go:214-244 | a call that returns nil ended as exactly one of unrecognized (rows unchanged), already marked (rows unchanged), applied (newly marked, rows changed by exactly that event) or dead-lettered, with the offset committed; in every ending, errors included, the rows are as before or changed by exactly that event; unless told to stop it buries an event only after three failed attempts; when no call fails it returns nil and buries no event |
| `ConsumerWorker.AnalyticsConsumer.MarkProcessedWithRetry` | internal/adapters/inbound/kafka/analytics_consumer.go:265-275 | at most three attempts, and exactly three before it gives up unless told to stop; new exactly if the id was not marked; exhaustion marks nothing |
| `ConsumerWorker.AnalyticsConsumer.ApplyWithRetry` | internal/adapters/inbound/kafka/analytics_consumer.go:281-291 | at most three attempts, and exactly three before it gives up unless told to stop; success means the event's effect is in once; exhaustion leaves it in once or not at all |
| `ConsumerWorker.AnalyticsConsumer.DeadLetter` | internal/adapters/inbound/kafka/analytics_consumer.go:250-258 | success means the message is on the dead-letter topic and its offset committed |
| `Consumer.ConsumerStepKeeps` | internal/adapters/inbound/kafka/analytics_consumer.go:214-291 | every attempt, failure, loss and redelivery keeps the accounting of marked and handled messages |
| `Consumer.CaughtUp` | internal/adapters/inbound/kafka/analytics_consumer.go:214-258 | a handled event is in the rows when nothing was dead-lettered and no marking call was cut short |
| `Projection.ApplyKeepsSums` | internal/adapters/outbound/analyticsstore/postgres_projection.go:72-83 | applying any event keeps the rows exactly those of the days (multiples of 24h) in which a distinct event's instant lies, and every figure of a day the sum over those events |
| `Projection.ApplyAllIsSums` | internal/adapters/outbound/analyticsstore/memory_store.go:42-108 | after any list of applications there is a row for a midnight if and only if a distinct event lies in the 24h from it on, and each figure is the sum over those events |
| `Projection.EventsInTheirDays` | internal/adapters/outbound/analyticsstore/memory_store.go:42 | every key is a multiple of 24h; an applied event is counted in the row of the one day its instant lies in, and in no other |
| `Projection.SeenExactly` | internal/adapters/outbound/analyticsstore/memory_store.go:47-56 | the distinct events are exactly those delivered, each with its payload |
| `Projection.DeliveryIrrelevant` | internal/adapters/outbound/analyticsstore/memory_store.go:47-108 | two deliveries of the same events, in any order and with any duplicates, leave the same store |
| `Stores.Row.Count` | internal/adapters/outbound/analyticsstore/memory_store.go:81-108 | one event adds exactly its kind's increments to a row; an unknown reason adds nothing |
| `Stores.MemoryStore.FirstApply` | internal/adapters/outbound/analyticsstore/memory_store.go:47-56 | true exactly for an id not seen before; the watermark stays the latest instant applied |
| `Stores.MemoryStore.Mutate` | internal/adapters/outbound/analyticsstore/memory_store.go:70-78 | the store with its row objects refines the abstract store: an event with a new id adds its counts to the row whose midnight begins the 24h its instant lies in, and changes no other row; one with a known id changes nothing |
| `Stores.MemoryStore.ApplyNetworkOrderReceived` | internal/adapters/outbound/analyticsstore/memory_store.go:81-83 | a receipt, counted once per id |
| `Stores.MemoryStore.ApplyNetworkOrderAcknowledged` | internal/adapters/outbound/analyticsstore/memory_store.go:87-93 | an acknowledgement with its latency, counted once per id |
| `Stores.MemoryStore.ApplyNetworkOrderRejected` | internal/adapters/outbound/analyticsstore/memory_store.go:97-108 | a refusal under its reason, counted once per id |
| `Stores.MemoryStore.Query` | internal/adapters/outbound/analyticsstore/memory_store.go:112-125 | exactly the rows whose midnight is in [from, to), each once; over a range of whole days an event is told of if and only if its instant lies in [from, to), and every figure adds up over exactly those events |
| `Stores.MemoryStore.FreshnessLag` | internal/adapters/outbound/analyticsstore/memory_store.go:131-147 | how far now is behind the latest applied instant, if that is after the zero time; zero for an empty store or a future event; never negative |
| `Stores.PostgresProjection.Claim` | internal/adapters/outbound/analyticsstore/postgres_projection.go:33-42 | the id is inserted unless present; new exactly if it was not |
| `Stores.PostgresProjection.Apply` | internal/adapters/outbound/analyticsstore/postgres_projection.go:46-83 | claim and increments commit together: success is the abstract application, an error leaves the tables as they were or fully applied; when no statement fails, it succeeds |
| `Stores.PostgresProjection.UpsertRollup` | internal/adapters/outbound/analyticsstore/postgres_projection.go:118-143 | the increments are added to exactly the row whose midnight begins the 24h the instant lies in, inserted if absent; a reliable database does not fail |
| `Stores.PostgresProjection.ApplyNetworkOrderReceived` | internal/adapters/outbound/analyticsstore/postgres_projection.go:86-88 | the increments it builds are those of a receipt |
| `Stores.PostgresProjection.ApplyNetworkOrderAcknowledged` | internal/adapters/outbound/analyticsstore/postgres_projection.go:92-98 | the increments it builds are those of an acknowledgement with its latency |
| `Stores.PostgresProjection.ApplyNetworkOrderRejected` | internal/adapters/outbound/analyticsstore/postgres_projection.go:103-114 | the increments it builds are those of a refusal; an unknown reason claims the id and adds nothing |
| `Stores.PostgresProjection.FreshnessLag` | internal/adapters/outbound/analyticsstore/postgres_report.go:72-93 | the query fails, or: how far now is behind the latest processed instant; zero for an empty store, the zero time or a future event; never negative |
| `Stores.ConsumedEventsRepo.MarkProcessed` | internal/adapters/outbound/analyticsstore/consumed_events_repo.go:24-32 | true exactly for the call that records the id; an error records nothing |
| `Stores.LagsAgree` | internal/adapters/outbound/analyticsstore/postgres_report.go:69-93 | the two stores report the same lag if and only if nothing was applied, or the latest event is not before the zero time, or it is not in the past |
| `Stores.WatermarkIsNewest` | internal/adapters/outbound/analyticsstore/memory_store.go:52-54 | the in-memory watermark is the latest applied instant once one after the zero time was applied, and the zero time before |
| `Stores.RetriesConverge` | internal/adapters/outbound/analyticsstore/postgres_projection.go:46-83 | however calls fail, before or after their effect, once every event got through the store holds what one that never failed holds |
| `Polling.Poller.Run` | internal/adapters/inbound/poller/poller.go:91-104 | one pass at once and one per tick, each asking the gateway once, keeping the watermark safe while everything else runs |
| `Polling.Poller.PollOnce` | internal/adapters/inbound/poller/poller.go:111-174 | it asks the gateway once and goes by what that returned; the watermark becomes the instant read before the call exactly after a pass in which every unit succeeded, and is unmoved after an error, a failure or an abandoned pass; the counters are exact; a clean pass leaves no hold of its own; unless told to stop it tries every unit, its failures are exactly the calls that ended failed, and when no outside call fails every well-formed unit has its row whatever the others are; when no call fails and the units are well formed, the pass is clean; with the stub as the network and no pending unit recorded before, a clean pass leaves nothing pending, records exactly those refs and settles each; with nothing returned and every row answered it changes no row, event, hold or answer |
| `Polling.PassTwice` | internal/adapters/inbound/poller/poller.go:137-173 | in a closed loop where no call fails, one pass empties what is pending and leaves each ref acknowledged or rejected with the same verdict at the stub; a second changes only counters and watermark |
| `Polling.ClosedLoop` | internal/adapters/outbound/network/gateway.go:122-159 | from an empty repository seeded with well-formed demand, with every call succeeding: after two passes nothing is pending, exactly the seeded refs are recorded, each with the verdict the stub holds, and no hold is outstanding |
| `Polling.Gateway.PollDemand` | internal/adapters/outbound/network/gateway.go:122-128 | the stub returns exactly what is pending; any network may return anything as long as nothing that is due is missing |
| `Polling.Gateway.Seed` | internal/adapters/outbound/network/gateway.go:106-110 | seeded demand arrives and is pending; nothing else changes |
| `Polling.ProgressOn` | internal/adapters/inbound/poller/poller.go:138-159 | handling the next unit of a batch records only its ref, settles it, and retires every pending unit of it |
| `Polling.StubIsComplete` | internal/adapters/outbound/network/gateway.go:112-128 | the stub never withholds a unit that is due, which is what the poller needs of a gateway |
| `Polling.Poller.HandleAll` | internal/adapters/inbound/poller/poller.go:137-159 | every unit is tried although others fail, unless we are told to stop; failures are exactly the calls that ended failed and the received counter the orders returned; when no outside call fails every well-formed unit has its row, whatever the other units are |
| `Polling.Poller.NoDemandLost` | internal/adapters/inbound/poller/poller.go:123-180 | every unit that arrived from the configured start up to the watermark has a row, with its receipt first on every topic |
| `Polling.NothingMissed` | internal/adapters/inbound/poller/poller.go:117-135 | if all the gateway returned has rows, everything that arrived before the pass began has one |
| `Polling.SafeLater` | internal/adapters/inbound/poller/poller.go:46-53 | the watermark stays safe along any continuation of the run |
| `StubNetwork.StubGateway.PollDemand` | internal/adapters/outbound/network/gateway.go:122-128 | everything seeded and not answered since, whatever the watermark; polling retires nothing |
| `StubNetwork.StubGateway.SubmitAcknowledgement` | internal/adapters/outbound/network/gateway.go:139-146 | the answer is recorded and every pending unit of its ref retired |
| `StubNetwork.StubGateway.RemoveByRef` | internal/adapters/outbound/network/gateway.go:151-159 | the units of other refs, in order |
| `StubNetwork.PendingExactly` | internal/adapters/outbound/network/gateway.go:104-159 | a unit is pending exactly if it was seeded and no answer for its ref came afterwards |
| `StubNetwork.VerdictHeld` | internal/adapters/outbound/network/gateway.go:142 | the stub holds the verdict of every ref whose submitted answers agree |
| `Repository.NetworkOrderRepo.Save` | internal/adapters/outbound/postgres/network_order_repo.go:42-93 | row upsert and line inserts take effect together or not at all; only storable orders are saved, and a reliable database saves every storable one |
| `Repository.NetworkOrderRepo.FindByRef` | internal/adapters/outbound/postgres/network_order_repo.go:97-111 | none exactly for a ref without a row; otherwise the row's facts with the stored lines in order of line ref |
| `Repository.NetworkOrderRepo.FindLines` | internal/adapters/outbound/postgres/network_order_repo.go:249-290 | each stored line once, sorted by line ref, rebuilt through the line constructor |
| `Repository.FirstIntakeLastAnswer` | internal/adapters/outbound/postgres/network_order_repo.go:30-69 | after any saves of any orders a ref's row holds what its first save fixed and the state and local order of its last |
| `Repository.RoundTrip` | internal/adapters/outbound/postgres/network_order_repo.go:71-90 | the loaded lines are a rearrangement of the saved ones, and ask the planner for the same quantities, if and only if no two lines share a line ref |
| `Repository.SaveIsUpsert` | internal/adapters/outbound/postgres/network_order_repo.go:55-90 | a save of an order whose lines are as stored is the upsert of the protocol's table |
| `UnitOfWork.NestingIrrelevant` | internal/adapters/outbound/postgres/unit_of_work.go:78-85 | removing nested scopes changes neither what a scope's code writes nor how it ends |
| `UnitOfWork.Database.ExecuteScope` | internal/adapters/outbound/postgres/unit_of_work.go:82-110 | an outermost scope that returns nil made exactly its code's whole effect visible; an error leaves everything as before unless the commit itself landed and was reported as failed; a panic leaves everything as before; an inner scope shows nothing; on a reliable database a scope whose writes the tables accept ends as its code does |
| `UnitOfWork.Database.RunCode` | internal/adapters/outbound/postgres/unit_of_work.go:103-109 | inside a transaction nobody else sees a thing, and without a failed statement the transaction sees exactly the code's effect |
| `UnitOfWork.Database.BeginOrJoin` | internal/adapters/outbound/postgres/unit_of_work.go:53-63 | in a scope the caller's transaction is joined unchanged; outside a new one starts from what is durable |
| `UnitOfWork.Database.SaveOrder` | internal/adapters/outbound/postgres/network_order_repo.go:42-93 | in a scope the save is part of it; alone it is atomic by itself |
| `UnitOfWork.Database.PublishEvent` | internal/adapters/outbound/postgres/outbox_publisher.go:49-75 | in a scope one message per encoder joins its transaction; outside each insert is on its own, so a failure leaves a prefix |
| `UnitOfWork.RecordingEffect` | internal/application/usecases/unit_of_work.go:13-18 | a committed save-and-publish scope saves the order and enqueues its event once per topic, and does nothing else |

## Left out

- ConsumerWorker.AnalyticsConsumer.Consume: the endless fetch loop is bounded by a count of messages, because every loop here terminates; any count is allowed.
- RelayWorker.OutboxRelay.Run: the endless loop is bounded by a count of passes, and a batch size is a natural number, because every loop here terminates; `attempts` and `last_error` are not modelled, they decide nothing.
- Polling.Poller.Run: bounded by a count of ticks; the ticker's period and the context are a choice to stop or go on.
- ReceiveDemand.ReceiveNetworkDemand.Execute: split into Execute, Handle, Proceed and Settle, with SubmitAndRelease the end of Acknowledge and Refuse and SubmitRefusal that of Reject, and the two scopes that record an answer share RecordAnswer; the order of calls is the source's.
- ReceiveDemand.Ports.FindByRef: the row comes back with its lines as saved; that the repository sorts them and drops repeated line refs is stated in Repository.
- SweepDeadlines.SweepAcknowledgementDeadlines.Execute: split into Pass, Account, Handle, Loop and Visit; the count drops by exactly Missed only without a late record or a commit that landed but was reported as failed, as its balance says.
- Stores.MemoryStore.Mutate: takes the event's kind instead of a closure over the row, and adds a missing row where the source's `row` does.
- Stores.PostgresProjection.UpsertRollup: the stored column types (integers, double precision, microsecond timestamps) are unbounded integers here.
- Guarantees.OneAnswerPerOrder: says at most one answer; that every row is eventually answered to the network is not true of the code, since a NEW row is returned as success and the sweep does not talk to the network.
- Guarantees.ConsumerAccounting: exactly-once across a crash between marking and applying is not claimed, the code does not give it.
- Guarantees.RelayOrder: order is per order ref and for one relay; published ids need not form a prefix of all ids.
- Polling.ClosedLoop: stated over the transactional system with the stub network, where the sweep and the relay interleave; the in-memory repository, whose stored order is the caller's own object, is not modelled.
- The line table inside the transition system: a row there carries its lines; `Repository.SaveIsUpsert` relates the two.
- 64-bit wrap-around of quantities, counters and instants: they are unbounded integers here; only the duration of a freshness lag saturates as the source's does.
- Row locks: two open transactions may touch one row in the model where Postgres makes the second wait, so more interleavings are allowed than can happen.
- Retry backoff and its timing, the circuit breaker, call timeouts and boot retry: a retried call is up to three attempts that may give up early.
- Encoding of events and headers as CloudEvents and JSON: an encoded event is its id, topic, key and content.
- A consumer without a dead-letter writer, for which dead-lettering does nothing.
- The shipment-confirmation use case and its event: no code calls them; `ConfirmShipment` itself is modelled.
- `PostgresReport.Query`: its SQL selects the same rows as the in-memory query, in day order.
- Direct publishing to Kafka without the outbox, and the in-memory mode's behaviour under failures.
- Several replicas, overlapping relays and rolling deploys.
- HTTP, MCP and web surfaces, metrics, configuration, seed files, migrations and composition roots.
