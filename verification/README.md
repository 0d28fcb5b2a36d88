# BizSim verified

BizSim is a simulator of a small economy. At every tick each agent (consumer, seller, supplier,
carrier, government) drains its inbox, acts, and hands its messages and queries to the engine, which
delivers them for the next tick. A community of consumers spreads interest over a graph, and a
translator expands SQL templates for the log. This project models those parts and proves what they
promise over every input and every run.

## The parts

* **The round.** `Seqs` (filters, stable sorting, sums), `Messages`, `Engine` (one tick as a function
  of a world, generic in the agents; confluence, channels, conservation, runs), `TickEngine` (the same
  as an object that updates its fields in place), `Rounds` (the laws for the simulation itself).
* **The agents.** `Settings`, `Consumer`, `Seller`, `Supplier`, `Transport` say what each handler and
  each step does, as functions of the state. `BaseAgent`, `ConsumerAgent`, `SellerAgent`,
  `SupplierAgent`, `TransportAgent` are the objects with their loops and field updates, proved to do
  just that. `Simulation` plugs the agents into the engine. `SellerRules`, `ConsumerRules` and
  `CarrierRules` say once more, on rows, prices, orders and shipments alone and with the constants
  spelled out, what the handlers do; the objects' methods promise that too. `EngineRules` does the same
  for the order of an inbox and for schedules.
* **Orders.** `OneOrder`, `ConsumerSide`, `SellerSide`, `CarrierSide`, `Manners`, `Routing` and
  `Projection` show that everything about one order evolves by itself, whatever else the agents do.
  `OrderLife` has the exact phases of an order and the step from each to the next, `OrderTimeline`
  strings them together, `Orders` follows them in the world, and `OrderTheorems` states the results.
  `Placements` shows that they cover every order that a consumer ever holds.
* **Restocks, stock, shipments, queries.** `Restocks`, `RestockLoop`, `RestockResults`, `RestockDates`;
  `Ledger`, `Inventory`, `Revivals`; `Tracking`, `Shipments`; `Queries`.
* **A run in full.** `Market` follows a small market tick by tick; `MarketResults` shows with it that the
  assumptions about orders can be met, and that the ledger can break.
* **The community.** `Ring` (the lattice), `Cascade` (live arcs, balls, forests), `Trends` (decay,
  boost, edge weights), `Community` (the object with its nested loops), `CommunityRules` (what a run
  does, on chains of edges, single multipliers and single weights; what the ring is, on positions).
* **The catalog.** `Templates` (tenants, scanning, and their laws), `Catalog` (the index loops),
  `TemplateRules` (the alphabet of names, and the laws that determine every expansion).

## What a run is

A run starts from new agents, empty inboxes and an empty log, and takes ticks 1, 2, 3, ... All random
draws and all data are arbitrary: random numbers, the products that browsing brings up, transit times,
query results, the catalog and the order of query ids are functions in `Settings.Config` over which
every theorem quantifies. A random UUID is modelled by the circumstances of its draw (who, when, at
which item), so that two draws never coincide. The query handler is total and its results carry the id
and the agent of their request.

Theorems about orders take as explicit preconditions that the consumer, the seller and the carrier of
the order are registered, that the order's store number is not zero, and that no other order of the
seller draws the same store number (`Orders.NoClash`; for the ledger `Ledger.SoleNumbers`).
`Ledger.DeliveryFinds` shows that these two conditions on the number are exactly what the delivery of
an order depends on. Without them the stock ledger can break: `Ledger.DeliveryDrift` says when one
delivery does it, `Revivals.ExactLedger` by how much the ledger is out after any run, and
`MarketResults.LedgerBreaks` gives a run in which it happens. `MarketResults.AssumptionsMet` gives a run
that meets all assumptions of the theorems about orders. Theorems about restocks assume that the carrier
and the catalog's suppliers are registered (`Restocks.LoopStaffed`). Theorems about dates assume a base
transit time that is not negative.

## Where the code and its documents differ

The model follows the code.

* specs/COMMUNITY.md describes a small-world graph with beta-distributed weights, an activation chance
  that includes satisfaction, and boosts before decay. The code builds a ring lattice with uniform
  weights, ignores satisfaction, and decays before it boosts.
* specs/SELLER.md lets a seller reject an order for lack of stock. The code accepts on any result of
  the inventory check.
* bizsim/scheduling.yaml schedules `query_order_history`, while the handler is
  `handle_order_history_check`. With that file no consumer ever looks at its history; here the
  schedule is part of the settings.
* A seller's `pending_restocks` are keyed by UUID objects, while deliveries name them by text, so that
  no entry is ever marked as received. The model keeps the two kinds of key apart, and
  `Rounds.NeverReceived` proves it.

## Model

| member | source | states |
|---|---|---|
| OrderTheorems.Agreement | bizsim/agents/consumer.py:207-376 | At every tick of every run a placed order is either pending at the consumer or in exactly one record; a record says delivered or cancelled and agrees with the seller; the seller has asked for shipment exactly once if the order is paid or delivered, and never otherwise, so no cancelled order is shipped |
| Placements.EveryOrderPlaced | bizsim/agents/consumer.py:152-205 | Every order that a consumer holds as pending or has completed, at any tick of any run, was placed at the tick of its id by that consumer with the seller of its record |
| Placements.EveryOrderAgrees | bizsim/agents/consumer.py:207-376 | Agreement holds of every order found with a consumer at a tick, if its seller and the carrier are registered and its store number is not zero and not shared |
| OrderTheorems.StatusPath | bizsim/agents/seller.py:80-287 | From one tick to the next the seller's order only moves along accepted, paid, delivered, or to cancelled before payment |
| OrderTheorems.CancelWindow | bizsim/agents/seller.py:249-287 | An order placed at N is cancelled if and only if a request to cancel it was sent at N+1, N+2 or N+3; the consumer has recorded just that one tick later |
| OrderTheorems.LateCancelRejected | bizsim/agents/seller.py:281-287 | Every request to cancel sent at N+4 or later is answered at the next tick with a rejection to its sender |
| OrderTheorems.DeliveryDate | bizsim/agents/transport.py:90-93 | With tracking at every tick, an order placed at N and not cancelled in time has a shipment that is picked up at N+5 and whose arrival is in the mail at N+5+transit; the order is on record as delivered at tick t if and only if t >= N+7+transit, with the transit time of that shipment |
| OrderTheorems.PaymentOnce | bizsim/agents/seller.py:133-197 | Over any run an order has at most one payment entry and at most one request for shipment, none without the payment; the amount logged, the price in the store record and the price the order was placed at are equal |
| OrderTimeline.FirstTicks | bizsim/agents/seller.py:138-142 | The four ticks after a placement decide: at N+4 the order is dropped exactly if a request to cancel came in time, also when it meets the payment in the same inbox |
| OrderTimeline.LegitStep | bizsim/agents/seller.py:50-287 | Each tick takes an order from a phase that is possible j ticks after its placement to one that is possible j+1 ticks after |
| OrderLife.StepPaying | bizsim/agents/base.py:96-107 | With payment and request to cancel in one inbox, the request wins; with the payment alone exactly one shipment is requested |
| Projection.Projected | bizsim/engine.py:46-66 | All that the world holds about one order after a tick is determined by what it held before and by the consumer's own requests to cancel |
| SellerSide.OnStep | bizsim/agents/base.py:64-108 | A seller's step on all its results and mail acts on one order as the step on the results and messages about that order alone, results first |
| ConsumerSide.OnStep | bizsim/agents/consumer.py:207-376 | A consumer's step acts on one order as the messages about it alone, plus requests to cancel while it is pending |
| CarrierSide.OnStep | bizsim/agents/transport.py:22-130 | A carrier's step acts on one order as the requests and shipments of that order alone |
| Ledger.DeliveryFinds | bizsim/agents/seller.py:208-213 | The delivery of an order finds it if and only if its store number is not zero and no order accepted earlier has the same number |
| Ledger.DeliveryDrift | bizsim/agents/seller.py:199-218 | A delivery notice keeps the stock ledger balanced if and only if the order found by its number holds its quantity already, that is, unless it revives a cancelled order |
| Ledger.StepDrift | bizsim/agents/seller.py:94-115 | Over one step of a seller the stock changes other than restocks equal what its standing orders held before less what they hold after |
| Inventory.InventoryLedger | bizsim/agents/seller.py:258-271 | At every tick of every run the logged stock changes of a seller for a SKU add up to the restocks credited less the quantity of its orders that are accepted, paid or delivered |
| Inventory.StockAccount | bizsim/agents/seller.py:232-247 | All stock changes are what was ordered of suppliers, less what is still on its way, less what the standing orders hold |
| Revivals.ExactLedger | bizsim/agents/seller.py:199-287 | In every run, with no assumption on store numbers, the logged stock changes are the restocks credited, less what standing orders hold, plus what those of them hold whose cancellation is in the log: the exact deviation of the ledger |
| Revivals.ExactAccount | bizsim/agents/seller.py:199-287 | The same with the restocks ordered less those on their way in place of the credits |
| MarketResults.AssumptionsMet | bizsim/engine.py:46-66 | In a run of one consumer, one seller and one carrier two orders meet the assumptions of the theorems about orders |
| MarketResults.Requests | bizsim/agents/consumer.py:280-332 | In that run the first order is asked to be cancelled within the window, the second never |
| MarketResults.BothEnds | bizsim/agents/seller.py:249-287 | So the first order is cancelled at the seller from tick 6 on, and the second on record as delivered exactly from tick 9 on |
| MarketResults.LedgerBreaks | bizsim/agents/seller.py:208-213 | In the same run with equal store numbers the delivery of the second order makes the cancelled first one delivered, and the ledger is out of balance by one piece at tick 8 |
| RestockLoop.RestockConserved | bizsim/agents/supplier.py:14-119 | For every weighting of restocks, what has been ordered is what has been forwarded to sellers plus what is in orders, ship requests, shipments and delivery notices |
| RestockResults.Credited | bizsim/agents/seller.py:232-247 | What was sent to a seller of a SKU is what its log credits, but for the deliveries in the mail right now |
| RestockResults.RestockQuantities | bizsim/agents/seller.py:386-408 | Per seller and SKU, quantity ordered equals quantity credited plus quantity in flight, at every tick of every run |
| RestockResults.OrderedOnce | bizsim/agents/seller.py:388-408 | A restock id is ordered at most once, and not before the tick of its draw |
| RestockResults.RestockOnce | bizsim/agents/supplier.py:14-119 | A restock that was ordered is in exactly one order, ship request, shipment or delivery notice, or was delivered, once, with its own seller, SKU and quantity |
| RestockDates.RestockDate | bizsim/agents/supplier.py:75-119 | With tracking at every tick, a restock ordered at t starts a shipment of its own at t+2, which is handed over to its seller at t+3+transit and credited with its SKU and quantity at t+4+transit, with the transit time of that shipment |
| Rounds.NeverReceived | bizsim/agents/seller.py:239-240 | In no run does a seller ever mark a restock as received |
| Tracking.OneRound | bizsim/agents/transport.py:86-125 | One round takes a shipment on schedule from its timetable up to one tick to that up to the next |
| Shipments.TrackingTimetable | bizsim/agents/transport.py:79-130 | With tracking at every tick and a transit time of at least 4, a shipment is reported at 25, 50 and 75 percent at the quarters of its way rounded up, delivered when due, and reported on no other occasion |
| Shipments.ReportedOnce | bizsim/agents/transport.py:86-108 | However often tracking fires, each milestone and the delivery of a shipment are reported at most once, and nothing after the delivery |
| Shipments.ShipmentsConserved | bizsim/agents/transport.py:36-48 | Shipments created, reported or waiting to be, are those under way plus those delivered |
| Engine.TickConfluence | bizsim/engine.py:53-57 | The order in which a tick steps its agents shows nowhere but in the log, and there only as a permutation of the blocks of the agents |
| Rounds.SimulationConfluence | bizsim/engine.py:53-66 | From every reachable world, stepping the agents in any order gives the same agents and the same prepared inboxes |
| Engine.ChannelGuarantee | bizsim/engine.py:101-111 | An agent handles just what the last tick addressed to it, as often as it was sent, and of each sender in the order of emission |
| Rounds.Channels | bizsim/agents/base.py:85-108 | Over every run, what is handled at a tick was sent at the tick before by a registered agent, and of each sender just what it addressed to the agent, in order |
| Engine.ArrangeTwice | bizsim/engine.py:68-78 | The agent's own sort after the engine's changes nothing |
| Engine.HandledIs | bizsim/agents/base.py:85-108 | Results are handled by id and messages by tick and sender, stably, as the agent's sort alone would have them |
| Engine.StepConserves | bizsim/engine.py:94-111 | If every turn balances what it receives, holds and sends, then the total over mail and agents changes by what the log says |
| TickEngine.TickEngine.constructor | bizsim/engine.py:22-34 | A new engine stands for the world before the first tick |
| TickEngine.TickEngine.PrepareInboxes | bizsim/engine.py:68-78 | Every inbox keeps its items, results first by ascending id, then messages by ascending tick and sender; one sender's messages of one tick stay in their order |
| EngineRules.Arranges | bizsim/engine.py:68-78 | Sorting the two kinds of items keeps all items, puts results by id before messages by tick and sender, and is stable |
| TickEngine.TickEngine.RegisterAll | bizsim/engine.py:97-99 | All queries of the tick are queued in the order of the actions |
| TickEngine.TickEngine.Route | bizsim/engine.py:107-109 | Every message goes to the inbox of its addressee, in order; those to unknown agents are dropped |
| TickEngine.TickEngine.AnswerQueries | bizsim/engine.py:111-117 | Every query is answered once, and the result goes to its agent |
| TickEngine.TickEngine.EmitAndRoute | bizsim/engine.py:94-117 | The log grows by the actions, and the inboxes hold the sorted messages and then the results |
| TickEngine.TickEngine.StepAgents | bizsim/engine.py:53-57 | Every agent acts once on its own state and inbox; the actions are the blocks in ascending order of ids |
| TickEngine.TickEngine.Step | bizsim/engine.py:46-66 | The object goes from a world to the next world of the run |
| TickEngine.TickEngine.RunFor | bizsim/engine.py:46-66 | Any number of steps follow the run |
| Queries.QueriesAnswered | bizsim/agents/base.py:110-135 | After every tick of every run each pending query of a consumer or seller was issued in that tick and its result is there for the next, so that no query ever expires |
| Queries.ConsumerHears | bizsim/agents/base.py:110-113 | Handling results takes out just the queries that they answer |
| BaseAgent.BaseAgent.constructor | bizsim/agents/base.py:43-62 | A new agent has no items and no queries, and every action waits for its first firing |
| BaseAgent.BaseAgent.Drain | bizsim/agents/base.py:85-105 | The inbox is emptied; results come by ascending id, messages by ascending tick and sender, all of them, and of one sender in their order |
| BaseAgent.BaseAgent.Pop | bizsim/agents/base.py:110-113 | A pending query is taken at most once |
| BaseAgent.BaseAgent.ExpirePending | bizsim/agents/base.py:130-135 | Just the queries older than ten ticks go |
| BaseAgent.BaseAgent.DueActions | bizsim/agents/base.py:69-74 | The stateful loop fires exactly the actions that have a firing at max(1, offset) + m max(1, cycle + offset) equal to the tick, in their order |
| BaseAgent.TestIsFires | bizsim/agents/base.py:69-72 | The test on the last firing succeeds exactly at the ticks of the progression |
| BaseAgent.FiresAt | bizsim/agents/base.py:58-62 | An action fires exactly at f0 + m P, with f0 = max(1, offset) and P = max(1, cycle + offset) |
| BaseAgent.EveryTick | bizsim/agents/base.py:69-74 | An action fires at every tick if and only if neither offset nor cycle plus offset exceeds 1 |
| SellerAgent.SellerAgent.constructor | bizsim/agents/seller.py:32-35 | A new seller has no orders and no restocks |
| SellerAgent.SellerAgent.OnPlaceOrder | bizsim/agents/seller.py:50-78 | The order waits, and its stock is asked about |
| SellerAgent.SellerAgent.OnInventoryCheckResult | bizsim/agents/seller.py:80-131 | A waiting order is accepted at the offered price, its quantity leaves the stock, the consumer is told |
| SellerAgent.SellerAgent.OnPayment | bizsim/agents/seller.py:133-197 | Only an accepted order is paid and logged; a ship request to the payer goes to the carrier and a report to the government, each if there is one, in this order |
| SellerAgent.SellerAgent.FindOrder | bizsim/agents/seller.py:206-213 | The first order in insertion order with the number: it has the number and no earlier one does; none exactly if no order has it |
| SellerAgent.SellerAgent.OnDeliveryComplete | bizsim/agents/seller.py:199-230 | The order found is delivered and its consumer notified; other freight and unknown numbers are ignored |
| SellerAgent.SellerAgent.OnRestockDelivered | bizsim/agents/seller.py:232-247 | The quantity delivered is credited |
| SellerAgent.SellerAgent.OnCancelRequest | bizsim/agents/seller.py:249-287 | An accepted order is cancelled and its quantity put back; any other known order is a rejection; an unknown one is ignored |
| SellerAgent.SellerAgent.ChooseSupplier | bizsim/agents/seller.py:374-382 | The supplier of the first primary source of the SKU, else of its first source, else none |
| SellerAgent.SellerAgent.CheckRow | bizsim/agents/seller.py:373-408 | A row with fewer than ten pieces of a SKU that has a supplier orders fifty pieces of that SKU of it, and the order is put on record; any other row orders nothing |
| SellerAgent.SellerAgent.OnInventoryLevelsResult | bizsim/agents/seller.py:369-412 | In row order, one restock order of fifty pieces for exactly the rows with fewer than ten pieces whose SKU has a supplier, to that supplier; one event if there is any; the restocks on record grow by just these |
| SellerRules.RowsReplenish | bizsim/agents/seller.py:373-408 | The rows ordered for are exactly those with fewer than ten pieces whose SKU has a supplier, in their order, with fifty pieces each |
| SellerAgent.SellerAgent.ProcessQueryResult | bizsim/agents/base.py:110-120 | A result goes to the handler of the topic it was asked about; unknown results are dropped |
| SellerAgent.SellerAgent.ProcessMessage | bizsim/agents/base.py:122-128 | A message goes to the handler of its type; said message by message, what becomes of the books and what is sent and logged |
| SellerAgent.SellerAgent.Step | bizsim/agents/base.py:64-83 | Results, then messages, then expiry, then the schedule, as the step function says; no query older than ten ticks stays pending |
| ConsumerAgent.ConsumerAgent.InitiatePurchase | bizsim/agents/consumer.py:152-205 | A new order is pending, logged and placed with the chosen seller |
| ConsumerAgent.ConsumerAgent.OnProductDetailsResult | bizsim/agents/consumer.py:118-150 | As two draws against the chances from price, reviews and urgency decide, the product is ignored, put in the cart at the price of the result or 100, or also bought: one piece at that price of one of its sellers, with message and entry alike |
| ConsumerRules.DetailsShop | bizsim/agents/consumer.py:118-205 | An order that a result leads to has the price of the result, or 100 without one, one piece, the SKU asked about and one of its sellers; message, entry and cart line agree |
| Consumer.PriceDeters | bizsim/agents/consumer.py:135-149 | With the same draws, what is put in the cart or bought at a price is so at any lower price |
| ConsumerAgent.ConsumerAgent.OnOrderAccepted | bizsim/agents/consumer.py:207-246 | A pending order is paid at the confirmed price; others are ignored |
| ConsumerAgent.ConsumerAgent.OnShipmentNotification | bizsim/agents/consumer.py:248-270 | A pending order is completed as delivered, once |
| ConsumerAgent.ConsumerAgent.OnOrderHistoryResult | bizsim/agents/consumer.py:280-295 | A pending order asks its seller to cancel exactly if some row names it that is late, requested and drawn; orders that no such row names stay as they are |
| ConsumerRules.RequestsSent | bizsim/agents/consumer.py:280-332 | A request to cancel an order is sent if and only if the order is pending and a row names it that is late, requested and drawn |
| ConsumerRules.HistoryReconsidered | bizsim/agents/consumer.py:280-332 | Handling a result sends these requests, marks just their orders, and leaves all others as they are |
| ConsumerAgent.ConsumerAgent.CancelOrder | bizsim/agents/consumer.py:297-332 | A pending order asks its seller to cancel; others do nothing |
| ConsumerAgent.ConsumerAgent.Complete | bizsim/agents/consumer.py:340-341 | The order moves from pending to completed with its new status |
| ConsumerAgent.ConsumerAgent.OnCancelConfirmed | bizsim/agents/consumer.py:334-355 | A pending order is completed as cancelled; the status is logged in any case |
| ConsumerAgent.ConsumerAgent.OnCancelRejected | bizsim/agents/consumer.py:357-376 | A pending order is accepted again; the status is logged in any case |
| ConsumerAgent.ConsumerAgent.HandleViewProduct | bizsim/agents/consumer.py:97-116 | In order, one query for the details of exactly the products browsed whose draw is below the interest in their category, cut to 0..1; each is then pending |
| ConsumerRules.ScheduleSurveys | bizsim/agents/consumer.py:97-116 | At a due tick the history is asked for, and the details of exactly the products browsed that are looked at; each query is then pending since this tick |
| ConsumerAgent.ConsumerAgent.Step | bizsim/agents/consumer.py:86-95 | The common step and then the products browsed, as the step function says; no query older than ten ticks stays pending |
| SupplierAgent.SupplierAgent.OnRestockOrder | bizsim/agents/supplier.py:14-73 | The order is booked, logged with the parts of its SKU, and sent to the carrier |
| SupplierAgent.SupplierAgent.OnDeliveryComplete | bizsim/agents/supplier.py:75-119 | A booked order is handed on to its seller; others are ignored |
| SupplierAgent.SupplierAgent.Step | bizsim/agents/base.py:64-108 | All messages in their order |
| TransportAgent.TransportAgent.OnShipRequest | bizsim/agents/transport.py:22-77 | A shipment of the request's goods from origin to destination starts, due after its transit time; its creation, with the entry of reference, origin, destination and due date, waits to be reported |
| CarrierRules.RequestStarts | bizsim/agents/transport.py:22-77 | The shipment and the entry for its creation repeat the request, with the due date of the shipment |
| TransportAgent.TransportAgent.NextMilestone | bizsim/agents/transport.py:95-105 | The highest of 25, 50 and 75 percent that has been reached and is not yet reported, or 0 if there is none |
| TransportAgent.TransportAgent.HandleUpdateTracking | bizsim/agents/transport.py:79-130 | Waiting creations are reported; each shipment is delivered, reports a milestone, or stays, in order |
| CarrierRules.RoundTracks | bizsim/agents/transport.py:79-130 | What a round emits and keeps, said shipment by shipment |
| TransportAgent.TransportAgent.Step | bizsim/agents/base.py:64-83 | Messages, then the schedule, as the step function says |
| Simulation.ReportsRecorded | bizsim/agents/government.py:18-31 | One record for each order report, in order, with its seller and number |
| Ring.RingLattice | bizsim/society/community.py:43-61 | Over distinct ids, linked to an id are just the ids up to h positions before or after it on the ring; they are 2h many, linking is symmetric, and nothing links to itself |
| Community.CommunitySubsystem.constructor | bizsim/society/community.py:36-41 | Two ids are linked exactly if they differ and stand at most half the degree, and half the number of the others, apart on the ring; each arc has the weight drawn for it |
| Community.CommunitySubsystem.InitializeGraph | bizsim/society/community.py:43-54 | The loops add exactly the arcs of the ring |
| Community.CommunitySubsystem.AddEdge | bizsim/society/community.py:56-61 | One arc more, no loop, no change to existing arcs |
| Community.Group | bizsim/society/community.py:72-76 | Each category once, in the order of its first appearance, with all who shared it |
| Community.CommunitySubsystem.Expand | bizsim/society/community.py:87-101 | One source reaches just its live targets not yet activated, by one arc each, and tosses for no arc twice |
| Community.CommunitySubsystem.Hop | bizsim/society/community.py:85-105 | A hop turns the ball and its outermost layer into the next ones, in whatever order the set is taken |
| Community.CommunitySubsystem.Spread | bizsim/society/community.py:81-107 | Whatever the order of the sets and in spite of the early break, a cascade activates the ball of the allowed radius; its arcs form the forest; each arc is tossed for at most once |
| Cascade.BallIsReach | bizsim/society/community.py:85-105 | The ball of radius n holds just the ends of walks of at most n live arcs from a seed |
| Cascade.StopsEarly | bizsim/society/community.py:103-104 | A hop that reaches nobody may end the cascade |
| Cascade.ForestSize | bizsim/society/community.py:95-101 | As many arcs fired as nodes were newly activated |
| Cascade.BranchTo | bizsim/society/community.py:82-107 | From every activated node a branch of fired arcs leads back to a seed; it is as short as any live walk and no longer than the number of hops |
| Community.CommunitySubsystem.Propagate | bizsim/society/community.py:78-107 | One forest for each topic; the list of fired arcs holds each arc once for each topic in which it fired |
| Community.CommunitySubsystem.ApplyDecay | bizsim/society/community.py:150-159 | Every multiplier above 1 is multiplied by the rate once and dropped unless it stays above 1, whatever the order |
| Community.CommunitySubsystem.BoostAll | bizsim/society/community.py:111-118 | A multiplier of a newly reached topic, or 1, grows by the increment up to the maximum; all others stay |
| Community.CommunitySubsystem.Strengthen | bizsim/society/community.py:120-129 | After c firings a weight has grown by c increments up to the maximum, topic weights and arcs stay; replaying the payload on the old graph gives the new one |
| Community.CommunitySubsystem.RunPropagation | bizsim/society/community.py:66-148 | A run takes the whole queue, or its first shares up to the limit; newly reached are those at the end of a chain of at most maxHops edges that each beat their draw, from a sharer; multipliers decay and then reached ones are boosted from what is left; each newly reached consumer has one fired arc per topic, and each edge is strengthened once for each topic in which it fired; the batch names the fired arcs and reproduces the new graph; the queue is emptied |
| CommunityRules.BallReached | bizsim/society/community.py:85-107 | In the ball but no seeds are just the ends of chains of at most maxHops edges from a sharer, each with a draw below weight times topic weight |
| CommunityRules.ForestReached | bizsim/society/community.py:85-107 | One arc of the forest leads to each newly reached consumer, over an edge that passed the topic on, from a sharer or another newly reached |
| CommunityRules.RunRenews | bizsim/society/community.py:109-118 | One multiplier after a run: it decays, and is boosted from what is left, or from 1, up to the maximum if the topic newly reached the consumer |
| CommunityRules.StrengthenedEdges | bizsim/society/community.py:121-126 | Every weight after a list of firings, for increments of either sign; topic weights and the set of edges stay |
| CommunityRules.LinkedOnRing | bizsim/society/community.py:43-61 | The loops link exactly the ids at most half the degree apart on the ring, for any list of ids, repeated ones too |
| Community.CommunitySubsystem.RunSeries | bizsim/society/community.py:63-148 | After any series of arrivals and runs on the object every multiplier is that of the series and every weight that of its firings; multipliers fade out and weights only grow as the laws below say |
| Trends.RangeKept | bizsim/society/community.py:109-118 | Stored multipliers stay above 1 and within the maximum; without a boost none grows |
| Trends.SurvivorLoses | bizsim/society/community.py:150-159 | n runs that do not boost a topic cost its surviving multiplier at least n (1-d)/d, whatever they do to other topics; a run is given by the topics that newly reached the consumer (`Community.ReachedIn` of a series of runs) |
| Trends.Extinction | bizsim/society/community.py:150-159 | A multiplier is gone after n runs that do not boost its topic if n (1-d) >= (max-1) d, whatever they do to other topics |
| Trends.DefaultExtinction | bizsim/society/community.py:22-32 | With the default settings it is gone after any 98 or more runs that do not boost its topic |
| Trends.StrengthenedWeights | bizsim/society/community.py:121-126 | In one run, after c firings a weight is min(w + c delta, max), and unchanged for c = 0 |
| Trends.ReinforcedWeight | bizsim/society/community.py:121-126 | After any series of runs a weight is what the number of its firings in all of them says |
| Trends.WeightsInRun | bizsim/society/community.py:121-126 | In one run a weight decreases if and only if it exceeds the maximum and fires |
| Trends.WeightsGrow | bizsim/society/community.py:121-126 | Over any series of runs a weight that starts within the maximum never decreases from one run to a later one and never exceeds the maximum |
| Templates.ScanInverts | go-translator/pkg/catalog/catalog.go:157-177 | With the names put back at their places, the scanned template returns |
| Templates.ScanWellFormed | go-translator/pkg/catalog/catalog.go:160-172 | Names are read as far as they go, and nothing that could be read as a name is left as text |
| TemplateRules.ReadsName | go-translator/pkg/catalog/catalog.go:160-165 | A colon before a letter or underscore, with all letters, digits and underscores that follow, is read as one name |
| TemplateRules.ReadsText | go-translator/pkg/catalog/catalog.go:173-175 | A character other than a colon, and a colon before anything but a letter or underscore, is read as itself |
| TemplateRules.EitherOr | go-translator/pkg/catalog/catalog.go:160 | Every template is empty or begins in exactly one of these two ways |
| Templates.UnscanInverts | go-translator/pkg/catalog/catalog.go:157-177 | Scanning is a bijection between templates and well-formed lists of text and names |
| Templates.RenderedIsPlain | go-translator/pkg/catalog/catalog.go:171-177 | A second scan of an expanded query finds no reference |
| Templates.TenantCommutes | go-translator/pkg/catalog/catalog.go:154 | For a tenant id without colons and a template where no {tenant} follows a colon or a name character, replacing before or after the scan is the same |
| Catalog.ExpandSQL | go-translator/pkg/catalog/catalog.go:153-178 | The loops yield what the laws of expansion below determine: question marks and values in the order of the names, or the first name without a value |
| TemplateRules.ExpandsText | go-translator/pkg/catalog/catalog.go:173-175 | A plain character stays in the query, before what the rest expands to |
| TemplateRules.ExpandsName | go-translator/pkg/catalog/catalog.go:165-172 | A reference becomes a question mark with its value first among the values, or is itself what is missing |
| TemplateRules.Replaces | go-translator/pkg/catalog/catalog.go:154 | Each {tenant} is replaced by the tenant id, and nothing else |
| Catalog.ExpandSequence | go-translator/pkg/catalog/catalog.go:139-151 | All templates expand, each to its own query and values, or the first that does not names what is missing |
| Catalog.ExpansionMeans | go-translator/pkg/catalog/catalog.go:153-178 | Success if and only if every name has a value; then the i-th argument is the value of the i-th name and the query holds no reference |

## Left out

* Choice of a category and random choice of its rows when a consumer browses: single draws; what comes out of them is arbitrary in the model.
* Pricing by sellers, production by suppliers, statistics by the government agent: they send no messages and touch no order, restock or shipment.
* SQLite markets and their schema, the Go executor, handler and reducers, YAML loading and validation of the catalog, the import sandbox and the SQL keyword guard: database access and library calls.
* The community hook of the engine's step: confluence is stated without it.
* Media, facades and capacity planning: no logic.
* The status that the log gives to a consumer's order after a late confirmation or rejection: the log may then say something else than the consumer's own records, which are what the theorems are about.
* Bit-identical replay from a seed: draws are arbitrary in the model.
* The consumer's records of completed orders keep the order's id in the model, so that they can be spoken about; the code's records do not.
* Progress of a shipment is compared by cross-multiplication of integers, and prices, weights and multipliers are exact reals: rounding is not modelled.
* TickEngine.TickEngine.Step: holds the agents as values that the step replaces, because their classes have no common supertype here; sharing of an agent object between the engine and other code is not captured, nor is the hook that passes every action to the community.
* TickEngine.TickEngine.StepAgents: steps agents that are values, for the same reason.
* BaseAgent.BaseAgent.Drain: the base class's fields live in an object of their own that each agent holds, in place of inheritance.
* Engine.ChannelGuarantee: query results have no counterpart to the claim about the order per sender, since their ids are random; they are handled in the order of their ids.
* Queries.QueriesAnswered: does not speak of the seller's pricing queries and the government agent's queries, which are not in the model.
* SellerAgent.SellerAgent.constructor: has no sales cache, which only pricing uses.
* SellerAgent.SellerAgent.Step: fires the inventory review of the schedule; the pricing review is not in the model.
* SupplierAgent.SupplierAgent.Step: handles the mail; the supplier's schedule consists of production, which is not in the model.
* ConsumerAgent.ConsumerAgent.Step: the event that reports the browsing itself carries no message, query or write and is not logged.
* ConsumerAgent.ConsumerAgent.OnProductDetailsResult: base prices are not zero; with a zero the code divides by zero.
* Community.CommunitySubsystem.RunSeries: calls the object's methods one after the other; the code leaves it to its users when shares arrive and when runs take place.
