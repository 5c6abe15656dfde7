# A verified model of the benchmark's TPC-C engine and its supporting algorithms

The repository is a key-value benchmark. Its largest program runs the TPC-C transactions
on ordered tables with several workers; smaller ones measure hot and cold tree nodes, keep
a sorted buffer, and generate mixed and skewed workloads. This project models their logic
and proves what they keep.

## What is modelled

**The TPC-C engine.** A state holds the nine tables, the two side caches of order ids, and
for each worker its task and its own counter. A task is the point a transaction has
reached, with its live local variables; a move of one worker performs one table access.
Any worker may move at any time, so runs contain every interleaving and every lost update.
`Engine` defines the steps, `Workers` the partition of the warehouses and the runs.
`WarehouseInvariant` says what holds of one warehouse while its owner is at any point of a
transaction; `WarehouseSteps` and `WorkerSteps` prove that all moves keep it, and
`LoadedState` that the loaded tables have it. From this follow the consistency conditions
of section 3.3.2 of the TPC-C specification (`Consistency`), the facts about deliveries
(`Deliveries`, `DeliveryScan`, `OrderedScan`), what the all-local flag of an order means
(`LocalOrders`), exactly when customer and stock rows agree
with the other tables (`CustomerMoney`, `DeliveredMoney`, `CustomerBalance`, `StockCounts`),
and runs in which conditions fail (`Counterexamples`).

**The same transactions as imperative code.** `Transactions` runs them statement by
statement on a class with one field for each table; `Uninterrupted` proves that such a run
is one of the interleaved ones. `Outcomes` and `WholeDelivery` state what each does to all
rows, without the steps, and `RunOutcomes` that this applies in every state of every run.
`Loader` builds the initial tables by the loaders' loops.

**Supporting algorithms.** The 48-bit generator and the draws made from it (`Lcg`,
`FastRandom`), packed keys and their byte order (`KeyBytes`), the access histogram
(`Histogram`), the sorted buffer (`BufferKv`), the cursors of the mixed workload (`RwMix`)
and the hot-range rearrangement (`HotRange`).

## Where the code and the standard differ

The model follows the code. The first run-time order of a district is 3002, because the id
is taken after the increment; delivery takes the newest order and not the oldest; its scan
reads exactly ten lines; and customer and stock rows are read, changed and written back
without locks. Conditions 1, 4, 5, 6, 8 and 9 hold in every state of every
run in which no transaction is in the middle of the rows they are about. The others hold
there exactly when:

- condition 2: no order has been entered in the district since loading, and order 3000 waits
  (`Consistency.NextIdExactly`);
- condition 3: no order entered since loading waits (`Consistency.WaitingHasNoGapExactly`);
- condition 7, for one order: it was not delivered since loading with more than ten lines
  (`Consistency.DatesMatchExactly`);
- condition 11, for one district: none of its orders has been delivered since loading
  (`Deliveries.OrdersLessWaitingExactly`);
- conditions 10 and 12, for one customer: no copy of the row is written back with a stale
  c_balance, or a stale c_balance + c_ytd_payment (`CustomerBalance.CustomerMoneyExactly`).

The counters of a stock row hold the run-time lines exactly when no copy of it is written
back stale (`StockCounts.StockExactly`). For condition 12, the payment fields and the stock
rows, no such write-back means that nobody else delivers, pays or writes between a worker's
read and its write-back (`CustomerBalance.ConservedByEvents`). Condition 10 has no such
form, as a payment and a delivery of the same amount leave c_balance as it was.

`Counterexamples` gives runs from the loaded state that break conditions 2, 3, 7, 10, 11 and
12, one that loses a payment from c_ytd_payment and c_balance, and one that loses a line from
the counters of a stock row.

## Assumptions

- `num_district_per_warehouse` is 10, as `txn_payment` and the loaded W_YTD suppose, and
  there is at least one warehouse for every worker.
- A single `get`, `insert`, `remove` or `scan` on a table is atomic and is that of an
  ordered map; the two side caches are accessed atomically as well.
- Money is in cents, all amounts are exact.
- The branches without `ORIGIN_TPCC` are modelled, with `g_uniform_item_dist` off or on
  and any percentage of remote items.
- The operands of `|` in `NonUniformRandom` are drawn from left to right, which C++ leaves
  open; ranges do not depend on it.

## Model

| member | source | states |
|---|---|---|
| `Consistency.WarehouseYtdIsDistrictSum` | benchmark/real_world/tpcc.cpp:281-301 | Condition 1: in every state of every interleaved run W_YTD is the sum of the ten D_YTD, unless a payment to that warehouse is under way |
| `Consistency.YtdIsHistorySum` | benchmark/real_world/tpcc.cpp:287-341 | Conditions 8 and 9: W_YTD and every D_YTD are the sums of their H_AMOUNT, in the same states |
| `Consistency.LinesMatchCount` | benchmark/real_world/tpcc.cpp:134-210 | Condition 6: the lines of every order but one in hand are exactly numbers 1 to O_OL_CNT, which is 5 to 15, although delivery rewrites scanned lines of any order |
| `Consistency.LineCountsAddUp` | benchmark/real_world/tpcc.cpp:134-210 | Condition 4: the O_OL_CNT of a district add up to the number of its order_line rows |
| `Consistency.LinesHaveOrders` | benchmark/real_world/tpcc.cpp:198-207 | In every state no line belongs to a missing order |
| `Consistency.CarrierMarksNewOrders` | benchmark/real_world/tpcc.cpp:375-382 | Condition 5: O_CARRIER_ID is 0 if and only if the order has a new_order row, for every order but one in hand; every new_order row has an order |
| `Consistency.LineIsDated` | benchmark/real_world/tpcc.cpp:402-411 | OL_DELIVERY_D is unset exactly on lines of undelivered orders and on lines past the tenth of run-time orders |
| `Consistency.DatesMatchExactly` | benchmark/real_world/tpcc.cpp:394-411 | Condition 7 holds for an order if and only if it is not a run-time delivery of more than ten lines |
| `Consistency.OrderIds` | benchmark/real_world/tpcc.cpp:107-132 | The order ids of a district are exactly 1 to D_NEXT_O_ID without 3001, and the delivery cache is the largest |
| `Consistency.NextIdExactly` | benchmark/real_world/tpcc.cpp:110-122 | Condition 2: D_NEXT_O_ID - 1 is the largest O_ID if and only if D_NEXT_O_ID is still 3001, and also the largest NO_O_ID if and only if order 3000 waits as well |
| `Consistency.WaitingIds` | benchmark/real_world/tpcc.cpp:351-377 | Loaded orders 2101 to 2999 always wait, and none up to 2100 |
| `Consistency.WaitingHasNoGapExactly` | benchmark/real_world/tpcc.cpp:351-377 | Condition 3: the waiting ids have no gap if and only if no order entered at run time waits |
| `Consistency.LatestOrder` | benchmark/real_world/tpcc.cpp:476-495 | The order-status cache names an existing order; it is the value of the index scan if and only if that order is the customer's, and always so after the customer's first run-time order |
| `Consistency.StockRows` | benchmark/real_world/tpcc.cpp:175-196 | Every stock row in every state, lost updates included: quantity 10 to 100 and congruent to the loaded one less s_ytd mod 91, s_remote_cnt <= s_order_cnt <= s_ytd <= 10 s_order_cnt |
| `Consistency.NothingMisses` | benchmark/real_world/tpcc.cpp:160-173 | In every state of every run the row read next exists, so new order never aborts and delivery never bails out, and every key about to be inserted is new in its table |
| `Consistency.FreshOrder` | benchmark/real_world/tpcc.cpp:121-142 | An id just taken is used by no order, new_order row or order line |
| `Consistency.FreshHistoryKey` | benchmark/real_world/tpcc.cpp:231-232 | A payment's history key is new, because the thread's counter is above all dates of its warehouses |
| `Consistency.OrderIsThere` | benchmark/real_world/tpcc.cpp:364-373 | The missing-order exit of delivery is unreachable |
| `Deliveries.StepMovesOrder` | benchmark/real_world/tpcc.cpp:134-142 | What any move of any worker can do to the order table: add an undelivered order under a new key, or mark one undelivered order |
| `Deliveries.RunExtends` | benchmark/real_world/tpcc.cpp:375-411 | Over the rest of any run no order, history row or order line is lost or altered, but for one carrier marking and delivery dates |
| `Deliveries.DeliveredOnce` | benchmark/real_world/tpcc.cpp:350-382 | A whole run delivers an order at most once, and a delivered one never again |
| `Deliveries.DeliveriesCount` | benchmark/real_world/tpcc.cpp:350-382 | Per district, orders = new_order rows + 2100 loaded deliveries + deliveries made by the run |
| `Deliveries.OrdersLessWaitingExactly` | benchmark/real_world/tpcc.cpp:350-382 | Condition 11: orders less new_order rows are 2100 in a district if and only if the run has delivered none there, that is, if and only if no order above 2100 has a carrier |
| `Deliveries.DeliveryScansItsOrder` | benchmark/real_world/tpcc.cpp:384-411 | Delivery's scan begins with lines 1 to min(10, O_OL_CNT) of its order, and its sum is theirs alone even when it spills into other orders |
| `Deliveries.DeliveryCredits` | benchmark/real_world/tpcc.cpp:402-420 | The customer is credited with lines 1 to 10, which is the order's whole amount if and only if it has at most ten lines |
| `DeliveryScan.ScanOfNewest` | benchmark/real_world/tpcc.cpp:384-411 | The same for any table in which the order is its district's newest |
| `DeliveryScan.ScanShape` | benchmark/real_world/tpcc.cpp:384-396 | The scanned rows are the order's first lines by number and then lines of orders 1 |
| `DeliveryScan.CreditIsWholeAmount` | benchmark/real_world/tpcc.cpp:402-411 | Ten lines hold the whole amount of a run-time order if and only if it has no more than ten |
| `DeliveryScan.CreditKept` | benchmark/real_world/tpcc.cpp:406-409 | Re-inserting a line with a new date changes no credit computed before or after |
| `CustomerMoney.MoveConserves` | benchmark/real_world/tpcc.cpp:303-320 | A move keeps c_ytd_payment = sum and c_payment_cnt = number of a customer's payments if and only if the row it writes back was not stale in these fields |
| `CustomerMoney.ConservedExactly` | benchmark/real_world/tpcc.cpp:303-341 | Over a whole interleaved run: conserved in every state if and only if no write-back is stale in them |
| `CustomerMoney.MovePayments` | benchmark/real_world/tpcc.cpp:309-341 | History and payments in flight grow by what the move pays |
| `CustomerMoney.InitConserves` | benchmark/real_world/tpcc_loader.h:114-117 | The loaded customers and history satisfy the equations |
| `CustomerBalance.CustomerMoneyExactly` | benchmark/real_world/tpcc.cpp:303-420 | Payments, condition 12 and condition 10 from the loaded state on: each holds in every state of any interleaved run if and only if no write-back is stale in its own part of the row |
| `CustomerBalance.SumHoldsExactly` | benchmark/real_world/tpcc.cpp:309-420 | Condition 12, c_balance + c_ytd_payment = delivered OL_AMOUNT, throughout a run if and only if every copy written back has the stored sum |
| `CustomerBalance.BalanceHoldsExactly` | benchmark/real_world/tpcc.cpp:309-420 | Condition 10, c_balance = delivered OL_AMOUNT - H_AMOUNT, throughout a run if and only if every copy written back has the stored balance |
| `CustomerBalance.MoveSum` | benchmark/real_world/tpcc.cpp:309-420 | The sum grows by exactly the credit of the move if and only if the copy has the stored sum; a payment never changes it otherwise |
| `CustomerBalance.SumIsDeliveredAmount` | benchmark/real_world/tpcc.cpp:413-420 | In a run that writes back no copy of the row with a stale c_balance + c_ytd_payment (`AllSumsCurrent`), condition 12 as worded, when no delivery to the warehouse is under way |
| `CustomerBalance.BalanceIsDeliveredLessPaid` | benchmark/real_world/tpcc.cpp:304-341 | In a run that writes back no copy of the row with a stale c_balance (`AllBalancesCurrent`), condition 10 as worded, when no delivery or payment of the customer is under way |
| `CustomerBalance.RunSum` | benchmark/real_world/tpcc.cpp:413-420 | In a run that writes back no copy of the row with a stale c_balance + c_ytd_payment (`AllSumsCurrent`), the sum is the start sum and the credits of the run |
| `CustomerBalance.ConservedByEvents` | benchmark/real_world/tpcc.cpp:303-420 | Payments are conserved throughout a run if and only if no other worker's payment comes between a worker's read of the row and its write-back; condition 12 holds throughout if and only if no other worker's delivery credits the row in between |
| `CustomerBalance.OwnerPaymentsAreConserved` | benchmark/real_world/tpcc.cpp:222-230 | All three equations hold in every interleaving in which the customer's payments come from the worker of its own warehouse |
| `CustomerBalance.CustomerMoneyIsConserved` | benchmark/real_world/tpcc.cpp:304-420 | All three hold in every state of a run whose transactions do not overlap |
| `CustomerBalance.SerialIsCurrent` | benchmark/real_world/tpcc.cpp:303-320 | In such a run no written row is stale |
| `CustomerBalance.OneWorkerIsSerial` | benchmark/real_world/tpcc.cpp:600-676 | Every run of one worker is such a run |
| `DeliveredMoney.CreditsAreDatedLines` | benchmark/real_world/tpcc.cpp:402-420 | In every interleaved run, lost updates included, credits made and under way are the amounts of the dated lines of the customer's orders |
| `DeliveredMoney.MoveDates` | benchmark/real_world/tpcc.cpp:402-420 | Each move dates as much as it collects or credits; spilled rows add nothing |
| `DeliveredMoney.WholeOrdersExactly` | benchmark/real_world/tpcc.cpp:394-411 | The dated lines are the whole amount of the customer's delivered orders if and only if none was delivered at run time with more than ten lines |
| `DeliveredMoney.SpillsAreDated` | benchmark/real_world/tpcc.cpp:394-411 | A scanned line of another order was dated already |
| `Counterexamples.PaymentIsLost` | benchmark/real_world/tpcc.cpp:303-320 | A run of two workers from the loaded state after which one payment is missing from c_ytd_payment and from c_balance, so that condition 10 fails |
| `Counterexamples.CreditIsLost` | benchmark/real_world/tpcc.cpp:303-420 | A run of two workers in which a remote payment writes back a row read before the owner's delivery: the credit is missing from c_balance, so that condition 12 fails |
| `Counterexamples.StockIsLost` | benchmark/real_world/tpcc.cpp:175-196 | A run of two workers from the loaded state, each with an item from the same stock row, after which the row's counters miss one line |
| `Counterexamples.OneOrderBreaksConditions` | benchmark/real_world/tpcc.cpp:110-411 | One worker enters an order of eleven lines and delivers it: conditions 2 and 3 fail after the first, conditions 7 and 11 and the whole amount after the second |
| `StockCounts.StockExactly` | benchmark/real_world/tpcc.cpp:178-195 | s_ytd, s_order_cnt and s_remote_cnt are the pieces, the number and the remote number of the row's run-time lines throughout a run if and only if no stock write-back is stale, that is, if and only if no other worker writes the row between a worker's read and write-back |
| `StockCounts.MoveKeepsCounts` | benchmark/real_world/tpcc.cpp:178-207 | The same for one move |
| `WorkerSteps.RunKeepsInv` | benchmark/real_world/tpcc.cpp:600-676 | The invariant of all warehouses and workers holds in every state of every interleaving of single-row accesses |
| `WorkerSteps.MoveKeepsInv` | benchmark/real_world/tpcc.cpp:600-676 | Every move of every worker keeps it |
| `WorkerSteps.MoveKeepsOwner` | benchmark/real_world/tpcc.cpp:736-749 | A move disturbs no warehouse it does not own: warehouse, district, order and history rows have one writer |
| `WorkerSteps.MoveKeepsShared` | benchmark/real_world/tpcc.cpp:175-207 | What a move leaves of the rows that other workers rely on: items, stock bounds, order lines up to their date |
| `WorkerSteps.RestockKeepsStock` | benchmark/real_world/tpcc.cpp:181-194 | The unsigned subtraction never wraps: the quantity falls by the order or rises by 91 less the order, and the stock bounds hold |
| `WorkerSteps.BusyHits` | benchmark/real_world/tpcc.cpp:97-118 | A busy worker's next read finds its row |
| `Engine.RestockQuantity` | benchmark/real_world/tpcc.cpp:187-191 | The two branches on unsigned numbers are subtraction, with 91 more pieces when fewer than ten would be left |
| `Workers.OwnerIsUnique` | benchmark/real_world/tpcc.cpp:736-749 | No warehouse is in the ranges of two workers, and ranges stay within 1 to warehouse_num |
| `Workers.OwnerExists` | benchmark/real_world/tpcc.cpp:736-749 | Every warehouse is in some worker's range |
| `Workers.EveryWorkerOwns` | benchmark/real_world/tpcc.cpp:618 | No worker draws from an empty range when there are at least as many warehouses as workers |
| `Workers.PartitionWarehouses` | benchmark/real_world/tpcc.cpp:736-749 | The loop with the running remainder assigns the ranges |
| `Workers.AssignRanges` | benchmark/real_world/tpcc.cpp:738-749 | Each range starts where the last one ended; the first `extra` workers get one more |
| `Workers.HoldingsAreEven` | benchmark/real_world/tpcc.cpp:736-749 | No worker has more than one warehouse more than another, and earlier workers have at least as many |
| `WarehouseSteps.StepKeepsWarehouse` | benchmark/real_world/tpcc.cpp:76-423 | Each step keeps the invariant of its warehouse, with what is owed in mid-transaction |
| `WarehouseSteps.NewOrderKeeps` | benchmark/real_world/tpcc.cpp:103-210 | The same for the steps of new order |
| `WarehouseSteps.PaymentKeeps` | benchmark/real_world/tpcc.cpp:281-341 | The same for payment |
| `WarehouseSteps.DeliveryKeeps` | benchmark/real_world/tpcc.cpp:350-421 | The same for delivery |
| `WarehouseView.StepView` | benchmark/real_world/tpcc.cpp:76-423 | What a step changes among one warehouse's rows, read off the whole tables |
| `Engine.StepsLeftDecreases` | benchmark/real_world/tpcc.cpp:76-423 | Every step brings its transaction closer to its end, by a bound known at its start |
| `Uninterrupted.FinishIsRun` | benchmark/real_world/tpcc.cpp:611-676 | A transaction run alone is one of the interleaved runs and ends |
| `Uninterrupted.TransactionRuns` | benchmark/real_world/tpcc.cpp:611-676 | From any state with room in the counters, every valid start finishes and keeps the invariant |
| `Outcomes.PaymentOutcome` | benchmark/real_world/tpcc.cpp:281-341 | A whole payment: four rows changed by its amount, no other row touched |
| `Outcomes.NewOrderOutcome` | benchmark/real_world/tpcc.cpp:103-210 | A whole new order: the next id taken, one order whose all-local flag is set if and only if its own warehouse supplies every line, one new_order row, both caches, one priced line per item, and stock rows with quantity and counts after all their items, repeated ones included |
| `Outcomes.AbortOutcome` | benchmark/real_world/tpcc.cpp:160-173 | What the abort branch would leave behind: number and two rows as before, but both caches naming the missing order, and the earlier items' lines and stock; every other table unchanged |
| `Outcomes.DistrictOutcome` | benchmark/real_world/tpcc.cpp:350-421 | A whole district of delivery: skipped, bailing out, or one order marked, the scanned lines dated in turn and their sum credited |
| `Outcomes.QuantityLeftMoves` | benchmark/real_world/tpcc.cpp:187-191 | After any lines the quantity is between 10 and 100 and has moved by the pieces taken, modulo 91 |
| `Outcomes.ItemsOutcome` | benchmark/real_world/tpcc.cpp:154-210 | The item loop from any item to any later one |
| `WholeDelivery.DeliveryOutcome` | benchmark/real_world/tpcc.cpp:345-423 | A whole delivery: in each of districts 1 to 10, or of those below the first whose awaited order has no row, the newest order is delivered if it awaits delivery: it leaves new_order, gets the carrier, its customer the scanned amounts as they were at the start; every scanned line is dated with the tick of its last scan; every other row of every table is unchanged |
| `WholeDelivery.OwnLinesAreDated` | benchmark/real_world/tpcc.cpp:384-411 | Later districts never scan back, so the scanned lines of a district's own order keep the ticks of its own scan |
| `RunOutcomes.DeliveryServes` | benchmark/real_world/tpcc.cpp:345-423 | In every state of every run, for a worker between transactions: all ten districts can be delivered, and each awaited order has lines 1 to 10 dated and their sum credited to its customer once |
| `RunOutcomes.PaymentRowsExist` | benchmark/real_world/tpcc.cpp:281-341 | In every state of every run a payment finds the rows it asks for |
| `RunOutcomes.NewOrderRowsExist` | benchmark/real_world/tpcc.cpp:103-210 | So does a new order, for every item |
| `LocalOrders.AllLocalMeansLocal` | benchmark/real_world/tpcc.cpp:77-142 | In every state of every interleaved run, the all-local flag of an order that nobody is entering is set if and only if its own warehouse supplies each of its lines |
| `LocalOrders.MoveFlag` | benchmark/real_world/tpcc.cpp:121-207 | Any move of any worker keeps the flag fitting: to the lines that are there, or to those still to be entered |
| `Transactions.DrawNewOrder` | benchmark/real_world/tpcc.cpp:77-95 | The draws of the source in its order, for every state of the generator: ids and 5 to 15 items in range; the flag is set if and only if all suppliers are the home warehouse, as they are with one warehouse or no remote items |
| `Transactions.DrawLine` | benchmark/real_world/tpcc.cpp:83-94 | One item: a skewed or uniform item, another warehouse as supplier if and only if the percentage says so and there is one, and a quantity of 1 to 10 |
| `Transactions.DrawPayment` | benchmark/real_world/tpcc.cpp:220-279 | The draws of the source in its order: amount 1.00 to 5000.00, another warehouse's customer if and only if there is one and the percentage is above 85, the date from the counter |
| `Transactions.Tables.Pay` | benchmark/real_world/tpcc.cpp:281-343 | The payment statements have the outcome of their step program |
| `Transactions.Tables.CollectAmount` | benchmark/real_world/tpcc.cpp:281-301 | The warehouse and district part |
| `Transactions.Tables.PayCustomer` | benchmark/real_world/tpcc.cpp:303-341 | The customer and history part |
| `Transactions.Tables.Enter` | benchmark/real_world/tpcc.cpp:103-210 | So have those of new order, abort branch included |
| `Transactions.Tables.TakeOrder` | benchmark/real_world/tpcc.cpp:103-142 | Up to the order row |
| `Transactions.Tables.EnterLine` | benchmark/real_world/tpcc.cpp:154-207 | One item |
| `Transactions.Tables.Undo` | benchmark/real_world/tpcc.cpp:163-172 | The abort branch |
| `Transactions.Tables.Deliver` | benchmark/real_world/tpcc.cpp:350-423 | The delivery loop over districts has the outcome of its step program, which `WholeDelivery.DeliveryOutcome` states on the rows |
| `Transactions.Tables.TakeNewest` | benchmark/real_world/tpcc.cpp:351-382 | One district up to the carrier |
| `Transactions.Tables.CreditOrder` | benchmark/real_world/tpcc.cpp:384-421 | The scan, the dating of lines and the credit |
| `Transactions.Tables.DateLines` | benchmark/real_world/tpcc.cpp:384-411 | The scan and the dating of lines |
| `Transactions.Tables.CreditCustomer` | benchmark/real_world/tpcc.cpp:413-421 | The customer |
| `Transactions.Tables.TxnNewOrder` | benchmark/real_world/tpcc.cpp:75-216 | The whole transaction is one interleaved run from any invariant state and keeps the invariant; the tables are those after the new order that was drawn |
| `Transactions.Tables.TxnPayment` | benchmark/real_world/tpcc.cpp:218-343 | The same for payment: four rows changed by the amount drawn, and no other |
| `Transactions.Tables.TxnDelivery` | benchmark/real_world/tpcc.cpp:345-423 | The same for delivery: all ten districts served, with the carrier drawn |
| `LoadedState.InitIsInv` | benchmark/real_world/tpcc_loader.h:49-374 | The loaded tables, with idle workers and fresh counters, satisfy the invariant |
| `LoadedState.LoadedMoney` | benchmark/real_world/tpcc_loader.h:185-209 | The loaded history adds up to D_YTD and, ten times that, to W_YTD |
| `Loader.LoadWarehouse` | benchmark/real_world/tpcc_loader.h:49-64 | Exactly warehouses 1 to warehouse_num, each with the loaded W_YTD |
| `Loader.LoadDistrict` | benchmark/real_world/tpcc_loader.h:66-85 | Ten districts each, with D_YTD and next id 3001 |
| `Loader.LoadCustomer` | benchmark/real_world/tpcc_loader.h:87-147 | 3000 customers each, with balance -10.00, one payment of 10.00 |
| `Loader.LoadHistory` | benchmark/real_world/tpcc_loader.h:185-209 | One row of 10.00 per customer, dated by the customer's number |
| `Loader.LoadItem` | benchmark/real_world/tpcc_loader.h:211-231 | Items 1 to 100000, each with a price of at least 1.00 |
| `Loader.LoadStock` | benchmark/real_world/tpcc_loader.h:233-246 | A row for every warehouse and item, its quantity the draw of 10 to 100 at its place in the order of the keys |
| `Loader.LoadOrderRow` | benchmark/real_world/tpcc_loader.h:303-315 | Delivered up to order 2100 with a drawn carrier, 5 to 15 lines as drawn |
| `Loader.LoadLines` | benchmark/real_world/tpcc_loader.h:331-346 | Lines 1 to the count, each with the item and, if undelivered, the amount drawn for it, and no other line changed |
| `Loader.LoadOrder` | benchmark/real_world/tpcc_loader.h:280-350 | 3000 orders a district, order o of the customer at place o of the shuffle and dated by its rank among all orders; new_order rows for the last 900, all lines; one order for every customer if the shuffle repeats none |
| `Loader.OneOrderEach` | benchmark/real_world/tpcc_loader.h:289-307 | A shuffle of the customer numbers gives every customer of every district exactly one loaded order |
| `Loader.LoadCaches` | benchmark/real_world/tpcc.cpp:706-715 | Both caches filled with 3000 |
| `Loader.Load` | benchmark/real_world/tpcc_loader.h:49-374 | All together, for every state of the generator and every shuffle |
| `Lcg.FullPeriod` | benchmark/real_world/tpcc.h:1342-1345 | Every state is reached from every state in fewer than 2^48 steps |
| `Lcg.PeriodIsExact` | benchmark/real_world/tpcc.h:1342-1345 | A state returns after n steps if and only if n is a multiple of 2^48 |
| `Lcg.WrapsAreHarmless` | benchmark/synthetic/micro_base.h:373-376 | The 64-bit wrapping multiplication and the mask compute the step modulo 2^48 |
| `Lcg.IteratePow2` | benchmark/real_world/tpcc.h:1342-1345 | 2^k steps are one affine step |
| `Lcg.MulIsOne` | benchmark/real_world/tpcc.h:1342-1345 | Its multiplier is 1 modulo 2^(k+2) |
| `Lcg.IncIsOdd` | benchmark/real_world/tpcc.h:1342-1345 | Its increment is an odd multiple of 2^k |
| `Lcg.FlipsBit` | benchmark/real_world/tpcc.h:1342-1345 | So 2^k steps flip bit k and leave the bits below |
| `FastRandom.Generator.constructor` | benchmark/real_world/tpcc.h:1338-1340 | The seed is scrambled and masked |
| `FastRandom.Generator.NextU32` | benchmark/real_world/tpcc.h:1342-1345 | The wrapping step and the upper 32 bits |
| `FastRandom.Generator.RandomNumber` | benchmark/real_world/tpcc.h:1386-1399 | The number in range that is congruent to the upper 32 bits of the next state |
| `FastRandom.EveryNumberIsDrawn` | benchmark/real_world/tpcc.h:1386-1399 | Every number of every range of up to 2^32 is drawn by some state of the generator |
| `FastRandom.Generator.NonUniformRandom` | benchmark/real_world/tpcc.h:1401-1406 | In range for all arguments whose sum fits an int, and congruent to the constant plus the bitwise or of two draws |
| `FastRandom.BitOfOr` | benchmark/real_world/tpcc.h:1401-1406 | Each bit of the bitwise or |
| `FastRandom.BitOfXor` | benchmark/real_world/tpcc.h:1338-1340 | Each bit of the exclusive or that scrambles a seed |
| `FastRandom.SeedsStayDifferent` | benchmark/real_world/tpcc.h:1338-1340 | Different 48-bit seeds give different first states |
| `FastRandom.Generator.GetCustomerId` | benchmark/real_world/tpcc.h:1461-1463 | A loaded customer, as the skewed draw of the next two states |
| `FastRandom.Generator.GetItemId` | benchmark/real_world/tpcc.h:1465-1468 | A loaded item, drawn uniformly or skewed |
| `FastRandom.Generator.OtherWarehouse` | benchmark/real_world/tpcc.cpp:227-229 | The rejection loop ends from every seed, by the full period, with the first draw that is another warehouse |
| `FastRandom.OtherIsPicked` | benchmark/real_world/tpcc.cpp:89-91 | For every warehouse there is a state of the generator that ends the loop |
| `FastRandom.ThreadClock.GetCurrentTimeMillis` | benchmark/real_world/tpcc.h:1367-1377 | Each thread counts up from 3001, modulo 2^32 |
| `KeyBytes.KeyOrder` | benchmark/real_world/tpcc.h:687-773 | For any packed key: comparison as numbers, lexicographic comparison of fields and memcmp on reversed bytes agree, and keys are equal only for equal fields |
| `KeyBytes.NumberOrder` | benchmark/real_world/tpcc.h:1006-1021 | Numbers compare like fields |
| `KeyBytes.ReversedOrder` | benchmark/synthetic/micro_base.h:266-282 | memcmp on the reversed bytes compares like numbers |
| `KeyBytes.ReversedTwice` | benchmark/real_world/tpcc.h:993-1004 | to_normal_key undoes to_str_key |
| `KeyBytes.ToStrKey` | benchmark/real_world/tpcc.h:993-1003 | The byte loop reverses |
| `KeyBytes.Smaller` | benchmark/real_world/tpcc.h:742-750 | The comparison loop is the lexicographic order |
| `KeyBytes.LineKeyOrder` | benchmark/real_world/tpcc.h:957-1022 | OL_key: warehouse, district, order, number, as the scans assume |
| `KeyBytes.OrderKeyOrder` | benchmark/real_world/tpcc.h:792-935 | NO_key and O_key |
| `KeyBytes.CustomerKeyOrder` | benchmark/real_world/tpcc.h:584-647 | C_key |
| `KeyBytes.DistrictKeyOrder` | benchmark/real_world/tpcc.h:290-345 | D_key |
| `KeyBytes.StockKeyOrder` | benchmark/real_world/tpcc.h:1118-1175 | S_key |
| `KeyBytes.HistoryKeyOrder` | benchmark/real_world/tpcc.h:687-773 | H_key: smaller agrees with memcmp on the reversed twelve bytes |
| `OrderedScan.ScanIsFirst` | src/kv/masstree.h:118-133 | The scan contract: rows ascend from the start key and what is left out comes after n rows |
| `OrderedScan.FirstRowsAreLines` | benchmark/real_world/tpcc.cpp:384-396 | A scan from an order's line 0 begins with the order's lines by number |
| `OrderedScan.FirstRowsTotal` | benchmark/real_world/tpcc.cpp:402-405 | Its sum splits into those lines and the rows behind them |
| `Histogram.HotWithinBound` | benchmark/synthetic/false_positive_internode.cpp:56-93 | If the last bucket holds at most floor(5T/100), at most that many recorded counts are hot |
| `Histogram.HotBoundIsExact` | benchmark/synthetic/false_positive_internode.cpp:56-93 | That condition is necessary and sufficient over all counts with the same histogram |
| `Histogram.HotIsTight` | benchmark/synthetic/false_positive_internode.cpp:56-93 | More than floor(5T/100) counts, and more than a twentieth, reach half the hot threshold less one, if the scan stopped below bucket 15 |
| `Histogram.ColdWithinBound` | benchmark/synthetic/false_positive_internode.cpp:65-92 | Fewer than T - floor(80T/100) counts, and less than a fifth, lie below the cold threshold less one |
| `Histogram.ColdBoundIsExact` | benchmark/synthetic/false_positive_internode.cpp:65-92 | Fewer than a fifth are classified cold for all counts with the same histogram if and only if the scan stops at bucket 1: the threshold itself is one above the smallest count of its bucket |
| `Histogram.ColdIsTight` | benchmark/synthetic/false_positive_internode.cpp:65-92 | At least a fifth of the counts lie below twice the cold threshold |
| `Histogram.ColdAtMostHot` | benchmark/synthetic/false_positive_internode.cpp:69-92 | The cold threshold is at most the hot one |
| `Histogram.SuffixCounts` | benchmark/synthetic/false_positive_internode.cpp:69-83 | The running sum of the downward scan counts the nodes from a bucket on |
| `Histogram.ClassifyMonotone` | benchmark/synthetic/false_positive_internode.cpp:37-43 | More accesses never mean a colder class |
| `Histogram.CoolingKeepsClasses` | benchmark/synthetic/false_positive_internode.cpp:95-102 | Halved counts and thresholds make nothing hot that was not, and nothing cold |
| `Histogram.GetIdx` | benchmark/synthetic/false_positive_internode.cpp:110-125 | The shifting loop is floor(log2(num + 1)), and 0 for the count that wraps |
| `Histogram.SidleHistogram.Update` | benchmark/synthetic/false_positive_internode.cpp:24-44 | The histogram stays the tally of the recorded counts; hot means above the hot threshold, cold not hot and below the cold one |
| `Histogram.SidleHistogram.Refresh` | benchmark/synthetic/false_positive_internode.cpp:47-53 | The tally becomes current and a new one starts |
| `Histogram.SidleHistogram.AdjustThreshold` | benchmark/synthetic/false_positive_internode.cpp:56-93 | Both indexes are the highest buckets above their bounds; thresholds are powers of two, cold at most hot, at most 2^15 |
| `Histogram.SidleHistogram.AdjustForCooling` | benchmark/synthetic/false_positive_internode.cpp:95-102 | Buckets shift down and thresholds halve |
| `Histogram.FirstRound` | benchmark/synthetic/false_positive_internode.cpp:155-171 | The nodes classified hot in the second pass are exactly the recorded counts above the hot threshold, at most a twentieth of them if the last bucket allows; those classified cold are exactly the counts below the cold threshold, and fewer than a fifth are below it by more than one |
| `BufferKv.RunOps` | src/kv/buffer.h:134-298 | Any sequence of operations gives the answers and the final state of a finite map if and only if every new key finds room |
| `BufferKv.Apply` | src/kv/buffer.h:134-298 | The same for one operation |
| `BufferKv.Buffer.BinarySearch` | src/kv/buffer.h:309-326 | The lower bound, and a match if and only if the key is in the map |
| `BufferKv.Buffer.LinearSearch` | src/kv/buffer.h:329-339 | The same match and, on a match, the same position |
| `BufferKv.Buffer.Get` | src/kv/buffer.h:134-148 | The value of the map, or none |
| `BufferKv.Buffer.InsertNew` | src/kv/buffer.h:262-270 | Shifting both arrays keeps keys increasing and adds one pair |
| `BufferKv.Buffer.Grow` | src/kv/buffer.h:228-260 | The branch for a full array never has room for what it copies |
| `BufferKv.Buffer.Insert` | src/kv/buffer.h:214-275 | The map is updated, unless the key is new and the array full |
| `BufferKv.Buffer.InsertIfNotExist` | src/kv/buffer.h:151-211 | The map is updated only for a new key, unless the array is full |
| `BufferKv.Buffer.Remove` | src/kv/buffer.h:278-298 | The key is removed if present |
| `BufferKv.Buffer.ScanKeys` | src/kv/buffer.h:301-306 | All keys of the map, increasing |
| `BufferKv.InsertKeepsMap` | src/kv/buffer.h:263-269 | Inserting at the lower bound is a map update |
| `BufferKv.RemoveKeepsMap` | src/kv/buffer.h:288-294 | Closing the gap is a map removal |
| `BufferKv.PutInto` | src/kv/buffer.h:263-268 | The upward memmove and the new element |
| `BufferKv.MoveDown` | src/kv/buffer.h:288-292 | The downward memmove |
| `RwMix.StartsAsWindow` | benchmark/synthetic/rw_mix.cpp:52-90 | The first cursor positions describe the live keys if and only if the existing keys are as many as the others or one fewer |
| `RwMix.Worker.constructor` | benchmark/synthetic/rw_mix.cpp:55-90 | The cursors start as a window |
| `RwMix.Worker.Get` | benchmark/synthetic/rw_mix.cpp:148-185 | A read finds its key if and only if the read cursor, modulo the number of keys, is in the lower half; the cursor goes back to 0 only at half |
| `RwMix.Worker.Scan` | benchmark/synthetic/rw_mix.cpp:240-247 | A scan's first key is one of the keys if and only if the cursor has not left them; the cursor goes back to 0 at their number |
| `RwMix.Worker.Update` | benchmark/synthetic/rw_mix.cpp:188-207 | Every in-place update finds its key |
| `RwMix.Worker.InsertRemove` | benchmark/synthetic/rw_mix.cpp:210-237 | The inserted key is new, the removed one present, the size unchanged, the window moved by one |
| `RwMix.InterleavingKeepsWindows` | benchmark/synthetic/rw_mix.cpp:146-247 | Any interleaving of several workers' single accesses, scans among them, on one table with disjoint keys: every worker keeps its window, and all accesses succeed if and only if each worker's read cursor, which depends on its own reads and scans alone, is in the lower half at its reads and within the keys at its scans |
| `RwMix.InterleavingSucceeds` | benchmark/synthetic/rw_mix.cpp:146-239 | Without scans the cursors are so, and every access of every interleaving succeeds |
| `RwMix.FinalValues` | benchmark/synthetic/rw_mix.cpp:188-237 | After any interleaving each key in the table holds the value stored by the run if the run overwrote or inserted it, and its old value otherwise |
| `RwMix.AccessKeepsWindow` | benchmark/synthetic/rw_mix.cpp:148-247 | One access of one worker, also between the insert and the remove of a pair: whether it succeeds, and the window after it |
| `RwMix.WindowedCanTurn` | benchmark/synthetic/rw_mix.cpp:210-237 | Only the remove is open in the middle of a pair, and only then |
| `RwMix.AtInWindowExactly` | benchmark/synthetic/rw_mix.cpp:156-157 | For any read cursor, the position read is in the window if and only if the cursor modulo the number of keys is in the lower half |
| `RwMix.LeavesExactly` | benchmark/synthetic/rw_mix.cpp:181-184 | The read cursor has left the keys if and only if a read was made at the last of them, and then never comes back |
| `RwMix.ScanOutOfRangeExactly` | benchmark/synthetic/rw_mix.cpp:240-247 | A scan indexes past the keys if and only if such a read came before it |
| `RwMix.FineWithoutScans` | benchmark/synthetic/rw_mix.cpp:181-184 | Without scans the cursor stays in the lower half, so every read hits |
| `RwMix.ScanMakesReadMiss` | benchmark/synthetic/rw_mix.cpp:240-247 | One scan at the end of the lower half makes the next read miss |
| `RwMix.Worker.Run` | benchmark/synthetic/rw_mix.cpp:146-247 | Any run, up to the first scan whose index is past the keys: which steps find their keys, by the read cursor alone; it stops early if and only if there is such a scan; the size and other keys with their values are untouched |
| `HotRange.RearrangedIsPermutation` | benchmark/synthetic/micro_common.h:610-615 | The three copies lose and repeat no key |
| `HotRange.DrawsRespectWindow` | benchmark/synthetic/micro_common.h:629-641 | A hot draw is a key of the window by position, a cold draw one before or after it; cold draws of distinct keys are not in the window |
| `HotRange.WindowsAreDisjoint` | benchmark/synthetic/micro_common.h:596-601 | Every clamped window fits, and unclamped ones are disjoint |
| `HotRange.WindowsTile` | benchmark/synthetic/micro_common.h:596-601 | The first window starts at the hot start and each next one where the last ended, unless it would run over the end |
| `HotRange.Percent` | benchmark/synthetic/micro_common.h:597-598 | The share is the whole part of the percentage of the number of keys |
| `HotRange.PercentSum` | benchmark/synthetic/micro_common.h:654-663 | A start and a ratio of at most 100 percent together stay within the keys |
| `HotRange.Rearrange` | benchmark/synthetic/micro_common.h:665-670 | The copies give window, then the keys before, then the keys after |
| `HotRange.GenerateSkewed` | benchmark/synthetic/micro_common.h:649-697 | The in-place overload: the window holds hot_data_ratio percent of the keys from hot_data_start percent on, rounded down, and every generated key is the one its draw names, in or outside the window |
| `HotRange.GenerateTargets` | benchmark/synthetic/micro_common.h:591-642 | The overload with several windows of that size: each target likewise for its own window, the keys unchanged |
| `HotRange.FillTarget` | benchmark/synthetic/micro_common.h:610-641 | One target |
| `HotRange.StartOfWindow` | benchmark/synthetic/micro_common.h:597-601 | The clamp |

## Left out

- Rounding of `float` money and of the percentages in the workload generator: integers and exact reals are used.
- Wrap-around of the counters: runs end before a thread's counter or D_NEXT_O_ID reaches 2^32; `c_payment_cnt`, `s_order_cnt` and the other row counters are unbounded.
- Warehouse ids above 65535, which the 16-bit key fields would cut off: the tables are keyed by the fields themselves, and `KeyBytes` states the order for fields that fit.
- Reads of the warehouse and customer rows in `txn_new_order`: they feed only a total that is discarded.
- `txn_order_status` and `txn_stock_level`: read-only, except for the cache read that `Consistency.LatestOrder` states.
- The last-name lookup of payment and order status, which is disabled, and the secondary indexes.
- Names, addresses, taxes, `c_data`, `h_data` and other columns that no transaction computes with.
- BufferKv.Buffer.Insert: what happens after the copy in the branch for a full array, which runs past the new arrays: the model reports it and stops.
- BufferKv.Buffer.InsertIfNotExist: the same.
- The read-write lock of the buffer: its operations are sequential here.
- Histogram.HotWithinBound: counts up to 65534, because 65535 wraps to bucket 0.
- Histogram.FirstRound: the first round of the experiment; later rounds pass a total that does not count all updates since the last refresh, and no tree levels are built.
- `decrease_tolerance_for_cold`, which may raise the cold threshold above the hot one.
- RwMix.Worker.Run: what a scan does with an index past the keys, which is undefined in C++: the run is followed up to it.
- RwMix.InterleavingKeepsWindows: the same; such a scan is an access that does not succeed, and leaves the table as it was.
- The choice of an operation from its ratios: any operation may come next.
- Sorting and uniform draws of the workload generator, and the shuffle of customers among loaded orders: their results are parameters, the shuffle any order of the customer numbers.
- Loader.LoadItem: the draws for names, so that a price is any draw of 1.00 to 100.00.
- The seeds of the loaders and workers: loaders share one generator of arbitrary state.
- Ordered indexes of other projects (Masstree, ART, Wormhole and others), memory allocation, threads, epochs, timing, statistics, files and command-line arguments.
