# Ticket-seller simulation (P3.c) in Dafny

P3.c simulates one hour of ticket sales for a 10 x 10 seating chart. There are ten
sellers: one High seller (H), three Medium (M) and six Low (L). Each seller
generates a queue of N customers with random arrival and service times and sorts the
queue by arrival time. Each simulated minute, a seller admits the customers who have
arrived and, when it is idle, asks the shared seating chart for a seat for the next
customer. It then counts its current service down by one minute.

Each seller tier fills the chart in a fixed row order:
- High fills it front to back.
- Medium fills it from the middle outwards.
- Low fills it back to front.

Within a row, every tier fills columns 0 to 9.

The model, one Dafny module per file:

- `wrappers.dfy` (`Wrappers`): the `Option` datatype.
- `customers.dfy` (`Customers`):
  - the seller-identity and customer records;
  - the arrival-time comparator;
  - the display number of a seller;
  - the identities `main` gives the ten sellers.
- `seating.dfy` (`Seating`):
  - the allocator, specified on a value of the chart (`Chart`, rows of customer
    records): `Allocate` claims the first unserved seat in the tier's visit order.
  - the properties of `Allocate`: first free seat, success exactly when a seat is
    free, write-once seats, one more served seat per success, the High order as the
    fallback for unknown tiers, and at most 100 successes over any run.
  - the class `SeatingChart`. It keeps the chart in a two-dimensional array updated
    in place, and its initialisation and `ServeCustomer` methods are proved against
    the functions above.
- `queue.dfy` (`CustomerQueue`):
  - the random draws are a supplied stream, and the customer generation loop consumes
    it in the order P3.c calls `rand()`;
  - `qsort` is specified by its outcome: a permutation in non-decreasing arrival order;
  - the renumbering loop;
  - what a generated queue satisfies.
- `selling.dfy` (`Selling`):
  - one seller tick (`TickSpec`) as a pure step over the seller's counters, its queue
    and the chart;
  - the seller loop (`SellLoop`), driven by the minutes the seller reads when it wakes;
  - the class `Seller`, whose `Tick` and `Sell` methods run these in place;
  - the count of operating threads (`SalesOffice`).

## Model

| member | source | states |
|---|---|---|
| Customers.CompareCustomers | P3.c:158-162 | The comparator's result is negative, zero or positive exactly when a's arrival time is earlier than, equal to or later than b's. |
| Customers.GetSellerPrintNum | P3.c:243-260 | The display number is seller_num + 1 for H, seller_num for M, seller_num - 3 for L, and seller_num + 1 for an unknown tier (the offset stays 0). |
| Customers.MainSellerId | P3.c:93-108 | main makes seller 0 High, sellers 1..3 Medium and 4..9 Low, with seller_num equal to the index. |
| Customers.MainPrintNumsPerTier | P3.c:93-108 | The sellers main creates (seller 0 High, 1..3 Medium, 4..9 Low) show display numbers 1 for H, 1..3 for M and 1..6 for L under get_seller_print_num, and no two sellers of a tier share a number. |
| Seating.InitialChart | P3.c:146-155 | The initialised chart has ten rows of ten cells, each holding the empty sentinel with served 0. |
| Seating.SequenceNum | P3.c:207-225 | 'M' selects row order 1, 'L' order 2, and 'H' or any unknown type order 0, since sequence_num keeps its initial 0. |
| Seating.Order | P3.c:208-211 | Every tier's row order lists ten row indices in 0..9. That an unknown seller type gets the High order is stated by Seating.UnknownTypeUsesHighOrder. |
| Seating.RowPosition | P3.c:208-211 | Every row 0..9 appears in each tier's row order, at the returned position (each order is a permutation). |
| Seating.VisitCovers | P3.c:208-230 | Every cell (row, col) is inspected at some visit position of a full scan. |
| Seating.VisitAt | P3.c:228-230 | Visit position i * 10 + col inspects column col of the i-th row of the order. |
| Seating.FindFrom | P3.c:228-238 | The scan from visit position k returns a position in [k, 100) or nothing; Seating.FindFromIsFirst states that it is the first free one. |
| Seating.FindFromIsFirst | P3.c:228-238 | The scan from position k returns the first free position at or after k; it returns nothing only when no position from k on is free. |
| Seating.Claim | P3.c:232-233 | The claimed cell holds a copy of the customer with served 1, and every other cell is unchanged. |
| Seating.Allocate | P3.c:203-241 | The model of serve_customer: the result is 0 or 1, and on 0 the chart is unchanged. Seating.AllocateSucceedsIffSeatFree, AllocateClaimsFirstFree, AllocateIsWriteOnce, AllocateCount and UnknownTypeUsesHighOrder state which seat it claims and when. |
| Seating.AllocateSucceedsIffSeatFree | P3.c:228-240 | The allocator returns 0 or 1. It returns 1 exactly when some cell of the chart has served 0, and on 0 the chart is unchanged. |
| Seating.AllocateClaimsFirstFree | P3.c:228-235 | When position k is the first unserved seat in the tier's order, the allocator claims exactly that cell, with every other cell unchanged, and returns 1. |
| Seating.AllocateIsWriteOnce | P3.c:231-233 | A cell whose served flag is non-zero is never changed by the allocator. |
| Seating.UnknownTypeUsesHighOrder | P3.c:207-225 | An unrecognised seller type allocates exactly as a High seller does. |
| Seating.AllocateCount | P3.c:231-235 | A successful allocation adds exactly one served cell to the chart; a failed one adds none. |
| Seating.FullChartRejects | P3.c:228-240 | On a chart whose 100 cells are all served, every allocation returns 0 and leaves the chart alone. |
| Seating.AllocateAll | P3.c:226-240 | Allocations applied one after another, as the chart lock serialises the sellers' calls: the chart keeps its shape, the number granted is between 0 and the number of requests, and no requests leave the chart alone. |
| Seating.AllocateAllBounded | P3.c:226-240 | Over any sequence of allocations, the number that succeed equals the number of cells that became served, so it is at most 100 minus the cells already served. |
| Seating.EmptyChartHighTakesFrontCorner | P3.c:208-235 | On the initialised chart, a High customer gets row 0, column 0. |
| Seating.FrontRowTakenScenario | P3.c:208-235 | With row 0 full, High continues at (1, 0), Medium starts at (4, 0) and Low at (9, 0). |
| Seating.SeatingChart.constructor | P3.c:36 | The chart starts with all 100 cells zeroed, as static storage leaves them before initialisation. |
| Seating.SeatingChart.InitializeSeatingChart | P3.c:142-156 | Afterwards every one of the 100 cells holds served 0, seller type 'X', and -1 in the seller number, customer number, arrival time and service time. |
| Seating.SeatingChart.Place | P3.c:232-233 | The array cell (row, col) holds a copy of c with served 1, and the chart afterwards is Claim of the old chart, so every other cell is unchanged. |
| Seating.SeatingChart.ServeCustomer | P3.c:203-241 | The in-place nested scan returns the allocator's result, and the array afterwards holds the allocator's chart. |
| CustomerQueue.ArrivalTime | P3.c:174 | An arrival time is rand() % 60, hence in [0, 60). |
| CustomerQueue.ServiceTime | P3.c:175-188 | A service time lies within the tier's ServiceBounds: [1,2] for H, [2,4] for M, [4,7] for L, and exactly 1 for any other tier. |
| CustomerQueue.ServiceRangeIsExact | P3.c:177-183 | Every value in a tier's range is produced by some draw, so the ranges are exact. |
| CustomerQueue.DrawnCustomer | P3.c:170-189 | A generated customer carries the seller's identity, served 0 and the customer number the storage held. Its arrival time is ArrivalTime of its first draw, and its service time lies in the tier's ServiceBounds. |
| CustomerQueue.Drawn | P3.c:169-190 | The generated queue has one customer per storage slot; CustomerQueue.DrawnAreWellDrawn states what each satisfies. |
| CustomerQueue.InsertSorted | P3.c:193 | Inserting a customer into a queue sorted by arrival keeps it sorted. |
| CustomerQueue.SortByArrival | P3.c:193 | The sort's result is a permutation of its input, of the same length, in non-decreasing arrival order. |
| CustomerQueue.DrawnAreWellDrawn | P3.c:169-190 | Every generated customer carries the seller's identity, served 0, an arrival in [0, 60) and a service time in the tier's range. |
| CustomerQueue.DrawCustomers | P3.c:169-190 | After the generation loop, customer i is built from the i-th customer's draws and keeps its customer number. |
| CustomerQueue.SortCustomers | P3.c:193 | After the sort, the array is a permutation of what it held, in non-decreasing arrival order. |
| CustomerQueue.Renumber | P3.c:195-197 | After the numbering loop, customer i has customer number i and is otherwise unchanged. |
| CustomerQueue.GenerateAndSortCustomers | P3.c:165-200 | The queue afterwards is the drawn customers, sorted by arrival and numbered 0..N-1 in that order. Every customer has served 0, the seller's identity, an arrival in [0, 60) and a service time in the tier's range. The result is the first arrival time. |
| Selling.SalesOffice.constructor | P3.c:111 | The count of operating seller threads starts at 10. |
| Selling.Admitted | P3.c:292-297 | Admission stops at the end of the queue or at the first customer whose arrival time is after the current minute, and every customer passed over has arrived. |
| Selling.Seller.constructor | P3.c:271-280 | A seller starts with all three counters at 0 and a fresh queue of N customers, zeroed as calloc leaves it and then generated and sorted, so it satisfies GeneratedQueue. |
| Selling.Countdown | P3.c:322-334 | The countdown changes only serviceTimeRemaining, lowering a positive one by one, and never touches the chart. It stops the seller exactly when a service with one minute left ends at minute 60 or later. |
| Selling.Attempts | P3.c:300 | A tick asks for a seat only when no service runs and a customer waits, so num_served < N. Otherwise a service runs or every admitted customer has been served. |
| Selling.TickSpec | P3.c:292-334 | One tick keeps num_served <= num_arrived <= N, the queue length and the chart's shape. TickAdmitsArrivals, TickSeatsAtMostOne, TickFailsIffChartFull, TickSeatStartsService and TickClosesIffLastMinuteLate state what it does. |
| Selling.TickAdmitsArrivals | P3.c:292-297 | num_arrived only increases. Afterwards it equals N or points at a customer arriving after the current minute, and every newly admitted customer has arrived. |
| Selling.TickSeatsAtMostOne | P3.c:299-320 | A seat is asked for only when no service is running and an admitted customer waits. A tick that asks changes the chart as one allocation does; one that does not ask leaves chart and num_served alone. A tick adds at most one served seat. |
| Selling.TickFailsIffChartFull | P3.c:300-316 | A tick stops with a failed seat exactly when it asks for a seat on a chart with no free cell; it then changes only num_arrived. |
| Selling.TickSeatStartsService | P3.c:301-334 | A seated customer is marked served in the queue and num_served moves past it. Its service time starts the countdown and is decremented in the same tick, which stops the seller when that service time is 1 and the minute is 60 or later. |
| Selling.TickClosesWhenServiceEndsLate | P3.c:322-334 | Without a seat request, a running countdown drops by one and one at 0 or below stays as it is. The tick stops exactly when that ends a service at or after minute 60. |
| Selling.TickClosesIffLastMinuteLate | P3.c:306-334 | A tick stops at the last minute exactly when it does not fail to seat, the service it counts down (one it just started or one already running) has one minute left, and the minute is 60 or later. |
| Selling.SellLoop | P3.c:285-338 | Over a run of one seller, the counters stay ordered, the queue keeps its length, the seller works at most one tick per wake-up, and it uses every wake-up when it is still waiting at the end. |
| Selling.SellLoopBounds | P3.c:285-335 | Over a run of one seller, this seller adds at most one served seat per tick it works, never lowers the served count, and leaves every seat that was served at the start with its occupant. |
| Selling.FinishesServiceAfterClose | P3.c:322-334 | A seller whose service is still running after minute 60 works exactly that many more ticks, asks for no seat, and stops with the service finished. |
| Selling.Seller.Admit | P3.c:292-297 | The admission loop advances num_arrived to the admission point and changes nothing else. |
| Selling.Seller.Tick | P3.c:292-334 | The in-place tick leaves the counters, queue, chart and outcome exactly as TickSpec does. |
| Selling.Seller.Sell | P3.c:285-338 | The in-place seller loop ends in the state Selling.SellLoop gives. Every way out of the loop calls stop_operations once. |
| Selling.SalesOffice.StopOperations | P3.c:262-266 | Stopping a seller decrements threads_operating by one. |

## Left out

- Threads, the mutex and the condition variable (P3.c:226, 234, 239, 263-265, 287-289, 341-346) are not modelled. Allocations are applied one after another, as the lock serialises them.
- The clock loop in main, with `sleep` and `++curr_minute` (P3.c:119-124), is not modelled, nor is thread creation and joining. The minute a seller reads at each wake-up is a parameter (`wakes`). The minute the loop condition reads is the one read at the previous wake-up.
- `rand`, `srand` and `time` are replaced by a supplied stream of natural numbers. C's `rand()` is non-negative, so `%` agrees with Dafny's there.
- The internals of `qsort` and `calloc` are not modelled. The sort is specified by its outcome, sorted and a permutation, with a pure insertion sort as the witness. The order of customers who arrive in the same minute is not fixed.
- All `printf` output is left out: `print_seating_chart`, `debug_print_customers`, the event messages and the warnings.
- `atoi` and argument handling in main (P3.c:75-82) are left out.
- The global `customer_array` (P3.c:35, 279) is modelled as each seller's own `queue` field, because each seller indexes only its own slot.
- CustomerQueue.GenerateAndSortCustomers: P3.c reads `customers[0]` even when N is 0. The model returns `None` there instead of a value.
- Customers.CompareCustomers: the subtraction is not modelled with 32-bit overflow. The arrival times it is given lie in [0, 60), where no overflow occurs.
- Selling.SellLoop, Selling.Seller.Sell: the run of one seller, whose chart no other seller changes between its ticks; in P3.c the other nine threads claim seats on the shared chart between this thread's wake-ups, and those interleaved claims are modelled only by Seating.AllocateAll.
- Selling.Seller.Sell: when the wake-ups run out while the seller is still waiting, the model returns `false` without calling stop_operations, because the C thread would still be blocked waiting for the next tick.
