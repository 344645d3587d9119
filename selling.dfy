/** One seller's work per clock tick.

    A seller keeps three counters over its sorted queue: how many customers have
    arrived, how many have been served, and the minutes left of the current service.
    Each tick it admits every customer whose arrival time has come, makes at most one
    seat request, and advances the current service by one minute. The tick is
    specified by the pure function TickSpec over a value of the seller's state and of
    the chart; the class `Seller` runs it in place and is proved against it. */
module Selling {
  import opened Customers
  import opened Seating
  import opened CustomerQueue

  /** How a tick ends: the seller goes on, stops because its customer found no seat,
      or stops because a service ended at or after the last minute. */
  datatype Outcome = Continue | SeatFailed | ClosedAtMax

  /** The seller's counters and its queue, as values. */
  datatype SellerState = SellerState(
    numArrived: int,
    numServed: int,
    serviceTimeRemaining: int,
    queue: seq<Customer>)

  /** The counters stay ordered: served <= arrived <= N. */
  ghost predicate Inv(s: SellerState)
  {
    0 <= s.numServed <= s.numArrived <= |s.queue|
  }

  /** The seller, the chart and the outcome after one tick. */
  datatype Step = Step(seller: SellerState, chart: Chart, outcome: Outcome)

  /** The arrival count after admitting, from position `from` on, every customer
      whose arrival time is at most `minute`. */
  function Admitted(queue: seq<Customer>, from: int, minute: int): (k: int)
    requires 0 <= from <= |queue|
    ensures from <= k <= |queue|
    ensures forall j :: from <= j < k ==> queue[j].arrivalTime <= minute
    ensures k == |queue| || queue[k].arrivalTime > minute
    decreases |queue| - from
  {
    if from < |queue| && queue[from].arrivalTime <= minute then Admitted(queue, from + 1, minute)
    else from
  }

  /** The last part of a tick: a service in progress loses one minute; if that ends it
      at or after the last minute, the seller stops. */
  function Countdown(s: SellerState, chart: Chart, minute: int): (st: Step)
    ensures st.chart == chart && st.outcome != SeatFailed
    ensures st.seller == s.(serviceTimeRemaining := st.seller.serviceTimeRemaining)
    ensures st.seller.serviceTimeRemaining ==
              (if s.serviceTimeRemaining > 0 then s.serviceTimeRemaining - 1 else s.serviceTimeRemaining)
    ensures st.outcome == ClosedAtMax <==> s.serviceTimeRemaining == 1 && minute >= MAX_MINUTE
  {
    if s.serviceTimeRemaining > 0 then
      var left := s.serviceTimeRemaining - 1;
      Step(s.(serviceTimeRemaining := left), chart,
           if left <= 0 && minute >= MAX_MINUTE then ClosedAtMax else Continue)
    else Step(s, chart, Continue)
  }

  /** Whether the tick asks for a seat: no service in progress and an admitted
      customer waiting. */
  predicate Attempts(s: SellerState, minute: int): (b: bool)
    requires Inv(s)
    ensures b ==> s.serviceTimeRemaining <= 0 && s.numServed < |s.queue|
    ensures !b ==> s.serviceTimeRemaining > 0 || Admitted(s.queue, s.numArrived, minute) == s.numServed
  {
    s.serviceTimeRemaining <= 0 && Admitted(s.queue, s.numArrived, minute) > s.numServed
  }

  /** One tick of a seller of the given type at the given minute. A tick keeps the
      counters ordered, the queue length and the chart's shape. */
  function TickSpec(s: SellerState, sellerType: char, chart: Chart, minute: int): (st: Step)
    requires Inv(s) && WellFormed(chart)
    ensures Inv(st.seller) && |st.seller.queue| == |s.queue| && WellFormed(st.chart)
  {
    var arrived := Admitted(s.queue, s.numArrived, minute);
    if Attempts(s, minute) then
      var c := s.queue[s.numServed];
      var a := Allocate(chart, c, sellerType);
      if a.seated != 0 then
        Countdown(SellerState(arrived, s.numServed + 1, c.serviceTime,
                              s.queue[s.numServed := c.(served := 1)]),
                  a.chart, minute)
      else Step(s.(numArrived := arrived), a.chart, SeatFailed)
    else Countdown(s.(numArrived := arrived), chart, minute)
  }

  /** Admission only moves forward, and stops at the end of the queue or at the first
      customer who has not yet arrived; every customer passed over has arrived. */
  lemma TickAdmitsArrivals(s: SellerState, sellerType: char, chart: Chart, minute: int)
    requires Inv(s) && WellFormed(chart)
    ensures var st := TickSpec(s, sellerType, chart, minute);
      var k := st.seller.numArrived;
      s.numArrived <= k <= |s.queue| &&
      (forall j :: s.numArrived <= j < k ==> s.queue[j].arrivalTime <= minute) &&
      (k == |s.queue| || s.queue[k].arrivalTime > minute)
  {
  }

  /** A tick that makes no seat request leaves the chart and the served count alone;
      one that does changes the chart exactly as one allocation of the next customer
      does, so a tick adds at most one served seat. */
  lemma TickSeatsAtMostOne(s: SellerState, sellerType: char, chart: Chart, minute: int)
    requires Inv(s) && WellFormed(chart)
    ensures var st := TickSpec(s, sellerType, chart, minute);
      (!Attempts(s, minute) ==> st.chart == chart && st.seller.numServed == s.numServed) &&
      (Attempts(s, minute) ==>
         st.chart == Allocate(chart, s.queue[s.numServed], sellerType).chart) &&
      ServedCount(chart) <= ServedCount(st.chart) <= ServedCount(chart) + 1
  {
    if Attempts(s, minute) {
      AllocateCount(chart, s.queue[s.numServed], sellerType);
      AllocateSucceedsIffSeatFree(chart, s.queue[s.numServed], sellerType);
    }
  }

  /** A tick fails exactly when it asks for a seat and the chart has none free; then
      it changes nothing but the arrival count. */
  lemma TickFailsIffChartFull(s: SellerState, sellerType: char, chart: Chart, minute: int)
    requires Inv(s) && WellFormed(chart)
    ensures var st := TickSpec(s, sellerType, chart, minute);
      (st.outcome == SeatFailed <==>
         Attempts(s, minute) &&
         forall row, col :: 0 <= row < SIZE && 0 <= col < SIZE ==> chart[row][col].served != 0) &&
      (st.outcome == SeatFailed ==>
         st.chart == chart && st.seller == s.(numArrived := st.seller.numArrived))
  {
    if Attempts(s, minute) {
      AllocateSucceedsIffSeatFree(chart, s.queue[s.numServed], sellerType);
    }
  }

  /** A seated customer is marked served in the queue, the served count moves past
      it, and its service time starts counting down in the same tick. */
  lemma TickSeatStartsService(s: SellerState, sellerType: char, chart: Chart, minute: int)
    requires Inv(s) && WellFormed(chart)
    requires Attempts(s, minute)
    ensures var st := TickSpec(s, sellerType, chart, minute);
      var c := s.queue[s.numServed];
      st.outcome != SeatFailed ==>
        st.seller.numServed == s.numServed + 1 &&
        st.seller.queue == s.queue[s.numServed := c.(served := 1)] &&
        st.seller.serviceTimeRemaining == (if c.serviceTime > 0 then c.serviceTime - 1 else c.serviceTime) &&
        st.chart == Allocate(chart, c, sellerType).chart &&
        st.outcome == (if c.serviceTime == 1 && minute >= MAX_MINUTE then ClosedAtMax else Continue)
  {
    AllocateSucceedsIffSeatFree(chart, s.queue[s.numServed], sellerType);
  }

  /** A tick stops at the last minute exactly when the service it counts down, one
      started in this tick or one already running, has one minute left and the minute
      is 60 or later. */
  lemma TickClosesIffLastMinuteLate(s: SellerState, sellerType: char, chart: Chart, minute: int)
    requires Inv(s) && WellFormed(chart)
    ensures var st := TickSpec(s, sellerType, chart, minute);
      var start := if Attempts(s, minute) then s.queue[s.numServed].serviceTime else s.serviceTimeRemaining;
      st.outcome == ClosedAtMax <==> st.outcome != SeatFailed && start == 1 && minute >= MAX_MINUTE
  {
    if Attempts(s, minute) {
      AllocateSucceedsIffSeatFree(chart, s.queue[s.numServed], sellerType);
    }
  }

  /** A tick stops at the last minute exactly when a service running into the
      countdown ends in it at or after minute 60. */
  lemma TickClosesWhenServiceEndsLate(s: SellerState, sellerType: char, chart: Chart, minute: int)
    requires Inv(s) && WellFormed(chart)
    requires !Attempts(s, minute)
    ensures var st := TickSpec(s, sellerType, chart, minute);
      st.outcome == (if s.serviceTimeRemaining == 1 && minute >= MAX_MINUTE then ClosedAtMax else Continue) &&
      st.seller.serviceTimeRemaining == (if s.serviceTimeRemaining > 0 then s.serviceTimeRemaining - 1 else s.serviceTimeRemaining)
  {
  }

  /** The loop condition of a seller: customers left to serve before the last minute,
      or a service still in progress. */
  predicate KeepSelling(s: SellerState, minute: int)
  {
    (s.numServed < |s.queue| && minute < MAX_MINUTE) || s.serviceTimeRemaining > 0
  }

  /** Where a seller's run has got to: its state, the chart, whether the seller has
      stopped (rather than waiting for another tick), and how many ticks it worked. */
  datatype Run = Run(seller: SellerState, chart: Chart, stopped: bool, ticks: nat)

  /** A run as seen from n ticks earlier. */
  function Later(r: Run, n: nat): (r': Run)
  {
    r.(ticks := r.ticks + n)
  }

  /** The seller's loop driven by the clock: `minute` is the minute the loop condition
      reads, and `wakes` the minutes the seller reads at its next wake-ups. The loop
      ends when its condition fails or a tick stops the seller; when the wake-ups run
      out first, the seller is still waiting. */
  function SellLoop(s: SellerState, sellerType: char, chart: Chart, minute: int, wakes: seq<int>): (r: Run)
    requires Inv(s) && WellFormed(chart)
    ensures Inv(r.seller) && |r.seller.queue| == |s.queue| && WellFormed(r.chart)
    ensures r.ticks <= |wakes|
    ensures !r.stopped ==> r.ticks == |wakes|
    decreases |wakes|
  {
    if !KeepSelling(s, minute) then Run(s, chart, true, 0)
    else if wakes == [] then Run(s, chart, false, 0)
    else
      var st := TickSpec(s, sellerType, chart, wakes[0]);
      if st.outcome != Continue then Run(st.seller, st.chart, true, 1)
      else
        var rest := SellLoop(st.seller, sellerType, st.chart, wakes[0], wakes[1..]);
        Later(rest, 1)
  }

  /** One turn of the loop: a seller that may go on and has a wake-up left works one
      tick, then stops or carries on from the minute it read. */
  lemma SellLoopStep(s: SellerState, sellerType: char, chart: Chart, minute: int, wakes: seq<int>)
    requires Inv(s) && WellFormed(chart) && KeepSelling(s, minute) && wakes != []
    ensures var st := TickSpec(s, sellerType, chart, wakes[0]);
      Inv(st.seller) && WellFormed(st.chart) &&
      SellLoop(s, sellerType, chart, minute, wakes) ==
        if st.outcome != Continue then Run(st.seller, st.chart, true, 1)
        else Later(SellLoop(st.seller, sellerType, st.chart, wakes[0], wakes[1..]), 1)
  {
  }

  /** Over a whole run the seller gains at most one seat of its own per tick worked,
      and every seat served at the start keeps its occupant. */
  lemma {:induction false} SellLoopBounds(s: SellerState, sellerType: char, chart: Chart, minute: int, wakes: seq<int>)
    requires Inv(s) && WellFormed(chart)
    ensures var r := SellLoop(s, sellerType, chart, minute, wakes);
      ServedCount(chart) <= ServedCount(r.chart) <= ServedCount(chart) + r.ticks
    ensures var r := SellLoop(s, sellerType, chart, minute, wakes);
      forall row, col :: 0 <= row < SIZE && 0 <= col < SIZE && chart[row][col].served != 0 ==>
        r.chart[row][col] == chart[row][col]
    decreases |wakes|
  {
    if KeepSelling(s, minute) && wakes != [] {
      var st := TickSpec(s, sellerType, chart, wakes[0]);
      TickSeatsAtMostOne(s, sellerType, chart, wakes[0]);
      forall row, col | 0 <= row < SIZE && 0 <= col < SIZE && chart[row][col].served != 0
        ensures st.chart[row][col] == chart[row][col]
      {
        if Attempts(s, wakes[0]) {
          AllocateIsWriteOnce(chart, s.queue[s.numServed], sellerType, row, col);
        }
      }
      if st.outcome == Continue {
        SellLoopBounds(st.seller, sellerType, st.chart, wakes[0], wakes[1..]);
      }
    }
  }

  /** A seller whose service is still running when the last minute has passed goes
      on for exactly as many ticks as the service has minutes left, asks for no
      seat, and then stops with the service finished. */
  lemma {:induction false} FinishesServiceAfterClose(s: SellerState, sellerType: char, chart: Chart, minute: int, wakes: seq<int>)
    requires Inv(s) && WellFormed(chart)
    requires s.serviceTimeRemaining > 0 && s.serviceTimeRemaining <= |wakes|
    requires forall i :: 0 <= i < |wakes| ==> wakes[i] >= MAX_MINUTE
    ensures var r := SellLoop(s, sellerType, chart, minute, wakes);
      r.stopped && r.ticks == s.serviceTimeRemaining && r.chart == chart &&
      r.seller.serviceTimeRemaining == 0 && r.seller.numServed == s.numServed
    decreases s.serviceTimeRemaining
  {
    var st := TickSpec(s, sellerType, chart, wakes[0]);
    assert !Attempts(s, wakes[0]);
    if s.serviceTimeRemaining > 1 {
      assert st.outcome == Continue;
      FinishesServiceAfterClose(st.seller, sellerType, st.chart, wakes[0], wakes[1..]);
    }
  }

  /** The seller thread in place: its identity, its queue, and its three counters. */
  class Seller {
    const id: SellerId
    const queue: array<Customer>
    var numServed: int
    var numArrived: int
    var serviceTimeRemaining: int

    ghost predicate Valid()
      reads this
    {
      0 <= numServed <= numArrived <= queue.Length
    }

    /** The seller's state as a value. */
    ghost function State(): (s: SellerState)
      reads this, queue
    {
      SellerState(numArrived, numServed, serviceTimeRemaining, queue[..])
    }

    /** The start of the seller thread: a zeroed queue of n customers, generated from
        the draws and sorted, and all counters at 0. */
    constructor (id: SellerId, n: nat, draws: seq<nat>)
      requires n * DrawsPerCustomer(id.sellerType) <= |draws|
      ensures Valid() && fresh(queue) && queue.Length == n && this.id == id
      ensures numArrived == 0 && numServed == 0 && serviceTimeRemaining == 0
      ensures GeneratedQueue(queue[..], id)
    {
      this.id := id;
      queue := new Customer[n](_ => Zeroed);
      numServed, numArrived, serviceTimeRemaining := 0, 0, 0;
      new;
      var first;
      ghost var sorted;
      first, sorted := GenerateAndSortCustomers(queue, id, draws);
    }

    /** Admits every waiting customer whose arrival time is at most `currMinute`. */
    method Admit(currMinute: int)
      requires Valid()
      modifies this
      ensures Valid()
      ensures numArrived == Admitted(queue[..], old(numArrived), currMinute)
      ensures numServed == old(numServed) && serviceTimeRemaining == old(serviceTimeRemaining)
    {
      while numArrived < queue.Length && queue[numArrived].arrivalTime <= currMinute
        modifies this
        invariant old(numArrived) <= numArrived <= queue.Length
        invariant numServed == old(numServed) && serviceTimeRemaining == old(serviceTimeRemaining)
        invariant Admitted(queue[..], numArrived, currMinute) == Admitted(queue[..], old(numArrived), currMinute)
        decreases queue.Length - numArrived
      {
        numArrived := numArrived + 1;
      }
    }

    /** One tick at minute `currMinute`: admit arrivals, ask for at most one seat,
        advance the current service. */
    method Tick(currMinute: int, chart: SeatingChart) returns (outcome: Outcome)
      requires Valid() && chart.Valid()
      modifies this, queue, chart, chart.seats
      ensures Valid() && chart.Valid()
      ensures var st := TickSpec(old(State()), id.sellerType, old(chart.chart), currMinute);
        State() == st.seller && chart.chart == st.chart && outcome == st.outcome
    {
      ghost var s := State();
      Admit(currMinute);
      assert State() == s.(numArrived := Admitted(s.queue, s.numArrived, currMinute));
      if serviceTimeRemaining <= 0 && numArrived > numServed {
        ghost var c := queue[numServed];
        var seated := chart.ServeCustomer(queue[numServed], id.sellerType);
        if seated != 0 {
          serviceTimeRemaining := queue[numServed].serviceTime;
        } else {
          return SeatFailed;
        }
        queue[numServed] := queue[numServed].(served := 1);
        numServed := numServed + 1;
        assert State() == SellerState(numArrived, s.numServed + 1, c.serviceTime, s.queue[s.numServed := c.(served := 1)]);
      }
      if serviceTimeRemaining > 0 {
        serviceTimeRemaining := serviceTimeRemaining - 1;
        if serviceTimeRemaining <= 0 {
          if currMinute >= MAX_MINUTE {
            return ClosedAtMax;
          }
        }
      }
      return Continue;
    }

    /** The seller thread's loop from its first check of the loop condition at
        `minute`: one tick per wake-up, the minutes read at the wake-ups being
        `wakes`. Every way out of the loop stops the seller's operations once;
        `stopped` is false when the wake-ups run out with the seller still waiting. */
    method Sell(minute: int, wakes: seq<int>, chart: SeatingChart, office: SalesOffice) returns (stopped: bool)
      requires Valid() && chart.Valid()
      modifies this, queue, chart, chart.seats, office
      ensures Valid() && chart.Valid()
      ensures var r := SellLoop(old(State()), id.sellerType, old(chart.chart), minute, wakes);
        State() == r.seller && chart.chart == r.chart && stopped == r.stopped
      ensures office.threadsOperating == old(office.threadsOperating) - (if stopped then 1 else 0)
    {
      var currMinute := minute;
      var i := 0;
      while (numServed < queue.Length && currMinute < MAX_MINUTE) || serviceTimeRemaining > 0
        invariant 0 <= i <= |wakes|
        invariant Valid() && chart.Valid()
        invariant office.threadsOperating == old(office.threadsOperating)
        invariant Later(SellLoop(State(), id.sellerType, chart.chart, currMinute, wakes[i..]), i) ==
                  SellLoop(old(State()), id.sellerType, old(chart.chart), minute, wakes)
        decreases |wakes| - i
      {
        if i == |wakes| {
          return false;
        }
        assert wakes[i..][1..] == wakes[i + 1..];
        SellLoopStep(State(), id.sellerType, chart.chart, currMinute, wakes[i..]);
        currMinute := wakes[i];
        i := i + 1;
        var outcome := Tick(currMinute, chart);
        if outcome != Continue {
          office.StopOperations();
          return true;
        }
      }
      office.StopOperations();
      return true;
    }
  }

  /** The count of seller threads still operating. */
  class SalesOffice {
    var threadsOperating: int

    constructor ()
      ensures threadsOperating == 10
    {
      threadsOperating := 10;
    }

    /** A seller leaving for good takes itself off the count. */
    method StopOperations()
      modifies this
      ensures threadsOperating == old(threadsOperating) - 1
    {
      threadsOperating := threadsOperating - 1;
    }
  }

}
