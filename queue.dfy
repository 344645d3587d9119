/** Generation of one seller's customer queue.

    The random numbers the generator draws are a supplied stream `draws`, consumed in
    the order the generator asks for them: for each customer an arrival draw and,
    for a known tier, a service draw. The library sort is specified by its outcome,
    a permutation sorted by arrival time under CompareCustomers. */
module CustomerQueue {
  import opened Wrappers
  import opened Customers

  /** Arrival minute of a customer from one draw: uniform over [0, 60). */
  function ArrivalTime(draw: nat): (t: int)
    ensures 0 <= t < MAX_MINUTE
  {
    draw % MAX_MINUTE
  }

  /** Whether the generator knows a seller type (and so draws a service time for it). */
  predicate KnownTier(sellerType: char)
  {
    sellerType == 'H' || sellerType == 'M' || sellerType == 'L'
  }

  /** Service minutes of a customer from one draw, by tier; an unknown tier falls back
      to one minute without drawing. */
  function ServiceTime(sellerType: char, draw: nat): (t: int)
    ensures ServiceBounds(sellerType).0 <= t <= ServiceBounds(sellerType).1
  {
    match sellerType
    case 'H' => draw % 2 + 1
    case 'M' => draw % 3 + 2
    case 'L' => draw % 4 + 4
    case _ => 1
  }

  /** Lowest and highest service time of a tier: High [1,2], Medium [2,4], Low [4,7],
      and exactly 1 for an unknown tier. */
  function ServiceBounds(sellerType: char): (int, int)
  {
    match sellerType
    case 'H' => (1, 2)
    case 'M' => (2, 4)
    case 'L' => (4, 7)
    case _ => (1, 1)
  }

  /** Every service time in a tier's range is produced by some draw, so the ranges
      High [1,2], Medium [2,4] and Low [4,7] are exact. */
  lemma ServiceRangeIsExact(sellerType: char, t: int)
    requires ServiceBounds(sellerType).0 <= t <= ServiceBounds(sellerType).1
    ensures ServiceTime(sellerType, t - ServiceBounds(sellerType).0) == t
  {
  }

  /** Number of draws one customer takes. */
  function DrawsPerCustomer(sellerType: char): (d: nat)
    ensures 1 <= d <= 2
  {
    if KnownTier(sellerType) then 2 else 1
  }

  /** The i-th generated customer, before sorting, with everything but the customer
      number (which generation leaves alone) set from the draws. */
  function DrawnCustomer(server: SellerId, num: int, draws: seq<nat>, i: nat): (c: Customer)
    requires (i + 1) * DrawsPerCustomer(server.sellerType) <= |draws|
    ensures c.server == server && c.customerNum == num && c.served == 0
    ensures c.arrivalTime == ArrivalTime(draws[i * DrawsPerCustomer(server.sellerType)])
    ensures ServiceBounds(server.sellerType).0 <= c.serviceTime <= ServiceBounds(server.sellerType).1
  {
    var d := DrawsPerCustomer(server.sellerType);
    var draw := if d == 2 then draws[i * d + 1] else 0;
    Customer(server, num, ArrivalTime(draws[i * d]), ServiceTime(server.sellerType, draw), 0)
  }

  /** The queue as the generation loop leaves it: customer i drawn from the stream,
      keeping the customer number the storage held. */
  function Drawn(storage: seq<Customer>, server: SellerId, draws: seq<nat>): (q: seq<Customer>)
    requires |storage| * DrawsPerCustomer(server.sellerType) <= |draws|
    ensures |q| == |storage|
  {
    seq(|storage|, i requires 0 <= i < |storage| => DrawnCustomer(server, storage[i].customerNum, draws, i))
  }

  // ----- sorting by arrival time -----

  ghost predicate SortedByArrival(s: seq<Customer>)
  {
    forall i, j :: 0 <= i < j < |s| ==> s[i].arrivalTime <= s[j].arrivalTime
  }

  /** Inserts x before the first element that does not arrive earlier than it. */
  function Insert(x: Customer, s: seq<Customer>): (r: seq<Customer>)
    ensures multiset(r) == multiset(s) + multiset{x}
    ensures |r| == |s| + 1 && (r[0] == x || (s != [] && r[0] == s[0]))
  {
    if s == [] then [x]
    else if CompareCustomers(x, s[0]) <= 0 then [x] + s
    else
      assert s == [s[0]] + s[1..];
      [s[0]] + Insert(x, s[1..])
  }

  /** Inserting into a sorted queue keeps it sorted. */
  lemma {:induction false} InsertSorted(x: Customer, s: seq<Customer>)
    requires SortedByArrival(s)
    ensures SortedByArrival(Insert(x, s))
  {
    if s != [] && CompareCustomers(x, s[0]) > 0 {
      var rest := Insert(x, s[1..]);
      InsertSorted(x, s[1..]);
      assert rest[0].arrivalTime >= s[0].arrivalTime;
      assert Insert(x, s) == [s[0]] + rest;
    }
  }

  /** A permutation of s in non-decreasing arrival order: what qsort with
      CompareCustomers produces, up to the order of customers arriving together. */
  function SortByArrival(s: seq<Customer>): (r: seq<Customer>)
    ensures |r| == |s| && multiset(r) == multiset(s)
    ensures SortedByArrival(r)
  {
    if s == [] then []
    else
      assert s == [s[0]] + s[1..];
      var rest := SortByArrival(s[1..]);
      InsertSorted(s[0], rest);
      Insert(s[0], rest)
  }

  /** What generation promises of one customer of a seller, whatever its number. */
  ghost predicate WellDrawn(c: Customer, server: SellerId)
  {
    c.server == server && c.served == 0 && 0 <= c.arrivalTime < MAX_MINUTE &&
    ServiceBounds(server.sellerType).0 <= c.serviceTime <= ServiceBounds(server.sellerType).1
  }

  /** What the model promises of a generated queue of a seller: customers numbered
      0..N-1 in order, arrival times non-decreasing, and every customer well drawn:
      served 0, the seller's identity, an arrival time in [0, 60) and a service time
      in the tier's range. */
  ghost predicate GeneratedQueue(q: seq<Customer>, server: SellerId)
  {
    SortedByArrival(q) &&
    forall i :: 0 <= i < |q| ==> q[i].customerNum == i && WellDrawn(q[i], server)
  }

  /** Every customer drawn for a seller is well drawn. */
  lemma DrawnAreWellDrawn(storage: seq<Customer>, server: SellerId, draws: seq<nat>)
    requires |storage| * DrawsPerCustomer(server.sellerType) <= |draws|
    ensures forall c :: c in Drawn(storage, server, draws) ==> WellDrawn(c, server)
  {
    var q := Drawn(storage, server, draws);
    forall c | c in q ensures WellDrawn(c, server) {
      var i :| 0 <= i < |q| && q[i] == c;
      var d := DrawsPerCustomer(server.sellerType);
      var draw := if d == 2 then draws[i * d + 1] else 0;
      assert c.serviceTime == ServiceTime(server.sellerType, draw);
    }
  }

  /** Customer i + 1 of n still has its draws in the stream. */
  lemma MoreDraws(i: int, n: int, d: nat)
    requires 0 <= i < n
    ensures (i + 1) * d <= n * d
  {
  }

  /** The generation loop: fills customer i from the next draws of the stream, with
      the seller's identity and served 0, leaving its customer number alone. */
  method DrawCustomers(customers: array<Customer>, server: SellerId, draws: seq<nat>)
    requires customers.Length * DrawsPerCustomer(server.sellerType) <= |draws|
    modifies customers
    ensures customers[..] == Drawn(old(customers[..]), server, draws)
  {
    ghost var drawn := Drawn(customers[..], server, draws);
    var d := DrawsPerCustomer(server.sellerType);
    var next := 0;
    for i := 0 to customers.Length
      invariant next == i * d
      invariant forall j :: 0 <= j < i ==> customers[j] == drawn[j]
      invariant forall j :: i <= j < customers.Length ==> customers[j] == old(customers[j])
    {
      MoreDraws(i, customers.Length, d);
      assert customers[i] == old(customers[i]);
      var sid := SellerId(server.sellerType, server.sellerNum);
      var arrival := ArrivalTime(draws[next]);
      next := next + 1;
      var draw := 0;
      if KnownTier(server.sellerType) {
        draw := draws[next];
        next := next + 1;
      }
      customers[i] := Customer(sid, customers[i].customerNum, arrival, ServiceTime(server.sellerType, draw), 0);
    }
    assert customers[..] == drawn;
  }

  /** The library sort with CompareCustomers: afterwards the array is a permutation of
      what it held, in non-decreasing arrival order. */
  method SortCustomers(customers: array<Customer>)
    modifies customers
    ensures multiset(customers[..]) == multiset(old(customers[..]))
    ensures SortedByArrival(customers[..])
  {
    var byArrival := SortByArrival(customers[..]);
    forall k | 0 <= k < customers.Length {
      customers[k] := byArrival[k];
    }
    assert customers[..] == byArrival;
  }

  /** The numbering loop: customer i of the sorted queue gets customer number i. */
  method Renumber(customers: array<Customer>)
    modifies customers
    ensures forall i :: 0 <= i < customers.Length ==> customers[i] == old(customers[i]).(customerNum := i)
  {
    for i := 0 to customers.Length
      invariant forall j :: 0 <= j < i ==> customers[j] == old(customers[j]).(customerNum := j)
      invariant forall j :: i <= j < customers.Length ==> customers[j] == old(customers[j])
    {
      customers[i] := customers[i].(customerNum := i);
    }
  }

  /** Fills the queue from the draws, sorts it by arrival time and numbers the
      customers 0..N-1 in sorted order; returns the first arrival time (None for an
      empty queue). `sorted` is the queue as the sort left it. */
  method GenerateAndSortCustomers(customers: array<Customer>, server: SellerId, draws: seq<nat>)
    returns (first: Option<int>, ghost sorted: seq<Customer>)
    requires customers.Length * DrawsPerCustomer(server.sellerType) <= |draws|
    modifies customers
    ensures multiset(sorted) == multiset(Drawn(old(customers[..]), server, draws))
    ensures SortedByArrival(sorted) && |sorted| == customers.Length
    ensures forall i :: 0 <= i < customers.Length ==> customers[i] == sorted[i].(customerNum := i)
    ensures GeneratedQueue(customers[..], server)
    ensures first == if customers.Length > 0 then Some(customers[0].arrivalTime) else None
  {
    DrawnAreWellDrawn(customers[..], server, draws);
    DrawCustomers(customers, server, draws);
    SortCustomers(customers);
    sorted := customers[..];
    forall c | c in sorted ensures WellDrawn(c, server) {
      assert c in multiset(sorted);
    }
    Renumber(customers);
    forall k | 0 <= k < customers.Length ensures WellDrawn(customers[k], server) {
      assert sorted[k] in sorted;
    }
    first := if customers.Length > 0 then Some(customers[0].arrivalTime) else None;
  }

}
