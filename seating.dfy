/** The 10 x 10 seating chart and the seat allocator.

    The allocator is specified by pure functions over a value snapshot of the chart
    (`Chart`): each seller tier visits the rows in its own fixed order and, within a
    row, the columns left to right, and claims the first seat whose served flag is 0.
    The class `SeatingChart` holds the chart in place, as a two-dimensional array,
    and its methods are proved against those functions. */
module Seating {
  import opened Wrappers
  import opened Customers

  /** Number of rows and of columns of the chart. */
  const SIZE: int := 10

  /** Number of cells a full scan inspects. */
  const CELLS: int := SIZE * SIZE

  /** The row-visit order of each tier: High front to back, Medium from the middle
      outwards, Low back to front. */
  const ROW_SEQUENCE: seq<seq<int>> :=
    [[0, 1, 2, 3, 4, 5, 6, 7, 8, 9],
     [4, 5, 3, 6, 2, 7, 1, 8, 0, 9],
     [9, 8, 7, 6, 5, 4, 3, 2, 1, 0]]

  /** A value snapshot of the chart, indexed [row][col]. */
  type Chart = seq<seq<Customer>>

  ghost predicate WellFormed(chart: Chart)
  {
    |chart| == SIZE && forall row :: 0 <= row < SIZE ==> |chart[row]| == SIZE
  }

  /** The chart after initialisation: every seat holds the empty sentinel. */
  function InitialChart(): (chart: Chart)
    ensures WellFormed(chart)
    ensures forall row, col :: 0 <= row < SIZE && 0 <= col < SIZE ==>
              chart[row][col].served == 0 && chart[row][col] == EmptySeat
  {
    seq(SIZE, _ => seq(SIZE, _ => EmptySeat))
  }

  /** Which row order a seller type uses; an unknown type keeps the High order. */
  function SequenceNum(sellerType: char): (s: nat)
    ensures s < 3
    ensures sellerType == 'M' ==> s == 1
    ensures sellerType == 'L' ==> s == 2
    ensures sellerType != 'M' && sellerType != 'L' ==> s == 0
  {
    match sellerType
    case 'H' => 0
    case 'M' => 1
    case 'L' => 2
    case _ => 0
  }

  /** A row order: ten row indices, in the order a tier visits them. */
  ghost predicate IsRowOrder(rows: seq<int>)
  {
    |rows| == SIZE && forall i :: 0 <= i < SIZE ==> 0 <= rows[i] < SIZE
  }

  /** The row order of a seller type. */
  function Order(sellerType: char): (rows: seq<int>)
    ensures IsRowOrder(rows)
  {
    ROW_SEQUENCE[SequenceNum(sellerType)]
  }

  /** The row inspected at visit position k (0 <= k < 100) of a row order. */
  function VisitRow(rows: seq<int>, k: int): (row: int)
    requires IsRowOrder(rows) && 0 <= k < CELLS
    ensures 0 <= row < SIZE
  {
    rows[k / SIZE]
  }

  /** The column inspected at visit position k. */
  function VisitCol(k: int): (col: int)
    requires 0 <= k < CELLS
    ensures 0 <= col < SIZE
  {
    k % SIZE
  }

  /** Whether the seat at visit position k of a row order is still unserved. */
  ghost predicate Free(chart: Chart, rows: seq<int>, k: int)
    requires WellFormed(chart) && IsRowOrder(rows) && 0 <= k < CELLS
  {
    chart[VisitRow(rows, k)][VisitCol(k)].served == 0
  }

  /** The position, in the visit order of a seller type, of row `row`. */
  function RowPosition(sellerType: char, row: int): (i: int)
    requires 0 <= row < SIZE
    ensures 0 <= i < SIZE && Order(sellerType)[i] == row
  {
    var s := SequenceNum(sellerType);
    if s == 0 then row
    else if s == 2 then SIZE - 1 - row
    else [8, 6, 4, 2, 0, 1, 3, 5, 7, 9][row]
  }

  /** Because each row order is a permutation, every cell is inspected by a full scan:
      cell (row, col) sits at visit position RowPosition(sellerType, row) * 10 + col. */
  lemma VisitCovers(sellerType: char, row: int, col: int)
    requires 0 <= row < SIZE && 0 <= col < SIZE
    ensures var k := RowPosition(sellerType, row) * SIZE + col;
      0 <= k < CELLS && VisitRow(Order(sellerType), k) == row && VisitCol(k) == col
  {
    var i := RowPosition(sellerType, row);
    var k := i * SIZE + col;
    assert k / SIZE == i && k % SIZE == col;
  }

  /** Visit position i * 10 + col inspects column col of the i-th row in the order. */
  lemma VisitAt(rows: seq<int>, i: int, col: int)
    requires IsRowOrder(rows) && 0 <= i < SIZE && 0 <= col < SIZE
    ensures 0 <= i * SIZE + col < CELLS
    ensures VisitRow(rows, i * SIZE + col) == rows[i] && VisitCol(i * SIZE + col) == col
  {
    assert (i * SIZE + col) / SIZE == i;
  }

  /** The first unserved seat at or after visit position k, scanning a row order. */
  function FindFrom(chart: Chart, rows: seq<int>, k: int): (r: Option<int>)
    requires WellFormed(chart) && IsRowOrder(rows) && 0 <= k <= CELLS
    ensures r.Some? ==> k <= r.value < CELLS
    decreases CELLS - k
  {
    if k == CELLS then None
    else if chart[VisitRow(rows, k)][VisitCol(k)].served == 0 then Some(k)
    else FindFrom(chart, rows, k + 1)
  }

  /** The scan finds the first free seat at or after position k in the visit order,
      and finds nothing only when no seat from k on is free. */
  lemma {:induction false} FindFromIsFirst(chart: Chart, rows: seq<int>, k: int)
    requires WellFormed(chart) && IsRowOrder(rows) && 0 <= k <= CELLS
    ensures var r := FindFrom(chart, rows, k);
      (r.Some? ==> Free(chart, rows, r.value) && forall q :: k <= q < r.value ==> !Free(chart, rows, q)) &&
      (r.None? ==> forall q :: k <= q < CELLS ==> !Free(chart, rows, q))
    decreases CELLS - k
  {
    if k < CELLS && !Free(chart, rows, k) {
      FindFromIsFirst(chart, rows, k + 1);
    }
  }

  /** The chart with the seat (row, col) holding a copy of c marked served. */
  function Claim(chart: Chart, row: int, col: int, c: Customer): (chart': Chart)
    requires WellFormed(chart) && 0 <= row < SIZE && 0 <= col < SIZE
    ensures WellFormed(chart')
    ensures chart'[row][col] == c.(served := 1)
    ensures forall i, j :: 0 <= i < SIZE && 0 <= j < SIZE && (i, j) != (row, col) ==>
              chart'[i][j] == chart[i][j]
  {
    chart[row := chart[row][col := c.(served := 1)]]
  }

  /** The outcome of one allocation: the new chart and the C result (1 seated, 0 not). */
  datatype Allocation = Allocation(chart: Chart, seated: int)

  /** The seat allocator: claim the first unserved seat in the tier's order, if any. */
  function Allocate(chart: Chart, c: Customer, sellerType: char): (a: Allocation)
    requires WellFormed(chart)
    ensures WellFormed(a.chart)
    ensures a.seated == 0 || a.seated == 1
    ensures a.seated == 0 ==> a.chart == chart
  {
    var rows := Order(sellerType);
    match FindFrom(chart, rows, 0)
    case None => Allocation(chart, 0)
    case Some(k) => Allocation(Claim(chart, VisitRow(rows, k), VisitCol(k), c), 1)
  }

  /** A seat is claimed exactly when there is an unserved seat anywhere in the chart;
      the result is always 0 or 1, and a failed allocation leaves the chart as it was. */
  lemma AllocateSucceedsIffSeatFree(chart: Chart, c: Customer, sellerType: char)
    requires WellFormed(chart)
    ensures var a := Allocate(chart, c, sellerType);
      (a.seated == 0 || a.seated == 1) &&
      (a.seated == 1 <==> exists row, col :: 0 <= row < SIZE && 0 <= col < SIZE && chart[row][col].served == 0) &&
      (a.seated == 0 ==> a.chart == chart)
  {
    var rows := Order(sellerType);
    var a := Allocate(chart, c, sellerType);
    FindFromIsFirst(chart, rows, 0);
    if a.seated == 0 {
      forall row, col | 0 <= row < SIZE && 0 <= col < SIZE
        ensures chart[row][col].served != 0
      {
        VisitCovers(sellerType, row, col);
        assert !Free(chart, rows, RowPosition(sellerType, row) * SIZE + col);
      }
    } else {
      var k := FindFrom(chart, rows, 0).value;
      assert chart[VisitRow(rows, k)][VisitCol(k)].served == 0;
    }
  }

  /** When visit position k holds the first unserved seat of the tier's order, the
      allocator claims exactly that seat for a copy of c marked served. */
  lemma AllocateClaimsFirstFree(chart: Chart, c: Customer, sellerType: char, k: int)
    requires WellFormed(chart) && 0 <= k < CELLS
    requires Free(chart, Order(sellerType), k)
    requires forall q :: 0 <= q < k ==> !Free(chart, Order(sellerType), q)
    ensures var rows := Order(sellerType);
      Allocate(chart, c, sellerType) ==
        Allocation(Claim(chart, VisitRow(rows, k), VisitCol(k), c), 1)
  {
    var rows := Order(sellerType);
    FindFromIsFirst(chart, rows, 0);
    var r := FindFrom(chart, rows, 0);
    assert r.Some? && r.value == k;
  }

  /** Seats are write-once: the allocator never changes a seat already served. */
  lemma AllocateIsWriteOnce(chart: Chart, c: Customer, sellerType: char, row: int, col: int)
    requires WellFormed(chart) && 0 <= row < SIZE && 0 <= col < SIZE
    requires chart[row][col].served != 0
    ensures Allocate(chart, c, sellerType).chart[row][col] == chart[row][col]
  {
    var rows := Order(sellerType);
    FindFromIsFirst(chart, rows, 0);
    var r := FindFrom(chart, rows, 0);
    if r.Some? {
      assert Free(chart, rows, r.value);
      assert (VisitRow(rows, r.value), VisitCol(r.value)) != (row, col);
    }
  }

  /** An unknown seller type allocates exactly as a High seller does. */
  lemma UnknownTypeUsesHighOrder(chart: Chart, c: Customer, sellerType: char)
    requires WellFormed(chart) && sellerType !in {'H', 'M', 'L'}
    ensures Allocate(chart, c, sellerType) == Allocate(chart, c, 'H')
  {
  }

  // ----- counting served seats -----

  /** Number of seats in a row whose served flag is non-zero. */
  function RowCount(row: seq<Customer>): (n: nat)
    ensures n <= |row|
  {
    if row == [] then 0
    else (if row[0].served != 0 then 1 else 0) + RowCount(row[1..])
  }

  /** Number of served seats in the whole chart. */
  function ServedCount(chart: Chart): nat
  {
    if chart == [] then 0 else RowCount(chart[0]) + ServedCount(chart[1..])
  }

  function Mark(x: Customer): nat
  {
    if x.served != 0 then 1 else 0
  }

  /** Replacing one seat of a row changes the row's count by the difference of marks. */
  lemma {:induction false} RowCountUpdate(row: seq<Customer>, j: int, x: Customer)
    requires 0 <= j < |row|
    ensures RowCount(row[j := x]) == RowCount(row) - Mark(row[j]) + Mark(x)
  {
    if j == 0 {
      assert row[j := x][1..] == row[1..];
    } else {
      RowCountUpdate(row[1..], j - 1, x);
      assert row[j := x][1..] == row[1..][j - 1 := x];
    }
  }

  /** Replacing one row changes the chart's count by the difference of row counts. */
  lemma {:induction false} ServedCountUpdate(chart: Chart, i: int, newRow: seq<Customer>)
    requires 0 <= i < |chart|
    ensures ServedCount(chart[i := newRow]) == ServedCount(chart) - RowCount(chart[i]) + RowCount(newRow)
  {
    if i == 0 {
      assert chart[i := newRow][1..] == chart[1..];
    } else {
      ServedCountUpdate(chart[1..], i - 1, newRow);
      assert chart[i := newRow][1..] == chart[1..][i - 1 := newRow];
    }
  }

  /** A chart of n rows of ten seats has at most 10 n served seats, and has exactly
      that many only when every seat is served. */
  lemma {:induction false} ServedCountBound(chart: Chart)
    requires forall row :: 0 <= row < |chart| ==> |chart[row]| == SIZE
    ensures ServedCount(chart) <= SIZE * |chart|
    ensures ServedCount(chart) == SIZE * |chart| ==>
      forall row, col :: 0 <= row < |chart| && 0 <= col < SIZE ==> chart[row][col].served != 0
  {
    if chart != [] {
      ServedCountBound(chart[1..]);
      if ServedCount(chart) == SIZE * |chart| {
        RowFull(chart[0]);
        forall row, col | 0 <= row < |chart| && 0 <= col < SIZE
          ensures chart[row][col].served != 0
        {
          if row > 0 { assert chart[row] == chart[1..][row - 1]; }
        }
      }
    }
  }

  /** A row whose count equals its length has every seat served. */
  lemma {:induction false} RowFull(row: seq<Customer>)
    requires RowCount(row) == |row|
    ensures forall j :: 0 <= j < |row| ==> row[j].served != 0
  {
    if row != [] {
      RowFull(row[1..]);
      forall j | 0 < j < |row| ensures row[j].served != 0 {
        assert row[j] == row[1..][j - 1];
      }
    }
  }

  /** A successful allocation adds exactly one served seat; a failed one adds none. */
  lemma AllocateCount(chart: Chart, c: Customer, sellerType: char)
    requires WellFormed(chart)
    ensures var a := Allocate(chart, c, sellerType);
      ServedCount(a.chart) == ServedCount(chart) + a.seated
  {
    var rows := Order(sellerType);
    FindFromIsFirst(chart, rows, 0);
    var r := FindFrom(chart, rows, 0);
    if r.Some? {
      var row, col := VisitRow(rows, r.value), VisitCol(r.value);
      assert chart[row][col].served == 0;
      RowCountUpdate(chart[row], col, c.(served := 1));
      ServedCountUpdate(chart, row, chart[row][col := c.(served := 1)]);
    }
  }

  /** On a chart whose 100 seats are all served, every allocation fails. */
  lemma FullChartRejects(chart: Chart, c: Customer, sellerType: char)
    requires WellFormed(chart) && ServedCount(chart) == CELLS
    ensures Allocate(chart, c, sellerType) == Allocation(chart, 0)
  {
    ServedCountBound(chart);
    AllocateSucceedsIffSeatFree(chart, c, sellerType);
  }

  /** One seat request of a run: a customer and the type of the seller asking. */
  datatype Request = Request(customer: Customer, sellerType: char)

  /** The allocations of a run, applied one after another (the chart lock serialises
      them); `seated` totals the successful ones. */
  function AllocateAll(chart: Chart, requests: seq<Request>): (a: Allocation)
    requires WellFormed(chart)
    ensures WellFormed(a.chart)
    ensures 0 <= a.seated <= |requests|
    ensures requests == [] ==> a == Allocation(chart, 0)
    decreases |requests|
  {
    if requests == [] then Allocation(chart, 0)
    else
      var first := Allocate(chart, requests[0].customer, requests[0].sellerType);
      var rest := AllocateAll(first.chart, requests[1..]);
      Allocation(rest.chart, first.seated + rest.seated)
  }

  /** However many requests a run makes, the number granted is exactly the number of
      seats that became served, so at most 100 requests ever succeed. */
  lemma {:induction false} AllocateAllBounded(chart: Chart, requests: seq<Request>)
    requires WellFormed(chart)
    ensures var a := AllocateAll(chart, requests);
      ServedCount(a.chart) == ServedCount(chart) + a.seated &&
      a.seated <= CELLS - ServedCount(chart)
    decreases |requests|
  {
    if requests == [] {
      ServedCountBound(chart);
    } else {
      var first := Allocate(chart, requests[0].customer, requests[0].sellerType);
      AllocateCount(chart, requests[0].customer, requests[0].sellerType);
      AllocateSucceedsIffSeatFree(chart, requests[0].customer, requests[0].sellerType);
      AllocateAllBounded(first.chart, requests[1..]);
    }
  }

  // ----- scenarios -----

  /** On a freshly initialised chart a High seller's customer gets row 0, column 0. */
  lemma EmptyChartHighTakesFrontCorner(c: Customer)
    ensures Allocate(InitialChart(), c, 'H') == Allocation(Claim(InitialChart(), 0, 0, c), 1)
  {
    AllocateClaimsFirstFree(InitialChart(), c, 'H', 0);
  }

  /** The initial chart with the ten seats of row 0 taken by `occupant`. */
  function FrontRowTaken(occupant: Customer): (chart: Chart)
    requires occupant.served != 0
    ensures WellFormed(chart)
  {
    [seq(SIZE, _ => occupant)] + InitialChart()[1..]
  }

  /** With row 0 full, High continues at row 1, Medium starts at row 4 and Low at
      row 9, each at column 0. */
  lemma FrontRowTakenScenario(occupant: Customer, c: Customer)
    requires occupant.served != 0
    ensures Allocate(FrontRowTaken(occupant), c, 'H') == Allocation(Claim(FrontRowTaken(occupant), 1, 0, c), 1)
    ensures Allocate(FrontRowTaken(occupant), c, 'M') == Allocation(Claim(FrontRowTaken(occupant), 4, 0, c), 1)
    ensures Allocate(FrontRowTaken(occupant), c, 'L') == Allocation(Claim(FrontRowTaken(occupant), 9, 0, c), 1)
  {
    var chart := FrontRowTaken(occupant);
    forall q | 0 <= q < SIZE ensures !Free(chart, Order('H'), q) {
      assert VisitRow(Order('H'), q) == 0;
    }
    assert VisitRow(Order('H'), SIZE) == 1;
    AllocateClaimsFirstFree(chart, c, 'H', SIZE);
    AllocateClaimsFirstFree(chart, c, 'M', 0);
    AllocateClaimsFirstFree(chart, c, 'L', 0);
  }

  // ----- the chart in place -----

  /** When no visit position is free, the scan finds nothing. */
  lemma ScanFindsNothing(chart: Chart, rows: seq<int>)
    requires WellFormed(chart) && IsRowOrder(rows)
    requires forall q :: 0 <= q < CELLS ==> !Free(chart, rows, q)
    ensures FindFrom(chart, rows, 0).None?
  {
    FindFromIsFirst(chart, rows, 0);
  }

  /** The global seating chart, a 10 x 10 array updated in place; the ghost field
      `chart` is its value, kept equal to the array by Valid(). */
  class SeatingChart {
    const seats: array2<Customer>
    ghost var chart: Chart

    ghost predicate Valid()
      reads this, seats
    {
      seats.Length0 == SIZE && seats.Length1 == SIZE && WellFormed(chart) &&
      forall i, j :: 0 <= i < SIZE && 0 <= j < SIZE ==> chart[i][j] == seats[i, j]
    }

    /** The chart as static storage holds it before initialisation: all zero. */
    constructor ()
      ensures Valid() && fresh(seats)
      ensures chart == seq(SIZE, _ => seq(SIZE, _ => Zeroed))
    {
      seats := new Customer[SIZE, SIZE]((_, _) => Zeroed);
      chart := seq(SIZE, _ => seq(SIZE, _ => Zeroed));
    }

    /** Marks every seat empty: served 0, seller type 'X', and -1 in the seller number,
        customer number, arrival time and service time. */
    method InitializeSeatingChart()
      requires Valid()
      modifies this, seats
      ensures Valid()
      ensures forall i, j :: 0 <= i < SIZE && 0 <= j < SIZE ==> seats[i, j] == EmptySeat
      ensures chart == InitialChart()
    {
      for i := 0 to SIZE
        invariant forall r, c :: 0 <= r < i && 0 <= c < SIZE ==> seats[r, c] == EmptySeat
      {
        for j := 0 to SIZE
          invariant forall r, c :: 0 <= r < i && 0 <= c < SIZE ==> seats[r, c] == EmptySeat
          invariant forall c :: 0 <= c < j ==> seats[i, c] == EmptySeat
        {
          seats[i, j] := EmptySeat;
        }
      }
      chart := InitialChart();
    }

    /** Writes a copy of c marked served into seat (row, col). */
    method Place(row: int, col: int, c: Customer)
      requires Valid() && 0 <= row < SIZE && 0 <= col < SIZE
      modifies this, seats
      ensures Valid() && chart == Claim(old(chart), row, col, c)
    {
      seats[row, col] := c.(served := 1);
      chart := Claim(chart, row, col, c);
      forall i, j | 0 <= i < SIZE && 0 <= j < SIZE
        ensures chart[i][j] == seats[i, j]
      {
        if (i, j) != (row, col) {
          assert chart[i][j] == old(chart)[i][j];
        }
      }
    }

    /** Seats c for a seller of the given type: scans the tier's rows in order and
        each row's columns 0..9, claims the first unserved seat with a copy of c marked
        served, and returns 1; returns 0, changing nothing, when every seat is served. */
    method ServeCustomer(c: Customer, sellerType: char) returns (r: int)
      requires Valid()
      modifies this, seats
      ensures Valid()
      ensures Allocation(chart, r) == Allocate(old(chart), c, sellerType)
    {
      var rows := Order(sellerType);
      for i := 0 to SIZE
        invariant unchanged(seats) && chart == old(chart)
        invariant forall q :: 0 <= q < i * 10 ==> !Free(chart, rows, q)
      {
        var row := rows[i];
        for col := 0 to SIZE
          invariant unchanged(seats) && chart == old(chart)
          invariant forall q :: 0 <= q < i * 10 + col ==> !Free(chart, rows, q)
        {
          VisitAt(rows, i, col);
          if seats[row, col].served == 0 {
            AllocateClaimsFirstFree(chart, c, sellerType, i * 10 + col);
            Place(row, col, c);
            return 1;
          }
        }
      }
      ScanFindsNothing(chart, rows);
      return 0;
    }
  }

}
