/** The records of the ticket-seller simulation: seller identities and customers,
    the arrival-time comparator used for sorting, and the display number of a seller. */
module Customers {

  /** Length of the simulated selling hour, in minutes (ticks). */
  const MAX_MINUTE: int := 60

  /** A seller's tier ('H', 'M', 'L'; anything else is an unknown tier) and its index. */
  datatype SellerId = SellerId(sellerType: char, sellerNum: int)

  /** A customer record; `served` is a C int flag (0 = not served). */
  datatype Customer = Customer(
    server: SellerId,
    customerNum: int,
    arrivalTime: int,
    serviceTime: int,
    served: int)

  /** The all-zero record: what static storage and calloc hold before initialisation. */
  const Zeroed: Customer := Customer(SellerId(0 as char, 0), 0, 0, 0, 0)

  /** The sentinel an empty seat holds after the chart is initialised. */
  const EmptySeat: Customer := Customer(SellerId('X', -1), -1, -1, -1, 0)

  /** Three-way comparison of two customers by arrival time, as handed to qsort. */
  function CompareCustomers(a: Customer, b: Customer): (r: int)
    ensures r < 0 <==> a.arrivalTime < b.arrivalTime
    ensures r == 0 <==> a.arrivalTime == b.arrivalTime
    ensures r > 0 <==> a.arrivalTime > b.arrivalTime
  {
    a.arrivalTime - b.arrivalTime
  }

  /** Amount subtracted from a seller's index to number it within its tier;
      an unknown tier keeps the High offset. */
  function PrintOffset(sellerType: char): int
  {
    match sellerType
    case 'H' => 0
    case 'M' => 1
    case 'L' => 4
    case _ => 0
  }

  /** The number a seller is shown with (H1, M1..M3, L1..L6). */
  function GetSellerPrintNum(id: SellerId): (r: int)
    ensures id.sellerType == 'H' ==> r == id.sellerNum + 1
    ensures id.sellerType == 'M' ==> r == id.sellerNum
    ensures id.sellerType == 'L' ==> r == id.sellerNum - 3
    ensures id.sellerType !in {'H', 'M', 'L'} ==> r == id.sellerNum + 1
  {
    id.sellerNum - PrintOffset(id.sellerType) + 1
  }

  /** The identity main gives to seller thread i: seller 0 is High, 1..3 Medium, 4..9 Low. */
  function MainSellerId(i: int): (id: SellerId)
    requires 0 <= i < 10
    ensures id.sellerNum == i
    ensures id.sellerType == (if i == 0 then 'H' else if i < 4 then 'M' else 'L')
  {
    if i == 0 then SellerId('H', 0)
    else if i < 4 then SellerId('M', i)
    else SellerId('L', i)
  }

  /** Number of sellers main starts in a tier. */
  function TierSize(sellerType: char): int
  {
    match sellerType
    case 'H' => 1
    case 'M' => 3
    case 'L' => 6
    case _ => 0
  }

  /** The sellers main creates are numbered 1..k within their tier, k being the tier's
      size, and two sellers of the same tier never share a display number. */
  lemma MainPrintNumsPerTier(i: int, j: int)
    requires 0 <= i < 10 && 0 <= j < 10
    ensures 1 <= GetSellerPrintNum(MainSellerId(i)) <= TierSize(MainSellerId(i).sellerType)
    ensures i != j && MainSellerId(i).sellerType == MainSellerId(j).sellerType ==>
              GetSellerPrintNum(MainSellerId(i)) != GetSellerPrintNum(MainSellerId(j))
  {
  }

}
