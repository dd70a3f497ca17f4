/**
 * The dashboard's orders table: the row-selection list kept in component
 * state, the colour of each status badge, and the pagination footer.
 */
module OrdersTable {
  import opened Replies
  import opened Lists
  import opened Pagination

  datatype OrderStatus = Processing | Placed | Shipped | Delivered | Cancelled

  /** One row of the table. Only the fields the table's logic reads are kept;
    * `paymentStatus` is compared as a string. */
  datatype Order = Order(id: string, productName: string, customerName: string, paymentStatus: string, status: OrderStatus)

  /** Rows per page assumed by the footer label. */
  const PageSize := 10

  /** `orders.map(order => order.id)` */
  function Ids(orders: seq<Order>): (r: seq<string>)
    ensures |r| == |orders|
    ensures forall i :: 0 <= i < |orders| ==> r[i] == orders[i].id
    decreases |orders|
  {
    if orders == [] then [] else [orders[0].id] + Ids(orders[1..])
  }

  /** The table component; `selectedOrders` is its only state. */
  class Table {
    var selectedOrders: seq<string>

    constructor ()
      ensures selectedOrders == []
    {
      selectedOrders := [];
    }

    /** The header checkbox: checking it selects exactly the ids of the rows
      * on screen, in order; unchecking it clears the selection. */
    method HeaderChanged(orders: seq<Order>, checked: bool)
      modifies this
      ensures selectedOrders == if checked then Ids(orders) else []
    {
      if checked {
        selectedOrders := Ids(orders);
      } else {
        selectedOrders := [];
      }
    }

    /** A row checkbox. It is controlled (`checked` is whether its id is
      * selected), so a click checks it exactly when the id is not selected:
      * checking appends the id; unchecking removes every occurrence of it and
      * keeps the other ids in order. Clicks never introduce a duplicate. */
    method RowClicked(id: string)
      modifies this
      ensures id !in old(selectedOrders) ==> selectedOrders == old(selectedOrders) + [id]
      ensures id in old(selectedOrders) ==> selectedOrders == Filter(old(selectedOrders), x => x != id)
      ensures id in old(selectedOrders) <==> id !in selectedOrders
      ensures NoDuplicates(old(selectedOrders)) ==> NoDuplicates(selectedOrders)
    {
      var checked := id !in selectedOrders;
      if checked {
        selectedOrders := selectedOrders + [id];
      } else {
        var kept := Filter(selectedOrders, x => x != id);
        if NoDuplicates(selectedOrders) {
          FilterNoDuplicates(selectedOrders, x => x != id);
        }
        selectedOrders := kept;
      }
    }
  }

  const Orange := "bg-orange-50 text-orange-500"
  const Blue := "bg-blue-50 text-blue-500"
  const Green := "bg-green-50 text-green-500"
  const Red := "bg-red-50 text-red-500"

  /** `getStatusColor`: defined for all five statuses; Processing and Placed
    * share the orange badge, each other status has a badge of its own. */
  function StatusColor(s: OrderStatus): (r: string)
    ensures r == Orange <==> s == Processing || s == Placed
    ensures r == Blue <==> s == Shipped
    ensures r == Green <==> s == Delivered
    ensures r == Red <==> s == Cancelled
  {
    match s
    case Processing => Orange
    case Placed => Orange
    case Shipped => Blue
    case Delivered => Green
    case Cancelled => Red
  }

  /** Two statuses get the same badge only when they are equal or are
    * Processing and Placed. */
  lemma StatusColorsDistinguish(s: OrderStatus, t: OrderStatus)
    ensures StatusColor(s) == StatusColor(t) <==>
      s == t || ((s == Processing || s == Placed) && (t == Processing || t == Placed))
  {
  }

  /** The payment badge: "paid" is green, "unpaid" red, any other text orange. */
  function PaymentColor(paymentStatus: string): (r: string)
    ensures r == Green <==> paymentStatus == "paid"
    ensures r == Red <==> paymentStatus == "unpaid"
    ensures r == Orange <==> paymentStatus != "paid" && paymentStatus != "unpaid"
  {
    if paymentStatus == "paid" then Green
    else if paymentStatus == "unpaid" then Red
    else Orange
  }

  /** The footer label as written: `(currentPage - 1) * 10 + 1` to
    * `min(currentPage * 10, orders.length)` of `orders.length`. Its end never
    * exceeds the number of rows and it spans at most ten. */
  function FooterAsWritten(currentPage: int, orders: seq<Order>): (r: Range)
    ensures r.end <= |orders|
    ensures r.end - r.start + 1 <= PageSize
  {
    Showing(currentPage, PageSize, |orders|)
  }

  /** `orders` holds only the rows of the current page (the dashboard asks the
    * server for `?page=N` and passes the reply's orders), so from page 2 on the
    * label as written is an inverted range: page 2 with ten rows reads
    * "Showing 11 to 10 of 10 results". */
  lemma FooterAsWrittenInvertedPastFirstPage(currentPage: int, orders: seq<Order>)
    requires currentPage >= 2 && |orders| <= PageSize
    ensures FooterAsWritten(currentPage, orders).start > FooterAsWritten(currentPage, orders).end
  {
  }

  lemma FooterAsWrittenExample(orders: seq<Order>)
    requires |orders| == 10
    ensures FooterAsWritten(2, orders) == Range(11, 10)
  {
  }

  /** The label the footer evidently intends for a page of rows: the first and
    * last position of the rows on screen, counted from the first page. */
  function Footer(currentPage: int, orders: seq<Order>): (r: Range)
    requires currentPage >= 1
    ensures r.start >= 1
    ensures r.end - r.start + 1 == |orders|
    ensures |orders| > 0 ==> r.start <= r.end
  {
    Range((currentPage - 1) * PageSize + 1, (currentPage - 1) * PageSize + |orders|)
  }

  /** On the first page the intended label and the written one agree. */
  lemma FooterAgreesOnFirstPage(orders: seq<Order>)
    requires |orders| <= PageSize
    ensures Footer(1, orders) == FooterAsWritten(1, orders)
  {
  }
}
