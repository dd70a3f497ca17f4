/**
 * The dashboard overview page: the stats and orders fetches with their error
 * taxonomy, the sales-timeline selector, the order-status rows and their
 * total, and the orders table's page change.
 */
module Dashboard {
  import opened Replies
  import OrdersTable
  import Pagination

  const NoTokenMessage := "Authentication token not found"
  const ServerErrorMessage := "Server error. Please try again later."

  /** `Request failed with status ${response.status}` */
  function StatusMessage(status: nat): string {
    "Request failed with status " + DecimalString(status)
  }

  /** The error taxonomy shared by the three fetches of this page: no token;
    * a network failure; status 500 whatever the body; any other non-OK
    * status, whose body is read with `.catch(() => ({}))` so that text which
    * is not JSON counts as an empty object; an OK reply whose body is not
    * JSON; and success. */
  function Outcome<P>(token: Option<string>, reply: Reply<P>): (r: Fetched<P>)
    ensures token.None? ==> r == Failed(NoTokenMessage)
    ensures r.Got? <==> token.Some? && reply.Response? && IsOk(reply.status) && reply.body.Json?
    ensures r.Got? ==> r.data == reply.body.data
    ensures token.Some? && reply.Rejected? ==> r == Failed(reply.reason)
    ensures token.Some? && reply.Response? && reply.status == 500 ==> r == Failed(ServerErrorMessage)
    ensures token.Some? && reply.Response? && reply.status != 500 && !IsOk(reply.status) ==>
              r == Failed(if reply.body.Json? then OrElse(reply.body.error, StatusMessage(reply.status))
                          else StatusMessage(reply.status))
    ensures token.Some? && reply.Response? && IsOk(reply.status) && reply.body.Unparsable? ==>
              r == Failed(reply.body.syntaxError)
  {
    if token.None? then Failed(NoTokenMessage)
    else match reply
      case Rejected(reason) => Failed(reason)
      case Response(status, body) =>
        if status == 500 then Failed(ServerErrorMessage)
        else if !IsOk(status) then
          match body
          case Unparsable(_) => Failed(StatusMessage(status))
          case Json(error, _, _) => Failed(OrElse(error, StatusMessage(status)))
        else
          match body
          case Unparsable(e) => Failed(e)
          case Json(_, _, data) => Got(data)
  }

  /** A 500 reply gives the same message whatever its body says. */
  lemma ServerErrorIgnoresBody<P>(token: string, b1: Body<P>, b2: Body<P>)
    ensures Outcome(Some(token), Response(500, b1)) == Outcome(Some(token), Response(500, b2))
    ensures Outcome(Some(token), Response(500, b1)) == Failed(ServerErrorMessage)
  {
  }

  /** An error body that is not JSON reads like `{}`: the same message as a
    * JSON body without an `error` field. */
  lemma UnparsableErrorBodyCountsAsEmpty<P>(token: string, status: nat, syntaxError: string, message: Option<string>, data: P)
    requires status != 500 && !IsOk(status)
    ensures Outcome(Some(token), Response(status, Unparsable(syntaxError)))
         == Outcome(Some(token), Response(status, Json(None, message, data)))
    ensures Outcome<P>(Some(token), Response(status, Unparsable(syntaxError))) == Failed(StatusMessage(status))
  {
  }

  /** The fallback message names the status: two error replies without an
    * `error` field that give the same message have the same status. */
  lemma StatusMessageIdentifiesStatus(m: nat, n: nat)
    requires StatusMessage(m) == StatusMessage(n)
    ensures m == n
  {
    var prefix := "Request failed with status ";
    assert StatusMessage(m)[|prefix|..] == DecimalString(m);
    assert StatusMessage(n)[|prefix|..] == DecimalString(n);
    DecimalStringInjective(m, n);
  }

  /** One point of a sales series. */
  datatype Point = Point(date: string, value: int)

  /** One point of the yearly series, keyed by month number. */
  datatype MonthPoint = MonthPoint(month: nat, value: int)

  /** `sales_timeline` as the page reads it. */
  datatype SalesTimeline = SalesTimeline(daily: seq<Point>, monthly: seq<Point>, yearly: seq<MonthPoint>)

  /** The stats payload: `order_status` is a dictionary of counts. */
  datatype DashboardData = DashboardData(orderStatus: map<string, int>, timeline: SalesTimeline)

  /** The orders payload. */
  datatype OrdersPayload = OrdersPayload(orders: seq<OrdersTable.Order>)

  /** The yearly series relabelled `Month m`. */
  function YearlyPoints(yearly: seq<MonthPoint>): (r: seq<Point>)
    ensures |r| == |yearly|
    ensures forall i :: 0 <= i < |yearly| ==> r[i].value == yearly[i].value
    ensures forall i :: 0 <= i < |yearly| ==> r[i].date == "Month " + DecimalString(yearly[i].month)
    decreases |yearly|
  {
    if yearly == [] then []
    else [Point("Month " + DecimalString(yearly[0].month), yearly[0].value)] + YearlyPoints(yearly[1..])
  }

  /** `formatTimelineData`: the series for a timeframe, or the empty series
    * for a timeframe it does not know. */
  function TimelineData(data: DashboardData, timeframe: string): (r: seq<Point>)
    ensures timeframe == "24 Hour" ==> r == data.timeline.daily
    ensures timeframe == "7 Days" || timeframe == "30 Days" ==> r == data.timeline.monthly
    ensures timeframe == "12 Months" ==> r == YearlyPoints(data.timeline.yearly)
    ensures timeframe !in {"24 Hour", "7 Days", "30 Days", "12 Months"} ==> r == []
  {
    if timeframe == "24 Hour" then data.timeline.daily
    else if timeframe == "7 Days" || timeframe == "30 Days" then data.timeline.monthly
    else if timeframe == "12 Months" then YearlyPoints(data.timeline.yearly)
    else []
  }

  /** The yearly labels tell the months apart: distinct months give distinct
    * dates, and every value keeps its position. */
  lemma YearlyLabelsDistinguishMonths(yearly: seq<MonthPoint>, i: int, j: int)
    requires 0 <= i < |yearly| && 0 <= j < |yearly|
    requires yearly[i].month != yearly[j].month
    ensures TimelineData(DashboardData(map[], SalesTimeline([], [], yearly)), "12 Months")[i].date
         != TimelineData(DashboardData(map[], SalesTimeline([], [], yearly)), "12 Months")[j].date
  {
    var r := YearlyPoints(yearly);
    if r[i].date == r[j].date {
      assert r[i].date[6..] == DecimalString(yearly[i].month);
      assert r[j].date[6..] == DecimalString(yearly[j].month);
      DecimalStringInjective(yearly[i].month, yearly[j].month);
    }
  }

  /** One row of the order-status card. */
  datatype StatusRow = StatusRow(name: string, value: int)

  /** `dashboardData?.order_status[key] || 0`: a missing payload or key, and a
    * zero count, all give 0. */
  function Count(data: Option<DashboardData>, key: string): (n: int)
    ensures data.Some? && key in data.value.orderStatus ==> n == data.value.orderStatus[key]
    ensures data.None? || key !in data.value.orderStatus ==> n == 0
  {
    if data.Some? && key in data.value.orderStatus then data.value.orderStatus[key] else 0
  }

  /** The five rows, in card order. */
  function StatusRows(data: Option<DashboardData>): (r: seq<StatusRow>)
    ensures |r| == 5
    ensures r[0] == StatusRow("Completed", Count(data, "completed"))
    ensures r[1] == StatusRow("Processing", Count(data, "processing"))
    ensures r[2] == StatusRow("Pending", Count(data, "pending"))
    ensures r[3] == StatusRow("Shipped", Count(data, "shipped"))
    ensures r[4] == StatusRow("Cancelled", Count(data, "cancelled"))
  {
    [ StatusRow("Completed", Count(data, "completed")),
      StatusRow("Processing", Count(data, "processing")),
      StatusRow("Pending", Count(data, "pending")),
      StatusRow("Shipped", Count(data, "shipped")),
      StatusRow("Cancelled", Count(data, "cancelled")) ]
  }

  /** `rows.reduce((sum, row) => sum + row.value, 0)` */
  function SumValues(rows: seq<StatusRow>): (r: int)
    ensures (forall i :: 0 <= i < |rows| ==> rows[i].value >= 0) ==> r >= 0
    decreases |rows|
  {
    if rows == [] then 0 else SumValues(rows[..|rows| - 1]) + rows[|rows| - 1].value
  }

  /** The total is the sum of the five status counts, a missing one counting
    * as 0; with no stats loaded it is 0. */
  lemma {:induction false} TotalOrdersIsSumOfStatuses(data: Option<DashboardData>)
    ensures SumValues(StatusRows(data)) ==
      Count(data, "completed") + Count(data, "processing") + Count(data, "pending")
      + Count(data, "shipped") + Count(data, "cancelled")
    ensures data.None? ==> SumValues(StatusRows(data)) == 0
  {
    var r := StatusRows(data);
    assert SumValues(r) == SumValues(r[..4]) + r[4].value;
    assert r[..4][..3] == r[..3];
    assert SumValues(r[..4]) == SumValues(r[..3]) + r[3].value;
    assert r[..3][..2] == r[..2];
    assert SumValues(r[..3]) == SumValues(r[..2]) + r[2].value;
    assert r[..2][..1] == r[..1];
    assert SumValues(r[..2]) == SumValues(r[..1]) + r[1].value;
    assert r[..1][..0] == [];
    assert SumValues(r[..1]) == r[0].value;
  }

  /** The total never goes below zero when no count does. */
  lemma TotalOrdersNonNegative(data: Option<DashboardData>)
    requires data.Some? ==> forall k :: k in data.value.orderStatus ==> data.value.orderStatus[k] >= 0
    ensures SumValues(StatusRows(data)) >= 0
  {
    TotalOrdersIsSumOfStatuses(data);
  }

  /** Pages the orders table offers: the page passes a fixed count. */
  const TableTotalPages := 5

  /** With the fixed count, "next" is disabled exactly on page 5 and
    * "previous" exactly on page 1, and from 1..5 neither leaves 1..5. */
  lemma TableArrows(page: int)
    requires 1 <= page <= TableTotalPages
    ensures Pagination.NextTarget(page, TableTotalPages).None? <==> page == 5
    ensures Pagination.PrevTarget(page).None? <==> page == 1
    ensures Pagination.NextTarget(page, TableTotalPages).Some? ==> Pagination.NextTarget(page, TableTotalPages).value <= 5
  {
  }

  /** The part of the page's state the two mount fetches write. */
  datatype MountState = MountState(data: Option<DashboardData>, orders: Option<seq<OrdersTable.Order>>, error: string)

  /** The stats reply landing: success stores the stats and clears the
    * (single, shared) error; failure stores its message. */
  function StatsLanded(st: MountState, s: Fetched<DashboardData>): (r: MountState)
    ensures r.orders == st.orders
    ensures s.Got? ==> r.error == "" && r.data == Some(s.data)
    ensures s.Failed? ==> r.data == st.data && r.error == s.message
  {
    match s
    case Got(d) => st.(data := Some(d), error := "")
    case Failed(m) => st.(error := m)
  }

  /** The orders reply landing: success stores the orders and leaves the
    * error; failure stores its message. */
  function OrdersLanded(st: MountState, o: Fetched<OrdersPayload>): (r: MountState)
    ensures r.data == st.data
    ensures o.Got? ==> r.error == st.error && r.orders == Some(o.data.orders)
    ensures o.Failed? ==> r.orders == st.orders && r.error == o.message
  {
    match o
    case Got(p) => st.(orders := Some(p.orders))
    case Failed(m) => st.(error := m)
  }

  /** As written, the final state depends on which reply lands last: with
    * the stats succeeding and the orders failing, the orders message is
    * shown when the orders land last and is lost when the stats land last,
    * in which case the page renders the dashboard with no orders. */
  lemma MountOrderDecidesErrorAsWritten(st: MountState, d: DashboardData, m: string)
    requires m != ""
    ensures OrdersLanded(StatsLanded(st, Got(d)), Failed(m)).error == m
    ensures StatsLanded(OrdersLanded(st, Failed(m)), Got(d)).error == ""
    ensures StatsLanded(OrdersLanded(st, Failed(m)), Got(d)).orders == st.orders
    ensures Render(false, StatsLanded(OrdersLanded(st, Failed(m)), Got(d)).error, Some(d)) == DashboardView(d)
  {
  }

  /** The same state with one error per fetch, the error view showing the
    * stats error first and otherwise the orders error. */
  datatype SeparateErrors = SeparateErrors(
    data: Option<DashboardData>, orders: Option<seq<OrdersTable.Order>>, statsError: string, ordersError: string)

  function ShownError(st: SeparateErrors): string {
    if st.statsError != "" then st.statsError else st.ordersError
  }

  function StatsLandedSeparately(st: SeparateErrors, s: Fetched<DashboardData>): SeparateErrors {
    match s
    case Got(d) => st.(data := Some(d), statsError := "")
    case Failed(m) => st.(statsError := m)
  }

  function OrdersLandedSeparately(st: SeparateErrors, o: Fetched<OrdersPayload>): SeparateErrors {
    match o
    case Got(p) => st.(orders := Some(p.orders), ordersError := "")
    case Failed(m) => st.(ordersError := m)
  }

  /** With one error per fetch the order of the replies no longer matters,
    * and a failed fetch with a non-empty message is always shown. */
  lemma SeparateErrorsIgnoreReplyOrder(st: SeparateErrors, s: Fetched<DashboardData>, o: Fetched<OrdersPayload>)
    ensures StatsLandedSeparately(OrdersLandedSeparately(st, o), s) == OrdersLandedSeparately(StatsLandedSeparately(st, s), o)
    ensures (s.Failed? && s.message != "") || (o.Failed? && o.message != "") ==>
      ShownError(StatsLandedSeparately(OrdersLandedSeparately(st, o), s)) != ""
  {
  }

  /** The requests this page sends. */
  datatype Request = StatsRequest | OrdersRequest | OrdersPageRequest(page: int)

  /** What the page renders. */
  datatype View = LoadingView | ErrorView(message: string) | NoDataView | DashboardView(data: DashboardData)

  /** Loading first, then a non-empty error, then "No data available",
    * otherwise the dashboard. */
  function Render(fetchingData: bool, error: string, data: Option<DashboardData>): (v: View)
    ensures v == LoadingView <==> fetchingData
    ensures v.ErrorView? <==> !fetchingData && error != ""
    ensures v.ErrorView? ==> v.message == error
    ensures v == NoDataView <==> !fetchingData && error == "" && data.None?
    ensures v.DashboardView? ==> data == Some(v.data)
  {
    if fetchingData then LoadingView
    else if error != "" then ErrorView(error)
    else if data.None? then NoDataView
    else DashboardView(data.value)
  }

  class DashboardPage {
    var timeframe: string
    var data: Option<DashboardData>
    var fetchingData: bool
    var currentPage: int
    var orders: Option<seq<OrdersTable.Order>>
    var error: string
    var requests: seq<Request>

    constructor ()
      ensures timeframe == "30 Days" && data == None && fetchingData && currentPage == 1
      ensures orders == None && error == "" && requests == []
    {
      timeframe := "30 Days";
      data := None;
      fetchingData := true;
      currentPage := 1;
      orders := None;
      error := "";
      requests := [];
    }

    /** `fetchData`: on success the stats are stored and the error cleared;
      * on failure the message is stored and the old stats kept;
      * `fetchingData` always ends false. */
    method FetchData(cookies: map<string, string>, reply: Reply<DashboardData>)
      modifies this
      ensures requests == old(requests) + (if Token(cookies).Some? then [StatsRequest] else [])
      ensures !fetchingData
      ensures orders == old(orders) && currentPage == old(currentPage) && timeframe == old(timeframe)
      ensures match Outcome(Token(cookies), reply)
        case Got(d) => data == Some(d) && error == ""
        case Failed(m) => data == old(data) && error == m
    {
      fetchingData := true;
      var token := Token(cookies);
      if token.Some? {
        requests := requests + [StatsRequest];
      }
      match Outcome(token, reply) {
        case Got(d) =>
          data := Some(d);
          error := "";
        case Failed(m) =>
          error := m;
      }
      fetchingData := false;
    }

    /** `fetchOrders` on mount: success stores the orders and leaves the
      * error alone; failure stores the message. It does not touch
      * `fetchingData`. */
    method FetchOrders(cookies: map<string, string>, reply: Reply<OrdersPayload>)
      modifies this
      ensures requests == old(requests) + (if Token(cookies).Some? then [OrdersRequest] else [])
      ensures fetchingData == old(fetchingData) && data == old(data)
      ensures currentPage == old(currentPage) && timeframe == old(timeframe)
      ensures match Outcome(Token(cookies), reply)
        case Got(p) => orders == Some(p.orders) && error == old(error)
        case Failed(m) => orders == old(orders) && error == m
    {
      var token := Token(cookies);
      if token.Some? {
        requests := requests + [OrdersRequest];
      }
      match Outcome(token, reply) {
        case Got(p) =>
          orders := Some(p.orders);
        case Failed(m) =>
          error := m;
      }
    }

    /** The mount effect starts both fetches; here the stats reply lands
      * first. The orders error then wins; a stats error survives an orders
      * success; each fetch keeps the old value it failed to replace. */
    method Mount(cookies: map<string, string>, stats: Reply<DashboardData>, ordersReply: Reply<OrdersPayload>)
      modifies this
      ensures Token(cookies).Some? ==> requests == old(requests) + [StatsRequest, OrdersRequest]
      ensures Token(cookies).None? ==> requests == old(requests) && error == NoTokenMessage
      ensures !fetchingData && currentPage == old(currentPage) && timeframe == old(timeframe)
      ensures match Outcome(Token(cookies), stats)
        case Got(d) => data == Some(d)
        case Failed(_) => data == old(data)
      ensures match Outcome(Token(cookies), ordersReply)
        case Got(p) => orders == Some(p.orders)
        case Failed(_) => orders == old(orders)
      ensures error ==
        match Outcome(Token(cookies), ordersReply)
        case Failed(m) => m
        case Got(_) => if Outcome(Token(cookies), stats).Failed? then Outcome(Token(cookies), stats).message else ""
      ensures MountState(data, orders, error) ==
        OrdersLanded(StatsLanded(MountState(old(data), old(orders), old(error)), Outcome(Token(cookies), stats)),
                     Outcome(Token(cookies), ordersReply))
    {
      FetchData(cookies, stats);
      FetchOrders(cookies, ordersReply);
    }

    /** The mount effect when the orders reply lands first. Without a token
      * both fetches fail with the same message before any request, so the
      * order makes no difference there. A stats success clears the error an
      * orders failure left. */
    method MountOrdersLandFirst(cookies: map<string, string>, stats: Reply<DashboardData>, ordersReply: Reply<OrdersPayload>)
      modifies this
      ensures requests == old(requests) + (if Token(cookies).Some? then [OrdersRequest, StatsRequest] else [])
      ensures Token(cookies).None? ==> error == NoTokenMessage
      ensures !fetchingData && currentPage == old(currentPage) && timeframe == old(timeframe)
      ensures MountState(data, orders, error) ==
        StatsLanded(OrdersLanded(MountState(old(data), old(orders), old(error)), Outcome(Token(cookies), ordersReply)),
                    Outcome(Token(cookies), stats))
      ensures Outcome(Token(cookies), stats).Got? ==> error == ""
    {
      FetchOrders(cookies, ordersReply);
      FetchData(cookies, stats);
    }

    /** The timeframe selector stores the choice; the chart re-derives its
      * series with `TimelineData`. */
    method ChangeTimeframe(t: string)
      modifies this
      ensures timeframe == t
      ensures data == old(data) && orders == old(orders) && error == old(error)
      ensures fetchingData == old(fetchingData) && currentPage == old(currentPage) && requests == old(requests)
    {
      timeframe := t;
    }

    /** The orders table's `onPageChange(page)`: the current page moves to
      * `page` only when its orders arrived; otherwise the page and the
      * orders stay and the error is set. */
    method PageChange(page: int, cookies: map<string, string>, reply: Reply<OrdersPayload>)
      modifies this
      ensures requests == old(requests) + (if Token(cookies).Some? then [OrdersPageRequest(page)] else [])
      ensures fetchingData == old(fetchingData) && data == old(data) && timeframe == old(timeframe)
      ensures match Outcome(Token(cookies), reply)
        case Got(p) => orders == Some(p.orders) && currentPage == page && error == old(error)
        case Failed(m) => orders == old(orders) && currentPage == old(currentPage) && error == m
    {
      var token := Token(cookies);
      if token.Some? {
        requests := requests + [OrdersPageRequest(page)];
      }
      match Outcome(token, reply) {
        case Got(p) =>
          orders := Some(p.orders);
          currentPage := page;
        case Failed(m) =>
          error := m;
      }
    }
  }

  /** A failed fetch always leaves a message the error view shows: none of
    * the messages is empty when the rejection reason, the backend's `error`
    * field and the parser message are not. */
  lemma FailedFetchShowsError<P>(token: Option<string>, reply: Reply<P>, data: Option<DashboardData>)
    requires Explained(reply)
    requires Outcome(token, reply).Failed?
    ensures Render(false, Outcome(token, reply).message, data) == ErrorView(Outcome(token, reply).message)
  {
    if token.Some? && reply.Response? && reply.status != 500 && !IsOk(reply.status) {
      assert |StatusMessage(reply.status)| > 0;
    }
  }
}
