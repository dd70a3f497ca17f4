/**
 * The customer details page: `fetchCustomerDetails`, the effect that runs it
 * for the `id` search parameter and the current page, the order-status
 * donut, and the account-status update form.
 */
module CustomerDetails {
  import opened Replies
  import opened Pagination

  /** The `order_overview` counts. */
  datatype OrderOverview = OrderOverview(total: int, completed: int, processing: int, shipped: int, cancelled: int)

  /** The success body of `get-user-details`, with the parts the page's logic reads. */
  datatype DetailsPayload = DetailsPayload(overview: OrderOverview, pagination: PageInfo)

  /** One `get-user-details` request: the customer id and the page asked for. */
  datatype DetailsRequest = DetailsRequest(userId: string, page: int)

  /** The JSON body of an `update-user-status` request. */
  datatype StatusUpdate = StatusUpdate(userId: Option<string>, status: string, reason: string)

  const NoTokenMessage := "No authentication token found"
  const NoIdMessage := "Customer ID is required"
  const FetchFallback := "Failed to fetch customer details"
  const UpdateFallback := "Failed to update status"

  /** How a call of `fetchCustomerDetails` ends. The token is checked before
    * the customer id; a request is sent only when both are present. */
  function FetchOutcome(token: Option<string>, customerId: Option<string>, reply: Reply<DetailsPayload>): (r: Fetched<DetailsPayload>)
    ensures token.None? ==> r == Failed(NoTokenMessage)
    ensures token.Some? && !Truthy(customerId) ==> r == Failed(NoIdMessage)
    ensures r.Got? <==> token.Some? && Truthy(customerId) && reply.Response? && IsOk(reply.status) && reply.body.Json?
    ensures r.Got? ==> r.data == reply.body.data
    ensures token.Some? && Truthy(customerId) && reply.Rejected? ==> r == Failed(reply.reason)
    ensures token.Some? && Truthy(customerId) && reply.Response? && reply.body.Unparsable? ==> r == Failed(reply.body.syntaxError)
    ensures token.Some? && Truthy(customerId) && reply.Response? && !IsOk(reply.status) && reply.body.Json? ==>
              r == Failed(OrElse(reply.body.error, FetchFallback))
  {
    if token.None? then Failed(NoTokenMessage)
    else if !Truthy(customerId) then Failed(NoIdMessage)
    else match reply
      case Rejected(reason) => Failed(reason)
      case Response(status, body) =>
        match body
        case Unparsable(e) => Failed(e)
        case Json(error, _, data) => if IsOk(status) then Got(data) else Failed(OrElse(error, FetchFallback))
  }

  /** The error message of a failed fetch is never empty when the reply's
    * own messages are not. */
  lemma FetchFailureMessageNonEmpty(token: Option<string>, customerId: Option<string>, reply: Reply<DetailsPayload>)
    requires Explained(reply)
    ensures FetchOutcome(token, customerId, reply).Failed? ==> FetchOutcome(token, customerId, reply).message != ""
  {
  }

  /** How `update-user-status` ends: `Got(Ack)` when the server accepted it.
    * The body is read only when the status is not OK. */
  function UpdateOutcome(token: Option<string>, reply: Reply<Ack>): (r: Fetched<Ack>)
    ensures token.None? ==> r == Failed(NoTokenMessage)
    ensures r.Got? <==> token.Some? && reply.Response? && IsOk(reply.status)
    ensures token.Some? && reply.Rejected? ==> r == Failed(reply.reason)
    ensures token.Some? && reply.Response? && !IsOk(reply.status) && reply.body.Unparsable? ==>
              r == Failed(reply.body.syntaxError)
    ensures token.Some? && reply.Response? && !IsOk(reply.status) && reply.body.Json? ==>
              r == Failed(OrElse(reply.body.error, UpdateFallback))
  {
    if token.None? then Failed(NoTokenMessage)
    else match reply
      case Rejected(reason) => Failed(reason)
      case Response(status, body) =>
        if IsOk(status) then Got(Ack)
        else match body
          case Unparsable(e) => Failed(e)
          case Json(error, _, _) => Failed(OrElse(error, UpdateFallback))
  }

  /** An accepted update does not depend on the body of the reply: an empty
    * or non-JSON 2xx body is accepted like any other. */
  lemma AcceptedUpdateIgnoresBody(token: string, status: nat, a: Body<Ack>, b: Body<Ack>)
    requires token != "" && IsOk(status)
    ensures UpdateOutcome(Some(token), Response(status, a)) == UpdateOutcome(Some(token), Response(status, b)) == Got(Ack)
  {
  }

  /** A failed update always has a non-empty message when the reply's own
    * messages are non-empty. */
  lemma UpdateFailureMessageNonEmpty(token: Option<string>, reply: Reply<Ack>)
    requires Explained(reply)
    ensures UpdateOutcome(token, reply).Failed? ==> UpdateOutcome(token, reply).message != ""
  {
  }

  /** What the page renders. */
  datatype View = Loading | ErrorView(message: string) | DetailsView(details: DetailsPayload)

  /** Loading first; then any error, or "Customer not found" when there is
    * no error and no details; otherwise the details. */
  function Render(loading: bool, error: Option<string>, details: Option<DetailsPayload>): (v: View)
    ensures v == Loading <==> loading
    ensures v.DetailsView? <==> !loading && !Truthy(error) && details.Some?
    ensures v.DetailsView? ==> v.details == details.value
    ensures !loading && Truthy(error) ==> v == ErrorView(error.value)
    ensures !loading && !Truthy(error) && details.None? ==> v == ErrorView("Customer not found")
  {
    if loading then Loading
    else if Truthy(error) || details.None? then ErrorView(OrElse(error, "Customer not found"))
    else DetailsView(details.value)
  }

  class DetailsPage {
    /** `searchParams.get('id')` */
    const customerId: Option<string>
    var details: Option<DetailsPayload>
    var loading: bool
    var error: Option<string>
    var page: int
    var showStatusModal: bool
    var newStatus: string
    var statusReason: string
    /** Every `get-user-details` request sent, in order. */
    var requests: seq<DetailsRequest>
    /** Every `update-user-status` body sent, in order. */
    var updates: seq<StatusUpdate>

    constructor (customerId: Option<string>)
      ensures this.customerId == customerId
      ensures details == None && loading && error == None && page == 1
      ensures !showStatusModal && newStatus == "" && statusReason == ""
      ensures requests == [] && updates == []
    {
      this.customerId := customerId;
      details := None;
      loading := true;
      error := None;
      page := 1;
      showStatusModal := false;
      newStatus := "";
      statusReason := "";
      requests := [];
      updates := [];
    }

    /** `fetchCustomerDetails(pageNum)`. It does not raise `loading` and never
      * clears `error`: a success stores the details and leaves any earlier
      * error in place; a failure stores the message and keeps the old
      * details. `loading` always ends false. */
    method FetchDetails(pageNum: int, cookies: map<string, string>, reply: Reply<DetailsPayload>)
      modifies this
      ensures requests == old(requests) +
        (if Token(cookies).Some? && Truthy(customerId) then [DetailsRequest(customerId.value, pageNum)] else [])
      ensures !loading
      ensures page == old(page) && showStatusModal == old(showStatusModal) && updates == old(updates)
      ensures newStatus == old(newStatus) && statusReason == old(statusReason)
      ensures match FetchOutcome(Token(cookies), customerId, reply)
        case Got(d) => details == Some(d) && error == old(error)
        case Failed(m) => details == old(details) && error == Some(m)
      ensures Truthy(old(error)) && Explained(reply) ==> Truthy(error)
    {
      var token := Token(cookies);
      if token.Some? && Truthy(customerId) {
        requests := requests + [DetailsRequest(customerId.value, pageNum)];
      }
      match FetchOutcome(token, customerId, reply) {
        case Got(d) =>
          details := Some(d);
        case Failed(m) =>
          error := Some(m);
      }
      loading := false;
    }

    /** The effect's first run: it fetches the current page only when the
      * `id` parameter is present; without it nothing is fetched and the
      * page stays on "Loading...". */
    method Mount(cookies: map<string, string>, reply: Reply<DetailsPayload>)
      modifies this
      ensures Truthy(customerId) ==>
        requests == old(requests) + (if Token(cookies).Some? then [DetailsRequest(customerId.value, old(page))] else [])
      ensures Truthy(customerId) ==> !loading
      ensures Truthy(customerId) ==>
        match FetchOutcome(Token(cookies), customerId, reply)
        case Got(d) => details == Some(d) && error == old(error)
        case Failed(m) => details == old(details) && error == Some(m)
      ensures !Truthy(customerId) ==>
        requests == old(requests) && loading == old(loading) && details == old(details) && error == old(error)
      ensures page == old(page) && showStatusModal == old(showStatusModal) && updates == old(updates)
      ensures newStatus == old(newStatus) && statusReason == old(statusReason)
      ensures Truthy(old(error)) && Explained(reply) ==> Truthy(error)
    {
      if Truthy(customerId) {
        FetchDetails(page, cookies, reply);
      }
    }

    /** A page button: `setPage(k)`. The effect reruns only when the page
      * actually changes and the `id` parameter is present; it fetches page `k`. */
    method SetPage(k: int, cookies: map<string, string>, reply: Reply<DetailsPayload>)
      modifies this
      ensures page == k
      ensures requests == old(requests) +
        (if k != old(page) && Truthy(customerId) && Token(cookies).Some?
         then [DetailsRequest(customerId.value, k)] else [])
      ensures k != old(page) && Truthy(customerId) ==>
        && !loading
        && match FetchOutcome(Token(cookies), customerId, reply)
           case Got(d) => details == Some(d) && error == old(error)
           case Failed(m) => details == old(details) && error == Some(m)
      ensures k == old(page) || !Truthy(customerId) ==>
        details == old(details) && error == old(error) && loading == old(loading)
      ensures showStatusModal == old(showStatusModal) && updates == old(updates)
      ensures newStatus == old(newStatus) && statusReason == old(statusReason)
      ensures Truthy(old(error)) && Explained(reply) ==> Truthy(error)
    {
      if k != page {
        page := k;
        if Truthy(customerId) {
          FetchDetails(page, cookies, reply);
        }
      }
    }

    method OpenStatusModal()
      modifies this
      ensures showStatusModal
      ensures details == old(details) && error == old(error) && page == old(page)
      ensures newStatus == old(newStatus) && statusReason == old(statusReason)
      ensures requests == old(requests) && updates == old(updates) && loading == old(loading)
    {
      showStatusModal := true;
    }

    /** The close button and the cancel button. */
    method CloseStatusModal()
      modifies this
      ensures !showStatusModal
      ensures details == old(details) && error == old(error) && page == old(page)
      ensures newStatus == old(newStatus) && statusReason == old(statusReason)
      ensures requests == old(requests) && updates == old(updates) && loading == old(loading)
    {
      showStatusModal := false;
    }

    method EditForm(status: string, reason: string)
      modifies this
      ensures newStatus == status && statusReason == reason
      ensures details == old(details) && error == old(error) && page == old(page)
      ensures showStatusModal == old(showStatusModal)
      ensures requests == old(requests) && updates == old(updates) && loading == old(loading)
    {
      newStatus := status;
      statusReason := reason;
    }

    /** `handleStatusUpdate`: with a token it posts exactly the customer id,
      * the chosen status and the reason. When the server accepts, the current
      * page is fetched again and the modal closes; otherwise the message is
      * stored as the error and the modal stays as it was. */
    method HandleStatusUpdate(cookies: map<string, string>, reply: Reply<Ack>, refetch: Reply<DetailsPayload>)
      modifies this
      ensures updates == old(updates) +
        (if Token(cookies).Some? then [StatusUpdate(customerId, old(newStatus), old(statusReason))] else [])
      ensures page == old(page) && newStatus == old(newStatus) && statusReason == old(statusReason)
      ensures UpdateOutcome(Token(cookies), reply).Got? ==>
        && !showStatusModal && !loading
        && requests == old(requests) +
             (if Truthy(customerId) then [DetailsRequest(customerId.value, old(page))] else [])
        && match FetchOutcome(Token(cookies), customerId, refetch)
           case Got(d) => details == Some(d) && error == old(error)
           case Failed(m) => details == old(details) && error == Some(m)
      ensures UpdateOutcome(Token(cookies), reply).Failed? ==>
        && showStatusModal == old(showStatusModal)
        && error == Some(UpdateOutcome(Token(cookies), reply).message)
        && details == old(details) && requests == old(requests) && loading == old(loading)
      ensures Truthy(old(error)) && Explained(reply) && Explained(refetch) ==> Truthy(error)
    {
      var token := Token(cookies);
      if token.Some? {
        updates := updates + [StatusUpdate(customerId, newStatus, statusReason)];
      }
      match UpdateOutcome(token, reply) {
        case Got(_) =>
          FetchDetails(page, cookies, refetch);
          showStatusModal := false;
        case Failed(m) =>
          error := Some(m);
      }
    }
  }

  /** A non-empty error hides the details once loading is over: the page
    * shows that error whatever details are loaded. Together with the
    * handlers above, none of which turns a non-empty error into an empty
    * one, the error view stays once it has appeared. */
  lemma ErrorIsSticky(loading: bool, error: Option<string>, details: Option<DetailsPayload>)
    requires Truthy(error) && !loading
    ensures !Render(loading, error, details).DetailsView?
    ensures Render(loading, error, details) == ErrorView(error.value)
  {
  }

  /** The donut's slice values, in chart order. */
  function DonutSeries(o: OrderOverview): (s: seq<int>)
    ensures |s| == 4
    ensures s[0] == o.processing && s[1] == o.completed && s[2] == o.cancelled && s[3] == o.shipped
  {
    [o.processing, o.completed, o.cancelled, o.shipped]
  }

  /** The count of the overview a slice label names, if it names one. */
  function CountFor(name: string, o: OrderOverview): Option<int> {
    if name == "Processing" then Some(o.processing)
    else if name == "Completed" then Some(o.completed)
    else if name == "Cancelled" then Some(o.cancelled)
    else if name == "Shipped" then Some(o.shipped)
    else None
  }

  /** The slice labels as written. */
  const DonutLabelsAsWritten: seq<string> := ["Processing", "Completed", "Cancelled", "Placed"]

  /** As written, the fourth slice shows the shipped count under a label that
    * names no count of the overview: "Placed" is not one of its fields. */
  lemma DonutLabelsAsWrittenMislabelShipped(o: OrderOverview)
    ensures |DonutLabelsAsWritten| == |DonutSeries(o)|
    ensures DonutSeries(o)[3] == o.shipped
    ensures CountFor(DonutLabelsAsWritten[3], o) == None
  {
  }

  /** The labels the chart evidently intends. */
  const DonutLabels: seq<string> := ["Processing", "Completed", "Cancelled", "Shipped"]

  /** With the corrected labels every slice is labelled by the count it shows. */
  lemma DonutLabelsNameTheirSlices(o: OrderOverview)
    ensures |DonutLabels| == |DonutSeries(o)|
    ensures forall i :: 0 <= i < |DonutLabels| ==> CountFor(DonutLabels[i], o) == Some(DonutSeries(o)[i])
  {
    var s := DonutSeries(o);
    assert CountFor(DonutLabels[0], o) == Some(s[0]);
    assert CountFor(DonutLabels[1], o) == Some(s[1]);
    assert CountFor(DonutLabels[2], o) == Some(s[2]);
    assert CountFor(DonutLabels[3], o) == Some(s[3]);
  }
}
