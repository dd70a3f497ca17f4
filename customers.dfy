/**
 * The customer list page: `fetchCustomers` and the state it updates, the
 * status filter, and how a customer row is displayed.
 */
module Customers {
  import opened Replies
  import opened Pagination

  datatype Customer = Customer(
    id: int, name: Option<string>, email: string, phoneNumber: string,
    created: string, lastLogin: Option<string>, status: string, orders: int)

  /** The success body of `get-users`. */
  datatype CustomersPayload = CustomersPayload(users: seq<Customer>, pagination: PageInfo)

  const NoTokenMessage := "No authentication token found"
  const FetchFallback := "Failed to fetch customers"

  /** How one call of `fetchCustomers` ends, from the token and the reply.
    * Without a token the request is never sent and the reply is irrelevant. */
  function FetchOutcome(token: Option<string>, reply: Reply<CustomersPayload>): (r: Fetched<CustomersPayload>)
    ensures token.None? ==> r == Failed(NoTokenMessage)
    ensures r.Got? <==> token.Some? && reply.Response? && IsOk(reply.status) && reply.body.Json?
    ensures r.Got? ==> r.data == reply.body.data
    ensures token.Some? && reply.Rejected? ==> r == Failed(reply.reason)
    ensures token.Some? && reply.Response? && reply.body.Unparsable? ==> r == Failed(reply.body.syntaxError)
    ensures token.Some? && reply.Response? && !IsOk(reply.status) && reply.body.Json? ==>
              r == Failed(OrElse(reply.body.error, FetchFallback))
  {
    if token.None? then Failed(NoTokenMessage)
    else match reply
      case Rejected(reason) => Failed(reason)
      case Response(status, body) =>
        match body
        case Unparsable(e) => Failed(e)
        case Json(error, _, data) => if IsOk(status) then Got(data) else Failed(OrElse(error, FetchFallback))
  }

  /** A non-OK reply whose body is not JSON shows the parser's message, not
    * the fallback: this page does not catch the failed `response.json()`. */
  lemma UnparsableErrorBodyShowsParserMessage(token: string, status: nat, syntaxError: string)
    requires !IsOk(status)
    ensures FetchOutcome(Some(token), Response(status, Unparsable(syntaxError))) == Failed(syntaxError)
  {
  }

  /** The error message of a failed fetch is never empty when the backend's
    * `error` field, the rejection reason and the parser message are not. */
  lemma FailureMessageNonEmpty(token: Option<string>, reply: Reply<CustomersPayload>)
    requires Explained(reply)
    ensures FetchOutcome(token, reply).Failed? ==> FetchOutcome(token, reply).message != ""
  {
  }

  class CustomersPage {
    var customers: seq<Customer>
    var pagination: Option<PageInfo>
    var loading: bool
    var error: Option<string>
    var selectedStatus: string
    var currentPage: int
    /** The `page` query parameter of every `get-users` request sent, in order. */
    var requests: seq<int>

    constructor ()
      ensures customers == [] && pagination == None && loading && error == None
      ensures selectedStatus == "all" && currentPage == 1 && requests == []
    {
      customers := [];
      pagination := None;
      loading := true;
      error := None;
      selectedStatus := "all";
      currentPage := 1;
      requests := [];
    }

    /** `fetchCustomers(page)`: `loading` is raised and `error` cleared first;
      * on success the list, the pagination and the current page (the
      * server's `current_page`, not the page asked for) are replaced; on
      * failure they keep their values and the message is stored; `loading`
      * always ends false. A request goes out only when there is a token, and
      * it carries only the page number. */
    method FetchCustomers(page: int, cookies: map<string, string>, reply: Reply<CustomersPayload>)
      modifies this
      ensures requests == old(requests) + (if Token(cookies).Some? then [page] else [])
      ensures !loading
      ensures selectedStatus == old(selectedStatus)
      ensures match FetchOutcome(Token(cookies), reply)
        case Got(d) =>
          customers == d.users && pagination == Some(d.pagination)
          && currentPage == d.pagination.currentPage && error == None
        case Failed(m) =>
          customers == old(customers) && pagination == old(pagination)
          && currentPage == old(currentPage) && error == Some(m)
    {
      loading := true;
      error := None;
      var token := Token(cookies);
      if token.Some? {
        requests := requests + [page];
      }
      match FetchOutcome(token, reply) {
        case Got(d) =>
          customers := d.users;
          pagination := Some(d.pagination);
          currentPage := d.pagination.currentPage;
        case Failed(m) =>
          error := Some(m);
      }
      loading := false;
    }

    /** The mount effect fetches the first page; the page shown afterwards is
      * the one the server reports. */
    method Mount(cookies: map<string, string>, reply: Reply<CustomersPayload>)
      modifies this
      ensures requests == old(requests) + (if Token(cookies).Some? then [1] else [])
      ensures !loading
      ensures selectedStatus == old(selectedStatus)
      ensures match FetchOutcome(Token(cookies), reply)
        case Got(d) =>
          customers == d.users && pagination == Some(d.pagination)
          && currentPage == d.pagination.currentPage && error == None
        case Failed(m) =>
          customers == old(customers) && pagination == old(pagination)
          && currentPage == old(currentPage) && error == Some(m)
    {
      FetchCustomers(1, cookies, reply);
    }

    /** Clicking button `k` of the page row fetches page `k`; only the
      * page buttons that are rendered can be clicked. On success the current
      * page becomes the server's `current_page`, which need not be `k`. */
    method PageButtonClicked(k: int, cookies: map<string, string>, reply: Reply<CustomersPayload>)
      requires pagination.Some? && k in PageButtons(pagination.value.totalPages)
      modifies this
      ensures requests == old(requests) + (if Token(cookies).Some? then [k] else [])
      ensures !loading
      ensures selectedStatus == old(selectedStatus)
      ensures match FetchOutcome(Token(cookies), reply)
        case Got(d) =>
          customers == d.users && pagination == Some(d.pagination)
          && currentPage == d.pagination.currentPage && error == None
        case Failed(m) =>
          customers == old(customers) && pagination == old(pagination)
          && currentPage == old(currentPage) && error == Some(m)
    {
      FetchCustomers(k, cookies, reply);
    }

    /** The status filter only records the choice: nothing is fetched and no
      * other state changes. */
    method SelectStatus(status: string)
      modifies this
      ensures selectedStatus == status
      ensures customers == old(customers) && pagination == old(pagination) && loading == old(loading)
      ensures error == old(error) && currentPage == old(currentPage) && requests == old(requests)
    {
      selectedStatus := status;
    }
  }

  /** `customer.name || 'Unnamed User'` */
  function DisplayName(c: Customer): (r: string)
    ensures Truthy(c.name) ==> r == c.name.value
    ensures !Truthy(c.name) ==> r == "Unnamed User"
  {
    OrElse(c.name, "Unnamed User")
  }

  /** The last-login cell: a date to format, or "Never". */
  datatype LastLoginCell = Never | Date(raw: string)

  function LastLogin(c: Customer): (r: LastLoginCell)
    ensures r == Never <==> !Truthy(c.lastLogin)
  {
    if Truthy(c.lastLogin) then Date(c.lastLogin.value) else Never
  }

  const ActiveBadge := "bg-green-100 text-green-600"
  const SuspendedBadge := "bg-orange-100 text-orange-600"
  const OtherBadge := "bg-red-100 text-red-600"

  function StatusBadge(status: string): (r: string)
    ensures r == ActiveBadge <==> status == "active"
    ensures r == SuspendedBadge <==> status == "suspended"
    ensures r == OtherBadge <==> status != "active" && status != "suspended"
  {
    if status == "active" then ActiveBadge
    else if status == "suspended" then SuspendedBadge
    else OtherBadge
  }

  /** `toUpperCase` of one character, for the ASCII letters. */
  function UpperAscii(c: char): (r: char)
    ensures 'a' <= c <= 'z' ==> 'A' <= r <= 'Z' && (r as int) - ('A' as int) == (c as int) - ('a' as int)
    ensures !('a' <= c <= 'z') ==> r == c
  {
    if 'a' <= c <= 'z' then (c as int - 'a' as int + 'A' as int) as char else c
  }

  /** `status.charAt(0).toUpperCase() + status.slice(1)`: same length, only
    * the first character may change. */
  function StatusLabel(status: string): (r: string)
    ensures |r| == |status|
    ensures r != [] ==> r[0] == UpperAscii(status[0]) && r[1..] == status[1..]
  {
    if status == "" then "" else [UpperAscii(status[0])] + status[1..]
  }
}
