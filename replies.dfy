/**
 * The remote REST API as seen by the dashboard: every reply is an abstract
 * input, the bearer token is looked up in a cookie map, and the shared
 * outcome of a fetch handler is either the payload or an error message.
 */
module Replies {

  datatype Option<+T> = None | Some(value: T)

  /** The body of a reply as `response.json()` sees it: text that is not JSON
    * (the parser's error message is kept), or a JSON object whose optional
    * `error` and `message` fields are strings, together with the
    * endpoint-specific payload that the success path reads. */
  datatype Body<P> =
    | Unparsable(syntaxError: string)
    | Json(error: Option<string>, message: Option<string>, data: P)

  /** `fetch` either rejects (network failure, with the TypeError message)
    * or resolves to a response with a status code and a body. */
  datatype Reply<P> =
    | Rejected(reason: string)
    | Response(status: nat, body: Body<P>)

  /** The payload of a reply whose body the handler never reads. */
  datatype Ack = Ack

  /** What a fetch handler ends with: the payload, or the message it stores or shows. */
  datatype Fetched<P> = Got(data: P) | Failed(message: string)

  /** `response.ok` */
  predicate IsOk(status: nat) {
    200 <= status <= 299
  }

  /** JavaScript's `field || fallback` on an optional string field:
    * an absent field and the empty string are both falsy. */
  function OrElse(field: Option<string>, fallback: string): string {
    if field.Some? && field.value != "" then field.value else fallback
  }

  /** The field value that `||` lets through, if any. */
  predicate Truthy(field: Option<string>) {
    field.Some? && field.value != ""
  }

  const TokenKey := "token"

  /** `Cookies.get('token')` followed by the `!token` test: a missing cookie
    * and an empty one are both "no token". */
  function Token(cookies: map<string, string>): (r: Option<string>)
    ensures r.Some? <==> TokenKey in cookies && cookies[TokenKey] != ""
    ensures r.Some? ==> r.value == cookies[TokenKey]
  {
    if TokenKey in cookies && cookies[TokenKey] != "" then Some(cookies[TokenKey]) else None
  }

  /** The messages a failed request carries by itself are non-empty: the
    * reason of a rejection and the parser's message for a body that is not
    * JSON. */
  predicate Explained<P>(reply: Reply<P>) {
    && (reply.Rejected? ==> reply.reason != "")
    && (reply.Response? && reply.body.Unparsable? ==> reply.body.syntaxError != "")
  }

  function Digit(d: nat): (c: char)
    requires d < 10
    ensures '0' <= c <= '9' && (c as int) - ('0' as int) == d
  {
    "0123456789"[d]
  }

  /** The decimal text of a status code, as a template literal prints a
    * non-negative integer: digits only, no leading zero. */
  function DecimalString(n: nat): (s: string)
    ensures |s| >= 1
    ensures forall i :: 0 <= i < |s| ==> '0' <= s[i] <= '9'
    ensures s[0] == '0' ==> n == 0 && s == "0"
    decreases n
  {
    if n < 10 then [Digit(n)] else DecimalString(n / 10) + [Digit(n % 10)]
  }

  predicate AllDigits(s: string) {
    forall i :: 0 <= i < |s| ==> '0' <= s[i] <= '9'
  }

  /** The number a string of decimal digits denotes. */
  function DecimalValue(s: string): nat
    requires AllDigits(s)
    decreases |s|
  {
    if s == [] then 0
    else DecimalValue(s[..|s| - 1]) * 10 + ((s[|s| - 1] as int) - ('0' as int))
  }

  /** Reading back the printed status gives the status: two different codes
    * never print the same text. */
  lemma {:induction false} DecimalRoundTrip(n: nat)
    ensures DecimalValue(DecimalString(n)) == n
    decreases n
  {
    var s := DecimalString(n);
    if n >= 10 {
      DecimalRoundTrip(n / 10);
      assert s[..|s| - 1] == DecimalString(n / 10);
    }
  }

  lemma DecimalStringInjective(m: nat, n: nat)
    requires DecimalString(m) == DecimalString(n)
    ensures m == n
  {
    DecimalRoundTrip(m);
    DecimalRoundTrip(n);
  }
}
