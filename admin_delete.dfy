/**
 * The confirmation modal that removes an admin user: how `handleDelete`
 * classifies the reply, which toast it shows and which callbacks it runs,
 * and when the modal renders.
 */
module AdminDelete {
  import opened Replies

  datatype AdminUser = AdminUser(id: string, name: Option<string>, email: Option<string>)

  const NoTokenMessage := "Authentication token not found"
  const ExpiredToken := "Token has expired"
  const SessionExpiredMessage := "Your session has expired. Please log in again."
  const AuthFailedMessage := "Authentication failed. Please log in again."
  const DeleteFallback := "Failed to delete admin user"
  const DeletedFallback := "Admin user deleted successfully"

  /** How a delete request ends: removed (with the message to toast), an
    * expired session, or a failure (with the message to toast). */
  datatype DeleteOutcome = Deleted(message: string) | Expired | DeleteFailed(message: string)

  /** The `error` field of a non-OK body, read with `.catch(() => ({}))`:
    * a body that is not JSON has none. */
  function ErrorField<P>(body: Body<P>): (r: Option<string>)
    ensures body.Unparsable? ==> r.None?
    ensures body.Json? ==> r == body.error
  {
    if body.Json? then body.error else None
  }

  /** The branch structure of `handleDelete` once an admin is selected. */
  function Classify(token: Option<string>, reply: Reply<Ack>): (r: DeleteOutcome)
    ensures token.None? ==> r == DeleteFailed(NoTokenMessage)
    ensures r.Deleted? <==> token.Some? && reply.Response? && IsOk(reply.status) && reply.body.Json?
    ensures r.Deleted? ==> r.message == OrElse(reply.body.message, DeletedFallback)
    ensures r == Expired <==>
      token.Some? && reply.Response? && reply.status == 401 && ErrorField(reply.body) == Some(ExpiredToken)
    ensures token.Some? && reply.Response? && reply.status == 401 && ErrorField(reply.body) != Some(ExpiredToken) ==>
      r == DeleteFailed(AuthFailedMessage)
    ensures token.Some? && reply.Response? && reply.status != 401 && !IsOk(reply.status) ==>
      r == DeleteFailed(OrElse(ErrorField(reply.body), DeleteFallback))
    ensures token.Some? && reply.Rejected? ==> r == DeleteFailed(reply.reason)
    ensures token.Some? && reply.Response? && IsOk(reply.status) && reply.body.Unparsable? ==>
      r == DeleteFailed(reply.body.syntaxError)
  {
    if token.None? then DeleteFailed(NoTokenMessage)
    else match reply
      case Rejected(reason) => DeleteFailed(reason)
      case Response(status, body) =>
        if !IsOk(status) then
          if status == 401 then
            if ErrorField(body) == Some(ExpiredToken) then Expired else DeleteFailed(AuthFailedMessage)
          else DeleteFailed(OrElse(ErrorField(body), DeleteFallback))
        else
          match body
          case Unparsable(e) => DeleteFailed(e)
          case Json(_, message, _) => Deleted(OrElse(message, DeletedFallback))
  }

  /** A 401 never surfaces the backend's own message: it is either the
    * expired-session toast or the fixed authentication message. */
  lemma UnauthorizedHidesBackendMessage(token: string, body: Body<Ack>)
    ensures Classify(Some(token), Response(401, body)) in {Expired, DeleteFailed(AuthFailedMessage)}
  {
  }

  /** What the handler does that the outside world sees. */
  datatype Toast = SuccessToast(text: string) | ErrorToast(text: string)
  datatype Event = DeleteRequest(userId: string) | Shown(toast: Toast) | OnDeletedCalled | OnCloseCalled

  /** The toast an outcome shows. */
  function ToastFor(o: DeleteOutcome): (t: Toast)
    ensures t.SuccessToast? <==> o.Deleted?
    ensures o.Expired? ==> t == ErrorToast(SessionExpiredMessage)
    ensures o.DeleteFailed? ==> t == ErrorToast(o.message)
    ensures o.Deleted? ==> t == SuccessToast(o.message)
  {
    match o
    case Deleted(m) => SuccessToast(m)
    case Expired => ErrorToast(SessionExpiredMessage)
    case DeleteFailed(m) => ErrorToast(m)
  }

  /** The events of one `handleDelete`, in order: the request (only with a
    * token), one toast, then on success `onDeleted` when it is given and
    * `onClose`. With no admin selected there are none. */
  function Effects(admin: Option<AdminUser>, hasOnDeleted: bool, token: Option<string>, reply: Reply<Ack>): (r: seq<Event>)
    ensures r == [] <==> admin.None?
    ensures admin.Some? ==> 1 <= |r| <= 4 && Shown(ToastFor(Classify(token, reply))) in r
  {
    if admin.None? then []
    else
      var o := Classify(token, reply);
      (if token.Some? then [DeleteRequest(admin.value.id)] else [])
      + [Shown(ToastFor(o))]
      + (if o.Deleted? then (if hasOnDeleted then [OnDeletedCalled] else []) + [OnCloseCalled] else [])
  }

  /** The callbacks run exactly when the admin was deleted, and then
    * `onClose` comes last; an expired session runs neither. */
  lemma CallbacksOnlyOnSuccess(admin: Option<AdminUser>, hasOnDeleted: bool, token: Option<string>, reply: Reply<Ack>)
    ensures OnCloseCalled in Effects(admin, hasOnDeleted, token, reply) <==>
      admin.Some? && Classify(token, reply).Deleted?
    ensures OnDeletedCalled in Effects(admin, hasOnDeleted, token, reply) <==>
      admin.Some? && hasOnDeleted && Classify(token, reply).Deleted?
    ensures OnCloseCalled in Effects(admin, hasOnDeleted, token, reply) ==>
      Effects(admin, hasOnDeleted, token, reply)[|Effects(admin, hasOnDeleted, token, reply)| - 1] == OnCloseCalled
  {
    var e := Effects(admin, hasOnDeleted, token, reply);
    if admin.Some? {
      var o := Classify(token, reply);
      var request := if token.Some? then [DeleteRequest(admin.value.id)] else [];
      if !o.Deleted? {
        assert e == request + [Shown(ToastFor(o))];
      }
    }
  }

  /** With an admin selected exactly one toast is shown; a request is sent
    * only with a token, and it names the selected admin. */
  lemma OneToastPerDelete(admin: AdminUser, hasOnDeleted: bool, token: Option<string>, reply: Reply<Ack>)
    ensures var e := Effects(Some(admin), hasOnDeleted, token, reply);
      |set i | 0 <= i < |e| && e[i].Shown?| == 1
    ensures forall id :: DeleteRequest(id) in Effects(Some(admin), hasOnDeleted, token, reply) <==>
      token.Some? && id == admin.id
  {
    var e := Effects(Some(admin), hasOnDeleted, token, reply);
    var k := if token.Some? then 1 else 0;
    assert e[k].Shown?;
    assert (set i | 0 <= i < |e| && e[i].Shown?) == {k};
  }

  class DeleteModal {
    var loading: bool
    /** Everything the handler has done that is visible outside the modal. */
    var events: seq<Event>

    constructor ()
      ensures !loading && events == []
    {
      loading := false;
      events := [];
    }

    /** `handleDelete`: without a selected admin it returns before touching
      * anything; otherwise it raises `loading`, performs `Effects` and
      * lowers `loading` again on every path. */
    method HandleDelete(admin: Option<AdminUser>, hasOnDeleted: bool, cookies: map<string, string>, reply: Reply<Ack>)
      modifies this
      ensures events == old(events) + Effects(admin, hasOnDeleted, Token(cookies), reply)
      ensures admin.None? ==> loading == old(loading)
      ensures admin.Some? ==> !loading
    {
      if admin.None? {
        return;
      }
      loading := true;
      var token := Token(cookies);
      if token.Some? {
        events := events + [DeleteRequest(admin.value.id)];
      }
      var o := Classify(token, reply);
      events := events + [Shown(ToastFor(o))];
      if o.Deleted? {
        if hasOnDeleted {
          events := events + [OnDeletedCalled];
        }
        events := events + [OnCloseCalled];
      }
      loading := false;
    }
  }

  /** The modal renders only when it is open and an admin is selected. */
  function Visible(isOpen: bool, admin: Option<AdminUser>): (v: bool)
    ensures v <==> isOpen && admin.Some?
  {
    isOpen && admin.Some?
  }

  /** The name in the question: the name, else the email, else `ID: id`. */
  function ShownName(admin: AdminUser): (r: string)
    ensures Truthy(admin.name) ==> r == admin.name.value
    ensures !Truthy(admin.name) && Truthy(admin.email) ==> r == admin.email.value
    ensures !Truthy(admin.name) && !Truthy(admin.email) ==> r == "ID: " + admin.id
    ensures r != ""
  {
    OrElse(admin.name, OrElse(admin.email, "ID: " + admin.id))
  }
}
