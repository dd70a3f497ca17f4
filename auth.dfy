/**
 * The authentication context: a flag kept in step with the token in local
 * storage, the `login` and `logout` actions, and the `useAuth` hook.
 */
module Auth {
  import opened Replies

  const DummyToken := "dummy-token"
  const DashboardPath := "/dashboard"
  const LoginPath := "/login"
  const NoProviderMessage := "useAuth must be used within an AuthProvider"

  /** `!!localStorage.getItem('token')`: a missing entry and an empty one
    * are both "no token". */
  predicate HasToken(storage: map<string, string>) {
    Token(storage).Some?
  }

  class AuthProvider {
    var isAuthenticated: bool
    var storage: map<string, string>
    /** Every `router.push`, in order. */
    var navigations: seq<string>

    /** The first render: not authenticated, whatever storage holds. */
    constructor (storage: map<string, string>)
      ensures !isAuthenticated && this.storage == storage && navigations == []
    {
      isAuthenticated := false;
      this.storage := storage;
      navigations := [];
    }

    /** The flag says whether storage holds a token. */
    ghost predicate Consistent()
      reads this
    {
      isAuthenticated <==> HasToken(storage)
    }

    /** The mount effect reads the token and sets the flag from it. */
    method Mount()
      modifies this
      ensures isAuthenticated == HasToken(storage)
      ensures storage == old(storage) && navigations == old(navigations)
      ensures Consistent()
    {
      isAuthenticated := HasToken(storage);
    }

    /** `login` ignores the credentials: it stores the fixed token, sets the
      * flag and goes to the dashboard. */
    method Login(email: string, password: string)
      modifies this
      ensures storage == old(storage)[TokenKey := DummyToken]
      ensures isAuthenticated && navigations == old(navigations) + [DashboardPath]
      ensures Consistent()
    {
      storage := storage[TokenKey := DummyToken];
      isAuthenticated := true;
      navigations := navigations + [DashboardPath];
    }

    /** `logout` removes the token, clears the flag and goes to the login page. */
    method Logout()
      modifies this
      ensures storage == old(storage) - {TokenKey}
      ensures !isAuthenticated && navigations == old(navigations) + [LoginPath]
      ensures Consistent()
    {
      storage := storage - {TokenKey};
      isAuthenticated := false;
      navigations := navigations + [LoginPath];
    }
  }

  /** Login does not depend on the credentials given. */
  lemma LoginIgnoresCredentials(storage: map<string, string>)
    ensures HasToken(storage[TokenKey := DummyToken])
    ensures Token(storage[TokenKey := DummyToken]) == Some(DummyToken)
  {
  }

  /** After a logout no token is left, whatever storage held. */
  lemma LogoutLeavesNoToken(storage: map<string, string>)
    ensures !HasToken(storage - {TokenKey})
    ensures forall k :: k in storage && k != TokenKey ==> k in storage - {TokenKey} && (storage - {TokenKey})[k] == storage[k]
  {
  }

  /** What the context hands to its consumers. */
  datatype AuthState = AuthState(isAuthenticated: bool)

  datatype Result<T> = Ok(value: T) | Err(message: string)

  /** `useAuth`: the context value, or the error it throws outside a provider. */
  function UseAuth(context: Option<AuthState>): (r: Result<AuthState>)
    ensures r.Ok? <==> context.Some?
    ensures r.Ok? ==> r.value == context.value
    ensures r.Err? ==> r.message == NoProviderMessage
  {
    if context.None? then Err(NoProviderMessage) else Ok(context.value)
  }
}
