/** `AuthProvider` of contexts/auth-context.tsx: the signed-in user, a loading
    flag, and the operations that refresh and clear them together with the
    stored credential. */
module Session {
  import opened Wrappers
  import opened Storage
  import opened Api

  /** The provider's state together with the credential store it consults. */
  datatype SessionState = SessionState(user: Option<User>, loading: bool, store: Store)

  /** The state right after the provider is created: no user, loading. */
  function Initial(s: Store): (r: SessionState)
    ensures r.user == None && r.loading && r.store == s
  {
    SessionState(None, true, s)
  }

  /** Did `getCurrentUser` return a successful response carrying a user? */
  predicate LookupSucceeded(net: Network<ApiResponse<User>>) {
    Settle(net).Returned? && Settle(net).value.success && Settle(net).value.data.Some?
  }

  /** The `getCurrentUser` request `refreshUser` makes from store `s`: none
      at all when no credential is stored. */
  function LookupFor(s: Store, env: Option<string>): (lookup: Option<Request>)
    ensures lookup.None? <==> !Truthy(Token(s))
    ensures lookup.Some? ==> "Authorization" in lookup.value.headers
    ensures lookup.Some? ==> lookup.value.headers["Authorization"] == "Bearer " + Token(s).value
  {
    if Truthy(Token(s)) then Some(Prepare(s, env, "/auth/me", GetInit)) else None
  }

  /** The state after `refreshUser` with the lookup answered by `net`. */
  function Refreshed(s: SessionState, net: Network<ApiResponse<User>>): (r: SessionState)
    ensures !r.loading
    ensures r.user.Some? <==> Truthy(Token(s.store)) && LookupSucceeded(net)
    ensures r.user.Some? ==> r.user == Settle(net).value.data && r.store == s.store
    ensures r.user.Some? <==> Truthy(Token(r.store))
    ensures r.store == s.store || r.store == Delete(s.store)
    ensures !Truthy(Token(s.store)) ==> r.store == s.store
  {
    if !Truthy(Token(s.store)) then
      s.(user := None, loading := false)
    else
      match Settle(net)
      case Returned(response) =>
        if response.success && response.data.Some? then
          s.(user := response.data, loading := false)
        else
          s.(user := None, store := Delete(s.store), loading := false)
      case Threw(_) =>
        s.(user := None, store := Delete(s.store), loading := false)
  }

  /** The state after the provider's `logout`: `apiLogout` may have removed
      the credential or thrown, and the `finally` removes it in any case. */
  function LoggedOut(s: SessionState, net: Network<ApiResponse<()>>): (r: SessionState)
    ensures r.user == None && Token(r.store) == None
    ensures r.loading == s.loading
  {
    s.(user := None, store := Delete(AfterLogout(s.store, Settle(net))))
  }

  /** Whatever the server answers, logging out leaves the store as one plain
      removal would. */
  lemma LogoutIsUnconditional(s: SessionState, n1: Network<ApiResponse<()>>, n2: Network<ApiResponse<()>>)
    ensures LoggedOut(s, n1) == LoggedOut(s, n2)
    ensures LoggedOut(s, n1).store == Delete(s.store)
  {
  }

  /** What can happen to a session: a refresh, a logout, or a `signup`,
      `login` or `refreshToken` call writing the store. */
  datatype Event =
    | Refresh(lookup: Network<ApiResponse<User>>)
    | SignOut(net: Network<ApiResponse<()>>)
    | Issued(out: Outcome<AuthResponse>)

  function Step(s: SessionState, e: Event): SessionState {
    match e
    case Refresh(n) => Refreshed(s, n)
    case SignOut(n) => LoggedOut(s, n)
    case Issued(out) => s.(store := Persist(s.store, out))
  }

  function Run(s: SessionState, events: seq<Event>): SessionState
    decreases |events|
  {
    if events == [] then s else Run(Step(s, events[0]), events[1..])
  }

  lemma {:induction false} RunAppend(s: SessionState, events: seq<Event>, e: Event)
    ensures Run(s, events + [e]) == Step(Run(s, events), e)
    decreases |events|
  {
    if events == [] {
      assert [e][1..] == [];
    } else {
      assert (events + [e])[1..] == events[1..] + [e];
      RunAppend(Step(s, events[0]), events[1..], e);
    }
  }

  /** A user is held only while a credential is stored. */
  ghost predicate Consistent(s: SessionState) {
    s.user.Some? ==> Truthy(Token(s.store))
  }

  lemma StepKeepsConsistent(s: SessionState, e: Event)
    requires Consistent(s)
    ensures Consistent(Step(s, e))
  {
  }

  /** Every sequence of refreshes, logouts and credential writes keeps the
      user backed by a stored credential; the initial state is consistent. */
  lemma {:induction false} RunKeepsConsistent(s: SessionState, events: seq<Event>)
    requires Consistent(s)
    ensures Consistent(Run(s, events))
    decreases |events|
  {
    if events != [] {
      StepKeepsConsistent(s, events[0]);
      RunKeepsConsistent(Step(s, events[0]), events[1..]);
    }
  }

  /** Once loading has ended it never starts again. */
  lemma {:induction false} LoadingNeverResumes(s: SessionState, events: seq<Event>)
    requires !s.loading
    ensures !Run(s, events).loading
    decreases |events|
  {
    if events != [] {
      LoadingNeverResumes(Step(s, events[0]), events[1..]);
    }
  }

  /** Whatever happened before, a refresh settles loading; a logout right
      after leaves an anonymous session with no credential. */
  lemma SettlesAfterRefresh(s: SessionState, events: seq<Event>, n: Network<ApiResponse<User>>, m: Network<ApiResponse<()>>)
    ensures !Run(s, events + [Refresh(n)]).loading
    ensures Run(s, events + [SignOut(m)]).user == None
    ensures Token(Run(s, events + [SignOut(m)]).store) == None
  {
    RunAppend(s, events, Refresh(n));
    RunAppend(s, events, SignOut(m));
  }

  /** Refreshing without a credential is anonymous and stays so, with no
      lookup consulted. */
  lemma AnonymousRefreshIdempotent(s: SessionState, n1: Network<ApiResponse<User>>, n2: Network<ApiResponse<User>>)
    requires !Truthy(Token(s.store))
    ensures Refreshed(s, n1) == Refreshed(s, n2)
    ensures Refreshed(Refreshed(s, n1), n2) == Refreshed(s, n1)
    ensures Refreshed(s, n1).user == None
  {
  }

  /** After a login that issued credential `t`, the next lookup presents
      `Bearer t`, and a successful answer for `u` signs `u` in. */
  lemma LoginThenRefresh(s: SessionState, env: Option<string>, login: AuthResponse, u: User, m: string)
    requires s.store.hasWindow && Issues(login)
    ensures var s1 := Step(s, Issued(Returned(login)));
            && Prepare(s1.store, env, "/auth/me", GetInit).headers["Authorization"] == "Bearer " + login.accessToken.value
            && Refreshed(s1, Ok(ApiResponse(true, m, Some(u)))).user == Some(u)
  {
  }

  /** The provider object, whose state React keeps in `useState` slots. */
  class AuthProvider {
    const storage: TokenStorage
    const env: Option<string>
    var user: Option<User>
    var loading: bool

    constructor (storage: TokenStorage, env: Option<string>)
      ensures this.storage == storage && this.env == env
      ensures Model() == Initial(storage.Model())
    {
      this.storage := storage;
      this.env := env;
      user := None;
      loading := true;
    }

    function Model(): SessionState
      reads this, storage
    {
      SessionState(user, loading, storage.Model())
    }

    /** `refreshUser`; `lookup` is the `getCurrentUser` request, if one was made. */
    method RefreshUser(net: Network<ApiResponse<User>>) returns (lookup: Option<Request>)
      modifies this, storage
      ensures Model() == Refreshed(old(Model()), net)
      ensures lookup == LookupFor(old(storage.Model()), env)
    {
      var token := storage.Get();
      if !Truthy(token) {
        user := None;
        loading := false;
        lookup := None;
        return;
      }
      var req, out := GetCurrentUser(storage, env, net);
      lookup := Some(req);
      match out {
        case Returned(response) =>
          if response.success && response.data.Some? {
            user := response.data;
          } else {
            user := None;
            storage.Remove();
          }
        case Threw(_) =>
          user := None;
          storage.Remove();
      }
      loading := false;
    }

    /** The provider's `logout`. */
    method Logout(net: Network<ApiResponse<()>>)
      modifies this, storage
      ensures Model() == LoggedOut(old(Model()), net)
    {
      var _, _ := Api.Logout(storage, env, net);
      user := None;
      storage.Remove();
    }
  }

  /** Mounting the provider: create it, then run `refreshUser` once. */
  method Mount(storage: TokenStorage, env: Option<string>, net: Network<ApiResponse<User>>)
    returns (provider: AuthProvider, lookup: Option<Request>)
    modifies storage
    ensures fresh(provider) && provider.storage == storage && provider.env == env
    ensures provider.Model() == Refreshed(Initial(old(storage.Model())), net)
    ensures lookup == LookupFor(old(storage.Model()), env)
  {
    provider := new AuthProvider(storage, env);
    lookup := provider.RefreshUser(net);
  }

  const OutsideProvider := "useAuth must be used within an AuthProvider"

  /** `useAuth`: the provider value in scope, or a throw when there is none. */
  function UseAuth(context: Option<AuthProvider>): (r: Outcome<AuthProvider>)
    ensures r.Threw? <==> context.None?
    ensures r.Threw? ==> r.thrown == ErrorObject(OutsideProvider)
    ensures r.Returned? ==> r.value == context.value
  {
    match context
    case None => Threw(ErrorObject(OutsideProvider))
    case Some(c) => Returned(c)
  }
}
