/**
 * The authentication context (client/src/context/AuthContext.jsx).
 *
 * `AuthProvider` keeps four session fields and works on the browser state
 * of the HTTP client. Each operation is given the backend's answers to the
 * requests it makes. React state updates are applied when the operation
 * ends; `authLoading`, true while login or register runs, is therefore
 * seen here only in its final value.
 */
module AuthContext {
  import opened Common
  import opened Profiles
  import opened Api

  datatype Session = Session(user: Option<Profile>, loading: bool, authLoading: bool, isAuthenticated: bool)

  /** The session together with the browser state it works on. */
  datatype World = World(session: Session, runtime: Runtime)

  /** How a call of `register` or `login` settles. */
  datatype Settled =
    | Success             // resolves to `{ success: true }`
    | Undefined           // resolves to `undefined`
    | RequestFailed       // rethrows the error of the request
    | Threw(message: string)

  const NoTokenMessage: string := "Login failed: No token received"

  /** The provider as first rendered over `rt`. */
  function Mount(rt: Runtime): (w: World)
    ensures w.session.loading && !w.session.authLoading && w.session.user.None?
    ensures w.session.isAuthenticated <==> StoredToken(rt.storage).Some?
    ensures w.runtime == rt
  {
    World(Session(None, true, false, StoredToken(rt.storage).Some?), rt)
  }

  /** `refreshAuthHeaders()`: the new world and the value returned. */
  function AfterRefreshAuthHeaders(w: World): (World, bool)
  {
    match StoredToken(w.runtime.storage)
    case None => (w, false)
    case Some(t) => (World(w.session.(isAuthenticated := true), AfterSetAuthToken(w.runtime, t)), true)
  }

  /** `userData.id = userData._id` when `id` is falsy and `_id` truthy. */
  function NormalizeId(u: Profile): Profile
  {
    if MissingId(u) then Put(u, "id", Get(u, "_id").value) else u
  }

  /** `!userData.id && userData._id`. */
  predicate MissingId(u: Profile)
  {
    (Get(u, "id").None? || Get(u, "id") == Some("")) && Get(u, "_id").Some? && Get(u, "_id") != Some("")
  }

  /** `loadUser()` on mount, given the answer `me` of `GET /api/v1/auth/me`
      (unused when no token is stored). */
  function AfterLoadUser(w: World, me: Outcome): World
  {
    match StoredToken(w.runtime.storage)
    case None => World(w.session.(isAuthenticated := false, loading := false), w.runtime)
    case Some(_) =>
      var w1 := AfterRefreshAuthHeaders(w).0;
      var rt := AfterResponse(w1.runtime, me);
      if me.Ok? && me.body.dataUser.Some? then
        World(w1.session.(user := Some(NormalizeId(me.body.dataUser.value)),
                          isAuthenticated := true, loading := false), rt)
      else
        World(w1.session.(isAuthenticated := false, loading := false),
              AfterSetAuthToken(rt.(storage := rt.storage - {TokenKey}), ""))
  }

  /** The role `register` sends: the argument, or 'student' when omitted. */
  function RegisterRole(role: Option<string>): (r: string)
    ensures role.Some? ==> r == role.value
    ensures role.None? ==> r == "student"
  {
    if role.Some? then role.value else "student"
  }

  /** Stores the token of a reply and sets the header from it. */
  function WithToken(rt: Runtime, t: string): Runtime
  {
    AfterSetAuthToken(rt.(storage := rt.storage[TokenKey := t]), t)
  }

  /** `register(...)`, given the backend's answer `o`. */
  function AfterRegister(w: World, o: Outcome): (World, Settled)
  {
    if !o.Ok? then (World(w.session.(authLoading := false), AfterResponse(w.runtime, o)), RequestFailed)
    else if o.body.token == "" then (World(w.session.(authLoading := false), w.runtime), Undefined)
    else
      var s := if o.body.dataUser.Some? then
        w.session.(user := o.body.dataUser, isAuthenticated := true) else w.session;
      (World(s.(authLoading := false), WithToken(w.runtime, o.body.token)), Success)
  }

  /** `login(email, password)`, given the answer `o` to the login request
      and the answer `me` to the follow-up `GET /me` (made only when the
      login reply has a token but no user). */
  function AfterLogin(w: World, o: Outcome, me: Outcome): (World, Settled)
  {
    if !o.Ok? then (World(w.session.(authLoading := false), AfterResponse(w.runtime, o)), RequestFailed)
    else if o.body.token == "" then (World(w.session.(authLoading := false), w.runtime), Threw(NoTokenMessage))
    else
      var rt := WithToken(w.runtime, o.body.token);
      if o.body.dataUser.Some? then
        (World(w.session.(user := o.body.dataUser, isAuthenticated := true, authLoading := false), rt), Success)
      else if me.Ok? && me.body.dataUser.Some? then
        (World(w.session.(user := me.body.dataUser, isAuthenticated := true, authLoading := false), rt), Success)
      else
        (World(w.session.(authLoading := false), AfterResponse(rt, me)), Success)
  }

  /** `logout()`: the stored token only; the stored user is kept. */
  function AfterLogout(w: World): World
  {
    World(w.session.(user := None, isAuthenticated := false),
          AfterSetAuthToken(w.runtime.(storage := w.runtime.storage - {TokenKey}), ""))
  }

  /** `refreshAuthHeaders` answers whether a token is stored. When it is,
      the header names it and the session is authenticated, nothing else
      changing; otherwise nothing changes. Calling it twice is calling it
      once. */
  lemma RefreshAuthHeadersSpec(w: World)
    ensures AfterRefreshAuthHeaders(w).1 <==> StoredToken(w.runtime.storage).Some?
    ensures AfterRefreshAuthHeaders(w).1 ==>
      var w' := AfterRefreshAuthHeaders(w).0;
      w'.runtime.authorization == Some(Bearer(w.runtime.storage[TokenKey]))
      && w'.runtime.storage == w.runtime.storage
      && w'.session == w.session.(isAuthenticated := true)
    ensures !AfterRefreshAuthHeaders(w).1 ==> AfterRefreshAuthHeaders(w).0 == w
    ensures AfterRefreshAuthHeaders(AfterRefreshAuthHeaders(w).0) == AfterRefreshAuthHeaders(w)
  {
  }

  /** `NormalizeId` fills `id` from a truthy `_id` when `id` is falsy, and
      changes nothing else. */
  lemma NormalizeIdSpec(u: Profile)
    ensures MissingId(u) ==> Get(NormalizeId(u), "id") == Get(u, "_id")
    ensures !MissingId(u) ==> NormalizeId(u) == u
    ensures forall k :: k != "id" ==> Get(NormalizeId(u), k) == Get(u, k)
  {
    if MissingId(u) {
      var v := Get(u, "_id").value;
      GetPut(u, "id", v, "id");
      forall k | k != "id"
        ensures Get(NormalizeId(u), k) == Get(u, k)
      {
        GetPut(u, "id", v, k);
      }
    }
  }

  /** Bootstrap always ends with `loading` false, and it leaves
      `isAuthenticated` true exactly when a token is still stored: with a
      user from `/me` the session holds it; with none, or a failed request,
      the token is removed and the header cleared; with no token no request
      is made and nothing but the session changes. */
  lemma LoadUserSpec(w: World, me: Outcome)
    ensures !AfterLoadUser(w, me).session.loading
    ensures AfterLoadUser(w, me).session.isAuthenticated
      <==> StoredToken(AfterLoadUser(w, me).runtime.storage).Some?
    ensures StoredToken(w.runtime.storage).None? ==>
      AfterLoadUser(w, me).runtime == w.runtime && !AfterLoadUser(w, me).session.isAuthenticated
    ensures StoredToken(w.runtime.storage).Some? && me.Ok? && me.body.dataUser.Some? ==>
      AfterLoadUser(w, me).session.user == Some(NormalizeId(me.body.dataUser.value))
      && AfterLoadUser(w, me).session.isAuthenticated
      && AfterLoadUser(w, me).runtime.authorization == Some(Bearer(w.runtime.storage[TokenKey]))
    ensures StoredToken(w.runtime.storage).Some? && !(me.Ok? && me.body.dataUser.Some?) ==>
      TokenKey !in AfterLoadUser(w, me).runtime.storage
      && AfterLoadUser(w, me).runtime.authorization.None?
      && !AfterLoadUser(w, me).session.isAuthenticated
  {
  }

  /** A login whose reply has no token throws "Login failed: No token
      received" and changes nothing but `authLoading`; a rejected login
      changes no session field either. */
  lemma LoginWithoutTokenChangesNothing(w: World, o: Outcome, me: Outcome)
    requires !(o.Ok? && o.body.token != "")
    ensures AfterLogin(w, o, me).0.session == w.session.(authLoading := false)
    ensures o.Ok? ==> AfterLogin(w, o, me) == (World(w.session.(authLoading := false), w.runtime), Threw(NoTokenMessage))
    ensures !o.Ok? ==> AfterLogin(w, o, me).0.runtime == AfterResponse(w.runtime, o)
  {
  }

  /** A login whose reply has a token succeeds whatever `/me` answers: the
      token is stored and named by the header unless `/me` answered 401,
      and the session takes the embedded user, else the one from `/me`. */
  lemma LoginWithTokenSucceeds(w: World, o: Outcome, me: Outcome)
    requires o.Ok? && o.body.token != ""
    ensures AfterLogin(w, o, me).1 == Success
    ensures AfterLogin(w, o, me).0.runtime.authorization == Some(Bearer(o.body.token))
    ensures !(o.body.dataUser.None? && me.Rejected? && me.status == 401) ==>
      StoredToken(AfterLogin(w, o, me).0.runtime.storage) == Some(o.body.token)
    ensures o.body.dataUser.Some? ==>
      AfterLogin(w, o, me).0.session.user == o.body.dataUser && AfterLogin(w, o, me).0.session.isAuthenticated
    ensures o.body.dataUser.None? && me.Ok? && me.body.dataUser.Some? ==>
      AfterLogin(w, o, me).0.session.user == me.body.dataUser && AfterLogin(w, o, me).0.session.isAuthenticated
    ensures o.body.dataUser.None? && !(me.Ok? && me.body.dataUser.Some?) ==>
      AfterLogin(w, o, me).0.session == w.session.(authLoading := false)
  {
  }

  /** Login and register end with `authLoading` false on every path. */
  lemma AuthLoadingSettles(w: World, o: Outcome, me: Outcome)
    ensures !AfterLogin(w, o, me).0.session.authLoading
    ensures !AfterRegister(w, o).0.session.authLoading
    ensures AfterLogin(w, o, me).0.session.loading == w.session.loading
    ensures AfterRegister(w, o).0.session.loading == w.session.loading
  {
  }

  /** A register reply with a token stores it and sets the header; the
      session takes the user when the reply has one and is otherwise kept.
      Without a token the call resolves to `undefined` and changes nothing
      else. A failed request is rethrown, with the session kept and only
      the interceptor acting on the browser. */
  lemma RegisterSpec(w: World, o: Outcome)
    ensures o.Ok? && o.body.token != "" ==>
      AfterRegister(w, o).1 == Success
      && StoredToken(AfterRegister(w, o).0.runtime.storage) == Some(o.body.token)
      && AfterRegister(w, o).0.runtime.authorization == Some(Bearer(o.body.token))
      && (o.body.dataUser.Some? ==> AfterRegister(w, o).0.session.isAuthenticated)
    ensures o.Ok? && o.body.token != "" && o.body.dataUser.Some? ==>
      AfterRegister(w, o).0.session.user == o.body.dataUser
    ensures o.Ok? && o.body.token != "" && o.body.dataUser.None? ==>
      AfterRegister(w, o).0.session == w.session.(authLoading := false)
    ensures o.Ok? && o.body.token == "" ==>
      AfterRegister(w, o) == (World(w.session.(authLoading := false), w.runtime), Undefined)
    ensures !o.Ok? ==>
      AfterRegister(w, o).1 == RequestFailed
      && AfterRegister(w, o).0.session == w.session.(authLoading := false)
      && AfterRegister(w, o).0.runtime == AfterResponse(w.runtime, o)
  {
  }

  /** Logout clears the stored token, the header, the user and the flag,
      from any world; a second logout changes nothing. The stored user
      entry is kept. */
  lemma LogoutSpec(w: World)
    ensures StoredToken(AfterLogout(w).runtime.storage).None?
    ensures AfterLogout(w).runtime.authorization.None?
    ensures AfterLogout(w).session.user.None? && !AfterLogout(w).session.isAuthenticated
    ensures AfterLogout(AfterLogout(w)) == AfterLogout(w)
    ensures UserKey in w.runtime.storage ==>
      UserKey in AfterLogout(w).runtime.storage
      && AfterLogout(w).runtime.storage[UserKey] == w.runtime.storage[UserKey]
  {
  }

  /** The session flag is not kept in step with storage: a 401 on any later
      request removes the token while `isAuthenticated` stays true. */
  lemma AuthenticatedWithoutToken(w: World, me: Outcome, message: string)
    requires StoredToken(w.runtime.storage).Some?
    requires me.Ok? && me.body.dataUser.Some?
    ensures var w1 := AfterLoadUser(w, me);
      var failed: Outcome := Rejected(401, message);
      var rt := AfterResponse(w1.runtime, failed);
      w1.session.isAuthenticated && StoredToken(rt.storage).None?
  {
  }

  class AuthProvider {
    var user: Option<Profile>
    var loading: bool
    var authLoading: bool
    var isAuthenticated: bool
    const browser: Browser

    function State(): World
      reads this, browser
    {
      World(Session(user, loading, authLoading, isAuthenticated), browser.State())
    }

    constructor (b: Browser)
      ensures browser == b
      ensures State() == Mount(b.State())
    {
      browser := b;
      user := None;
      loading := true;
      authLoading := false;
      isAuthenticated := StoredToken(b.storage).Some?;
    }

    method RefreshAuthHeaders() returns (refreshed: bool)
      modifies this, browser
      ensures (State(), refreshed) == AfterRefreshAuthHeaders(old(State()))
    {
      var token := StoredToken(browser.storage);
      if token.None? {
        return false;
      }
      browser.SetAuthToken(token.value);
      if !isAuthenticated {
        isAuthenticated := true;
      }
      refreshed := true;
    }

    method LoadUser(me: Outcome)
      modifies this, browser
      ensures State() == AfterLoadUser(old(State()), me)
    {
      loading := true;
      var token := StoredToken(browser.storage);
      if token.None? {
        isAuthenticated := false;
        loading := false;
        return;
      }
      var _ := RefreshAuthHeaders();
      browser.InterceptResponse(me);
      if me.Ok? && me.body.dataUser.Some? {
        user := Some(NormalizeId(me.body.dataUser.value));
        isAuthenticated := true;
      } else {
        isAuthenticated := false;
        browser.RemoveItem(TokenKey);
        browser.SetAuthToken("");
      }
      loading := false;
    }

    method Register(o: Outcome) returns (settled: Settled)
      modifies this, browser
      ensures (State(), settled) == AfterRegister(old(State()), o)
    {
      authLoading := true;
      if !o.Ok? {
        browser.InterceptResponse(o);
        settled := RequestFailed;
      } else if o.body.token == "" {
        settled := Undefined;
      } else {
        browser.SetItem(TokenKey, o.body.token);
        browser.SetAuthToken(o.body.token);
        if o.body.dataUser.Some? {
          user := o.body.dataUser;
          isAuthenticated := true;
        }
        settled := Success;
      }
      authLoading := false;
    }

    method Login(o: Outcome, me: Outcome) returns (settled: Settled)
      modifies this, browser
      ensures (State(), settled) == AfterLogin(old(State()), o, me)
    {
      authLoading := true;
      if !o.Ok? {
        browser.InterceptResponse(o);
        settled := RequestFailed;
      } else if o.body.token == "" {
        settled := Threw(NoTokenMessage);
      } else {
        browser.SetItem(TokenKey, o.body.token);
        browser.SetAuthToken(o.body.token);
        if o.body.dataUser.Some? {
          user := o.body.dataUser;
          isAuthenticated := true;
        } else {
          browser.InterceptResponse(me);
          if me.Ok? && me.body.dataUser.Some? {
            user := me.body.dataUser;
            isAuthenticated := true;
          }
        }
        settled := Success;
      }
      authLoading := false;
    }

    method Logout()
      modifies this, browser
      ensures State() == AfterLogout(old(State()))
    {
      browser.RemoveItem(TokenKey);
      browser.SetAuthToken("");
      user := None;
      isAuthenticated := false;
    }
  }
}
