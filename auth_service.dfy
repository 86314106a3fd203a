/**
 * The authentication service (client/src/api/authService.js).
 *
 * Each call works on the `Browser` of the HTTP client: it reads and
 * writes `localStorage` and may set the default header. The backend's
 * answer to the one request a call makes is an input (`Outcome`); every
 * rejected request has already been through the response interceptor.
 */
module AuthService {
  import opened Common
  import opened Profiles
  import opened Api

  /** `isAuthenticated()`: `!!localStorage.getItem('token')`. */
  function IsAuthenticated(st: Storage): (r: bool)
    ensures r <==> TokenKey in st && st[TokenKey] != ""
    ensures r <==> StoredToken(st).Some?
  {
    StoredToken(st).Some?
  }

  /** What `getStoredUser()` gives: `null`, a user object, or an exception
      from `JSON.parse` on a stored string that is not an object. */
  datatype StoredUser = NoUser | User(profile: Profile) | Unreadable

  function GetStoredUser(st: Storage): StoredUser
  {
    if UserKey !in st || st[UserKey] == "" then NoUser
    else match Parse(st[UserKey])
      case Some(p) => User(p)
      case None => Unreadable
  }

  /** `localStorage.setItem(k, JSON.stringify(u))`: `JSON.stringify(undefined)`
      is `undefined`, which `setItem` stores as the string "undefined". */
  function Serialize(u: Option<Profile>): string
  {
    match u
    case Some(p) => Stringify(p)
    case None => "undefined"
  }

  /** `login` as written: a reply with a token stores the token and, always,
      the serialised `data.user`. */
  function AfterLogin(rt: Runtime, o: Outcome): Runtime
  {
    if o.Ok? && o.body.token != "" then
      rt.(storage := rt.storage[TokenKey := o.body.token][UserKey := Serialize(o.body.user)])
    else AfterResponse(rt, o)
  }

  /** `login` as evidently intended: the user entry is written only when
      the reply carries a user, and a stale entry is dropped otherwise. */
  function AfterLoginCorrected(rt: Runtime, o: Outcome): Runtime
  {
    if o.Ok? && o.body.token != "" then
      var st := rt.storage[TokenKey := o.body.token];
      match o.body.user
      case Some(u) => rt.(storage := st[UserKey := Stringify(u)])
      case None => rt.(storage := st - {UserKey})
    else AfterResponse(rt, o)
  }

  /** A login that yields a token stores it and leaves the header alone;
      a login that yields none changes nothing but what the interceptor does. */
  lemma LoginStoresToken(rt: Runtime, o: Outcome)
    ensures o.Ok? && o.body.token != "" ==>
      IsAuthenticated(AfterLogin(rt, o).storage)
      && StoredToken(AfterLogin(rt, o).storage) == Some(o.body.token)
      && AfterLogin(rt, o).authorization == rt.authorization
    ensures !(o.Ok? && o.body.token != "") ==> AfterLogin(rt, o) == AfterResponse(rt, o)
    ensures forall k :: k != TokenKey && k != UserKey ==>
      (k in AfterLogin(rt, o).storage <==> k in rt.storage)
  {
  }

  /** As written, a login reply with a token but no user leaves a stored
      user that `getStoredUser` cannot read. */
  lemma LoginWithoutUserBreaksStoredUser(rt: Runtime, t: string, d: Option<Profile>)
    requires t != ""
    ensures GetStoredUser(AfterLogin(rt, Ok(Reply(t, None, d))).storage) == Unreadable
  {
    var st := AfterLogin(rt, Ok(Reply(t, None, d))).storage;
    assert st[UserKey] == "undefined";
    assert Parse("undefined").None?;
  }

  /** Corrected, what `getStoredUser` reads after a login with a token is
      exactly the user of the reply, or `null` when it had none. */
  lemma LoginCorrectedStoresReadableUser(rt: Runtime, o: Outcome)
    requires o.Ok? && o.body.token != ""
    requires o.body.user.Some? ==> DistinctKeys(o.body.user.value)
    ensures StoredToken(AfterLoginCorrected(rt, o).storage) == Some(o.body.token)
    ensures GetStoredUser(AfterLoginCorrected(rt, o).storage)
      == (if o.body.user.Some? then User(o.body.user.value) else NoUser)
  {
    if o.body.user.Some? {
      ParseStringify(o.body.user.value);
      assert Stringify(o.body.user.value) != "";
    }
  }

  /** `logout()`. */
  function AfterLogout(rt: Runtime): Runtime
  {
    rt.(storage := rt.storage - {TokenKey, UserKey})
  }

  /** After logout nobody is authenticated and no user is stored, whatever
      came before; logging out twice is logging out once. */
  lemma LogoutClears(rt: Runtime)
    ensures !IsAuthenticated(AfterLogout(rt).storage)
    ensures GetStoredUser(AfterLogout(rt).storage) == NoUser
    ensures AfterLogout(AfterLogout(rt)) == AfterLogout(rt)
    ensures forall k :: k in rt.storage && k != TokenKey && k != UserKey ==>
      k in AfterLogout(rt).storage && AfterLogout(rt).storage[k] == rt.storage[k]
  {
  }

  /** The stored user with its `name` replaced by `name`: `{...stored, name}`,
      where a missing name is `undefined` and `JSON.stringify` drops it. */
  function Renamed(stored: Profile, name: Option<string>): Profile
  {
    match name
    case Some(n) => Put(stored, "name", n)
    case None => Remove(stored, "name")
  }

  /** `JSON.parse(localStorage.getItem('user') || '{}')`. */
  function StoredOrEmpty(st: Storage): Option<Profile>
  {
    Parse(if UserKey in st && st[UserKey] != "" then st[UserKey] else "{}")
  }

  /** `updateProfile`: the new runtime, and whether the call resolves
      (false: the request failed or `JSON.parse` threw). */
  function AfterUpdateProfile(rt: Runtime, o: Outcome): (Runtime, bool)
  {
    if !o.Ok? then (AfterResponse(rt, o), false)
    else match o.body.user
      case None => (rt, true)
      case Some(u) =>
        match StoredOrEmpty(rt.storage)
        case None => (rt, false)
        case Some(stored) =>
          (rt.(storage := rt.storage[UserKey := Stringify(Renamed(stored, Get(u, "name")))]), true)
  }

  /** An accepted profile update changes only the stored user's `name`,
      which becomes the reply user's; every other field keeps its value and
      the stored user stays readable. */
  lemma UpdateProfileRenamesOnly(rt: Runtime, o: Outcome, stored: Profile)
    requires o.Ok? && o.body.user.Some?
    requires StoredOrEmpty(rt.storage) == Some(stored)
    ensures AfterUpdateProfile(rt, o).1
    ensures GetStoredUser(AfterUpdateProfile(rt, o).0.storage).User?
    ensures var now := GetStoredUser(AfterUpdateProfile(rt, o).0.storage).profile;
      Get(now, "name") == Get(o.body.user.value, "name")
      && forall k :: k != "name" ==> Get(now, k) == Get(stored, k)
    ensures AfterUpdateProfile(rt, o).0.authorization == rt.authorization
  {
    var name := Get(o.body.user.value, "name");
    var now := Renamed(stored, name);
    ParseDistinct(if UserKey in rt.storage && rt.storage[UserKey] != "" then rt.storage[UserKey] else "{}");
    RenamedKeepsOthers(stored, name);
    ParseStringify(now);
    var st := rt.storage[UserKey := Stringify(now)];
    assert AfterUpdateProfile(rt, o) == (rt.(storage := st), true);
    assert Stringify(now) != "";
    assert GetStoredUser(st) == User(now);
  }

  /** Renaming sets or removes `name` and leaves every other field, and
      the keys stay distinct. */
  lemma RenamedKeepsOthers(stored: Profile, name: Option<string>)
    requires DistinctKeys(stored)
    ensures DistinctKeys(Renamed(stored, name))
    ensures Get(Renamed(stored, name), "name") == name
    ensures forall k :: k != "name" ==> Get(Renamed(stored, name), k) == Get(stored, k)
  {
    var now := Renamed(stored, name);
    if name.Some? {
      PutKeepsDistinct(stored, "name", name.value);
      GetPut(stored, "name", name.value, "name");
      forall k | k != "name"
        ensures Get(now, k) == Get(stored, k)
      {
        GetPut(stored, "name", name.value, k);
      }
    } else {
      RemoveKeepsDistinct(stored, "name");
      GetRemove(stored, "name", "name");
      forall k | k != "name"
        ensures Get(now, k) == Get(stored, k)
      {
        GetRemove(stored, "name", k);
      }
    }
  }

  /** `verifyToken`: without a stored token it answers false and touches
      nothing; otherwise it sets the header from the token and answers
      whether `/me` returned a user. */
  function AfterVerifyToken(rt: Runtime, o: Outcome): (Runtime, bool)
  {
    match StoredToken(rt.storage)
    case None => (rt, false)
    case Some(t) =>
      var rt1 := AfterSetAuthToken(rt, t);
      (AfterResponse(rt1, o), o.Ok? && o.body.dataUser.Some?)
  }

  /** `refreshToken`. */
  function AfterRefreshToken(rt: Runtime): (Runtime, bool)
  {
    match StoredToken(rt.storage)
    case None => (rt, false)
    case Some(t) => (AfterSetAuthToken(rt, t), true)
  }

  /** A token is valid only if one is stored and `/me` answered with a
      user; a rejected check with 401 also removes the token. Refreshing
      answers whether a token is stored and leaves the header naming it. */
  lemma VerifyAndRefresh(rt: Runtime, o: Outcome)
    ensures AfterVerifyToken(rt, o).1 <==>
      IsAuthenticated(rt.storage) && o.Ok? && o.body.dataUser.Some?
    ensures IsAuthenticated(rt.storage) && o.Rejected? && o.status == 401 ==>
      !IsAuthenticated(AfterVerifyToken(rt, o).0.storage)
    ensures AfterRefreshToken(rt).1 <==> IsAuthenticated(rt.storage)
    ensures AfterRefreshToken(rt).0.storage == rt.storage
    ensures AfterRefreshToken(rt).1 ==>
      AfterRefreshToken(rt).0.authorization == Some(Bearer(rt.storage[TokenKey]))
    ensures AfterRefreshToken(AfterRefreshToken(rt).0) == AfterRefreshToken(rt)
  {
  }

  /** `login(data)`, with the stored user written as `AfterLoginCorrected`
      says: the reply's data, or `None` when the request failed and the
      call threw. */
  method Login(b: Browser, o: Outcome) returns (data: Option<Reply>)
    modifies b
    ensures b.State() == AfterLoginCorrected(old(b.State()), o)
    ensures data.Some? <==> o.Ok?
    ensures o.Ok? ==> data == Some(o.body)
  {
    if !o.Ok? {
      b.InterceptResponse(o);
      return None;
    }
    if o.body.token != "" {
      b.SetItem(TokenKey, o.body.token);
      if o.body.user.Some? {
        b.SetItem(UserKey, Stringify(o.body.user.value));
      } else {
        b.RemoveItem(UserKey);
      }
    }
    data := Some(o.body);
  }

  method Logout(b: Browser)
    modifies b
    ensures b.State() == AfterLogout(old(b.State()))
  {
    b.RemoveItem(TokenKey);
    b.RemoveItem(UserKey);
  }

  /** `updateProfile(data)`: whether the call resolves. */
  method UpdateProfile(b: Browser, o: Outcome) returns (resolved: bool)
    modifies b
    ensures (b.State(), resolved) == AfterUpdateProfile(old(b.State()), o)
  {
    if !o.Ok? {
      b.InterceptResponse(o);
      return false;
    }
    if o.body.user.None? {
      return true;
    }
    var parsed := StoredOrEmpty(b.storage);
    if parsed.None? {
      return false;
    }
    b.SetItem(UserKey, Stringify(Renamed(parsed.value, Get(o.body.user.value, "name"))));
    resolved := true;
  }

  method VerifyToken(b: Browser, o: Outcome) returns (valid: bool)
    modifies b
    ensures (b.State(), valid) == AfterVerifyToken(old(b.State()), o)
  {
    var token := StoredToken(b.storage);
    if token.None? {
      return false;
    }
    b.SetAuthToken(token.value);
    b.InterceptResponse(o);
    valid := o.Ok? && o.body.dataUser.Some?;
  }

  method RefreshToken(b: Browser) returns (refreshed: bool)
    modifies b
    ensures (b.State(), refreshed) == AfterRefreshToken(old(b.State()))
  {
    var token := StoredToken(b.storage);
    if token.None? {
      return false;
    }
    b.SetAuthToken(token.value);
    refreshed := true;
  }
}
