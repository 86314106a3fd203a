/**
 * The shared HTTP client (client/src/api/api.js).
 *
 * The client owns two pieces of mutable state: the browser's
 * `localStorage` and the default `Authorization` header of the axios
 * instance. Backend replies are inputs: every call the application makes
 * is given the `Outcome` the backend produced for it.
 */
module Api {
  import opened Common
  import opened Profiles

  const TokenKey: string := "token"
  const UserKey: string := "user"

  /** `localStorage`: string keys to string values. */
  type Storage = map<string, string>

  /** `localStorage.getItem('token')` when it is truthy. */
  function StoredToken(st: Storage): Option<string>
  {
    if TokenKey in st && st[TokenKey] != "" then Some(st[TokenKey]) else None
  }

  /** The bearer credential of section 2.1 of RFC 6750. */
  function Bearer(token: string): string
  {
    "Bearer " + token
  }

  /** The body of a successful auth reply. `token` is `""` when the reply
      carries none; `user` is `data.user`, `dataUser` is `data.data.user`. */
  datatype Reply = Reply(token: string, user: Option<Profile>, dataUser: Option<Profile>)

  /** What the backend did with one request whose successful body is a `T`:
      a 2xx reply, an error status with the reply's `message` (`""` when it
      has none), or no reply at all. */
  datatype Response<T> =
    | Ok(body: T)
    | Rejected(status: int, message: string)
    | NoResponse

  /** The answer to an authentication request. */
  type Outcome = Response<Reply>

  /** `error.response?.data?.message || fallback` for a failed request. */
  function FailureMessage<T>(o: Response<T>, fallback: string): (m: string)
    ensures o.Rejected? && o.message != "" ==> m == o.message
    ensures !(o.Rejected? && o.message != "") ==> m == fallback
  {
    if o.Rejected? && o.message != "" then o.message else fallback
  }

  /** Storage and the default header slot, as one value. */
  datatype Runtime = Runtime(storage: Storage, authorization: Option<string>)

  /** Module start: the default header is set from a stored token. */
  function AfterStartup(st: Storage): Runtime
  {
    match StoredToken(st)
    case Some(t) => Runtime(st, Some(Bearer(t)))
    case None => Runtime(st, None)
  }

  /** `setAuthToken(t)`; `""` stands for every falsy argument. */
  function AfterSetAuthToken(rt: Runtime, t: string): Runtime
  {
    if t != "" then rt.(authorization := Some(Bearer(t))) else rt.(authorization := None)
  }

  /** The request interceptor: the `Authorization` header a request goes
      out with, given the header its own config sets (`explicit`). */
  function OutgoingAuthorization(rt: Runtime, explicit: Option<string>): Option<string>
  {
    match StoredToken(rt.storage)
    case Some(t) => Some(Bearer(t))
    case None => if explicit.Some? then explicit else rt.authorization
  }

  /** The response interceptor: a 401 removes the stored token. The call
      still settles with the same outcome. */
  function AfterResponse<T>(rt: Runtime, o: Response<T>): Runtime
  {
    if o.Rejected? && o.status == 401 then rt.(storage := rt.storage - {TokenKey}) else rt
  }

  /** At start the header is what `setAuthToken` of the stored token sets. */
  lemma StartupSetsStoredToken(st: Storage)
    ensures AfterStartup(st)
      == AfterSetAuthToken(Runtime(st, None), if StoredToken(st).Some? then StoredToken(st).value else "")
    ensures AfterStartup(st).authorization.Some? <==> StoredToken(st).Some?
  {
  }

  /** `setAuthToken` changes only the header; a second call changes nothing. */
  lemma SetAuthTokenIdempotent(rt: Runtime, t: string)
    ensures AfterSetAuthToken(rt, t).storage == rt.storage
    ensures AfterSetAuthToken(AfterSetAuthToken(rt, t), t) == AfterSetAuthToken(rt, t)
    ensures t != "" ==> AfterSetAuthToken(rt, t).authorization == Some(Bearer(t))
    ensures t == "" ==> AfterSetAuthToken(rt, t).authorization.None?
  {
  }

  /** A stored token overrides every other Authorization value; without
      one the request keeps its own header, else the default. */
  lemma RequestCarriesStoredToken(rt: Runtime, explicit: Option<string>)
    ensures StoredToken(rt.storage).Some?
      ==> OutgoingAuthorization(rt, explicit) == Some(Bearer(StoredToken(rt.storage).value))
    ensures StoredToken(rt.storage).None? && explicit.Some?
      ==> OutgoingAuthorization(rt, explicit) == explicit
  {
  }

  /** After `setAuthToken(null)` with no token stored, a request that sets
      no header of its own carries no credential. */
  lemma NoStaleTokenAfterClear(rt: Runtime)
    requires StoredToken(rt.storage).None?
    ensures OutgoingAuthorization(AfterSetAuthToken(rt, ""), None).None?
  {
  }

  /** Only a 401 touches storage, and it removes the token alone; the
      default header is never touched. */
  lemma ResponseTouchesOnlyToken<T>(rt: Runtime, o: Response<T>)
    ensures AfterResponse(rt, o).authorization == rt.authorization
    ensures (o.Rejected? && o.status == 401)
      ==> AfterResponse(rt, o).storage == rt.storage - {TokenKey}
    ensures !(o.Rejected? && o.status == 401) ==> AfterResponse(rt, o) == rt
    ensures StoredToken(AfterResponse(rt, o).storage).None? || AfterResponse(rt, o) == rt
  {
  }

  /** The browser state the client module works on. */
  class Browser {
    var storage: Storage
    var authorization: Option<string>

    function State(): Runtime
      reads this
    {
      Runtime(storage, authorization)
    }

    /** Loading api.js with `initial` in storage. */
    constructor (initial: Storage)
      ensures State() == AfterStartup(initial)
    {
      storage := initial;
      var token := StoredToken(initial);
      if token.Some? {
        authorization := Some(Bearer(token.value));
      } else {
        authorization := None;
      }
    }

    method SetAuthToken(t: string)
      modifies this
      ensures State() == AfterSetAuthToken(old(State()), t)
    {
      if t != "" {
        authorization := Some(Bearer(t));
      } else {
        authorization := None;
      }
    }

    method InterceptResponse<T>(o: Response<T>)
      modifies this
      ensures State() == AfterResponse(old(State()), o)
    {
      if o.Rejected? && o.status == 401 {
        storage := storage - {TokenKey};
      }
    }

    /** `localStorage.setItem(k, v)`. */
    method SetItem(k: string, v: string)
      modifies this
      ensures State() == old(State()).(storage := old(storage)[k := v])
    {
      storage := storage[k := v];
    }

    /** `localStorage.removeItem(k)`. */
    method RemoveItem(k: string)
      modifies this
      ensures State() == old(State()).(storage := old(storage) - {k})
    {
      storage := storage - {k};
    }
  }
}
