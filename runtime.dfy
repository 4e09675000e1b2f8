/** The decorated handler at run time: the wrappers run one inside the
    other on the handler instance, updating the session's throttle window,
    the response's content type, the shared cache and the endpoint refresh
    count in place. Each run is proved to do what Pipeline.Eval says. */
module Runtime {
  import opened Basics
  import opened RateLimiter
  import TokenGate
  import opened Authorizer
  import opened ResponseCache
  import opened Pipeline

  /** A user session: its tenant and role, and the throttle's window start
      and call counter, which the rate limiter updates in place. */
  class Session {
    const tid: int
    const role: string
    var ratelimitTime: real
    var ratelimitCount: int

    constructor (tid: int, role: string, now: real)
      ensures this.tid == tid && this.role == role
      ensures ratelimitTime == now && ratelimitCount == 0
    {
      this.tid := tid;
      this.role := role;
      ratelimitTime := now;
      ratelimitCount := 0;
    }
  }

  /** An HTTP request and the content type set on its response. */
  class Request {
    const uri: string
    const tid: int
    const path: string
    const language: string
    var contentType: Option<string>

    constructor (uri: string, tid: int, path: string, language: string)
      ensures this.uri == uri && this.tid == tid && this.path == path && this.language == language
      ensures contentType == None
    {
      this.uri := uri;
      this.tid := tid;
      this.path := path;
      this.language := language;
      contentType := None;
    }
  }

  /** Process state: how many times the connection endpoints were refreshed. */
  class State {
    var refreshes: nat

    constructor ()
      ensures refreshes == 0
    {
      refreshes := 0;
    }

    method RefreshConnectionEndpoints()
      modifies this
      ensures refreshes == old(refreshes) + 1
    {
      refreshes := refreshes + 1;
    }
  }

  /** A handler instance serving one request. */
  class Handler {
    const session: Session?
    const request: Request
    const token: bool
    const invalidateCache: bool
    const cache: Cache
    const state: State
    /** How many times the undecorated handler method ran. */
    var calls: nat

    constructor (session: Session?, request: Request, token: bool, invalidateCache: bool, cache: Cache, state: State)
      ensures this.session == session && this.request == request && this.token == token
      ensures this.invalidateCache == invalidateCache && this.cache == cache && this.state == state
      ensures calls == 0
    {
      this.session := session;
      this.request := request;
      this.token := token;
      this.invalidateCache := invalidateCache;
      this.cache := cache;
      this.state := state;
      calls := 0;
    }

    /** What the layers read of this request at time `now`. */
    function EnvAt(now: real): Env {
      Env(if session == null then None else Some(Principal(session.tid, session.role)),
          request.uri, request.tid, request.path, request.language, token, invalidateCache, now)
    }

    /** The state the layers change, as a value. */
    ghost function Snapshot(): World
      reads this, session, request, cache, state
    {
      World(if session == null then Window(0.0, 0) else Window(session.ratelimitTime, session.ratelimitCount),
            request.contentType, cache.entries, cache.invalidated, state.refreshes, calls)
    }

    /** Runs the undecorated handler method. */
    method CallHandler(raw: Behaviour) returns (r: Result<Data>)
      modifies this, request
      ensures Reply(r, Snapshot()) == RunHandler(old(Snapshot()), raw)
    {
      calls := calls + 1;
      if raw.header.Some? {
        request.contentType := raw.header;
      }
      r := raw.result;
    }

    /** Runs the request through `chain` and then the handler method. */
    method Invoke(chain: seq<Layer>, now: real, raw: Behaviour, ser: Json -> string) returns (r: Result<Data>)
      modifies this, session, request, cache, state
      ensures Reply(r, Snapshot()) == Eval(chain, EnvAt(now), old(Snapshot()), raw, ser)
      decreases |chain|
    {
      if chain == [] {
        r := CallHandler(raw);
        return;
      }
      var rest := chain[1..];
      match chain[0]
      case RateLimit =>
        if session != null && session.role == ThrottledRole {
          if now > session.ratelimitTime + WindowLength {
            session.ratelimitTime := now;
            session.ratelimitCount := 0;
          }
          session.ratelimitCount := session.ratelimitCount + 1;
          var period := Period(session.ratelimitTime, now);
          if (session.ratelimitCount as real) / period > MaxRate {
            r := Err(NotAuthenticated);
            return;
          }
        }
        r := Invoke(rest, now, raw, ser);
      case RequireToken =>
        if session == null && !EndsWith(request.uri, TokenGate.TokenPath) && !token {
          r := Err(TokenGate.TokenFailure);
          return;
        }
        r := Invoke(rest, now, raw, ser);
      case Authenticate(roles) =>
        if AnyMarker in roles ||
           (session != null && session.tid == request.tid &&
            ((UserMarker in roles && session.role in StaffRoles) || session.role in roles)) {
          r := Invoke(rest, now, raw, ser);
          return;
        }
        r := Err(NotAuthenticated);
      case RefreshEndpoints =>
        r := Invoke(rest, now, raw, ser);
        if r.Ok? {
          state.RefreshConnectionEndpoints();
        }
      case InvalidateCache =>
        if invalidateCache {
          cache.Invalidate(request.tid);
        }
        r := Invoke(rest, now, raw, ser);
      case CacheGet =>
        var key := ResponseCache.Key(request.tid, request.path, request.language);
        var c := cache.Get(key);
        if c.None? {
          var d := Invoke(rest, now, raw, ser);
          if d.Err? {
            r := d;
            return;
          }
          var data := d.value;
          if IsDictOrList(data) {
            request.contentType := Some(JsonType);
            data := Body(ser(data.json));
          }
          var ct := request.contentType.GetOr(JsonType);
          var stored := cache.Set(key, Entry(ct, data));
          r := Ok(stored.body);
        } else {
          request.contentType := Some(c.value.contentType);
          r := Ok(c.value.body);
        }
    }
  }
}
