/** What a request does when it runs through a chain of policy layers
    ending at the handler method: the specification the imperative
    pipeline in module Runtime is proved against. */
module Pipeline {
  import opened Basics
  import opened RateLimiter
  import TokenGate
  import opened Authorizer
  import opened ResponseCache

  /** One policy layer. A chain lists its layers outermost first: the
      request meets them from left to right and then reaches the handler. */
  datatype Layer =
    | RateLimit
    | RequireToken
    | Authenticate(roles: set<string>)
    | RefreshEndpoints
    | InvalidateCache
    | CacheGet

  /** What the layers read of one request: the caller's session, the
      request, whether a token came with it, the handler's
      invalidate-cache attribute and the clock. */
  datatype Env = Env(
    session: Option<Principal>,
    uri: string,
    tid: int,
    path: string,
    language: string,
    token: bool,
    invalidateCache: bool,
    now: real)
  {
    /** The cache key of the request. */
    function Key(): (k: ResponseCache.Key) {
      ResponseCache.Key(tid, path, language)
    }
  }

  /** Everything the layers and the handler change: the session's throttle
      window, the response's content type, the cache store and its log of
      invalidated tenants, the number of endpoint refreshes, and the number
      of times the handler method ran. */
  datatype World = World(
    window: Window,
    contentType: Option<string>,
    cache: map<ResponseCache.Key, Entry>,
    invalidations: seq<int>,
    refreshes: nat,
    calls: nat)

  /** The state a new request starts from after a request that left `w`.
      The cache, its invalidation log, the refresh count and the handler
      call count are shared and carry over. The response is new, so it has
      no content type yet. The throttle window is that of the new request's
      own session. */
  function NextRequest(w: World, window: Window): World {
    w.(contentType := None, window := window)
  }

  /** What the handler method does when it runs: the content type it sets
      on the response, if any, and what it returns. */
  datatype Behaviour = Behaviour(header: Option<string>, result: Result<Data>)

  /** The outcome of a request and the world after it. */
  datatype Reply = Reply(result: Result<Data>, world: World)

  /** The session's role is the throttled one. */
  predicate Throttled(session: Option<Principal>): (ok: bool)
    ensures ok ==> session.Some? && session.value.role !in StaffRoles
  {
    session.Some? && session.value.role == ThrottledRole
  }

  /** The handler method runs once. */
  function RunHandler(w: World, h: Behaviour): (r: Reply)
    ensures r.result == h.result && r.world.calls == w.calls + 1
  {
    Reply(h.result, w.(calls := w.calls + 1,
                       contentType := if h.header.Some? then h.header else w.contentType))
  }

  /** A cache miss after the handler succeeded with `d`: dictionaries and
      lists are serialised and marked as JSON, the current content type
      (JSON by default) is stored with the body under `k`, and the stored
      body is returned. */
  function StoreResponse(k: ResponseCache.Key, d: Data, w: World, ser: Json -> string): (r: Reply)
    ensures r.result.Ok? && k in r.world.cache
    ensures r.world.cache == w.cache[k := Entry(r.world.contentType.GetOr(JsonType), r.result.value)]
    ensures IsDictOrList(d) ==> r.result.value == Body(ser(d.json)) && r.world.contentType == Some(JsonType)
    ensures !IsDictOrList(d) ==> r.result.value == d && r.world.contentType == w.contentType
    ensures r.world.(cache := w.cache, contentType := w.contentType) == w
  {
    var body := if IsDictOrList(d) then Body(ser(d.json)) else d;
    var header := if IsDictOrList(d) then Some(JsonType) else w.contentType;
    Reply(Ok(body), w.(contentType := header, cache := w.cache[k := Entry(header.GetOr(JsonType), body)]))
  }

  /** A request through `chain`, then the handler. */
  function Eval(chain: seq<Layer>, env: Env, w: World, h: Behaviour, ser: Json -> string): (r: Reply)
    ensures r.result.Ok? && r.world.calls == w.calls ==> CacheGet in chain
    decreases |chain|
  {
    if chain == [] then RunHandler(w, h)
    else
      var rest := chain[1..];
      match chain[0]
      case RateLimit =>
        if Throttled(env.session) then
          var w1 := w.(window := Advance(w.window, env.now));
          if Admits(w1.window, env.now) then Eval(rest, env, w1, h, ser)
          else Reply(Err(NotAuthenticated), w1)
        else Eval(rest, env, w, h, ser)
      case RequireToken =>
        if TokenGate.Admits(env.session.Some?, env.uri, env.token) then Eval(rest, env, w, h, ser)
        else Reply(Err(TokenGate.TokenFailure), w)
      case Authenticate(roles) =>
        if Authorized(roles, env.session, env.tid) then Eval(rest, env, w, h, ser)
        else Reply(Err(NotAuthenticated), w)
      case RefreshEndpoints =>
        var inner := Eval(rest, env, w, h, ser);
        if inner.result.Ok? then Reply(inner.result, inner.world.(refreshes := inner.world.refreshes + 1))
        else inner
      case InvalidateCache =>
        var w1 :=
          if env.invalidateCache
          then w.(cache := Drop(w.cache, env.tid), invalidations := w.invalidations + [env.tid])
          else w;
        Eval(rest, env, w1, h, ser)
      case CacheGet =>
        var k := env.Key();
        if k in w.cache then
          Reply(Ok(w.cache[k].body), w.(contentType := Some(w.cache[k].contentType)))
        else
          var inner := Eval(rest, env, w, h, ser);
          if inner.result.Err? then inner
          else StoreResponse(k, inner.result.value, inner.world, ser)
  }

  // ---------------------------------------------------------------------
  // Properties of any chain

  /** A request runs the handler method at most once, and the refresh
      count and the invalidation log only grow. */
  lemma {:induction false} HandlerRunsAtMostOnce(chain: seq<Layer>, env: Env, w: World, h: Behaviour, ser: Json -> string)
    ensures var r := Eval(chain, env, w, h, ser);
      w.calls <= r.world.calls <= w.calls + 1 &&
      w.refreshes <= r.world.refreshes &&
      w.invalidations <= r.world.invalidations
    decreases |chain|
  {
    if chain != [] {
      var rest := chain[1..];
      match chain[0]
      case RateLimit =>
        HandlerRunsAtMostOnce(rest, env, w.(window := Advance(w.window, env.now)), h, ser);
        HandlerRunsAtMostOnce(rest, env, w, h, ser);
      case RequireToken =>
        HandlerRunsAtMostOnce(rest, env, w, h, ser);
      case Authenticate(_) =>
        HandlerRunsAtMostOnce(rest, env, w, h, ser);
      case RefreshEndpoints =>
        HandlerRunsAtMostOnce(rest, env, w, h, ser);
      case InvalidateCache =>
        HandlerRunsAtMostOnce(rest, env, w, h, ser);
        HandlerRunsAtMostOnce(rest, env, w.(cache := Drop(w.cache, env.tid), invalidations := w.invalidations + [env.tid]), h, ser);
      case CacheGet =>
        HandlerRunsAtMostOnce(rest, env, w, h, ser);
    }
  }

  /** Only a whistleblower session's throttle window is ever changed: for
      every other caller the rate limiter leaves the window as it was. */
  lemma {:induction false} OnlyThrottledRoleTouched(chain: seq<Layer>, env: Env, w: World, h: Behaviour, ser: Json -> string)
    requires !Throttled(env.session)
    ensures Eval(chain, env, w, h, ser).world.window == w.window
    decreases |chain|
  {
    if chain != [] {
      var rest := chain[1..];
      match chain[0]
      case InvalidateCache =>
        OnlyThrottledRoleTouched(rest, env, w, h, ser);
        OnlyThrottledRoleTouched(rest, env, w.(cache := Drop(w.cache, env.tid), invalidations := w.invalidations + [env.tid]), h, ser);
      case _ =>
        OnlyThrottledRoleTouched(rest, env, w, h, ser);
    }
  }

  // ---------------------------------------------------------------------
  // One layer at a time
  //
  // Each lemma below unfolds one case of Eval: the promise of one wrapper,
  // stated on its own. The lemmas over any chain follow further down.

  /** For a caller that is not throttled the rate limiter calls the next
      layer on the same state. */
  lemma RateLimitBypass(rest: seq<Layer>, env: Env, w: World, h: Behaviour, ser: Json -> string)
    requires !Throttled(env.session)
    ensures Eval([RateLimit] + rest, env, w, h, ser) == Eval(rest, env, w, h, ser)
  {
    assert ([RateLimit] + rest)[1..] == rest;
  }

  /** For a whistleblower the window is advanced first; the request is
      refused, with the call still counted, exactly when the advanced
      window refuses it, and otherwise goes on with that window. */
  lemma RateLimitThrottles(rest: seq<Layer>, env: Env, w: World, h: Behaviour, ser: Json -> string)
    requires Throttled(env.session)
    ensures var w1 := w.(window := Advance(w.window, env.now));
      Eval([RateLimit] + rest, env, w, h, ser) ==
        if Admits(w1.window, env.now) then Eval(rest, env, w1, h, ser)
        else Reply(Err(NotAuthenticated), w1)
  {
    assert ([RateLimit] + rest)[1..] == rest;
  }

  /** The token gate refuses with the token failure exactly when it does
      not admit, without changing anything, and otherwise hands the
      request on unchanged. */
  lemma TokenGateLayer(rest: seq<Layer>, env: Env, w: World, h: Behaviour, ser: Json -> string)
    ensures Eval([RequireToken] + rest, env, w, h, ser) ==
      if TokenGate.Admits(env.session.Some?, env.uri, env.token) then Eval(rest, env, w, h, ser)
      else Reply(Err(TokenGate.TokenFailure), w)
  {
    assert ([RequireToken] + rest)[1..] == rest;
  }

  /** A refused caller gets NotAuthenticated and nothing changes; an
      admitted one is handed on unchanged. */
  lemma AuthenticateLayer(roles: set<string>, rest: seq<Layer>, env: Env, w: World, h: Behaviour, ser: Json -> string)
    ensures Eval([Authenticate(roles)] + rest, env, w, h, ser) ==
      if Authorized(roles, env.session, env.tid) then Eval(rest, env, w, h, ser)
      else Reply(Err(NotAuthenticated), w)
  {
    assert ([Authenticate(roles)] + rest)[1..] == rest;
  }

  /** The cache is invalidated for the request's tenant before the next
      layer runs, whatever the handler then does, even when it fails. */
  lemma {:induction false} InvalidationPrecedesHandler(env: Env, w: World, h: Behaviour, ser: Json -> string)
    requires env.invalidateCache
    ensures var r := Eval([InvalidateCache], env, w, h, ser);
      r.result == h.result &&
      r.world.invalidations == w.invalidations + [env.tid] &&
      r.world.cache == Drop(w.cache, env.tid) &&
      r.world.calls == w.calls + 1
  {
    assert [InvalidateCache][1..] == [];
  }

  /** Without the invalidate-cache attribute the layer only hands the
      request on. */
  lemma InvalidationNeedsAttribute(rest: seq<Layer>, env: Env, w: World, h: Behaviour, ser: Json -> string)
    requires !env.invalidateCache
    ensures Eval([InvalidateCache] + rest, env, w, h, ser) == Eval(rest, env, w, h, ser)
  {
    assert ([InvalidateCache] + rest)[1..] == rest;
  }

  /** The refresh layer returns the inner result unchanged, and refreshes
      the endpoints once exactly when that result is a success. */
  lemma {:induction false} RefreshPassesResultThrough(rest: seq<Layer>, env: Env, w: World, h: Behaviour, ser: Json -> string)
    ensures var inner := Eval(rest, env, w, h, ser);
      var r := Eval([RefreshEndpoints] + rest, env, w, h, ser);
      r.result == inner.result &&
      r.world.refreshes == inner.world.refreshes + (if inner.result.Ok? then 1 else 0) &&
      r.world.(refreshes := inner.world.refreshes) == inner.world
  {
    assert ([RefreshEndpoints] + rest)[1..] == rest;
  }

  /** On a hit the stored body is returned, the response's content type is
      set from the entry, and nothing else changes: the handler does not run. */
  lemma {:induction false} CacheHitSkipsHandler(rest: seq<Layer>, env: Env, w: World, h: Behaviour, ser: Json -> string)
    requires env.Key() in w.cache
    ensures var e := w.cache[env.Key()];
      Eval([CacheGet] + rest, env, w, h, ser) == Reply(Ok(e.body), w.(contentType := Some(e.contentType)))
  {
    assert ([CacheGet] + rest)[1..] == rest;
  }

  /** On a miss the handler runs once; if it fails its error is returned
      and nothing is stored; if it succeeds its serialised result is stored
      under exactly the request's key, with the response's content type
      (JSON by default), and the stored body is returned. */
  lemma {:induction false} CacheMissRunsHandlerOnce(env: Env, w: World, h: Behaviour, ser: Json -> string)
    requires env.Key() !in w.cache
    ensures var r := Eval([CacheGet], env, w, h, ser);
      r.world.calls == w.calls + 1 &&
      (h.result.Err? ==> r.result == h.result && r.world.cache == w.cache) &&
      (h.result.Ok? ==>
        r.result.Ok? &&
        r.world.cache == w.cache[env.Key() := Entry(r.world.contentType.GetOr(JsonType), r.result.value)] &&
        (IsDictOrList(h.result.value) ==>
          r.result.value == Body(ser(h.result.value.json)) && r.world.contentType == Some(JsonType)) &&
        (!IsDictOrList(h.result.value) ==> r.result.value == h.result.value))
  {
    assert [CacheGet][1..] == [];
  }

  /** A cached entry outlives every request that does not invalidate: if
      a request through any chain logs no invalidation, every entry stored
      before it is still stored, unchanged, after it. */
  lemma {:induction false} EntrySurvivesWithoutInvalidation(chain: seq<Layer>, env: Env, w: World, h: Behaviour,
                                                            ser: Json -> string, k: ResponseCache.Key)
    requires k in w.cache
    requires Eval(chain, env, w, h, ser).world.invalidations == w.invalidations
    ensures var r := Eval(chain, env, w, h, ser);
      k in r.world.cache && r.world.cache[k] == w.cache[k]
    decreases |chain|
  {
    if chain != [] {
      var rest := chain[1..];
      match chain[0]
      case RateLimit =>
        if Throttled(env.session) {
          var w1 := w.(window := Advance(w.window, env.now));
          if Admits(w1.window, env.now) {
            EntrySurvivesWithoutInvalidation(rest, env, w1, h, ser, k);
          }
        } else {
          EntrySurvivesWithoutInvalidation(rest, env, w, h, ser, k);
        }
      case RequireToken =>
        if TokenGate.Admits(env.session.Some?, env.uri, env.token) {
          EntrySurvivesWithoutInvalidation(rest, env, w, h, ser, k);
        }
      case Authenticate(roles) =>
        if Authorized(roles, env.session, env.tid) {
          EntrySurvivesWithoutInvalidation(rest, env, w, h, ser, k);
        }
      case RefreshEndpoints =>
        EntrySurvivesWithoutInvalidation(rest, env, w, h, ser, k);
      case InvalidateCache =>
        if env.invalidateCache {
          var w1 := w.(cache := Drop(w.cache, env.tid), invalidations := w.invalidations + [env.tid]);
          HandlerRunsAtMostOnce(rest, env, w1, h, ser);
          assert false;
        } else {
          EntrySurvivesWithoutInvalidation(rest, env, w, h, ser, k);
        }
      case CacheGet =>
        if env.Key() !in w.cache {
          EntrySurvivesWithoutInvalidation(rest, env, w, h, ser, k);
        }
    }
  }

  /** The round trip: once a request has filled the cache, a later request
      with the same key, in any state whose store still holds that entry,
      returns the same body and sets the same content type, without running
      the handler. */
  lemma {:induction false} CacheRoundTrip(rest: seq<Layer>, env: Env, w: World, h: Behaviour,
                                          w2: World, h2: Behaviour, ser: Json -> string)
    requires env.Key() !in w.cache
    requires Eval([CacheGet] + rest, env, w, h, ser).result.Ok?
    requires env.Key() in w2.cache
    requires w2.cache[env.Key()] == Eval([CacheGet] + rest, env, w, h, ser).world.cache[env.Key()]
    ensures var first := Eval([CacheGet] + rest, env, w, h, ser);
      var second := Eval([CacheGet] + rest, env, w2, h2, ser);
      second.result == first.result &&
      second.world.contentType == Some(first.world.contentType.GetOr(JsonType)) &&
      second.world.calls == w2.calls &&
      second.world.cache == w2.cache
  {
    assert ([CacheGet] + rest)[1..] == rest;
    var inner := Eval(rest, env, w, h, ser);
    var first := StoreResponse(env.Key(), inner.result.value, inner.world, ser);
    assert Eval([CacheGet] + rest, env, w, h, ser) == first;
    assert w2.cache[env.Key()] == Entry(first.world.contentType.GetOr(JsonType), first.result.value);
  }

  /** The round trip across any request in between that invalidates
      nothing: a first request fills the cache, any other request (any
      chain, any caller with its own throttle window, any handler) runs and
      logs no invalidation, and a new request with the first one's key
      returns the first one's body and the stored content type without
      running the handler. */
  lemma {:induction false} CacheRoundTripAcross(rest: seq<Layer>, env: Env, w: World, h: Behaviour,
                                                midChain: seq<Layer>, midEnv: Env, midWindow: Window, midH: Behaviour,
                                                window2: Window, h2: Behaviour, ser: Json -> string)
    requires env.Key() !in w.cache
    requires Eval([CacheGet] + rest, env, w, h, ser).result.Ok?
    requires var first := Eval([CacheGet] + rest, env, w, h, ser);
      Eval(midChain, midEnv, NextRequest(first.world, midWindow), midH, ser).world.invalidations == first.world.invalidations
    ensures var first := Eval([CacheGet] + rest, env, w, h, ser);
      var mid := Eval(midChain, midEnv, NextRequest(first.world, midWindow), midH, ser);
      var second := Eval([CacheGet] + rest, env, NextRequest(mid.world, window2), h2, ser);
      second.result == first.result &&
      second.world.contentType == Some(first.world.contentType.GetOr(JsonType)) &&
      second.world.calls == mid.world.calls
  {
    var first := Eval([CacheGet] + rest, env, w, h, ser);
    CacheMissStoresKey(rest, env, w, h, ser);
    EntrySurvivesWithoutInvalidation(midChain, midEnv, NextRequest(first.world, midWindow), midH, ser, env.Key());
    var mid := Eval(midChain, midEnv, NextRequest(first.world, midWindow), midH, ser);
    CacheRoundTrip(rest, env, w, h, NextRequest(mid.world, window2), h2, ser);
  }

  /** A successful miss leaves the request's key in the store. */
  lemma {:induction false} CacheMissStoresKey(rest: seq<Layer>, env: Env, w: World, h: Behaviour, ser: Json -> string)
    requires env.Key() !in w.cache
    requires Eval([CacheGet] + rest, env, w, h, ser).result.Ok?
    ensures env.Key() in Eval([CacheGet] + rest, env, w, h, ser).world.cache
  {
    assert ([CacheGet] + rest)[1..] == rest;
  }
}
