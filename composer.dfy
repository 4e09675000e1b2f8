/** Building, once per handler method, the chain of policy layers that
    wraps it, from the handler's static attributes, the method's name and
    the API-cache setting. */
module Composer {
  import opened Basics
  import opened Authorizer
  import opened ResponseCache
  import opened Pipeline
  import RateLimiter
  import TokenGate

  /** The handler's `check_roles` attribute: a single role or a role set. */
  datatype RolesSpec = OneRole(role: string) | RoleSet(roles: set<string>)

  /** The handler attributes the composer reads. */
  datatype Metadata = Metadata(
    checkRoles: RolesSpec,
    cacheResource: bool,
    invalidateCache: bool,
    refreshConnectionEndpoints: bool,
    requireToken: bool)

  /** `check_roles` as a role set: a single role becomes a singleton. */
  function Normalise(v: RolesSpec): (roles: set<string>)
    ensures v.OneRole? ==> v.role in roles && roles <= {v.role}
    ensures v.RoleSet? ==> roles == v.roles
  {
    match v
    case OneRole(r) => {r}
    case RoleSet(rs) => rs
  }

  /** Methods that pass without token and rate limit unless the handler
      asks for a token. */
  const Unguarded: set<string> := {"get", "options"}

  /** The position of each layer in the request-side order. */
  function Rank(l: Layer): (r: nat) {
    match l
    case RateLimit => 0
    case RequireToken => 1
    case Authenticate(_) => 2
    case RefreshEndpoints => 3
    case InvalidateCache => 4
    case CacheGet => 4
  }

  /** Every layer comes strictly later in the request-side order than the
      layers before it: rate limit, token, authentication, refresh, then
      invalidation or cache lookup. */
  predicate Ordered(chain: seq<Layer>) {
    forall i, j :: 0 <= i < j < |chain| ==> Rank(chain[i]) < Rank(chain[j])
  }

  /** A layer put in front of an ordered chain of later layers keeps it ordered. */
  lemma {:induction false} OrderedCons(l: Layer, chain: seq<Layer>)
    requires Ordered(chain)
    requires forall x :: x in chain ==> Rank(l) < Rank(x)
    ensures Ordered([l] + chain)
  {
    forall i, j | 0 <= i < j < |[l] + chain|
      ensures Rank(([l] + chain)[i]) < Rank(([l] + chain)[j])
    {
      assert ([l] + chain)[j] == chain[j - 1];
      if i > 0 {
        assert ([l] + chain)[i] == chain[i - 1];
      }
    }
  }

  /** The cache layers of a method, outermost first: a cache lookup for a
      cacheable GET; for every other method a refresh around an
      invalidation, each as its attribute says; nothing when the API cache
      is off. */
  function CacheLayers(meta: Metadata, name: string, enableApiCache: bool): (chain: seq<Layer>)
    ensures Ordered(chain)
    ensures forall l :: l in chain ==> Rank(l) >= 3
    ensures CacheGet in chain <==> enableApiCache && name == "get" && meta.cacheResource
    ensures InvalidateCache in chain <==> enableApiCache && name != "get" && meta.invalidateCache
    ensures RefreshEndpoints in chain <==> enableApiCache && name != "get" && meta.refreshConnectionEndpoints
  {
    if !enableApiCache then []
    else if name == "get" then (if meta.cacheResource then [CacheGet] else [])
    else
      var inner: seq<Layer> := if meta.invalidateCache then [InvalidateCache] else [];
      if meta.refreshConnectionEndpoints then [RefreshEndpoints] + inner else inner
  }

  /** The layers `decorate_method` puts around a method, outermost first. */
  function Compose(meta: Metadata, name: string, enableApiCache: bool): (chain: seq<Layer>)
    ensures Ordered(chain)
    ensures CacheGet in chain <==> enableApiCache && name == "get" && meta.cacheResource
    ensures InvalidateCache in chain <==> enableApiCache && name != "get" && meta.invalidateCache
    ensures RefreshEndpoints in chain <==> enableApiCache && name != "get" && meta.refreshConnectionEndpoints
    ensures RequireToken in chain <==> name !in Unguarded || meta.requireToken
    ensures RateLimit in chain <==> RequireToken in chain
    ensures Authenticate(Normalise(meta.checkRoles)) in chain
    ensures forall l :: l in chain && l.Authenticate? ==> l == Authenticate(Normalise(meta.checkRoles))
  {
    var auth := Authenticate(Normalise(meta.checkRoles));
    var caching := CacheLayers(meta, name, enableApiCache);
    var guarded := [auth] + caching;
    OrderedCons(auth, caching);
    assert forall l :: l in guarded ==> l == auth || l in caching;
    if name !in Unguarded || meta.requireToken then
      OrderedCons(RequireToken, guarded);
      OrderedCons(RateLimit, [RequireToken] + guarded);
      var chain := [RateLimit] + ([RequireToken] + guarded);
      assert forall l :: l in chain ==> l == RateLimit || l == RequireToken || l in guarded;
      chain
    else guarded
  }

  /** A single role is admitted exactly as the singleton set holding it. */
  lemma SingleRoleIsSingleton(meta: Metadata, name: string, enableApiCache: bool)
    requires meta.checkRoles.OneRole?
    ensures Authenticate({meta.checkRoles.role}) in Compose(meta, name, enableApiCache)
  {
  }

  /** A GET is never given an invalidation or refresh layer, and no other
      method a cache lookup. */
  lemma {:induction false} CachingExclusive(meta: Metadata, name: string, enableApiCache: bool)
    ensures var chain := Compose(meta, name, enableApiCache);
      !(CacheGet in chain && (InvalidateCache in chain || RefreshEndpoints in chain))
  {
  }

  // ---------------------------------------------------------------------
  // A composed chain, run

  /** A prefix of layers that can refuse a request but never answer it. */
  predicate Guards(chain: seq<Layer>, k: nat)
    requires k <= |chain|
  {
    forall j :: 0 <= j < k ==> chain[j] == RateLimit || chain[j] == RequireToken
  }

  /** Behind a prefix of guards, a refusing authentication layer means the
      request fails, the handler does not run and the cache, the response
      and the refresh count are left as they were. */
  lemma {:induction false} RefusedBeforeHandler(chain: seq<Layer>, k: nat, env: Env, w: World, h: Behaviour, ser: Json -> string)
    requires k < |chain| && Guards(chain, k)
    requires chain[k].Authenticate? && !Authorized(chain[k].roles, env.session, env.tid)
    ensures var r := Eval(chain, env, w, h, ser);
      r.result.Err? && r.world.(window := w.window) == w
    decreases k
  {
    var rest := chain[1..];
    if k > 0 {
      assert Guards(rest, k - 1) by {
        forall j | 0 <= j < k - 1 ensures rest[j] == RateLimit || rest[j] == RequireToken {
          assert rest[j] == chain[j + 1];
        }
      }
      match chain[0]
      case RateLimit =>
        RefusedBeforeHandler(rest, k - 1, env, w.(window := RateLimiter.Advance(w.window, env.now)), h, ser);
        RefusedBeforeHandler(rest, k - 1, env, w, h, ser);
      case RequireToken =>
        RefusedBeforeHandler(rest, k - 1, env, w, h, ser);
    }
  }

  /** Whatever the method and the settings, a caller the handler's roles
      refuse never reaches the handler, and the call changes nothing but
      (for a whistleblower) the throttle window. */
  lemma {:induction false} UnauthorizedNeverReachesHandler(meta: Metadata, name: string, enableApiCache: bool,
                                                           base: seq<Layer>, env: Env, w: World, h: Behaviour, ser: Json -> string)
    requires !Authorized(Normalise(meta.checkRoles), env.session, env.tid)
    ensures var r := Eval(Compose(meta, name, enableApiCache) + base, env, w, h, ser);
      r.result.Err? && r.world.calls == w.calls && r.world.cache == w.cache &&
      r.world.invalidations == w.invalidations && r.world.refreshes == w.refreshes
  {
    var layers := Compose(meta, name, enableApiCache);
    var chain := layers + base;
    var k := if name !in Unguarded || meta.requireToken then 2 else 0;
    assert chain[k] == Authenticate(Normalise(meta.checkRoles));
    RefusedBeforeHandler(chain, k, env, w, h, ser);
  }

  /** The chain of a cacheable GET handler that asks for no token. */
  lemma CacheableGetChain(meta: Metadata)
    requires meta.cacheResource && !meta.requireToken
    ensures Compose(meta, "get", true) == [Authenticate(Normalise(meta.checkRoles)), CacheGet]
  {
  }

  /** The chain of a POST handler that invalidates and does not refresh. */
  lemma InvalidatingPostChain(meta: Metadata)
    requires meta.invalidateCache && !meta.refreshConnectionEndpoints
    ensures Compose(meta, "post", true) ==
      [RateLimit, RequireToken, Authenticate(Normalise(meta.checkRoles)), InvalidateCache]
  {
  }

  /** An admitted GET reaches the cache lookup on the same state. */
  lemma {:induction false} AdmittedGetReachesCache(roles: set<string>, env: Env, w: World, h: Behaviour, ser: Json -> string)
    requires Authorized(roles, env.session, env.tid)
    ensures Eval([Authenticate(roles), CacheGet], env, w, h, ser) == Eval([CacheGet], env, w, h, ser)
  {
    AuthenticateLayer(roles, [CacheGet], env, w, h, ser);
  }

  /** A POST to an invalidating handler that the rate limiter, the token
      gate and the role check all let through invalidates the request's
      tenant: the call is logged, and the tenant's entries are dropped. */
  lemma {:induction false} AdmittedPostInvalidates(roles: set<string>, env: Env, w: World, h: Behaviour, ser: Json -> string)
    requires Throttled(env.session) ==> RateLimiter.Admits(RateLimiter.Advance(w.window, env.now), env.now)
    requires TokenGate.Admits(env.session.Some?, env.uri, env.token)
    requires Authorized(roles, env.session, env.tid)
    requires env.invalidateCache
    ensures var r := Eval([RateLimit, RequireToken, Authenticate(roles), InvalidateCache], env, w, h, ser);
      r.world.invalidations == w.invalidations + [env.tid] &&
      r.world.cache == Drop(w.cache, env.tid)
  {
    var guarded := [Authenticate(roles), InvalidateCache];
    assert [RateLimit, RequireToken, Authenticate(roles), InvalidateCache] == [RateLimit] + ([RequireToken] + guarded);
    var w1 := if Throttled(env.session) then w.(window := RateLimiter.Advance(w.window, env.now)) else w;
    if Throttled(env.session) {
      RateLimitThrottles([RequireToken] + guarded, env, w, h, ser);
    } else {
      RateLimitBypass([RequireToken] + guarded, env, w, h, ser);
    }
    TokenGateLayer(guarded, env, w1, h, ser);
    AuthenticateLayer(roles, [InvalidateCache], env, w1, h, ser);
    InvalidationPrecedesHandler(env, w1, h, ser);
  }

  /** The cache life cycle on one tenant: a first GET of a cacheable
      handler runs the handler and stores its body; a second GET returns
      that body without running it; a request to an invalidating handler of
      the same tenant drops the entry; a third GET runs the handler again.
      Every request after the first is a new one: it starts with no content
      type on its response and with its own session's throttle window. */
  lemma {:induction false} CacheLifeCycle(getMeta: Metadata, postMeta: Metadata, getEnv: Env, postEnv: Env,
                                          w0: World, postWindow: RateLimiter.Window, h: Behaviour, hPost: Behaviour, ser: Json -> string)
    requires getMeta.cacheResource && !getMeta.requireToken
    requires postMeta.invalidateCache && !postMeta.refreshConnectionEndpoints
    requires postEnv.invalidateCache && postEnv.tid == getEnv.tid
    requires Authorized(Normalise(getMeta.checkRoles), getEnv.session, getEnv.tid)
    requires Authorized(Normalise(postMeta.checkRoles), postEnv.session, postEnv.tid)
    requires Throttled(postEnv.session) ==> RateLimiter.Admits(RateLimiter.Advance(postWindow, postEnv.now), postEnv.now)
    requires TokenGate.Admits(postEnv.session.Some?, postEnv.uri, postEnv.token)
    requires getEnv.Key() !in w0.cache && h.result.Ok?
    ensures var get := Compose(getMeta, "get", true);
      var post := Compose(postMeta, "post", true);
      var first := Eval(get, getEnv, w0, h, ser);
      var second := Eval(get, getEnv, NextRequest(first.world, w0.window), h, ser);
      var third := Eval(post, postEnv, NextRequest(second.world, postWindow), hPost, ser);
      var fourth := Eval(get, getEnv, NextRequest(third.world, w0.window), h, ser);
      first.world.calls == w0.calls + 1 &&
      getEnv.Key() in first.world.cache &&
      second.result == first.result && second.world.calls == first.world.calls &&
      getEnv.Key() !in third.world.cache &&
      fourth.world.calls == third.world.calls + 1 && fourth.result == first.result
  {
    var roles := Normalise(getMeta.checkRoles);
    CacheableGetChain(getMeta);
    InvalidatingPostChain(postMeta);

    AdmittedGetReachesCache(roles, getEnv, w0, h, ser);
    CacheMissRunsHandlerOnce(getEnv, w0, h, ser);
    var first := Eval([CacheGet], getEnv, w0, h, ser);

    var w1 := NextRequest(first.world, w0.window);
    AdmittedGetReachesCache(roles, getEnv, w1, h, ser);
    assert [CacheGet] + [] == [CacheGet];
    CacheRoundTrip([], getEnv, w0, h, w1, h, ser);
    var second := Eval([CacheGet], getEnv, w1, h, ser);

    var post := [RateLimit, RequireToken, Authenticate(Normalise(postMeta.checkRoles)), InvalidateCache];
    var w2 := NextRequest(second.world, postWindow);
    AdmittedPostInvalidates(Normalise(postMeta.checkRoles), postEnv, w2, hPost, ser);
    var third := Eval(post, postEnv, w2, hPost, ser);

    var w3 := NextRequest(third.world, w0.window);
    AdmittedGetReachesCache(roles, getEnv, w3, h, ser);
    CacheMissRunsHandlerOnce(getEnv, w3, h, ser);
  }

  /** A handler class: its attributes and the current implementation of
      each of its methods, as the chain of layers wrapped around the
      undecorated method ([] for a method not decorated yet). */
  class HandlerClass {
    const meta: Metadata
    var methods: map<string, seq<Layer>>

    constructor (meta: Metadata, names: set<string>)
      ensures this.meta == meta
      ensures methods == map n | n in names :: []
    {
      this.meta := meta;
      methods := map n | n in names :: [];
    }

    /** Wraps method `name` in the layers its attributes call for, around
        whatever implementation it has now, and writes it back. */
    method DecorateMethod(name: string, enableApiCache: bool)
      requires name in methods
      modifies this
      ensures methods == old(methods)[name := Compose(meta, name, enableApiCache) + old(methods[name])]
    {
      var roles := Normalise(meta.checkRoles);
      var f := methods[name];
      ghost var base := f;
      if enableApiCache {
        if name == "get" {
          if meta.cacheResource {
            f := [CacheGet] + f;
          }
        } else {
          if meta.invalidateCache {
            f := [InvalidateCache] + f;
          }
          if meta.refreshConnectionEndpoints {
            f := [RefreshEndpoints] + f;
          }
        }
      }
      ghost var caching := CacheLayers(meta, name, enableApiCache);
      assert f == caching + base;
      f := [Authenticate(roles)] + f;
      ghost var guarded := [Authenticate(roles)] + caching;
      assert f == guarded + base;
      if name !in Unguarded || meta.requireToken {
        f := [RequireToken] + f;
        f := [RateLimit] + f;
        assert f == ([RateLimit] + ([RequireToken] + guarded)) + base;
      }
      assert f == Compose(meta, name, enableApiCache) + base;
      methods := methods[name := f];
    }
  }
}
