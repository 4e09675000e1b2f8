# GlobaLeaks REST decorators, modelled in Dafny

This project models the policy layer that GlobaLeaks wraps around every
REST handler method (`backend/globaleaks/rest/decorators.py`). At
registration, `decorate_method` wraps each handler method in a chain of
layers chosen from the handler's attributes:

- a per-session rate limiter for whistleblower sessions;
- a proof-of-work token gate;
- a role check;
- a response cache for GET;
- cache invalidation for other methods;
- a connection-endpoint refresh hook.

The model has one module per component:

| file | module | what it holds |
|---|---|---|
| basics.dfy | `Basics` | errors, results, handler return values, the suffix test on URIs |
| rate_limiter.dfy | `RateLimiter` | the throttle window, its update, the admission test, bursts of calls |
| token_gate.dfy | `TokenGate` | the token admission predicate |
| authorizer.dfy | `Authorizer` | the role rule with the `any` and `user` markers |
| response_cache.dfy | `ResponseCache` | cache keys and entries, the shared `Cache` store |
| pipeline.dfy | `Pipeline` | layer tags and `Eval`, which runs a request through a chain and the handler, as a function on a value world |
| composer.dfy | `Composer` | `Compose` (the chain `decorate_method` builds), `HandlerClass.DecorateMethod`, which builds it step by step, and lemmas about composed chains |
| runtime.dfy | `Runtime` | the decorated handler at run time: `Handler.Invoke` runs the wrappers, updating the session, request, cache and state objects in place, and is proved equal to `Pipeline.Eval` |

A chain is a sequence of layer tags, outermost first. The empty chain is
the undecorated method. Deferreds are synchronous `Result` values. Raising
an exception is an `Err`. Time is real seconds, passed in as `now`. What
the handler method does is a `Behaviour`: the content type it sets, if any,
and what it returns. `json.dumps` is a function parameter `ser`.

The model follows what `decorators.py` does, which differs in three points
from what one might expect of such a layer:

- The cache population is not single-flight. Two concurrent misses for
  the same key would both run the handler. The model claims no
  single-flight property.
- Authentication is not innermost, next to the handler. The code adds it
  outside the cache, invalidation and refresh layers (line 133).
  `Composer.Compose` orders it that way.
- Invalidation runs when the request enters the layer, before the handler,
  whether or not the handler then succeeds (lines 93-96).
  `Pipeline.InvalidationPrecedesHandler` states this.

## Model

| member | source | states |
|---|---|---|
| `RateLimiter.Advance` | backend/globaleaks/rest/decorators.py:19-23 | after one call's bookkeeping the window is either restarted at `now` with one call, or keeps its start with one more call; the start never moves back |
| `RateLimiter.Admits` | backend/globaleaks/rest/decorators.py:25-28 | a window holding at most five calls always admits; an admitted call has a count of at most 5 times the divisor |
| `RateLimiter.Period` | backend/globaleaks/rest/decorators.py:25 | the divisor is at least one second and at least the time elapsed since the window start |
| `RateLimiter.AdvanceCountsEveryCall` | backend/globaleaks/rest/decorators.py:19-23 | the window is reset to (now, 0) exactly when more than 30 s have passed; the counter then grows by exactly one, even on a call that is then rejected |
| `RateLimiter.RejectsIffOverRate` | backend/globaleaks/rest/decorators.py:25-28 | a call is rejected exactly when the count exceeds 5 times the divisor, i.e. more than five calls per elapsed second (at least one) |
| `RateLimiter.FiveCallsNeverRejected` | backend/globaleaks/rest/decorators.py:25-28 | no call is rejected while the window holds at most five calls, however quickly they come |
| `RateLimiter.BurstWithinOneSecond` | backend/globaleaks/rest/decorators.py:17-28 | for calls within one second of the window start, the k-th call is admitted exactly when the count it brings the window to is at most five |
| `RateLimiter.SixthCallRejected` | backend/globaleaks/rest/decorators.py:17-28 | right after a reset, of calls within one second the first five are admitted and the sixth is the first rejected |
| `Basics.EndsWith` | backend/globaleaks/rest/decorators.py:39 | the URI ends with the suffix exactly when its last characters are, one by one, the suffix's characters |
| `Basics.EndsWithIsSuffix` | backend/globaleaks/rest/decorators.py:39 | the suffix test on the URI holds exactly when the URI is some string followed by the suffix |
| `TokenGate.Admits` | backend/globaleaks/rest/decorators.py:39-40 | a request is refused exactly when it has no session, its URI does not end in `/api/token` and it carries no token |
| `TokenGate.SessionOrTokenSuffices` | backend/globaleaks/rest/decorators.py:39 | a session alone, or a token alone, passes the gate |
| `TokenGate.TokenEndpointAlwaysAdmitted` | backend/globaleaks/rest/decorators.py:39 | any URI ending in `/api/token` passes with neither session nor token |
| `Authorizer.Authorized` | backend/globaleaks/rest/decorators.py:50-54 | `any` admits every call; any other admitted call has a session of the request's tenant whose role is listed in the roles or is a staff role |
| `Authorizer.AdmittedRoles` | backend/globaleaks/rest/decorators.py:52-54 | the roles a role set admits: the set itself, plus the staff roles when it holds `user`, and nothing else |
| `Authorizer.AuthorizedIffAdmitted` | backend/globaleaks/rest/decorators.py:50-54 | a call is admitted exactly when the roles hold `any`, or the session is of the request's tenant and its role is among the admitted roles |
| `Authorizer.AnyAdmitsEveryone` | backend/globaleaks/rest/decorators.py:50 | `any` admits every request, with or without a session |
| `Authorizer.NoSessionOnlyThroughAny` | backend/globaleaks/rest/decorators.py:50-51 | a request without a session is admitted if and only if the roles hold `any` |
| `Authorizer.OtherTenantRefused` | backend/globaleaks/rest/decorators.py:51 | without `any`, a session of another tenant is refused |
| `Authorizer.UserMarkerMeansStaff` | backend/globaleaks/rest/decorators.py:52-54 | with roles `{user}`, a session of the request's tenant is admitted exactly when its role is admin, receiver or custodian (or literally `user`) |
| `Authorizer.AuthorizedMonotone` | backend/globaleaks/rest/decorators.py:50-54 | allowing more roles never refuses an admitted caller |
| `ResponseCache.Drop` | backend/globaleaks/rest/decorators.py:94 | assumed store semantics (the store is not part of this model): invalidating a tenant removes all of that tenant's entries and keeps every other tenant's entries unchanged |
| `ResponseCache.DropIdempotent` | backend/globaleaks/rest/decorators.py:94 | assumed store semantics: invalidating a tenant twice removes nothing more than once |
| `ResponseCache.DropKeepsOtherTenants` | backend/globaleaks/rest/decorators.py:94 | assumed store semantics: an entry of another tenant is present and equal after the invalidation exactly when it was before |
| `ResponseCache.Cache.Get` | backend/globaleaks/rest/decorators.py:66 | the lookup finds an entry exactly when the key is stored, and returns that entry |
| `ResponseCache.Cache.Set` | backend/globaleaks/rest/decorators.py:76 | stores the entry under exactly the given key, leaves the other keys as they were and returns the stored entry |
| `ResponseCache.Cache.Invalidate` | backend/globaleaks/rest/decorators.py:94 | the call is logged with its tenant (what the decorator guarantees); the store becomes `Drop` of its old contents (assumed store semantics) |
| `Pipeline.Throttled` | backend/globaleaks/rest/decorators.py:17 | only a present session is throttled, and never one with a staff role |
| `Pipeline.Eval` | backend/globaleaks/rest/decorators.py:14-112 | runs a request through the layers in chain order, each as its wrapper does, then the handler; a success that did not run the handler can only come from a cache lookup in the chain |
| `Pipeline.RunHandler` | backend/globaleaks/rest/decorators.py:30 | the undecorated method runs once and its result is returned |
| `Pipeline.StoreResponse` | backend/globaleaks/rest/decorators.py:70-76 | on a miss, dict and list results are serialised and the content type is set to JSON; other results are kept with the content type unchanged; the current content type (JSON by default) and the body are stored under the key, only that key changes, and the stored body is returned |
| `Pipeline.HandlerRunsAtMostOnce` | backend/globaleaks/rest/decorators.py:14-112 | through any chain the handler runs at most once per request; refresh count and invalidation log never shrink |
| `Pipeline.OnlyThrottledRoleTouched` | backend/globaleaks/rest/decorators.py:17 | with no session or a non-whistleblower session, no chain changes the throttle window |
| `Pipeline.RateLimitBypass` | backend/globaleaks/rest/decorators.py:17-30 | for a caller that is not a whistleblower, the rate limiter calls the next layer on the same state |
| `Pipeline.RateLimitThrottles` | backend/globaleaks/rest/decorators.py:17-30 | for a whistleblower the window is advanced first; the call is refused with NotAuthenticated, the count kept, exactly when the advanced window refuses it |
| `Pipeline.TokenGateLayer` | backend/globaleaks/rest/decorators.py:38-42 | a refused request gets the TokenFailure error and changes nothing; an admitted one is handed on unchanged |
| `Pipeline.AuthenticateLayer` | backend/globaleaks/rest/decorators.py:49-58 | a refused caller gets NotAuthenticated and the next layer does not run; an admitted one is handed on unchanged |
| `Pipeline.InvalidationPrecedesHandler` | backend/globaleaks/rest/decorators.py:92-96 | with the attribute set, the tenant is invalidated before the handler runs, whatever the handler returns, failure included |
| `Pipeline.InvalidationNeedsAttribute` | backend/globaleaks/rest/decorators.py:93-96 | without the invalidate-cache attribute the layer only hands the request on |
| `Pipeline.RefreshPassesResultThrough` | backend/globaleaks/rest/decorators.py:103-110 | the inner result is returned unchanged; endpoints are refreshed once exactly when it is a success, and nothing else changes |
| `Pipeline.CacheHitSkipsHandler` | backend/globaleaks/rest/decorators.py:82-85 | on a hit the content type is set from the entry, the stored body is returned, and the handler does not run |
| `Pipeline.CacheMissRunsHandlerOnce` | backend/globaleaks/rest/decorators.py:66-80 | on a miss the handler runs once; a failure is returned with nothing stored; a success is serialised, stored under exactly the request's key and the stored body returned |
| `Pipeline.EntrySurvivesWithoutInvalidation` | backend/globaleaks/rest/decorators.py:14-112 | a request through any chain that logs no invalidation keeps every entry stored before it, unchanged |
| `Pipeline.CacheRoundTrip` | backend/globaleaks/rest/decorators.py:66-85 | after a miss has filled the cache, a later request with the same key, in any state whose store still holds that entry, returns the same body and sets the stored content type, without running the handler |
| `Pipeline.CacheMissStoresKey` | backend/globaleaks/rest/decorators.py:67-76 | a successful miss leaves the request's key in the store |
| `Pipeline.CacheRoundTripAcross` | backend/globaleaks/rest/decorators.py:63-98 | after a miss fills the cache and any new request in between (its own response, its own session's window) logs no invalidation, a new request with the same key returns the same body and the stored content type without running the handler |
| `Composer.CacheLayers` | backend/globaleaks/rest/decorators.py:122-131 | with the API cache on, a cacheable GET gets the cache lookup and any other method gets refresh outside invalidation, each as its attribute says; with it off there are no cache layers |
| `Composer.Compose` | backend/globaleaks/rest/decorators.py:115-137 | the chain is in the order rate limit, token, authentication, refresh, invalidation or cache lookup; cache layers present exactly as the settings say; token and rate limit present exactly when the method is not GET or OPTIONS or the handler asks for a token; authentication always present, with the normalised roles |
| `Composer.Normalise` | backend/globaleaks/rest/decorators.py:116-118 | a single role becomes a set holding that role and nothing else; a role set is kept as it is |
| `Composer.SingleRoleIsSingleton` | backend/globaleaks/rest/decorators.py:116-118 | a single role in `check_roles` is checked as the singleton set holding it |
| `Composer.CachingExclusive` | backend/globaleaks/rest/decorators.py:123-131 | no chain has both a cache lookup and an invalidation or refresh layer |
| `Composer.RefusedBeforeHandler` | backend/globaleaks/rest/decorators.py:133-137 | behind rate limit and token layers, a refusing authentication layer ends the request with an error before the handler, changing nothing but the throttle window |
| `Composer.UnauthorizedNeverReachesHandler` | backend/globaleaks/rest/decorators.py:133-137 | for every composed chain, a caller the roles refuse gets an error; the handler does not run; cache, invalidation log and refresh count are unchanged |
| `Composer.CacheableGetChain` | backend/globaleaks/rest/decorators.py:122-136 | a cacheable GET without a token requirement is wrapped in authentication then cache lookup |
| `Composer.InvalidatingPostChain` | backend/globaleaks/rest/decorators.py:126-137 | an invalidating, non-refreshing POST is wrapped in rate limit, token, authentication, invalidation |
| `Composer.AdmittedGetReachesCache` | backend/globaleaks/rest/decorators.py:50-56 | an admitted GET reaches the cache lookup on the same state |
| `Composer.AdmittedPostInvalidates` | backend/globaleaks/rest/decorators.py:17-96 | a POST to an invalidating handler that the rate limiter (for a whistleblower, the advanced window), the token gate and the role check let through logs an invalidation of its tenant; the tenant's entries are dropped under the assumed store semantics |
| `Composer.CacheLifeCycle` | backend/globaleaks/rest/decorators.py:63-98 | over four requests, each after the first starting with a new response and its own session's window: the first GET runs the handler and caches; the second returns the same body without running it; an admitted invalidating POST on the tenant drops the entry (under the assumed store semantics); a third GET runs the handler again |
| `Composer.HandlerClass.DecorateMethod` | backend/globaleaks/rest/decorators.py:115-139 | builds the chain layer by layer around the method's current implementation and writes it back; the result is `Compose` of the attributes in front of the old chain, other methods unchanged |
| `Runtime.State.RefreshConnectionEndpoints` | backend/globaleaks/rest/decorators.py:107 | each refresh is counted once |
| `Runtime.Handler.CallHandler` | backend/globaleaks/rest/decorators.py:30 | running the undecorated method counts one call, applies the content type it sets and returns its result, as `Pipeline.RunHandler` says |
| `Runtime.Handler.Invoke` | backend/globaleaks/rest/decorators.py:14-112 | running the wrappers in place on the session, request, cache and state gives the result and the new state that `Pipeline.Eval` gives |

## Left out

- Twisted deferreds (`maybeDeferred`, `addCallback`): a call either succeeds or fails synchronously. Suspension and callback scheduling are not modelled.
- Concurrency: requests run one at a time. Racy updates of the session counter and concurrent cache misses are not modelled.
- The cache store: `globaleaks/rest/cache.py` is not part of this model. Its `get` and `set` are lookup and update in a map. What `decorators.py` guarantees is only that `invalidate` is called with the request's tenant; the model logs that call. `Cache.Invalidate` is assumed to drop exactly that tenant's entries (`Drop`), the intended per-tenant behaviour. The rows marked "assumed store semantics" rest on that assumption, and so do the conclusion of `Composer.AdmittedPostInvalidates` about the store and the conclusion of `Composer.CacheLifeCycle` that the entry is gone after the POST.
- `json.dumps` with `JSONEncoder`: an arbitrary function `ser` from JSON values to strings, given as a parameter.
- Exceptions in the success callbacks: `refresh_connection_endpoints` (decorators.py:106-108) and `json.dumps` (decorators.py:73) are assumed not to raise. In the source, an exception in either callback turns the handler's success into a failure, and after a raising `json.dumps` nothing is stored.
- Pipeline.RefreshPassesResultThrough: "the inner result is returned unchanged" holds under the assumption above; a raising refresh would replace a success with a failure.
- Pipeline.StoreResponse: the serialisation always succeeds under the assumption above; a raising `json.dumps` would fail the request with nothing stored.
- `datetime_now`, `timedelta` and `timestamp()`: time is exact real seconds passed in as `now`. Float rounding is not modelled.
- Requests and responses: reduced to URI, tenant, path, language, token presence and the response content type. Byte strings are character strings. Header names are case-insensitive, so `content-type` and `Content-type` are one header.
- `State.refresh_connection_endpoints`: a counter of refreshes. What it recomputes is not modelled.
- The handler method's own effects: a handler sets at most the response content type and returns a result. Any other state it changes is not modelled.
- `getattr`/`setattr` on the handler class: the attributes are a `Metadata` value, and methods are a map from name to chain. A missing method raises AttributeError in Python; here `DecorateMethod` requires the name to be present.
- Python truthiness: the session is present or absent, and the token is present or absent.
