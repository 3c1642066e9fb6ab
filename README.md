# Request decision pipeline of an authenticating reverse-proxy gateway

This project models in Dafny what the gateway in `src/auth.go` decides for each
inbound request on `/auth/:apikey`. The request passes three gates in a fixed order:

1. The rate-limit middleware answers 429 and aborts when the shared limiter denies.
2. Inside `handleAuth` come two credential gates. An invalid key gets 401. A valid
   key whose detail lookup fails gets 500.
3. The closed backend switch comes last. `"8545"` and `"5052"` select a localhost
   upstream. Any other id, the empty one included, gets 400.

When all three gates pass, `handleAuth` normalises the `path` query value: a
non-empty path without a leading `/` gets one. It then overwrites the request URL
path with the result and hands the request to a single-host reverse proxy for the
chosen upstream.

Files:

- `wrappers.dfy`: the `Option` type.
- `gateway.dfy` (module `Gateway`): the pure decision model.
  - `ResolveBackend`, `NormalizePath`, and `AuthOutcome` (the decision of `handleAuth`).
  - `Pipeline`, which puts the rate-limit gate in front of `AuthOutcome`.
  - `Consulted`, the ordered list of collaborator calls a request causes: limiter,
    key validity, key details, proxy.
  - A reference definition of gate precedence: the gates in their fixed order, and
    `FirstFailing`, which picks the first gate that fails.
  - The lemmas relating all of these.
- `server.dfy` (module `Server`): the class `Context`, the request context as the
  handlers change it in place.
  - `RateLimitMiddleware` either writes 429 and sets `aborted`, or hands over to
    `HandleAuth`. That is the next handler in the chain of handlers that
    `startMiddleware` adds with `r.Use` and `r.Any` (metrics, rate limit, `handleAuth`).
  - `HandleAuth` reassigns its local path, overwrites `urlPath` and records the
    proxy hand-off.
  - Both methods are proved against `Pipeline`, `AuthOutcome` and `Consulted`.

Abstract inputs:

- The limiter's `Allow()` is a boolean parameter.
- The credential store is a value of two functions:
  - `isValid`, the key-membership predicate. In the source it is false both for an
    unknown key and when the database query fails.
  - `details`, an independent lookup that may fail (`None`) even for a key that
    `isValid` accepted.
- Query values that are absent are the empty string, as gin's `Query` returns them.

## Model

| member | source | states |
|---|---|---|
| Gateway.ResolveBackend | src/auth.go:102-112 | exactly the ids "8545" and "5052" resolve, each to `http://localhost:` followed by the id; every other id, the empty one included, is unknown |
| Gateway.HasSlashPrefix | src/auth.go:121 | the prefix test on "/" holds exactly for a non-empty path whose first character is '/' |
| Gateway.NormalizePath | src/auth.go:121-123 | the result is empty exactly when the input is; otherwise it begins with '/'; the input is a suffix of the result, which is at most one character longer; a path already starting with '/' is unchanged |
| Gateway.NormalizeIdempotent | src/auth.go:121-123 | normalising a normalised path changes nothing |
| Gateway.NormalizeFixedPoints | src/auth.go:121-123 | a path is left unchanged exactly when it is empty or starts with '/' |
| Gateway.AuthOutcome | src/auth.go:87-123 | handleAuth never answers 429: a rejection is 401, 500 or 400; a forward happens only for a valid key with a successful lookup, to the resolved base with the normalised path |
| Gateway.Pipeline | src/auth.go:69-129 | every outcome is a rejection with 429, 401, 500 or 400, or a forward to one of the two localhost bases with a path that is empty or starts with '/' |
| Gateway.AuthConsulted | src/auth.go:87-128 | handleAuth first checks the key; it looks up the details exactly when the key is valid; it calls the proxy third exactly when the request is forwarded, with the forwarded target and path |
| Gateway.Consulted | src/auth.go:47-78 | the limiter is asked first; handleAuth's calls follow it exactly when the limiter admits, and nothing follows otherwise |
| Gateway.RateLimitedFirst | src/auth.go:69-78 | a denied admission yields 429 and the outcome is the same for every store and every request, so nothing after the limiter is consulted |
| Gateway.InvalidKeyUnauthorized | src/auth.go:87-91 | an invalid key yields 401 whatever the backend, the path and the detail lookup |
| Gateway.LookupFailureIsInternal | src/auth.go:93-98 | a valid key whose detail lookup fails yields 500 and never 401, whatever the backend and path |
| Gateway.UnknownBackendBadRequest | src/auth.go:102-112 | past the credential gates, an id other than "8545" and "5052" yields 400 whatever the path |
| Gateway.ForwardExactly | src/auth.go:80-128 | a request is forwarded to a target with a path if and only if every gate passes, the target is the resolved base and the path is the normalised query path |
| Gateway.ForwardExample | src/auth.go:121-128 | a valid key with backend "8545" and path "data" goes to `http://localhost:8545` with path "/data"; backend "5052" with an empty path is forwarded with an empty path (the proxy then targets the upstream root) |
| Gateway.LimiterBeforeStore | src/auth.go:47-50 | the limiter is the first collaborator asked; after a denial it is the only one |
| Gateway.CallsFollowGates | src/auth.go:69-128 | the validity check happens exactly when the limiter admits; the detail lookup happens exactly when the limiter admits and the key is valid; the proxy is called with a target and path exactly when that is the outcome |
| Gateway.FirstFailing | src/auth.go:71-112 | the reference dispatcher returns the index of a failing gate such that every earlier gate passes, and returns none exactly when no gate fails |
| Gateway.PipelineFollowsGateOrder | src/auth.go:71-112 | the pipeline rejects with the status of the first failing gate in the order rate limit, key validity, detail lookup, backend; when none fails it forwards to the resolved base with the normalised path |
| Gateway.GateStatusInjective | src/auth.go:72-110 | the four gates write four distinct statuses, so the status tells which gate stopped the request |
| Gateway.EarlierGateWins | src/auth.go:71-112 | when a gate fails the request is rejected, and never with the status of a gate later in the order |
| Server.Context.constructor | src/auth.go:81-83 | a fresh context holds the request's key, backend and path, has not been aborted, answered or made any call |
| Server.Context.HandleAuth | src/auth.go:80-129 | the answer written is the decision of handleAuth; the request URL path becomes the normalised path exactly when the request is forwarded and is otherwise untouched; the calls made are the validity check, then the lookup, then the proxy, each only if the gate before it passed |
| Server.Context.RateLimitMiddleware | src/auth.go:69-78 | the answer is the pipeline's outcome; the context is aborted exactly when the limiter denies; the limiter is called before any store call, and handleAuth's calls follow only on admission |

## Left out

- The token bucket of `golang.org/x/time/rate` (1 token per second, burst 10000, at src/auth.go:36) is not modelled. It uses floating-point tokens and the wall clock, so its decision is an input.
- The SQLite credential store in `src/keymanagement.go` is not modelled. It is replaced by the two abstract functions described above.
- Because the validity predicate is false on a database error, a store outage during the validity check yields 401, not 500. The model inherits this through the abstract predicate.
- The 500 after a failed `url.Parse` (src/auth.go:114-118) is left out. It cannot happen for the two constant targets, so parsing always succeeds in the model.
- No outcome is modelled for a forwarding fault. `handleAuth` never writes one itself. The reverse proxy's own error answer is foreign code.
- The reverse proxy is modelled only as a hand-off of the chosen target and the rewritten path. Its streaming of bodies, header relay and relay of the upstream status are foreign I/O.
- The metrics middleware (src/auth.go:57-66) and the Prometheus registration (src/auth.go:18-42) are left out. The metrics middleware only wraps the chain and does not change the outcome.
- The Logger and Recovery middlewares that `gin.Default()` installs ahead of the metrics middleware (src/auth.go:45) are not modelled. Recovery would turn a panic into a 500, and nothing in the modelled handlers panics.
- Also left out: gin routing and server start-up, the health and metrics endpoints, the JSON bodies of rejections, logging, and concurrency between requests.
- `src/main.go` (command-line wiring) is not part of this model.
- Strings are modelled as sequences of characters. Go compares the path byte-wise, and for the single-byte '/' the prefix test is the same.
