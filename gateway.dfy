/**
 * The request decision pipeline of the gateway (src/auth.go): the rate-limit
 * gate, the two credential gates, the closed backend switch, and the
 * normalisation of the forward path, composed into one total function from
 * abstract inputs to an outcome.
 */
module Gateway {
  import opened Wrappers

  // Response statuses written by the pipeline (net/http constants).
  const StatusTooManyRequests: int := 429
  const StatusUnauthorized: int := 401
  const StatusInternalServerError: int := 500
  const StatusBadRequest: int := 400

  // Upstream bases of the two known logical backends.
  const Base8545: string := "http://localhost:8545"
  const Base5052: string := "http://localhost:5052"

  /** What the detail lookup returns for a key. */
  datatype Credentials = Credentials(username: string, protocol: string)

  /**
   * The credential store as the pipeline sees it: a key-membership predicate
   * (false also when the store cannot be queried) and an independent detail
   * lookup that may fail even for a key the predicate accepted.
   */
  datatype CredentialStore = CredentialStore(
    isValid: string -> bool,
    details: string -> Option<Credentials>)

  /** The parts of an inbound request the pipeline reads: the path parameter and the two query values (empty when absent). */
  datatype Request = Request(apiKey: string, backend: string, path: string)

  /** A request is either rejected with a status or forwarded to a base with a rewritten path. */
  datatype Outcome = Reject(status: int) | Forward(target: string, path: string)

  /** The closed switch from a logical backend id to its upstream base. */
  function ResolveBackend(backend: string): (r: Option<string>)
    ensures r.Some? <==> backend == "8545" || backend == "5052"
    ensures r.Some? ==> r.value == "http://localhost:" + backend
  {
    match backend
    case "8545" => Some(Base8545)
    case "5052" => Some(Base5052)
    case _ => None
  }

  /** Go's strings.HasPrefix: the first |prefix| elements of s are prefix. */
  predicate HasPrefix(s: string, prefix: string)
  {
    |prefix| <= |s| && s[..|prefix|] == prefix
  }

  /** Go's strings.HasPrefix(path, "/"), as handleAuth uses it, tests the first character only. */
  lemma HasSlashPrefix(s: string)
    ensures HasPrefix(s, "/") <==> |s| > 0 && s[0] == '/'
  {
  }

  /** The normalisation test: a non-empty path that does not start with a slash. */
  predicate NeedsLeadingSlash(path: string)
  {
    path != "" && !HasPrefix(path, "/")
  }

  /** The forward path after normalisation. */
  function NormalizePath(path: string): (r: string)
    ensures r == "" <==> path == ""
    ensures r == "" || r[0] == '/'
    ensures |path| <= |r| <= |path| + 1 && r[|r| - |path|..] == path
    ensures |path| > 0 && path[0] == '/' ==> r == path
  {
    if NeedsLeadingSlash(path) then "/" + path else path
  }

  lemma NormalizeIdempotent(path: string)
    ensures NormalizePath(NormalizePath(path)) == NormalizePath(path)
  {
  }

  lemma NormalizeFixedPoints(path: string)
    ensures NormalizePath(path) == path <==> path == "" || path[0] == '/'
  {
  }

  /** The decision of handleAuth once the request has passed the rate limiter. */
  function AuthOutcome(store: CredentialStore, req: Request): (o: Outcome)
    ensures o.Reject? ==> o.status in {StatusUnauthorized, StatusInternalServerError, StatusBadRequest}
    ensures o.Forward? ==> store.isValid(req.apiKey) && store.details(req.apiKey).Some?
    ensures o.Forward? ==> ResolveBackend(req.backend) == Some(o.target) && o.path == NormalizePath(req.path)
  {
    if !store.isValid(req.apiKey) then Reject(StatusUnauthorized)
    else if store.details(req.apiKey).None? then Reject(StatusInternalServerError)
    else match ResolveBackend(req.backend)
      case None => Reject(StatusBadRequest)
      case Some(target) => Forward(target, NormalizePath(req.path))
  }

  /** The whole pipeline: the rate-limit middleware runs before handleAuth. */
  function Pipeline(allow: bool, store: CredentialStore, req: Request): (o: Outcome)
    ensures o.Reject? ==> o.status in {StatusTooManyRequests, StatusUnauthorized,
                                       StatusInternalServerError, StatusBadRequest}
    ensures o.Forward? ==> o.target in {Base8545, Base5052}
    ensures o.Forward? ==> o.path == "" || o.path[0] == '/'
  {
    if !allow then Reject(StatusTooManyRequests) else AuthOutcome(store, req)
  }

  /** A call the pipeline makes to a collaborator: the limiter, the store, or the reverse proxy. */
  datatype Call = LimiterAllow | KeyValidity(key: string) | KeyDetails(key: string) | Proxy(target: string, path: string)

  /** The collaborator calls handleAuth makes, in order, up to the gate that stops it. */
  function AuthConsulted(store: CredentialStore, req: Request): (r: seq<Call>)
    ensures 1 <= |r| <= 3 && r[0] == KeyValidity(req.apiKey)
    ensures |r| > 1 <==> store.isValid(req.apiKey)
    ensures |r| > 1 ==> r[1] == KeyDetails(req.apiKey)
    ensures |r| == 3 <==> AuthOutcome(store, req).Forward?
    ensures |r| == 3 ==> r[2] == Proxy(AuthOutcome(store, req).target, AuthOutcome(store, req).path)
  {
    if !store.isValid(req.apiKey) then [KeyValidity(req.apiKey)]
    else if store.details(req.apiKey).None? then [KeyValidity(req.apiKey), KeyDetails(req.apiKey)]
    else match ResolveBackend(req.backend)
      case None => [KeyValidity(req.apiKey), KeyDetails(req.apiKey)]
      case Some(target) => [KeyValidity(req.apiKey), KeyDetails(req.apiKey), Proxy(target, NormalizePath(req.path))]
  }

  /** The collaborator calls of the whole pipeline: the limiter first, handleAuth only when admitted. */
  function Consulted(allow: bool, store: CredentialStore, req: Request): (r: seq<Call>)
    ensures |r| >= 1 && r[0] == LimiterAllow
    ensures |r| > 1 <==> allow
    ensures allow ==> r[1..] == AuthConsulted(store, req)
  {
    [LimiterAllow] + (if allow then AuthConsulted(store, req) else [])
  }

  // ---------------------------------------------------------------------
  // Properties of the gates, one lemma per guarantee.

  /** A denied admission rejects with 429 whatever the store and the request: none of them is consulted. */
  lemma RateLimitedFirst(store: CredentialStore, req: Request)
    ensures Pipeline(false, store, req) == Reject(StatusTooManyRequests)
    ensures forall store': CredentialStore, req': Request ::
              Pipeline(false, store', req') == Pipeline(false, store, req)
  {
  }

  /** An invalid key rejects with 401 whatever the backend, the path and the detail lookup. */
  lemma InvalidKeyUnauthorized(store: CredentialStore, req: Request)
    requires !store.isValid(req.apiKey)
    ensures Pipeline(true, store, req) == Reject(StatusUnauthorized)
    ensures forall backend: string, path: string, details: string -> Option<Credentials> ::
              Pipeline(true, store.(details := details), req.(backend := backend, path := path))
                == Reject(StatusUnauthorized)
  {
  }

  /** A valid key whose detail lookup fails rejects with 500, never with 401, whatever the backend and path. */
  lemma LookupFailureIsInternal(store: CredentialStore, req: Request)
    requires store.isValid(req.apiKey) && store.details(req.apiKey).None?
    ensures Pipeline(true, store, req) == Reject(StatusInternalServerError)
    ensures Pipeline(true, store, req) != Reject(StatusUnauthorized)
    ensures forall backend: string, path: string ::
              Pipeline(true, store, req.(backend := backend, path := path))
                == Reject(StatusInternalServerError)
  {
  }

  /** Past the credential gates, an unknown backend id (the empty one included) rejects with 400 whatever the path. */
  lemma UnknownBackendBadRequest(store: CredentialStore, req: Request)
    requires store.isValid(req.apiKey) && store.details(req.apiKey).Some?
    requires req.backend != "8545" && req.backend != "5052"
    ensures forall path: string ::
              Pipeline(true, store, req.(path := path)) == Reject(StatusBadRequest)
  {
  }

  /** A request is forwarded exactly when every gate passes, to the resolved base with the normalised path. */
  lemma ForwardExactly(allow: bool, store: CredentialStore, req: Request, target: string, path: string)
    ensures Pipeline(allow, store, req) == Forward(target, path) <==>
              allow && store.isValid(req.apiKey) && store.details(req.apiKey).Some? &&
              ResolveBackend(req.backend) == Some(target) && path == NormalizePath(req.path)
  {
  }

  /** The worked example: a valid key, backend "8545" and path "data". */
  lemma ForwardExample(store: CredentialStore, key: string)
    requires store.isValid(key) && store.details(key).Some?
    ensures Pipeline(true, store, Request(key, "8545", "data")) == Forward("http://localhost:8545", "/data")
    ensures Pipeline(true, store, Request(key, "5052", "")) == Forward("http://localhost:5052", "")
  {
  }

  /** The limiter is asked first; a denied request makes no store call and no proxy call. */
  lemma LimiterBeforeStore(allow: bool, store: CredentialStore, req: Request)
    ensures Consulted(allow, store, req)[0] == LimiterAllow
    ensures !allow ==> Consulted(allow, store, req) == [LimiterAllow]
  {
  }

  /** Which gates must have passed before each store call and the proxy call happen. */
  lemma CallsFollowGates(allow: bool, store: CredentialStore, req: Request)
    ensures KeyValidity(req.apiKey) in Consulted(allow, store, req) <==> allow
    ensures KeyDetails(req.apiKey) in Consulted(allow, store, req) <==> allow && store.isValid(req.apiKey)
    ensures forall target, path ::
              Proxy(target, path) in Consulted(allow, store, req) <==>
              Pipeline(allow, store, req) == Forward(target, path)
  {
  }

  // ---------------------------------------------------------------------
  // Gate precedence, against a reference definition: the gates listed in
  // their fixed order, and the outcome decided by the first one that fails.

  datatype Gate = RateLimitGate | ValidityGate | LookupGate | BackendGate

  const GateOrder: seq<Gate> := [RateLimitGate, ValidityGate, LookupGate, BackendGate]

  /** The status a failing gate writes. */
  function GateStatus(g: Gate): int
  {
    match g
    case RateLimitGate => StatusTooManyRequests
    case ValidityGate => StatusUnauthorized
    case LookupGate => StatusInternalServerError
    case BackendGate => StatusBadRequest
  }

  /** Whether a gate, looked at on its own, would stop this request. */
  predicate Fails(g: Gate, allow: bool, store: CredentialStore, req: Request)
  {
    match g
    case RateLimitGate => !allow
    case ValidityGate => !store.isValid(req.apiKey)
    case LookupGate => store.details(req.apiKey).None?
    case BackendGate => ResolveBackend(req.backend).None?
  }

  /** The index of the first failing gate of a list, if any. */
  function FirstFailing(gates: seq<Gate>, allow: bool, store: CredentialStore, req: Request): (r: Option<nat>)
    ensures r.Some? ==> r.value < |gates| && Fails(gates[r.value], allow, store, req)
    ensures r.Some? ==> forall j :: 0 <= j < r.value ==> !Fails(gates[j], allow, store, req)
    ensures r.None? <==> forall j :: 0 <= j < |gates| ==> !Fails(gates[j], allow, store, req)
  {
    if gates == [] then None
    else if Fails(gates[0], allow, store, req) then Some(0)
    else match FirstFailing(gates[1..], allow, store, req)
      case None => None
      case Some(k) => Some(k + 1)
  }

  /** The pipeline rejects with the status of the first failing gate in the fixed order, and forwards when none fails. */
  lemma PipelineFollowsGateOrder(allow: bool, store: CredentialStore, req: Request)
    ensures match FirstFailing(GateOrder, allow, store, req)
            case Some(k) => Pipeline(allow, store, req) == Reject(GateStatus(GateOrder[k]))
            case None => ResolveBackend(req.backend).Some? &&
                         Pipeline(allow, store, req) == Forward(ResolveBackend(req.backend).value, NormalizePath(req.path))
  {
    var r := FirstFailing(GateOrder, allow, store, req);
    assert GateOrder[0] == RateLimitGate && GateOrder[1] == ValidityGate;
    assert GateOrder[2] == LookupGate && GateOrder[3] == BackendGate;
    if r.None? {
      assert !Fails(GateOrder[3], allow, store, req);
    }
  }

  /** Distinct gates write distinct statuses, so the status names the gate that stopped the request. */
  lemma GateStatusInjective(g: Gate, h: Gate)
    ensures GateStatus(g) == GateStatus(h) <==> g == h
  {
  }

  /** When an earlier gate fails, a later gate's status is never the outcome. */
  lemma EarlierGateWins(i: nat, j: nat, allow: bool, store: CredentialStore, req: Request)
    requires i < j < |GateOrder|
    requires Fails(GateOrder[i], allow, store, req)
    ensures Pipeline(allow, store, req).Reject?
    ensures Pipeline(allow, store, req) != Reject(GateStatus(GateOrder[j]))
  {
  }
}
