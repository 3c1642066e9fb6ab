/**
 * The request context as the handlers of src/auth.go change it: the
 * rate-limit middleware writes 429 and aborts, or hands over to handleAuth
 * (the next handler registered by startMiddleware); handleAuth writes its
 * rejection, or rewrites the request path in place and hands the request to
 * the reverse proxy.
 */
module Server {
  import opened Wrappers
  import opened Gateway

  class Context {
    /** The path parameter and query values of the inbound request. */
    const request: Request
    /** The path of the request URL, overwritten before proxying. */
    var urlPath: string
    /** Set by the rate-limit middleware when it stops the chain. */
    var aborted: bool
    /** What the request was answered with: a written status, or the proxied target and path. */
    var response: Option<Outcome>
    /** The collaborator calls made so far. */
    ghost var calls: seq<Call>

    constructor (request: Request, urlPath: string)
      ensures this.request == request && this.urlPath == urlPath
      ensures !aborted && response == None && calls == []
    {
      this.request := request;
      this.urlPath := urlPath;
      aborted := false;
      response := None;
      calls := [];
    }

    /** handleAuth: the two credential gates, the backend switch, then the path rewrite and the proxy hand-off. */
    method HandleAuth(store: CredentialStore)
      modifies this
      ensures response == Some(AuthOutcome(store, request))
      ensures urlPath == if AuthOutcome(store, request).Forward? then NormalizePath(request.path) else old(urlPath)
      ensures aborted == old(aborted)
      ensures calls == old(calls) + AuthConsulted(store, request)
    {
      var path := request.path;
      calls := calls + [KeyValidity(request.apiKey)];
      if !store.isValid(request.apiKey) {
        response := Some(Reject(StatusUnauthorized));
        return;
      }
      calls := calls + [KeyDetails(request.apiKey)];
      var details := store.details(request.apiKey);
      if details.None? {
        response := Some(Reject(StatusInternalServerError));
        return;
      }
      var remote := ResolveBackend(request.backend);
      if remote.None? {
        response := Some(Reject(StatusBadRequest));
        return;
      }
      if NeedsLeadingSlash(path) {
        path := "/" + path;
      }
      urlPath := path;
      calls := calls + [Proxy(remote.value, urlPath)];
      response := Some(Forward(remote.value, urlPath));
    }

    /** rateLimitMiddleware: deny with 429 and abort, or pass on to handleAuth. */
    method RateLimitMiddleware(allow: bool, store: CredentialStore)
      modifies this
      ensures response == Some(Pipeline(allow, store, request))
      ensures aborted == (old(aborted) || !allow)
      ensures urlPath == if Pipeline(allow, store, request).Forward? then NormalizePath(request.path) else old(urlPath)
      ensures calls == old(calls) + Consulted(allow, store, request)
    {
      ghost var before := calls;
      calls := calls + [LimiterAllow];
      if !allow {
        response := Some(Reject(StatusTooManyRequests));
        aborted := true;
        return;
      }
      HandleAuth(store);
      assert calls == before + ([LimiterAllow] + AuthConsulted(store, request));
    }
  }
}
