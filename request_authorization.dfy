/**
 * The REST authorization filter (config/RequestAuthorizationFilter.js): the
 * metrics endpoint and `/error` pass untouched; any other request needs an
 * Authorization header equal to the configured password, and is answered 401
 * (section 15.5.2 of RFC 9110) when the header is missing and 403 (section
 * 15.5.4) when it is wrong.
 */
module RequestAuth {
  import opened Wrappers
  import opened JsText

  /** What the filter does with a request: hand it on, or answer with a status and stop. */
  datatype FilterOutcome = Next | Respond(status: int)

  const Unauthorized: int := 401
  const Forbidden: int := 403

  /** The request reaches an endpoint that needs no authorization. */
  predicate Exempt(path: string, metricsEndpoint: Option<string>) {
    (Truthy(metricsEndpoint) && path == metricsEndpoint.value) || path == "/error"
  }

  /** `preHandle`. */
  function PreHandle(path: string, authorization: Option<string>, password: Option<string>, metricsEndpoint: Option<string>): (r: FilterOutcome)
    ensures r.Respond? ==> r.status == Unauthorized || r.status == Forbidden
  {
    if Truthy(metricsEndpoint) && path == metricsEndpoint.value then Next
    else if path == "/error" then Next
    else if !Truthy(authorization) || !(password.Some? && authorization.value == password.value) then
      if !Truthy(authorization) then Respond(Unauthorized) else Respond(Forbidden)
    else Next
  }

  /**
   * Each request gets exactly one of the three outcomes: it passes exactly when it
   * is exempt or carries the password, is refused 401 exactly when it is not exempt
   * and has no Authorization, and 403 exactly when it is not exempt and has a wrong one.
   */
  lemma PreHandleOutcomes(path: string, authorization: Option<string>, password: Option<string>, metricsEndpoint: Option<string>)
    ensures var r := PreHandle(path, authorization, password, metricsEndpoint);
      && (r == Next <==>
            Exempt(path, metricsEndpoint) || (Truthy(authorization) && password == authorization))
      && (r == Respond(Unauthorized) <==> !Exempt(path, metricsEndpoint) && !Truthy(authorization))
      && (r == Respond(Forbidden) <==>
            !Exempt(path, metricsEndpoint) && Truthy(authorization) && password != authorization)
  {
  }

  /** The exempt paths pass whatever the Authorization header. */
  lemma ExemptPasses(path: string, password: Option<string>, metricsEndpoint: Option<string>)
    requires Exempt(path, metricsEndpoint)
    ensures forall a :: PreHandle(path, a, password, metricsEndpoint) == Next
  {
  }
}
