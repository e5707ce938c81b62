/**
 * The network-backed permission client: a read-only configuration record,
 * the bypass shortcut, the single-resource query and the multi-resource
 * (filter) query that rebuilds positional answers from the allowed subset.
 */
module Http {
  import opened Wrappers
  import opened Types
  import opened Wire

  /** TLS settings installed only when certificate checks are skipped. */
  datatype TlsConfig = TlsConfig(minVersionTls13: bool, insecureSkipVerify: bool)

  /**
   * The client's configuration, fixed at construction. `httpTimeout` and
   * `tlsConfig` are the settings of the underlying HTTP client.
   */
  datatype HTTPClient = HTTPClient(
    address: string,
    permissionQueryPath: string,
    permissionFilterPath: string,
    requestTimeout: Duration,
    verbose: bool,
    overrideHeaderValue: string,
    httpTimeout: Duration,
    tlsConfig: Option<TlsConfig>)

  /**
   * Build a client: a zero timeout is replaced by the default, and TLS
   * verification stays on unless it is explicitly skipped.
   */
  function NewHTTPClient(
    address: string,
    permissionQueryPath: string,
    permissionFilterPath: string,
    requestTimeout: Duration,
    verbose: bool,
    overrideHeaderValue: string,
    skipTLSVerify: bool): (c: HTTPClient)
    ensures requestTimeout == 0 ==> c.requestTimeout == DefaultRequestTimeOut
    ensures requestTimeout != 0 ==> c.requestTimeout == requestTimeout
    ensures c.requestTimeout != 0 && c.httpTimeout == c.requestTimeout
    ensures c.tlsConfig.Some? <==> skipTLSVerify
    ensures c.tlsConfig.Some? ==> c.tlsConfig.value.insecureSkipVerify && c.tlsConfig.value.minVersionTls13
    ensures c.address == address && c.verbose == verbose && c.overrideHeaderValue == overrideHeaderValue
    ensures c.permissionQueryPath == permissionQueryPath && c.permissionFilterPath == permissionFilterPath
  {
    var timeout := if requestTimeout == 0 then DefaultRequestTimeOut else requestTimeout;
    var tls := if skipTLSVerify then Some(TlsConfig(true, true)) else None;
    HTTPClient(address, permissionQueryPath, permissionFilterPath, timeout, verbose,
      overrideHeaderValue, timeout, tls)
  }

  /** Defaulting is idempotent: rebuilding a client from its own settings gives the same client. */
  lemma NewHTTPClientIdempotent(
    address: string,
    permissionQueryPath: string,
    permissionFilterPath: string,
    requestTimeout: Duration,
    verbose: bool,
    overrideHeaderValue: string,
    skipTLSVerify: bool)
    ensures var c := NewHTTPClient(address, permissionQueryPath, permissionFilterPath,
      requestTimeout, verbose, overrideHeaderValue, skipTLSVerify);
      NewHTTPClient(c.address, c.permissionQueryPath, c.permissionFilterPath,
        c.requestTimeout, c.verbose, c.overrideHeaderValue, c.tlsConfig.Some?) == c
  {
  }

  /**
   * The bypass shortcut: the client has a non-empty override value and the
   * caller presents the same value.
   */
  function Bypass(c: HTTPClient, options: PermissionOptions): (b: bool)
    ensures c.overrideHeaderValue == "" ==> !b
  {
    c.overrideHeaderValue != "" && options.overrideHeaderValue == c.overrideHeaderValue
  }

  /** The single query's request body: the resource, the action's tag and the member ids as given. */
  function QueryRequest(resource: string, action: Action, options: PermissionOptions): (r: PermissionQueryRequest)
    ensures r.input.resource == resource
    ensures r.input.action == ActionName(action)
    ensures r.input.ids == options.memberIds
  {
    PermissionQueryRequest(PermissionQueryRequestInput(resource, ActionName(action), options.memberIds))
  }

  /**
   * The filter query's request body: the resources in their given order, the
   * action's tag and the member ids as given.
   */
  function FilterRequest(resources: seq<string>, action: Action, options: PermissionOptions): (r: PermissionFilterRequest)
    ensures r.input.resources == resources
    ensures r.input.action == ActionName(action)
    ensures r.input.ids == options.memberIds
  {
    PermissionFilterRequest(PermissionFilterRequestInput(resources, ActionName(action), options.memberIds))
  }

  /**
   * The requests are faithful to the call: two calls produce the same request
   * only if they name the same resource(s), the same action and the same
   * member ids, in the same order.
   */
  lemma RequestsDetermineCall(
    resource1: string, resource2: string, resources1: seq<string>, resources2: seq<string>,
    action1: Action, action2: Action, options1: PermissionOptions, options2: PermissionOptions)
    ensures QueryRequest(resource1, action1, options1) == QueryRequest(resource2, action2, options2) ==>
      resource1 == resource2 && action1 == action2 && options1.memberIds == options2.memberIds
    ensures FilterRequest(resources1, action1, options1) == FilterRequest(resources2, action2, options2) ==>
      resources1 == resources2 && action1 == action2 && options1.memberIds == options2.memberIds
  {
  }

  /**
   * The exchange behind the single query: the single request built from the
   * call, sent with the single-query codec to the query path of the client's
   * address.
   */
  function QueryExchange(c: HTTPClient, env: Env, resource: string, action: Action, options: PermissionOptions)
    : Result<PermissionQueryResponse, Error>
  {
    Exchange(c.address + c.permissionQueryPath, env.userAgent, env.send,
      env.json.marshalQuery, env.json.unmarshalQuery, QueryRequest(resource, action, options))
  }

  /**
   * The exchange behind the filter query: the filter request built from the
   * call, sent with the filter codec to the filter path of the client's
   * address.
   */
  function FilterExchange(c: HTTPClient, env: Env, resources: seq<string>, action: Action, options: PermissionOptions)
    : Result<PermissionFilterResponse, Error>
  {
    Exchange(c.address + c.permissionFilterPath, env.userAgent, env.send,
      env.json.marshalFilter, env.json.unmarshalFilter, FilterRequest(resources, action, options))
  }

  /**
   * The single query consults the network only about one request: the
   * encoded single request built from the call, posted to the client's
   * address followed by its query path. Two networks that answer that
   * request alike give the same answer.
   */
  lemma QueryExchangeConsultsOnlyQueryPath(
    c: HTTPClient, env1: Env, env2: Env, resource: string, action: Action, options: PermissionOptions)
    requires env1.json == env2.json && env1.userAgent == env2.userAgent
    requires var body := env1.json.marshalQuery(QueryRequest(resource, action, options));
      body.Some? ==>
        env1.send(PostRequest(c.address + c.permissionQueryPath, body.value, env1.userAgent))
        == env2.send(PostRequest(c.address + c.permissionQueryPath, body.value, env1.userAgent))
    ensures QueryExchange(c, env1, resource, action, options) == QueryExchange(c, env2, resource, action, options)
  {
  }

  /**
   * The filter query consults the network only about one request: the
   * encoded filter request built from the call, posted to the client's
   * address followed by its filter path. Two networks that answer that
   * request alike give the same exchange outcome, and so the same results.
   */
  lemma FilterExchangeConsultsOnlyFilterPath(
    c: HTTPClient, env1: Env, env2: Env, resources: seq<string>, action: Action, options: PermissionOptions)
    requires env1.json == env2.json && env1.userAgent == env2.userAgent
    requires var body := env1.json.marshalFilter(FilterRequest(resources, action, options));
      body.Some? ==>
        env1.send(PostRequest(c.address + c.permissionFilterPath, body.value, env1.userAgent))
        == env2.send(PostRequest(c.address + c.permissionFilterPath, body.value, env1.userAgent))
    ensures FilterExchange(c, env1, resources, action, options) == FilterExchange(c, env2, resources, action, options)
  {
  }

  /**
   * Ask whether `action` on `resource` is allowed. Bypass allows without a
   * request; any failure denies and reports the error; otherwise the server's
   * decoded answer is returned as it is.
   */
  function QueryPermissions(c: HTTPClient, env: Env, resource: string, action: Action, options: PermissionOptions)
    : (r: Decision)
    ensures Bypass(c, options) ==> r == Decision(true, None)
    ensures r.err.Some? ==> !r.allowed
    ensures r.allowed ==> Bypass(c, options) || QueryExchange(c, env, resource, action, options) == Success(PermissionQueryResponse(true))
    ensures !Bypass(c, options) ==>
      (r.err.None? <==> QueryExchange(c, env, resource, action, options).Success?)
    ensures !Bypass(c, options) && QueryExchange(c, env, resource, action, options).Success? ==>
      r == Decision(QueryExchange(c, env, resource, action, options).value.result, None)
    ensures !Bypass(c, options) && r.err.Some? ==>
      QueryExchange(c, env, resource, action, options) == Failure(r.err.value)
  {
    if Bypass(c, options) then Decision(true, None)
    else match QueryExchange(c, env, resource, action, options)
      case Failure(e) => Decision(false, Some(e))
      case Success(response) => Decision(response.result, None)
  }

  /**
   * Under bypass the network is never consulted: the answer is the same for
   * every environment.
   */
  lemma QueryPermissionsBypassIgnoresNetwork(
    c: HTTPClient, env1: Env, env2: Env, resource: string, action: Action, options: PermissionOptions)
    requires Bypass(c, options)
    ensures QueryPermissions(c, env1, resource, action, options) == QueryPermissions(c, env2, resource, action, options)
  {
  }

  /**
   * A single query whose attempts first fail and then succeed answers exactly
   * as one whose first attempt succeeds.
   */
  lemma QueryPermissionsRetryTransparent(
    c: HTTPClient, env: Env, failures: seq<Attempt>, resource: string, action: Action, options: PermissionOptions)
    requires forall i | 0 <= i < |failures| :: failures[i].Failed?
    ensures QueryPermissions(c, Env(env.json, env.userAgent, h => failures + env.send(h)), resource, action, options)
         == QueryPermissions(c, env, resource, action, options)
  {
    ExchangeRetryTransparent(c.address + c.permissionQueryPath, env.userAgent, env.send, failures,
      env.json.marshalQuery, env.json.unmarshalQuery, QueryRequest(resource, action, options));
  }

  /**
   * Ask which of `resources` allow `action`. The answer is positional:
   * `results[i]` answers `resources[i]`. Bypass allows all without a request;
   * any failure gives no result slice at all (Go's nil) and the error.
   */
  method QueryPermissionsMultiResources(
    c: HTTPClient, env: Env, resources: seq<string>, action: Action, options: PermissionOptions)
    returns (results: Option<seq<bool>>, err: Option<Error>)
    ensures results.None? <==> err.Some?
    ensures results.Some? ==> |results.value| == |resources|
    ensures results.Some? ==>
      forall i, j | 0 <= i < |resources| && 0 <= j < |resources| && resources[i] == resources[j] ::
        results.value[i] == results.value[j]
    ensures Bypass(c, options) ==>
      err.None? && forall i | 0 <= i < |resources| :: results.value[i]
    ensures !Bypass(c, options) && FilterExchange(c, env, resources, action, options).Failure? ==>
      err == Some(FilterExchange(c, env, resources, action, options).error)
    ensures !Bypass(c, options) && FilterExchange(c, env, resources, action, options).Success? ==>
      err.None? &&
      forall i | 0 <= i < |resources| ::
        results.value[i] <==> resources[i] in FilterExchange(c, env, resources, action, options).value.result
  {
    var slots := new bool[|resources|](_ => false);

    if Bypass(c, options) {
      var i := 0;
      while i < slots.Length
        invariant 0 <= i <= slots.Length
        invariant forall k | 0 <= k < i :: slots[k]
      {
        slots[i] := true;
        i := i + 1;
      }
      return Some(slots[..]), None;
    }

    var exchange := FilterExchange(c, env, resources, action, options);
    if exchange.Failure? {
      return None, Some(exchange.error);
    }

    var allowed := exchange.value.result;
    for resourceIdx := 0 to |resources|
      invariant forall k | 0 <= k < resourceIdx :: slots[k] <==> resources[k] in allowed
      invariant forall k | resourceIdx <= k < slots.Length :: !slots[k]
    {
      if resources[resourceIdx] in allowed {
        slots[resourceIdx] := true;
      }
    }
    return Some(slots[..]), None;
  }
}
