/** The token request the proxy sends on the client's behalf (`fetchToken`). */
module Token {
  import opened Wrappers
  import opened Fields
  import opened Http
  import opened Challenge

  /**
   * The GET to the realm: `service` is set when the challenge's service is
   * not empty, `scope` when the scope is truthy, and the client's
   * `Authorization` header is copied when truthy. `None` is the `TypeError`
   * thrown when the challenge did not parse (`null.realm`).
   */
  function TokenRequest(challenge: Option<AuthChallenge>, scope: Option<string>, authorization: Option<string>): Option<Outbound>
  {
    match challenge
    case None => None
    case Some(c) =>
      var withService := if c.service != "" then Assign([], "service", c.service) else [];
      var params := if Truthy(scope) then Assign(withService, "scope", scope.value) else withService;
      var headers := if Truthy(authorization) then Assign([], "Authorization", authorization.value) else [];
      Some(Get(c.realm, params, headers))
  }

  /** `fetchToken` up to the network call: the request it sends, built by successive `set` calls. */
  method FetchToken(challenge: Option<AuthChallenge>, scope: Option<string>, authorization: Option<string>)
    returns (request: Option<Outbound>)
    ensures request == TokenRequest(challenge, scope, authorization)
  {
    if challenge.None? {
      return None;
    }
    var searchParams := new FieldList();
    if challenge.value.service != "" {
      searchParams.Set("service", challenge.value.service);
    }
    if Truthy(scope) {
      searchParams.Set("scope", scope.value);
    }
    var headers := new FieldList();
    if Truthy(authorization) {
      headers.Set("Authorization", authorization.value);
    }
    return Some(Get(challenge.value.realm, searchParams.entries, headers.entries));
  }

  /**
   * A parsed challenge gives a GET to its realm whose query is exactly
   * `service` (when non-empty) then `scope` (when truthy), and whose only
   * header is the client's `Authorization` (when truthy); no challenge, no
   * request.
   */
  lemma TokenRequestContents(challenge: Option<AuthChallenge>, scope: Option<string>, authorization: Option<string>)
    ensures TokenRequest(challenge, scope, authorization).Some? <==> challenge.Some?
    ensures challenge.Some? ==>
      var request := TokenRequest(challenge, scope, authorization).value;
      && request.Get?
      && request.url == challenge.value.realm
      && request.params
         == (if challenge.value.service != "" then [("service", challenge.value.service)] else [])
          + (if Truthy(scope) then [("scope", scope.value)] else [])
      && request.headers == (if Truthy(authorization) then [("Authorization", authorization.value)] else [])
  {
    if challenge.Some? {
      var c := challenge.value;
      var withService := if c.service != "" then Assign([], "service", c.service) else [];
      if Truthy(scope) {
        assert Lookup(withService, "scope") == None;
        AssignAppends(withService, "scope", scope.value);
      }
    }
  }

  /** What the token endpoint reads from the request: the service, the scope and the credentials. */
  lemma TokenRequestReads(challenge: AuthChallenge, scope: Option<string>, authorization: Option<string>)
    ensures var request := TokenRequest(Some(challenge), scope, authorization).value;
      && Lookup(request.params, "service") == (if challenge.service != "" then Some(challenge.service) else None)
      && Lookup(request.params, "scope") == (if Truthy(scope) then Some(scope.value) else None)
      && Lookup(request.headers, "Authorization") == (if Truthy(authorization) then Some(authorization.value) else None)
  {
    TokenRequestContents(Some(challenge), scope, authorization);
    var request := TokenRequest(Some(challenge), scope, authorization).value;
    if challenge.service != "" && Truthy(scope) {
      assert request.params[1..] == [("scope", scope.value)];
    }
  }
}
