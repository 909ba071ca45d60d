/**
 * The proxy's own 401 (`responseUnauthorized`): it sends clients to this
 * host's `/v2/auth` for a token instead of to the upstream's realm.
 */
module Unauthorized {
  import opened Wrappers
  import opened Fields
  import opened Http
  import opened Challenge

  const SERVICE_NAME := "cloudflare-docker-proxy"
  const UNAUTHORIZED_BODY := "{\"message\":\"UNAUTHORIZED\"}"

  /** The token endpoint on this host: plain HTTP with the port in debug mode, HTTPS on the bare hostname otherwise. */
  function GatewayRealm(url: Url, debug: bool): string
  {
    if debug then "http://" + Host(url) + "/v2/auth" else "https://" + url.hostname + "/v2/auth"
  }

  /** The 401 answer for a request to `url`. */
  function GatewayUnauthorized(url: Url, debug: bool): Outcome
  {
    Unauthorized([("Www-Authenticate", BearerChallenge(GatewayRealm(url, debug), SERVICE_NAME))], UNAUTHORIZED_BODY)
  }

  /** `responseUnauthorized`: a fresh header list with the challenge set on it, and the JSON body. */
  method ResponseUnauthorized(url: Url, debug: bool) returns (response: Outcome)
    ensures response == GatewayUnauthorized(url, debug)
  {
    var headers := new FieldList();
    var realm := if debug then "http://" + Host(url) + "/v2/auth" else "https://" + url.hostname + "/v2/auth";
    headers.Set("Www-Authenticate", "Bearer realm=\"" + realm + "\",service=\"" + SERVICE_NAME + "\"");
    response := Unauthorized(headers.entries, UNAUTHORIZED_BODY);
  }

  /**
   * The answer is a 401 with the body `{"message":"UNAUTHORIZED"}` and one
   * header, the challenge, and no `Content-Type` of its own.
   */
  lemma UnauthorizedShape(url: Url, debug: bool)
    ensures Status(GatewayUnauthorized(url, debug)) == Some(401)
    ensures GatewayUnauthorized(url, debug).body == "{\"message\":\"UNAUTHORIZED\"}"
    ensures Lookup(GatewayUnauthorized(url, debug).headers, "Www-Authenticate")
         == Some("Bearer realm=\"" + GatewayRealm(url, debug) + "\",service=\"cloudflare-docker-proxy\"")
    ensures Lookup(GatewayUnauthorized(url, debug).headers, "Content-Type") == None
  {
    var realm := GatewayRealm(url, debug);
    assert "\",service=\"" + SERVICE_NAME + "\"" == "\",service=\"cloudflare-docker-proxy\"";
    assert BearerChallenge(realm, SERVICE_NAME)
        == "Bearer realm=\"" + realm + ("\",service=\"" + SERVICE_NAME + "\"");
  }

  /**
   * When the host holds no `"` or `\`, a client that parses the challenge
   * as the proxy itself does reads back this host's `/v2/auth` as realm and
   * `cloudflare-docker-proxy` as service.
   */
  lemma GatewayChallengeParses(url: Url, debug: bool)
    requires '"' !in Host(url) && '\\' !in Host(url)
    ensures var challenge := GatewayUnauthorized(url, debug).headers[0].1;
      ParseAuthenticate(challenge) == Some(AuthChallenge(GatewayRealm(url, debug), SERVICE_NAME))
  {
    var realm := GatewayRealm(url, debug);
    assert '"' !in url.hostname && '\\' !in url.hostname by {
      if url.port != "" {
        assert forall c <- url.hostname :: c in Host(url);
      }
    }
    assert "https://" + url.hostname + "/v2/auth" == "https://" + (url.hostname + "/v2/auth");
    assert '"' !in realm && '\\' !in realm;
    PlainIsQuoted(realm);
    PlainIsQuoted(SERVICE_NAME);
    assert realm[|realm| - 1] == 'h';
    BearerRoundTrip(realm, SERVICE_NAME, "");
    assert BearerChallenge(realm, SERVICE_NAME) + "" == BearerChallenge(realm, SERVICE_NAME);
  }
}
