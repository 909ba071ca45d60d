/**
 * The request handler (`handleRequest`): an ordered chain of early returns
 * over the route lookup, the three special paths, the Docker Hub redirect
 * and the forward. The network is the parameter `fetch`, the reply each
 * upstream gives to each request; the handler's result records the
 * requests it sent, in order, and its answer.
 */
module Proxy {
  import opened Wrappers
  import opened Fields
  import opened Http
  import opened Routes
  import opened Challenge
  import opened Scope
  import opened LibraryPath
  import opened Token
  import opened Unauthorized

  datatype Exchange = Exchange(sent: seq<Outbound>, outcome: Outcome)

  const NO_ROUTE_ERROR := "No route found"

  /** The target of `${url.origin}/help.html`. */
  function HelpPage(url: Url): Url
  {
    Url(url.protocol, url.hostname, url.port, "/help.html", [], "")
  }

  /** The headers of the `/v2/` probe: the client's `Authorization`, when truthy. */
  function ProbeHeaders(authorization: Option<string>): seq<(string, string)>
  {
    if Truthy(authorization) then [("Authorization", authorization.value)] else []
  }

  /** What the handler sends and answers for `request`. */
  function Handle(cfg: Config, request: Request, fetch: Outbound -> Reply): Exchange
  {
    var url := request.url;
    var upstream := RouteByHosts(cfg, url.hostname);
    if upstream == "" then
      Exchange([], NoRoute(NO_ROUTE_ERROR, Table(cfg.domain)))
    else if url.pathname == "/" then
      Exchange([], Moved(HelpPage(url)))
    else if url.pathname == "/v2/" then
      var probe := Get(upstream + "/v2/", [], ProbeHeaders(request.authorization));
      var reply := fetch(probe);
      Exchange([probe], if reply.status == 401 then GatewayUnauthorized(url, cfg.IsDebug()) else Relayed(reply))
    else if url.pathname == "/v2/auth" then
      var probe := Get(upstream + "/v2/", [], []);
      var reply := fetch(probe);
      if reply.status != 401 || !Truthy(reply.wwwAuthenticate) then
        Exchange([probe], Relayed(reply))
      else
        var challenge := ParseAuthenticate(reply.wwwAuthenticate.value);
        var scope := LibraryScope(Lookup(url.query, "scope"), upstream == DOCKER_HUB);
        match TokenRequest(challenge, scope, request.authorization)
        case None => Exchange([probe], Fault)
        case Some(token) => Exchange([probe, token], Relayed(fetch(token)))
    else if upstream == DOCKER_HUB && Redirect(url.pathname).Some? then
      Exchange([], Moved(url.(pathname := Redirect(url.pathname).value)))
    else
      var forward := Forward(upstream + url.pathname, request.verb);
      var reply := fetch(forward);
      Exchange([forward], if reply.status == 401 then GatewayUnauthorized(url, cfg.IsDebug()) else Relayed(reply))
  }

  /** `handleRequest`, step by step, with its early returns. */
  method HandleRequest(cfg: Config, request: Request, fetch: Outbound -> Reply) returns (exchange: Exchange)
    ensures exchange == Handle(cfg, request, fetch)
  {
    var url := request.url;
    var upstream := RouteByHosts(cfg, url.hostname);
    if upstream == "" {
      return Exchange([], NoRoute(NO_ROUTE_ERROR, Table(cfg.domain)));
    }
    if url.pathname == "/" {
      return Exchange([], Moved(HelpPage(url)));
    }
    var isDockerHub := upstream == DOCKER_HUB;
    var authorization := request.authorization;

    if url.pathname == "/v2/" {
      var probe := Get(upstream + "/v2/", [], if Truthy(authorization) then [("Authorization", authorization.value)] else []);
      var reply := fetch(probe);
      if reply.status == 401 {
        var response := ResponseUnauthorized(url, cfg.IsDebug());
        return Exchange([probe], response);
      }
      return Exchange([probe], Relayed(reply));
    }

    if url.pathname == "/v2/auth" {
      var probe := Get(upstream + "/v2/", [], []);
      var reply := fetch(probe);
      if reply.status != 401 {
        return Exchange([probe], Relayed(reply));
      }
      var authenticate := reply.wwwAuthenticate;
      if !Truthy(authenticate) {
        return Exchange([probe], Relayed(reply));
      }
      var challenge := ParseAuthenticate(authenticate.value);
      var scope := RewriteScope(Lookup(url.query, "scope"), isDockerHub);
      var token := FetchToken(challenge, scope, authorization);
      if token.None? {
        return Exchange([probe], Fault);
      }
      var tokenReply := fetch(token.value);
      return Exchange([probe, token.value], Relayed(tokenReply));
    }

    if isDockerHub {
      var moved := RedirectLibrary(url);
      if moved.Some? {
        return Exchange([], Moved(moved.value));
      }
    }

    var forward := Forward(upstream + url.pathname, request.verb);
    var reply := fetch(forward);
    if reply.status == 401 {
      var response := ResponseUnauthorized(url, cfg.IsDebug());
      return Exchange([forward], response);
    }
    return Exchange([forward], Relayed(reply));
  }

  /**
   * A hostname with no route, outside debug mode or with an empty
   * fallback, is answered 404 with the error and the route table, whatever
   * the path, and nothing is sent upstream.
   */
  lemma UnknownHost(cfg: Config, request: Request, fetch: Outbound -> Reply)
    requires request.url.hostname !in Table(cfg.domain)
    requires !cfg.IsDebug() || cfg.target == ""
    ensures Handle(cfg, request, fetch) == Exchange([], NoRoute("No route found", Table(cfg.domain)))
  {
    RouteLookup(cfg, request.url.hostname);
  }

  /** `/` is redirected to the help page exactly when the hostname has an upstream. */
  lemma RootRedirect(cfg: Config, request: Request, fetch: Outbound -> Reply)
    requires request.url.pathname == "/"
    ensures Handle(cfg, request, fetch).sent == []
    ensures Handle(cfg, request, fetch).outcome == Moved(HelpPage(request.url))
        <==> RouteByHosts(cfg, request.url.hostname) != ""
  {
  }

  /**
   * On `/v2/` the upstream's `/v2/` is probed with the client's credentials;
   * its 401 becomes the proxy's own challenge, which names this host's
   * `/v2/auth` as realm and never the upstream's, and any other reply is
   * relayed as it is.
   */
  lemma ProbeChallenge(cfg: Config, request: Request, fetch: Outbound -> Reply)
    requires request.url.pathname == "/v2/"
    requires RouteByHosts(cfg, request.url.hostname) != ""
    requires '"' !in Host(request.url) && '\\' !in Host(request.url)
    ensures var upstream := RouteByHosts(cfg, request.url.hostname);
      var probe := Get(upstream + "/v2/", [], ProbeHeaders(request.authorization));
      var exchange := Handle(cfg, request, fetch);
      && exchange.sent == [probe]
      && (fetch(probe).status != 401 ==> exchange.outcome == Relayed(fetch(probe)))
      && (fetch(probe).status == 401 ==>
            && exchange.outcome.Unauthorized?
            && ParseAuthenticate(exchange.outcome.headers[0].1)
               == Some(AuthChallenge(GatewayRealm(request.url, cfg.IsDebug()), "cloudflare-docker-proxy")))
  {
    GatewayChallengeParses(request.url, cfg.IsDebug());
  }

  /**
   * On `/v2/auth` the upstream's `/v2/` is probed without credentials; a
   * reply other than a 401, or a 401 without a truthy challenge, is relayed
   * as it is, and a challenge that does not parse makes the handler throw.
   */
  lemma AuthProbe(cfg: Config, request: Request, fetch: Outbound -> Reply)
    requires request.url.pathname == "/v2/auth"
    requires RouteByHosts(cfg, request.url.hostname) != ""
    ensures var probe := Get(RouteByHosts(cfg, request.url.hostname) + "/v2/", [], []);
      var reply := fetch(probe);
      var exchange := Handle(cfg, request, fetch);
      && exchange.sent[0] == probe
      && (reply.status != 401 || !Truthy(reply.wwwAuthenticate) ==> exchange == Exchange([probe], Relayed(reply)))
      && (reply.status == 401 && Truthy(reply.wwwAuthenticate) && ParseAuthenticate(reply.wwwAuthenticate.value) == None ==>
            exchange == Exchange([probe], Fault))
  {
  }

  /**
   * On `/v2/auth` through Docker Hub, with the scope `type:name:actions`
   * for an unqualified image and an upstream challenge that parses, the
   * proxy asks the challenge's realm for a token with the scope
   * `type:library/name:actions`, and relays the token response.
   */
  lemma DockerHubToken(cfg: Config, request: Request, fetch: Outbound -> Reply, kind: string, name: string, actions: string)
    requires request.url.hostname in {"docker." + cfg.domain, "docker-staging." + cfg.domain}
    requires request.url.pathname == "/v2/auth"
    requires Lookup(request.url.query, "scope") == Some(kind + ":" + name + ":" + actions)
    requires ':' !in kind && ':' !in name && ':' !in actions && '/' !in name
    requires var reply := fetch(Get(DOCKER_HUB + "/v2/", [], []));
      reply.status == 401 && reply.wwwAuthenticate.Some? && ParseAuthenticate(reply.wwwAuthenticate.value).Some?
    ensures var challenge := ParseAuthenticate(fetch(Get(DOCKER_HUB + "/v2/", [], [])).wwwAuthenticate.value).value;
      var exchange := Handle(cfg, request, fetch);
      && |exchange.sent| == 2
      && exchange.sent[1].Get?
      && exchange.sent[1].url == challenge.realm
      && Lookup(exchange.sent[1].params, "scope") == Some(kind + ":" + ("library/" + name) + ":" + actions)
      && exchange.outcome == Relayed(fetch(exchange.sent[1]))
  {
    DockerAliases(cfg);
    var scope := kind + ":" + name + ":" + actions;
    ScopeOfImage(kind, name, actions);
    var challenge := ParseAuthenticate(fetch(Get(DOCKER_HUB + "/v2/", [], [])).wwwAuthenticate.value).value;
    var sent := Some(kind + ":" + ("library/" + name) + ":" + actions);
    TokenRequestReads(challenge, sent, request.authorization);
  }

  /**
   * An upstream 401 reaches the client unchanged only from `/v2/auth`; on
   * every other path it is replaced by the proxy's own challenge.
   */
  lemma NoUpstreamChallengeLeaks(cfg: Config, request: Request, fetch: Outbound -> Reply)
    ensures var outcome := Handle(cfg, request, fetch).outcome;
      outcome.Relayed? && outcome.reply.status == 401 ==> request.url.pathname == "/v2/auth"
  {
  }

  /**
   * A Docker Hub path that needs `library` is redirected with a 301 that
   * changes the pathname only, to the old segments with `library` inserted
   * at index 2, and nothing is sent upstream.
   */
  lemma DockerHubRedirect(cfg: Config, request: Request, fetch: Outbound -> Reply)
    requires RouteByHosts(cfg, request.url.hostname) == DOCKER_HUB
    requires request.url.pathname !in {"/", "/v2/", "/v2/auth"}
    requires Redirect(request.url.pathname).Some?
    ensures var exchange := Handle(cfg, request, fetch);
      && exchange.sent == []
      && exchange.outcome.Moved?
      && exchange.outcome.location == request.url.(pathname := Redirect(request.url.pathname).value)
      && var parts := Text.Split(request.url.pathname, '/');
         Text.Split(exchange.outcome.location.pathname, '/') == parts[..2] + ["library"] + parts[2..]
  {
    RedirectSegments(request.url.pathname);
  }

  /**
   * Any other path is forwarded to the upstream with the client's method;
   * the query string is not carried over. An upstream 401 becomes the
   * proxy's own challenge and any other reply is relayed as it is.
   */
  lemma ForwardedPath(cfg: Config, request: Request, fetch: Outbound -> Reply)
    requires RouteByHosts(cfg, request.url.hostname) != ""
    requires request.url.pathname !in {"/", "/v2/", "/v2/auth"}
    requires RouteByHosts(cfg, request.url.hostname) != DOCKER_HUB || Redirect(request.url.pathname).None?
    ensures var forward := Forward(RouteByHosts(cfg, request.url.hostname) + request.url.pathname, request.verb);
      var exchange := Handle(cfg, request, fetch);
      && exchange.sent == [forward]
      && exchange.outcome == if fetch(forward).status == 401 then GatewayUnauthorized(request.url, cfg.IsDebug())
                             else Relayed(fetch(forward))
  {
  }

  /** At most two requests go upstream, the token request only after a probe; the handler throws only on `/v2/auth`. */
  lemma SentRequests(cfg: Config, request: Request, fetch: Outbound -> Reply)
    ensures var exchange := Handle(cfg, request, fetch);
      && |exchange.sent| <= 2
      && (|exchange.sent| == 2 ==> request.url.pathname == "/v2/auth" && exchange.sent[0].Get? && exchange.sent[0].params == [])
      && (exchange.outcome.Fault? ==> request.url.pathname == "/v2/auth")
  {
  }
}
