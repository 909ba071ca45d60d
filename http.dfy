/** The values the proxy receives, sends and answers with. */
module Http {
  import opened Wrappers

  /** JavaScript truthiness of a header or query value: present and not empty. */
  predicate Truthy(v: Option<string>)
  {
    v.Some? && v.value != ""
  }

  /**
   * A parsed URL: `protocol` keeps its colon (`"https:"`), `port` is empty
   * when it is the scheme's default, `query` is the decoded list behind
   * `searchParams`.
   */
  datatype Url = Url(
    protocol: string,
    hostname: string,
    port: string,
    pathname: string,
    query: seq<(string, string)>,
    hash: string)

  /** `url.host`: the hostname with the port, when there is one. */
  function Host(url: Url): string
  {
    if url.port == "" then url.hostname else url.hostname + ":" + url.port
  }

  /** An inbound request: its URL, its method (`verb`) and its `Authorization` header. */
  datatype Request = Request(url: Url, verb: string, authorization: Option<string>)

  /** A response from an upstream server; the proxy either relays it whole or reads its status and challenge. */
  datatype Reply = Reply(status: int, wwwAuthenticate: Option<string>, body: string)

  /**
   * A request the proxy sends out. `Get` is a GET to `url` with the query
   * parameters `params` set on it and the headers `headers`; `Forward` is
   * a request to `url` with the inbound request's method (`verb`) and its
   * headers, which are not modelled, and no body.
   */
  datatype Outbound =
    | Get(url: string, params: seq<(string, string)>, headers: seq<(string, string)>)
    | Forward(url: string, verb: string)

  /**
   * What the proxy answers. `NoRoute` is the 404 with the header
   * `Content-Type: application/json` and a JSON body holding `error` and
   * `routes`; `Moved` is a 301 to `location`; `Unauthorized` is the proxy's
   * own 401; `Relayed` is an upstream reply passed on as it is; `Fault` is
   * an exception thrown out of the handler.
   */
  datatype Outcome =
    | NoRoute(error: string, routes: map<string, string>)
    | Moved(location: Url)
    | Unauthorized(headers: seq<(string, string)>, body: string)
    | Relayed(reply: Reply)
    | Fault

  /** The HTTP status of an answer; a fault has none. */
  function Status(outcome: Outcome): Option<int>
  {
    match outcome
    case NoRoute(_, _) => Some(404)
    case Moved(_) => Some(301)
    case Unauthorized(_, _) => Some(401)
    case Relayed(reply) => Some(reply.status)
    case Fault => None
  }
}
