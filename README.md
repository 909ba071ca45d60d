# cloudflare-docker-proxy: routing and registry-auth relay, in Dafny

This project models the request-decision and authentication-relay logic of a
Cloudflare Worker that fronts several container registries, one public
hostname per registry (`src/index.js`). For each inbound request the worker
looks the hostname up in its route table, then:

- answers 404 with the route table when there is no upstream;
- redirects `/` to `/help.html`;
- probes the upstream's `/v2/` for `/v2/` and turns an upstream 401 into its
  own challenge, which points clients at this host's `/v2/auth`;
- on `/v2/auth`, reads the upstream's `WWW-Authenticate` challenge (the
  `Bearer` scheme of section 3 of RFC 6750, as the Docker Registry HTTP API
  v2 token handshake uses it), adds `library/` to an unqualified Docker Hub
  scope and asks the challenge's realm for a token on the client's behalf;
- redirects a Docker Hub pull path whose image has no namespace to the
  `library/` path;
- forwards everything else and again replaces an upstream 401 with its own.

Modules, one per component: `Routes` (route table and lookup), `Challenge`
(the challenge parser, with the regular expression written out as a
scanner), `Scope` (scope rewrite), `LibraryPath` (path redirect), `Token`
(token request), `Unauthorized` (the proxy's 401) and `Proxy` (the
handler). `Text` models the JavaScript `split`, `join` and `includes` the
code relies on, `Fields` the `set`/`get` behaviour shared by
`URLSearchParams` and `Headers`, and `Http` the URL, request, reply and
answer values.

The parts the source writes step by step are methods, each proved equal to a
function that the lemmas reason about: `Scope.RewriteScope` splits the scope,
replaces the middle part and joins again; `LibraryPath.RedirectLibrary`
splices `library` into the path segments and sets the pathname on a copy of
the URL; `Token.FetchToken` and `Unauthorized.ResponseUnauthorized` build
their query and header lists by successive `set` calls on a `FieldList`
object; `Proxy.HandleRequest` is the chain of early returns. The network is a
parameter `fetch` that gives the reply an upstream sends to each request.
The handler's result lists the requests it sent, in order, and its answer.

In these places the model follows the code exactly:

- the 404 body holds `error` and `routes` only, not the hostname;
- a challenge that does not parse is not answered with a 400; `null` reaches
  `fetchToken`, whose `wwwAuthenticate.realm` throws, modelled as `Fault`;
- the proxy's 401 sets no `Content-Type` header;
- the forward to the upstream drops the query string (`upstream + pathname`);
- the forward carries the client's method and headers but no body, since
  the new request is built without one;
- the path check tests whether segment 2 contains the substring `library`,
  not whether it equals it.

The parser takes values by position. If the realm ends in `=`, then `="`
is seen again right after its closing quote. The service then comes out as
`,service=` (`Challenge.RealmEndingInEquals`).

## Model

| member | source | states |
|---|---|---|
| Routes.TableEntries | src/index.js:12-22 | the nine hostnames are distinct for every domain, each maps to its own upstream, and no upstream is empty |
| Routes.RouteLookup | src/index.js:25-27 | a configured hostname gives its upstream; any other gives the fallback in debug mode and `""` otherwise |
| Routes.DockerAliases | src/index.js:13-21 | `docker.` and `docker-staging.` both lead to Docker Hub in every mode |
| Challenge.MatchesQuoted | src/index.js:109-110 | every match of the global search is quoted text (plain characters and backslash escapes) |
| Challenge.ScanEnd | src/index.js:109 | the greedy body of the expression stops where no alternative applies, and what it took is quoted text |
| Challenge.MatchAt | src/index.js:109 | a match starts after `="` and ends just before a `"` |
| Challenge.ParsePositional | src/index.js:108-116 | the first two `="…"` values are realm and service by position, whatever the attribute names and whatever stray `"` stands before or between them, and later values are ignored |
| Challenge.BearerRoundTrip | src/index.js:108-116 | for a realm R not ending in `=`, `Bearer realm="R",service="S"` followed by anything parses to realm R and service S, escapes included |
| Challenge.RealmEndingInEquals | src/index.js:109-115 | a realm ending in `=` makes the parser return `,service=` as the service |
| Challenge.NoValueNoChallenge | src/index.js:110-114 | a header in which `="` never occurs gives `null` |
| Challenge.OneValueNoChallenge | src/index.js:109-114 | a header with a single `="…"` value, not ending in `=`, and no other `="` gives `null`, since one match is too few |
| Challenge.BasicExample | src/index.js:109-114 | the Basic challenge `Basic realm="Registry"` gives `null` |
| Challenge.RegistryExample | src/index.js:108-116 | the challenge with realm `https://auth.docker.io/token` and service `registry.docker.io` parses to both |
| Challenge.GarbageExample | src/index.js:110-114 | `garbage` gives `null` |
| Text.SplitJoin | src/index.js:75-78 | splitting a join gives the parts back when no part holds the separator |
| Text.JoinSplit | src/index.js:87-91 | joining a split gives the string back |
| Text.ContainsAt | src/index.js:88 | `includes` holds exactly when the substring occurs at some index |
| Scope.RewriteScope | src/index.js:74-80 | the in-place rewrite gives the scope `LibraryScope` describes |
| Scope.LibraryScopeParts | src/index.js:74-80 | the rewrite fires exactly for a truthy Docker Hub scope of three `:`-parts with no `/` in the middle; it then gives `[first, "library/" + middle, third]`, and otherwise the scope is unchanged |
| Scope.LibraryScopeIdempotent | src/index.js:76-78 | rewriting a rewritten scope changes nothing |
| Scope.ScopeOfImage | src/index.js:74-80 | `type:name:actions` becomes `type:library/name:actions` when the name has no `/`, and stays as it is when it has one |
| LibraryPath.RedirectLibrary | src/index.js:86-93 | the splice-and-set redirect gives the request URL with only the pathname replaced, when `Redirect` applies |
| LibraryPath.RedirectSegments | src/index.js:87-91 | the redirect applies exactly for five segments with no `library` inside segment 2; the new path is the old segments with `library` at index 2, six in all |
| LibraryPath.RedirectOnce | src/index.js:88 | a redirected path is never redirected again |
| LibraryPath.PullPathRedirect | src/index.js:86-93 | `/v2/<name>/<kind>/<ref>` goes to `/v2/library/<name>/<kind>/<ref>` unless the name contains `library` anywhere |
| Fields.AssignLookup | src/index.js:122-129 | after `set(name, value)`, `get(name)` is the value, there is exactly one pair with that name, and other names are unchanged |
| Fields.AssignAppends | src/index.js:122-129 | setting a name that is not there appends one pair at the end |
| Fields.FieldList.Set | src/index.js:122-129 | `set` replaces the list with `Assign` of the old list |
| Token.FetchToken | src/index.js:119-131 | the request built by the successive `set` calls is `TokenRequest` of the inputs, and there is none when the challenge is `null` |
| Token.TokenRequestContents | src/index.js:119-131 | a GET to the realm whose query is `service` (when non-empty) and then `scope` (when truthy), and whose only header is the client's `Authorization` (when truthy) |
| Token.TokenRequestReads | src/index.js:121-130 | the token endpoint reads back the service, the scope and the credentials exactly when each was set |
| Unauthorized.ResponseUnauthorized | src/index.js:135-146 | the response built on a fresh `Headers` is `GatewayUnauthorized` |
| Unauthorized.UnauthorizedShape | src/index.js:135-146 | status 401, body `{"message":"UNAUTHORIZED"}`, challenge `Bearer realm="<realm>",service="cloudflare-docker-proxy"`, no `Content-Type` |
| Unauthorized.GatewayChallengeParses | src/index.js:137-141 | the challenge parses back to realm `http://host/v2/auth` in debug mode or `https://hostname/v2/auth` otherwise, and the fixed service name |
| Proxy.HandleRequest | src/index.js:30-105 | the early-return chain sends the requests and gives the answer that `Handle` describes |
| Proxy.UnknownHost | src/index.js:25-39 | an unrouted hostname, outside debug mode or with an empty fallback, gets the 404 with the error and the route table before any path check, with nothing sent |
| Proxy.RootRedirect | src/index.js:34-44 | `/` sends nothing and is redirected to `<origin>/help.html` exactly when the hostname has an upstream |
| Proxy.ProbeChallenge | src/index.js:50-58 | `/v2/` probes the upstream with the client's credentials; an upstream 401 becomes the proxy's challenge naming this host's `/v2/auth`; any other reply is relayed |
| Proxy.AuthProbe | src/index.js:61-70 | `/v2/auth` probes anonymously; a non-401 reply or a 401 without a challenge is relayed; an unparsable challenge throws |
| Proxy.DockerHubToken | src/index.js:61-83 | through Docker Hub, an unqualified image scope reaches the realm as `type:library/name:actions` and the token reply is relayed |
| Proxy.NoUpstreamChallengeLeaks | src/index.js:54-104 | an upstream 401 reaches the client unchanged only from `/v2/auth` |
| Proxy.DockerHubRedirect | src/index.js:86-94 | a Docker Hub path needing `library` gets a 301 that changes only the pathname, to the old segments with `library` inserted at index 2, with nothing sent |
| Proxy.ForwardedPath | src/index.js:96-104 | other paths go to `upstream + pathname` with the client's method, without the query; a 401 becomes the proxy's challenge, anything else is relayed |
| Proxy.SentRequests | src/index.js:30-105 | at most two requests go out, two only on `/v2/auth`, the first a GET with no query, and the handler throws only there |

## Left out

- Worker registration and `passThroughOnException`/`respondWith` (src/index.js:1-4): platform plumbing; a thrown exception is the `Fault` answer.
- Reading `CUSTOM_DOMAIN`, `MODE` and `TARGET_UPSTREAM` from the global scope with their defaults (src/index.js:6-8): the configuration is the parameter `Config`.
- The network: `fetch` and `fetchWithHeaders` (src/index.js:52, 63, 99, 131, 148-151) are the parameter `fetch`, a total function from request to reply. Transport failures and `redirect: "follow"` are not modelled.
- The WHATWG URL parser. The model does not capture `new URL` throwing on a malformed debug fallback or realm, nor its normalisation of the text. Percent-encoding and the Location header's serialisation are left out too. The token request keeps the realm as text with the parameters set on it, so a query already in the realm is not merged.
- `Headers` treats names without regard to case; `Fields` compares them exactly. Reading the inbound `Authorization` header is the input `Request.authorization`.
- The regular expression runs over UTF-16 code units, the scanner over Dafny characters (Unicode scalar values). They differ only for surrogate pairs.
- The headers the forwarded request carries over from the client (src/index.js:98) are not modelled; `Forward` records the method and the target only. The client's body is not forwarded at all, so there is nothing to record.
- The JSON text of the 404 body and the order of its `routes` keys (src/index.js:36): `NoRoute` carries the error and the table as values.
- The default `Content-Type: text/plain;charset=UTF-8` that the runtime gives a string body (src/index.js:142): the model holds the headers the code sets.
- `console.error` (src/index.js:112) and the content of `help.html`, which is not part of this model.
- Proxy.ProbeChallenge: the parse-back part assumes that the host holds no `"` or `\`, since the parser would read such a host differently.
- Challenge.ParsePositional: it covers headers in which `="` occurs only where the two values open, and a first value that does not end in `=`; for a `="` elsewhere the search finds a different value, and the `=`-ending case is `Challenge.RealmEndingInEquals`.
