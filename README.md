# msgraph client engine in Dafny

A model of the core of `msgraph`, a Go client for the Microsoft Graph API that
authenticates with the OAuth2 client-credentials grant. The model covers:

- **Query options** (`query.go`). Each option kind has a fixed name (`$select`, `$orderby`, `$top`, `$skip`,
  `$skipToken`, `$count`) and a rendered value. `SelectQuery` and `GraphQuery` are append-only builders.
  The logical filter wraps its elements in parentheses.
- **Resource endpoints** (`resource.go`, `user.go`). The API version maps to a path segment, and the
  endpoint is `{TokenURL}/{segment}/{resource}`. The registry starts empty and the user module
  registers "UserV1". `GetUser` builds its request URL from this endpoint.
- **The API client** (`graphapi.go`, `token.go`, `errors.go`). `New` derives the URLs, and setters change
  one field each. `validate` checks three fields in a fixed order. `Client()` creates the HTTP client once.
  `GetToken` decides between the cached token, a validation failure and a fetch. `SetToken` is unimplemented.
- **The debug transport** (`debug.go`). A copying reader fills a buffer that then replaces the request
  body. An echoing reader copies every response chunk to the diagnostic stream.

Go's `strings.Join` and `%d` rendering are modelled in `strings.dfy`, each with an inverse
(`Split`, `ParseDecimal`) and a round-trip lemma.

Three details of the code shape what the model promises:
- `getTokenURL` (graphapi.go:59-61) builds a URL that contains the tenant, but `New` stores the bare
  service root as the token URL (graphapi.go:74). Endpoints therefore contain no tenant.
- `GetToken` has a value receiver (token.go:9), so its assignment to `api.token` (token.go:19) writes
  to a copy and the token is never cached. See Findings.
- `CountQuery.Value` formats a `bool` with `%d` (query.go:167). Go answers that with bad-verb text,
  so the value of `$count` is not modelled.

`GraphQuery.String` declares a nil `url.Values` (query.go:24). With any option it panics on the first
`Add`. With none it returns "". The model returns a `Panic` failure in the first case.

Outside collaborators are modelled as follows:
- The OAuth2 token exchange is a `TokenServer` object. Its i-th exchange answers `respond(i)`, and it
  counts its exchanges.
- The HTTP client is an `HttpClient` object that records whether the debug transport was installed.
- The inner transport's answer is a parameter of `RoundTrip`.

## Model

| member | source | states |
|---|---|---|
| `Query.Name` | query.go:131-165 | every option name starts with `$` and depends on the option's kind only, zero values included |
| `Query.NameIdentifiesKind` | query.go:40-42 | two options share a name if and only if they are of the same kind |
| `Query.Value` | query.go:131-157 | `$top`/`$skip` values parse back to the integer, sign included; a skip token is verbatim; a select value splits back at commas into its properties; no properties give "" |
| `Query.SelectValueAppend` | query.go:36-46 | adding a property adds exactly ",p" to the value, or gives "p" for the first property |
| `Query.SelectValueExamples` | query_test.go:21-41 | one property renders without a comma; two render as "prop1,prop2" |
| `Query.SelectQuery.constructor` | query.go:48-51 | `NewSelectQuery(ps)` holds exactly `ps` |
| `Query.SelectQuery.AddProperty` | query.go:36-38 | the property goes at the end; earlier properties are unchanged |
| `Query.SelectQuery.AsOption` | query.go:40-46 | the query, taken as an option, is named "$select" and valued by its current properties comma-joined in order |
| `Query.OrderByQuery.constructor` | query.go:75-77 | the query holds the given property-to-direction map |
| `Query.OrderByQuery.AddProperty` | query.go:91-92 | the query is unchanged |
| `Query.OrderByValue` | query.go:83-89 | one entry per map key, none missing or repeated; each entry is the key, a space and the direction's text; the entries are comma-joined in iteration order |
| `Query.LogicalFilterString` | query.go:119-125 | "(" + element texts ("{}", the `%s` of an empty struct) joined by the bare operator + ")"; no elements give "()" |
| `Query.LogicalFilterLength` | query.go:119-125 | for n elements the inner text is 2n characters plus n-1 operators long |
| `Query.GraphQuery.constructor` | query.go:14-16 | a new query has no options |
| `Query.GraphQuery.AddOption` | query.go:18-21 | the options grow by exactly the new option at the end, and the same query is returned |
| `Query.GraphQuery.String` | query.go:23-29 | succeeds with "" exactly when there are no options; otherwise panics writing to a nil map |
| `Strings.JoinAppend` | query.go:45 | joining one more part appends the separator and the part |
| `Strings.SplitJoin` | query.go:45 | splitting a comma join of comma-free parts gives the parts back |
| `Strings.NatDigits` | query.go:135 | decimal digits are all digits, at least one, with no leading zero |
| `Strings.DecimalRoundTrip` | query.go:134-136 | `%d` text of any integer parses back to that integer |
| `Strings.DecimalInjective` | query.go:144-146 | different integers render differently |
| `Errors.Text` | errors.go:12-14 | `Error()` returns the message exactly |
| `Errors.TextIgnoresCause` | errors.go:4-14 | the inner error never affects the text |
| `Errors.Wrap` | token.go:21-23 | a wrapping error keeps its cause as inner error, and its text is the prefix followed by the cause's text |
| `Resources.VersionSegment` | resource.go:21-31 | "v1.0" exactly for V1, "beta" exactly for Beta, "" for every other version; never a slash |
| `Resources.Endpoint` | resource.go:33 | the endpoint is the token URL, "/", the segment, "/", the resource, and splits back into the segment and the resource |
| `Resources.EndpointDeterminesDescriptor` | resource.go:20-33 | for the two named versions, equal endpoints iff equal version and resource; the name plays no part |
| `Resources.UnknownVersionEndpoint` | resource.go:21-33 | an unnamed version gives `TokenURL + "//" + resource` |
| `Resources.Registry.constructor` | resource.go:8-12 | the registry is empty after package initialisation |
| `Resources.Registry.Lookup` | user.go:251 | a registered key gives its descriptor; any other key gives Go's zero descriptor |
| `Resources.ZeroResourceEndpoint` | resource.go:14-33 | the zero descriptor resolves to `TokenURL + "/v1.0/"` |
| `GraphApi.GetAuthURL` | graphapi.go:55-57 | the authorization URL is prefix + "/" + tenant + "/oauth2/token"; the tenant reads back from it |
| `GraphApi.GetTokenURL` | graphapi.go:59-61 | the tenant token URL is the service root + "/" + tenant; the tenant reads back from it |
| `GraphApi.TokenServer.Exchange` | token.go:19 | each fetch is one exchange, answering the next scripted outcome |
| `GraphApi.RetrievingToken` | token.go:20-24 | a fetch failure becomes "Retrieving token: " + cause text, with the cause kept as inner error |
| `GraphApi.GraphAPI.New` | graphapi.go:64-80 | sets the tenant and its authorization URL; the token URL is the bare service root; credentials empty, no client, no token, HTTP debug off |
| `GraphApi.GraphAPI.SetHTTPDebug` | graphapi.go:48-53 | sets the HTTP debug flag and nothing else |
| `GraphApi.GraphAPI.SetClientID` | graphapi.go:84-87 | overwrites the client ID, without validation, and nothing else |
| `GraphApi.GraphAPI.SetClientSecret` | graphapi.go:91-94 | overwrites the client secret, without validation, and nothing else |
| `GraphApi.GraphAPI.Validate` | graphapi.go:96-108 | succeeds iff tenant, client ID and secret are all non-empty; otherwise reports the first missing one, in that order, with its message and no inner error |
| `GraphApi.GraphAPI.Client` | graphapi.go:120-128 | never fails; an existing client is returned unchanged; otherwise a fresh one is stored, carrying the debug transport iff HTTP debug is on |
| `GraphApi.GraphAPI.GetToken` | token.go:9-29 | a present token is returned without validation or exchange; a validation failure is returned with no exchange; otherwise one exchange; its failure is wrapped, its token returned; the client's token never changes |
| `GraphApi.GraphAPI.GetTokenCaching` | token.go:9-29 | the same decisions, with the fetched token stored in the client |
| `GraphApi.GraphAPI.SetToken` | token.go:31-35 | always the "Unimplemented" error with no inner error; changes nothing |
| `GraphApi.GraphAPI.GetResourceEndpoint` | resource.go:20-38 | reads only the token URL; the endpoint splits back into the descriptor's segment and resource |
| `GraphApi.RepeatedGetTokenExchangesTwice` | token.go:9-19 | two calls on a configured client without a token make two exchanges |
| `GraphApi.RepeatedGetTokenCachingExchangesOnce` | token.go:12-28 | with caching, after a successful fetch the next call returns the same token with no exchange |
| `Users.RegisterUser` | user.go:14-16 | registers "UserV1" as ("User", V1, "users") and leaves other entries alone |
| `Users.UserEndpoint` | user.go:251-254 | the endpoint, "/" and the id verbatim; with properties, "?" and the select option's name "=" its value follow; without, nothing follows |
| `Users.UserEndpointRoundTrip` | user.go:251-254 | the URL splits at '?' into endpoint "/" id, with a query part iff properties were given; that part is "$select=" and splits back into the properties in order |
| `Users.NewClientGetUser` | user.go:251-252 | for any tenant: `New`, the registry's initialisation and `GetUser("alice", [])` request the service root + "/v1.0/users/alice", with no tenant and no query string |
| `Users.GetUser` | user.go:246-261 | the request goes to the UserV1 endpoint + "/" + id (+ select); the HTTP client exists afterwards and is unchanged if it existed; a client error would stop before the request |
| `Debug.CopyReader.constructor` | debug.go:21-23 | wraps the body and the buffer, recording where both stand |
| `Debug.CopyReader.Read` | debug.go:68-74 | returns exactly what the source returned; the buffer gains exactly those bytes; the buffer always equals the bytes handed out |
| `Debug.EchoReader.constructor` | debug.go:39-41 | wraps the response body and the diagnostic stream |
| `Debug.EchoReader.Read` | debug.go:51-61 | returns exactly what the source returned; echoes those bytes; writes the closing marker exactly on EOF |
| `Debug.DumpBody` | debug.go:21-24 | the dump reads the request body to its end, so the buffer receives every unread byte |
| `Debug.ReadAll` | debug.go:47-61 | a caller reading a wrapped body receives it byte for byte; the diagnostic stream gets the same bytes and one closing marker |
| `Debug.RoundTrip` | debug.go:17-45 | inner answer returned unchanged; the original request body is read to its end and replaced by a buffer holding the same bytes; a response body is wrapped in an echoing reader, a missing one stays missing; the markers and any error line go to the diagnostic stream |

## Left out

- `Query.Value`: undefined for `OrderBy`, whose text `Query.OrderByValue` gives, and for `Count`. `Count` formats a boolean with `%d`, which yields Go's bad-verb text.
- `Query.OrderByValue`: the direction's text is a parameter. `%s` on an integer yields Go's bad-verb text. The map iteration order is a parameter too, because Go leaves it unspecified.
- `Query.GraphQuery.String`: `url.Values.Encode` (sorting and escaping) is not modelled. It is never reached with options, because the nil map panics first.
- `Resources.Endpoint`: `url.Parse` and the `log.Fatal` on its failure are not modelled. The URL is kept as its string.
- `Users.GetUser`: stops at the request URL. `client.Get`, reading the body, JSON decoding, and the nil `resp` dereference on a failed `Get` are not modelled.
- `Debug.RoundTrip`: the inner transport's reading of the request body is not modelled, and its answer is a parameter.
- `Debug.RoundTrip`: the response body must not already be an echoing reader, because the inner transport is `http.DefaultTransport`.
- `Debug.RoundTrip`: HTTP wire serialization (`req.Write`, `res.Write` to standard output) is not modelled. Only the dump's reading of the request body is.
- `Debug.CopyReader.Read`: verified only against an in-memory source, which never returns data together with EOF and never fails otherwise. The pass-through of such answers from an arbitrary `io.Reader` is not proved.
- `Debug.EchoReader.Read`: verified only against an in-memory source, as above. A network body that returns bytes together with EOF is not covered.
- `Debug.DumpBody`: reads in `io.Copy`-sized chunks until EOF. A body read error other than EOF is not modelled. Bodies are in-memory byte sequences with a cursor, and `Close` is a no-op.
- `GraphApi.GraphAPI.Client`: `getContext` and the OAuth2 `config.Client` construction are abstracted. The HTTP client only records whether the debug transport was installed.
- `SetDebug` and all logrus logging are diagnostic side effects and are not modelled.
- The `User` record and its nested records (user.go:18-242) are a JSON schema with no behaviour.
- The command-line tool (cmd/cmd/root.go, cmd/cmd/userGet.go) is not part of this model.
- Concurrent use of one client is not modelled. All methods run one at a time.

## Findings

| source | as written | input that shows it | evidently intended | confidence | as-written member | corrected member |
|---|---|---|---|---|---|---|
| token.go:9-19 | `GetToken` has a value receiver, so `api.token = ...` assigns a copy; the client never keeps the token and every call validates and fetches again | a configured client with no token; call `GetToken` twice: two token exchanges | the fetched token is cached in the client and reused by later calls | high (not executed) | `GraphApi.RepeatedGetTokenExchangesTwice` | `GraphApi.GraphAPI.GetTokenCaching` |
