/**
 * The API client: tenant identity, OAuth2 client configuration, the HTTP
 * client created on first use, and token acquisition. The OAuth2 token
 * exchange and the construction of the HTTP client belong to libraries
 * outside this model and appear as the `TokenServer` and `HttpClient`
 * objects.
 */
module GraphApi {
  import opened Wrappers
  import opened Errors
  import Resources

  const AuthURLPrefix := "https://login.microsoftonline.com"
  /** The package's `tokenURL`: the Graph service root, which is also the base of every endpoint. */
  const GraphURL := "https://graph.microsoft.com"
  const AuthURLSuffix := "/oauth2/token"

  /** `getAuthURL`: the token-issuing URL of a tenant, from which the tenant can be read back. */
  function GetAuthURL(tenantDomain: string): (r: string)
    ensures AuthURLTenant(r) == Some(tenantDomain)
  {
    AuthURLPrefix + "/" + tenantDomain + AuthURLSuffix
  }

  /** `getTokenURL`: the service root followed by the tenant, which can be read back; `New` does not use it. */
  function GetTokenURL(tenantDomain: string): (r: string)
    ensures TokenURLTenant(r) == Some(tenantDomain)
  {
    GraphURL + "/" + tenantDomain
  }

  /** Recovers the tenant from an authorization URL; the inverse of `GetAuthURL`. */
  function AuthURLTenant(url: string): (r: Option<string>)
  {
    var head := AuthURLPrefix + "/";
    if |head| + |AuthURLSuffix| <= |url| && url[..|head|] == head && url[|url| - |AuthURLSuffix|..] == AuthURLSuffix
    then Some(url[|head|..|url| - |AuthURLSuffix|])
    else None
  }

  /** Recovers the tenant from a tenant-scoped token URL; the inverse of `GetTokenURL`. */
  function TokenURLTenant(url: string): (r: Option<string>)
  {
    var head := GraphURL + "/";
    if |head| <= |url| && url[..|head|] == head then Some(url[|head|..]) else None
  }

  /** An OAuth2 access token, opaque to the client. */
  datatype Token = Token(accessToken: string)

  /** An `*http.Client`; it carries the debug transport when HTTP debugging was on at its creation. */
  class HttpClient {
    const debugTransport: bool

    constructor (debugTransport: bool)
      ensures this.debugTransport == debugTransport
    {
      this.debugTransport := debugTransport;
    }
  }

  /**
   * The OAuth2 token endpoint reached by `config.Token`: the i-th exchange
   * answers `respond(i)`, and `exchanges` counts the exchanges made so far.
   */
  class TokenServer {
    var exchanges: nat
    const respond: nat -> Result<Token, Error>

    constructor (respond: nat -> Result<Token, Error>)
      ensures exchanges == 0 && this.respond == respond
    {
      exchanges := 0;
      this.respond := respond;
    }

    method Exchange() returns (r: Result<Token, Error>)
      modifies this
      ensures exchanges == old(exchanges) + 1
      ensures r == respond(old(exchanges))
    {
      r := respond(exchanges);
      exchanges := exchanges + 1;
    }
  }

  /** The error `GetToken` returns when the exchange fails: the cause's text after a fixed prefix, the cause kept. */
  function RetrievingToken(cause: Error): (e: Error)
    ensures e.GraphAPIError? && e.inner == Some(cause)
    ensures Text(e) == "Retrieving token: " + Text(cause)
  {
    Wrap("Retrieving token: ", cause)
  }

  /** `GraphAPI`. The log level that `SetDebug` switches is diagnostic only and not modelled. */
  class GraphAPI {
    var tenantDomain: string
    var authURL: string
    var tokenURL: string
    var clientID: string
    var clientSecret: string
    var client: HttpClient?
    var token: Option<Token>
    var httpDebug: bool

    /** `New`: the token URL is the bare service root, not the tenant-scoped `GetTokenURL`. */
    constructor New(tenantDomain: string)
      ensures this.tenantDomain == tenantDomain
      ensures authURL == GetAuthURL(tenantDomain) && tokenURL == GraphURL
      ensures clientID == "" && clientSecret == ""
      ensures client == null && token == None && !httpDebug
    {
      this.tenantDomain := tenantDomain;
      authURL := GetAuthURL(tenantDomain);
      tokenURL := GraphURL;
      clientID, clientSecret := "", "";
      client, token := null, None;
      httpDebug := false;
    }

    /** Records whether the next HTTP client to be created gets the debug transport. */
    method SetHTTPDebug(debug: bool)
      modifies this`httpDebug
      ensures httpDebug == debug
    {
      httpDebug := debug;
    }

    method SetClientID(clientID: string)
      modifies this`clientID
      ensures this.clientID == clientID
    {
      this.clientID := clientID;
    }

    method SetClientSecret(clientSecret: string)
      modifies this`clientSecret
      ensures this.clientSecret == clientSecret
    {
      this.clientSecret := clientSecret;
    }

    /**
     * `validate`: checks the tenant, then the client ID, then the secret, and
     * reports the first that is empty; success exactly when none is.
     */
    function Validate(): (r: Option<Error>)
      reads this
      ensures r == None <==> tenantDomain != "" && clientID != "" && clientSecret != ""
      ensures r.Some? ==> r.value.GraphAPIError? && r.value.inner == None
      ensures tenantDomain == "" ==> r == Some(GraphAPIError("Tenant domain must be set", None))
      ensures tenantDomain != "" && clientID == "" ==> r == Some(GraphAPIError("ClientID must be set", None))
      ensures tenantDomain != "" && clientID != "" && clientSecret == "" ==>
        r == Some(GraphAPIError("Client secret must be set", None))
    {
      if |tenantDomain| == 0 then Some(GraphAPIError("Tenant domain must be set", None))
      else if |clientID| == 0 then Some(GraphAPIError("ClientID must be set", None))
      else if |clientSecret| == 0 then Some(GraphAPIError("Client secret must be set", None))
      else None
    }

    /** `Client`: creates the HTTP client on the first call and returns that same client ever after; never fails. */
    method Client() returns (c: HttpClient, err: Option<Error>)
      modifies this`client
      ensures err == None && client == c
      ensures old(client) != null ==> c == old(client)
      ensures old(client) == null ==> fresh(c) && c.debugTransport == httpDebug
    {
      if client == null {
        client := new HttpClient(httpDebug);
      }
      c, err := client, None;
    }

    /**
     * `GetToken`, which has a value receiver: it stores the fetched token in a
     * copy of the client, so the client itself never keeps it. A present
     * token is returned as is; otherwise a failed validation is returned with
     * no exchange; otherwise one exchange is made and a failure is wrapped.
     */
    method GetToken(server: TokenServer) returns (tok: Option<Token>, err: Option<Error>)
      modifies server
      ensures token.Some? ==> tok == token && err == None && server.exchanges == old(server.exchanges)
      ensures token.None? && Validate().Some? ==>
        tok == None && err == Validate() && server.exchanges == old(server.exchanges)
      ensures token.None? && Validate().None? ==>
        server.exchanges == old(server.exchanges) + 1 &&
        match server.respond(old(server.exchanges))
        case Success(t) => tok == Some(t) && err == None
        case Failure(e) => tok == None && err == Some(RetrievingToken(e))
    {
      var copy := token;
      if copy.None? {
        var invalid := Validate();
        if invalid.Some? {
          return None, invalid;
        }
        var fetched := server.Exchange();
        if fetched.Failure? {
          return None, Some(RetrievingToken(fetched.error));
        }
        copy := Some(fetched.value);
      }
      tok, err := copy, None;
    }

    /**
     * `GetToken` as it is evidently meant to work: the same decisions, but the
     * fetched token is stored in the client itself.
     */
    method GetTokenCaching(server: TokenServer) returns (tok: Option<Token>, err: Option<Error>)
      modifies this`token, server
      ensures old(token).Some? ==> tok == old(token) && err == None && token == old(token) && server.exchanges == old(server.exchanges)
      ensures old(token).None? && Validate().Some? ==>
        tok == None && err == Validate() && token == None && server.exchanges == old(server.exchanges)
      ensures old(token).None? && Validate().None? ==>
        server.exchanges == old(server.exchanges) + 1 &&
        match server.respond(old(server.exchanges))
        case Success(t) => tok == Some(t) && token == Some(t) && err == None
        case Failure(e) => tok == None && token == None && err == Some(RetrievingToken(e))
    {
      if token.None? {
        var invalid := Validate();
        if invalid.Some? {
          return None, invalid;
        }
        var fetched := server.Exchange();
        if fetched.Failure? {
          return None, Some(RetrievingToken(fetched.error));
        }
        token := Some(fetched.value);
      }
      tok, err := token, None;
    }

    /** `SetToken`: unimplemented, always the same error, nothing changes. */
    method SetToken(t: Token) returns (err: Error)
      ensures err == GraphAPIError("Unimplemented", None)
      ensures Text(err) == "Unimplemented"
    {
      err := GraphAPIError("Unimplemented", None);
    }

    /** `GetResourceEndpoint`: reads the token URL only. */
    function GetResourceEndpoint(r: Resources.Resource): (e: string)
      reads this`tokenURL
      ensures Resources.SplitEndpoint(tokenURL, e) == Some((Resources.VersionSegment(r.apiVersion), r.resource))
    {
      Resources.Endpoint(tokenURL, r)
    }
  }

  /**
   * As written, two `GetToken` calls on a configured client without a token
   * make two exchanges: nothing is cached between them.
   */
  method RepeatedGetTokenExchangesTwice(api: GraphAPI, server: TokenServer)
    requires api.token == None && api.Validate() == None
    modifies server
    ensures server.exchanges == old(server.exchanges) + 2
    ensures api.token == None
  {
    var t1, e1 := api.GetToken(server);
    var t2, e2 := api.GetToken(server);
  }

  /**
   * With the token cached, once one call has succeeded the next returns the
   * same token without another exchange.
   */
  method RepeatedGetTokenCachingExchangesOnce(api: GraphAPI, server: TokenServer)
    returns (t1: Option<Token>, t2: Option<Token>)
    requires api.token == None && api.Validate() == None
    requires server.respond(server.exchanges).Success?
    modifies api`token, server
    ensures server.exchanges == old(server.exchanges) + 1
    ensures t1.Some? && t2 == t1 && api.token == t1
  {
    var e1, e2;
    t1, e1 := api.GetTokenCaching(server);
    t2, e2 := api.GetTokenCaching(server);
  }
}
