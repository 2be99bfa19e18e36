/**
 * The user resource module: its registration in the resource registry and
 * the request URL `GetUser` builds. The user record itself is a JSON schema
 * and is not modelled.
 */
module Users {
  import opened Wrappers
  import opened Strings
  import opened Errors
  import Query
  import Resources
  import GraphApi

  const UserV1Key := "UserV1"
  const UserV1 := Resources.Resource("User", Resources.APIVersionV1, "users")

  /** The module's initialisation: registers "UserV1" and leaves every other entry alone. */
  method RegisterUser(registry: Resources.Registry)
    modifies registry
    ensures registry.resources == old(registry.resources)[UserV1Key := UserV1]
  {
    registry.resources := registry.resources[UserV1Key := UserV1];
  }

  /**
   * The request URL: the endpoint, "/" and the id verbatim; when properties
   * are given, "?" and the select option's name "=" its value follow, and
   * nothing follows otherwise.
   */
  function UserEndpoint(endpoint: string, id: string, properties: seq<string>): (r: string)
    ensures properties == [] ==> r == endpoint + "/" + id
    ensures properties != [] ==>
      r == endpoint + "/" + id + "?" + Query.Name(Query.Select(properties)) + "=" + Query.Value(Query.Select(properties))
  {
    var path := endpoint + "/" + id;
    if |properties| > 0 then path + "?$select=" + Join(properties, ",") else path
  }

  /**
   * Round trip: when neither the endpoint nor the id contains '?' and no
   * property contains ',', the URL splits back at '?' into the path and,
   * exactly when properties were given, a "$select=" part whose value
   * splits back into the properties in order.
   */
  lemma UserEndpointRoundTrip(endpoint: string, id: string, properties: seq<string>)
    requires '?' !in endpoint + "/" + id
    requires Free(properties, ',')
    ensures var (path, query) := SplitAtFirst(UserEndpoint(endpoint, id, properties), '?');
      && path == endpoint + "/" + id
      && (query.Some? <==> properties != [])
      && (query.Some? ==> |query.value| >= 8 && query.value[..8] == "$select=" && Split(query.value[8..], ',') == properties)
  {
    var path := endpoint + "/" + id;
    if properties == [] {
      SplitAtFirstNone(path, '?');
    } else {
      var rest := "$select=" + Join(properties, ",");
      assert UserEndpoint(endpoint, id, properties) == path + ['?'] + rest;
      SplitAtFirstAt(path, '?', rest);
      assert rest[8..] == Join(properties, [',']);
      SplitJoin(properties, ',');
    }
  }

  /**
   * `GetUser` up to the request: builds the URL from the registered "UserV1"
   * descriptor, obtains the HTTP client (created on first use) and returns the
   * URL it would GET. An error from `Client` would be returned before any
   * request; `Client` never reports one.
   */
  method GetUser(api: GraphApi.GraphAPI, registry: Resources.Registry, id: string, properties: seq<string>)
    returns (request: Option<string>, err: Option<Error>)
    modifies api`client
    ensures err.Some? ==> request == None
    ensures err == None
    ensures request == Some(UserEndpoint(api.GetResourceEndpoint(registry.Lookup(UserV1Key)), id, properties))
    ensures api.client != null && (old(api.client) != null ==> api.client == old(api.client))
  {
    var endpoint := api.GetResourceEndpoint(registry.Lookup(UserV1Key)) + "/" + id;
    if |properties| > 0 {
      endpoint := endpoint + "?$select=" + Join(properties, ",");
    }
    var client;
    client, err := api.Client();
    if err.Some? {
      return None, err;
    }
    request := Some(endpoint);
  }

  /**
   * A fresh client for any tenant, the registry after initialisation, and
   * `GetUser("alice", [])`: the request goes to the service root's V1 users
   * collection, with no tenant in the URL and no query string.
   */
  method NewClientGetUser(tenantDomain: string) returns (request: Option<string>)
    ensures request == Some(GraphApi.GraphURL + "/v1.0/users/alice")
  {
    var api := new GraphApi.GraphAPI.New(tenantDomain);
    var registry := new Resources.Registry();
    RegisterUser(registry);
    assert registry.Lookup(UserV1Key) == UserV1;
    var err;
    request, err := GetUser(api, registry, "alice", []);
    assert api.GetResourceEndpoint(UserV1) == GraphApi.GraphURL + "/" + "v1.0" + "/" + "users";
    var root := GraphApi.GraphURL;
    assert root + "/" + "v1.0" == root + "/v1.0";
    assert root + "/v1.0" + "/" == root + "/v1.0/";
    assert root + "/v1.0/" + "users" == root + "/v1.0/users";
    assert root + "/v1.0/users" + "/" == root + "/v1.0/users/";
    assert root + "/v1.0/users/" + "alice" == root + "/v1.0/users/alice";
  }
}
