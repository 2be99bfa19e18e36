/**
 * Resource descriptors, the process-wide registry that resource modules fill
 * at start-up, and the endpoint URL a descriptor resolves to.
 */
module Resources {
  import opened Wrappers
  import opened Strings

  /** `APIVersion` is a plain integer type; only two values are named. */
  type APIVersion = int

  const APIVersionV1: APIVersion := 0
  const APIVersionBeta: APIVersion := 1

  /** A resource descriptor: a name, an API version and the path segment of the resource. */
  datatype Resource = Resource(name: string, apiVersion: APIVersion, resource: string)

  /** Go's zero `Resource`: empty strings and version 0, which is `APIVersionV1`. */
  const ZeroResource := Resource("", 0, "")

  /** The path segment of an API version; any unnamed version leaves it empty. */
  function VersionSegment(v: APIVersion): (r: string)
    ensures r == "v1.0" <==> v == APIVersionV1
    ensures r == "beta" <==> v == APIVersionBeta
    ensures r == "" <==> v != APIVersionV1 && v != APIVersionBeta
    ensures '/' !in r
  {
    if v == APIVersionV1 then "v1.0"
    else if v == APIVersionBeta then "beta"
    else ""
  }

  /**
   * The endpoint of a descriptor under a token URL, `{tokenURL}/{segment}/{resource}`:
   * it splits back into the descriptor's segment and resource path.
   */
  function Endpoint(tokenURL: string, r: Resource): (e: string)
    ensures SplitEndpoint(tokenURL, e) == Some((VersionSegment(r.apiVersion), r.resource))
  {
    var e := tokenURL + "/" + VersionSegment(r.apiVersion) + "/" + r.resource;
    var prefix := tokenURL + "/";
    assert e[..|prefix|] == prefix;
    assert e[|prefix|..] == VersionSegment(r.apiVersion) + "/" + r.resource;
    SplitAtFirstAt(VersionSegment(r.apiVersion), '/', r.resource);
    e
  }

  /** Reads an endpoint under `tokenURL` back into its version segment and resource path. */
  function SplitEndpoint(tokenURL: string, e: string): (r: Option<(string, string)>)
  {
    var prefix := tokenURL + "/";
    if |prefix| <= |e| && e[..|prefix|] == prefix then
      match SplitAtFirst(e[|prefix|..], '/')
      case (segment, Some(path)) => Some((segment, path))
      case (_, None) => None
    else None
  }

  /**
   * Under one token URL the endpoint determines the resource path and, for the
   * two named versions, the version; the descriptor's name plays no part.
   */
  lemma EndpointDeterminesDescriptor(tokenURL: string, r1: Resource, r2: Resource)
    requires r1.apiVersion in {APIVersionV1, APIVersionBeta}
    requires r2.apiVersion in {APIVersionV1, APIVersionBeta}
    ensures Endpoint(tokenURL, r1) == Endpoint(tokenURL, r2) <==>
      r1.apiVersion == r2.apiVersion && r1.resource == r2.resource
  {
  }

  /** An unnamed version gives an empty segment, so the endpoint has a double slash. */
  lemma UnknownVersionEndpoint(tokenURL: string, r: Resource)
    requires r.apiVersion != APIVersionV1 && r.apiVersion != APIVersionBeta
    ensures Endpoint(tokenURL, r) == tokenURL + "//" + r.resource
  {
  }

  /** The process-wide registry of descriptors, keyed by logical name. */
  class Registry {
    var resources: map<string, Resource>

    /** Package initialisation: the registry starts empty. */
    constructor ()
      ensures resources == map[]
    {
      resources := map[];
    }

    /** Go's map index: the registered descriptor, or the zero descriptor for an unknown key. */
    function Lookup(key: string): (r: Resource)
      reads this
      ensures key in resources ==> r == resources[key]
      ensures key !in resources ==> r == ZeroResource
    {
      if key in resources then resources[key] else ZeroResource
    }
  }

  /** An unregistered key still resolves, through the zero descriptor, to `{tokenURL}/v1.0/`. */
  lemma ZeroResourceEndpoint(tokenURL: string)
    ensures Endpoint(tokenURL, ZeroResource) == tokenURL + "/v1.0/"
  {
  }
}
