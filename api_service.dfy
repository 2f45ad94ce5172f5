/**
 * The generic REST client `ApiService<T>` (src/app/shared/api.service.ts).
 * It holds the backend URL and a mutable base path; each verb builds one
 * request to `apiUrl + basePath + endpoint`. The response type `T` plays no
 * part in building a request and is dropped.
 */
module Api {
  import opened Wrappers
  import opened Http
  import Text

  /** `ApiConfig`: the only configurable setting is the base path. */
  datatype ApiConfig = ApiConfig(basePath: string)

  class ApiService {
    /** `environment.apiUrl`, fixed for the life of the service. */
    const apiUrl: string
    var basePath: string

    constructor (apiUrl: string)
      ensures this.apiUrl == apiUrl
      ensures basePath == ""
    {
      this.apiUrl := apiUrl;
      basePath := "";
    }

    /** `getHeaders()`: the JSON content type, and nothing else. */
    function Headers(): (hs: seq<Header>)
      ensures ContentType in hs
      ensures forall h :: h in hs ==> h == ContentType
    {
      [ContentType]
    }

    /** `getFullPath(endpoint)`: the base path followed by the endpoint, an absent one read as "". */
    function FullPath(endpoint: Option<string>): (p: string)
      reads this
      ensures Text.StripPrefix(basePath, p) == Some(endpoint.GetOr(""))
    {
      Text.StripPrefixConcat(basePath, endpoint.GetOr(""));
      basePath + endpoint.GetOr("")
    }

    /** The part of `url` this service addresses below `apiUrl + basePath`, if any. */
    function ResourcePath(url: string): Option<string>
      reads this
    {
      Text.StripPrefix(apiUrl + basePath, url)
    }

    /** `${apiUrl}${getFullPath(endpoint)}`: the URL every builder starts from. */
    function Url(endpoint: Option<string>): (u: string)
      reads this
      ensures ResourcePath(u) == Some(endpoint.GetOr(""))
    {
      var e := endpoint.GetOr("");
      assert apiUrl + FullPath(endpoint) == apiUrl + basePath + e;
      Text.StripPrefixConcat(apiUrl + basePath, e);
      apiUrl + FullPath(endpoint)
    }

    /** `setConfig(config)`: replaces the base path; `apiUrl` is a constant. */
    method SetConfig(config: ApiConfig)
      modifies this`basePath
      ensures basePath == config.basePath
    {
      basePath := config.basePath;
    }

    function List(endpoint: Option<string>, params: Option<Params>): (r: Request)
      reads this
      ensures r.verb == GET
      ensures ResourcePath(r.url) == Some(endpoint.GetOr(""))
      ensures r.headers == Headers() && r.body == NoBody && r.params == params
    {
      Request(GET, Url(endpoint), Headers(), NoBody, params)
    }

    function Get(endpoint: string, params: Option<Params>): (r: Request)
      reads this
      ensures r.verb == GET
      ensures ResourcePath(r.url) == Some(endpoint)
      ensures r.headers == Headers() && r.body == NoBody && r.params == params
    {
      Request(GET, Url(Some(endpoint)), Headers(), NoBody, params)
    }

    function Post(endpoint: string, body: Row): (r: Request)
      reads this
      ensures r.verb == POST
      ensures ResourcePath(r.url) == Some(endpoint)
      ensures r.headers == Headers() && r.body == JsonBody(body) && r.params == None
    {
      Request(POST, Url(Some(endpoint)), Headers(), JsonBody(body), None)
    }

    /** Multipart POST: no explicit header, so the transport sets the boundary. */
    function PostFormData(formData: FormData, endpoint: Option<string>): (r: Request)
      reads this
      ensures r.verb == POST
      ensures ResourcePath(r.url) == Some(endpoint.GetOr(""))
      ensures r.headers == [] && r.body == FormBody(formData) && r.params == None
    {
      Request(POST, Url(endpoint), [], FormBody(formData), None)
    }

    function Put(endpoint: string, body: Row): (r: Request)
      reads this
      ensures r.verb == PUT
      ensures ResourcePath(r.url) == Some(endpoint)
      ensures r.headers == Headers() && r.body == JsonBody(body) && r.params == None
    {
      Request(PUT, Url(Some(endpoint)), Headers(), JsonBody(body), None)
    }

    /** DELETE to the endpoint followed by "/" and the identifier. */
    function Delete(id: Id, endpoint: Option<string>): (r: Request)
      reads this
      ensures r.verb == DELETE
      ensures ResourcePath(r.url) == Some(endpoint.GetOr("") + "/" + IdText(id))
      ensures r.headers == Headers() && r.body == NoBody && r.params == None
    {
      var tail := "/" + IdText(id);
      Text.StripPrefixExtend(apiUrl + basePath, Url(endpoint), tail);
      assert Url(endpoint) + tail == Url(endpoint) + "/" + IdText(id);
      assert endpoint.GetOr("") + tail == endpoint.GetOr("") + "/" + IdText(id);
      Request(DELETE, Url(endpoint) + "/" + IdText(id), Headers(), NoBody, None)
    }

    function Patch(endpoint: string, body: Row): (r: Request)
      reads this
      ensures r.verb == PATCH
      ensures ResourcePath(r.url) == Some(endpoint)
      ensures r.headers == Headers() && r.body == JsonBody(body) && r.params == None
    {
      Request(PATCH, Url(Some(endpoint)), Headers(), JsonBody(body), None)
    }
  }

  /** One call of any of the seven request builders. */
  datatype Call =
    | ListCall(endpoint: Option<string>, params: Option<Params>)
    | GetCall(path: string, params: Option<Params>)
    | PostCall(path: string, body: Row)
    | PostFormCall(form: FormData, endpoint: Option<string>)
    | PutCall(path: string, body: Row)
    | DeleteCall(id: Id, endpoint: Option<string>)
    | PatchCall(path: string, body: Row)

  function Issue(api: ApiService, call: Call): Request
    reads api
  {
    match call
    case ListCall(e, q) => api.List(e, q)
    case GetCall(e, q) => api.Get(e, q)
    case PostCall(e, b) => api.Post(e, b)
    case PostFormCall(f, e) => api.PostFormData(f, e)
    case PutCall(e, b) => api.Put(e, b)
    case DeleteCall(id, e) => api.Delete(id, e)
    case PatchCall(e, b) => api.Patch(e, b)
  }

  /** Every URL the service builds is `apiUrl`, then `basePath`, then the rest. */
  lemma UrlStartsWithApiUrlAndBasePath(api: ApiService, call: Call)
    ensures api.apiUrl + api.basePath <= Issue(api, call).url
    ensures Issue(api, call).url[..|api.apiUrl|] == api.apiUrl
    ensures Issue(api, call).url[|api.apiUrl|..|api.apiUrl| + |api.basePath|] == api.basePath
  {
  }

  /** Only the JSON builders attach the JSON content type. */
  lemma JsonHeaderUnlessMultipart(api: ApiService, call: Call)
    ensures ContentType in Issue(api, call).headers <==> !call.PostFormCall?
  {
  }

  /** A numeric identifier can be read back from the last segment of a DELETE URL. */
  lemma DeleteUrlNamesId(api: ApiService, n: int, endpoint: Option<string>)
    ensures Text.ParseInt(Text.LastSegment(api.Delete(NumId(n), endpoint).url)) == Some(n)
  {
    var prefix := api.Url(endpoint);
    assert api.Delete(NumId(n), endpoint).url == prefix + "/" + Text.DecimalText(n);
    Text.LastSegmentAfterSlash(prefix, Text.DecimalText(n));
    Text.DecimalTextRoundTrip(n);
  }

  /** Deleting two different numeric identifiers never targets the same URL. */
  lemma DeleteUrlInjective(api: ApiService, a: int, b: int, endpoint: Option<string>)
    requires api.Delete(NumId(a), endpoint).url == api.Delete(NumId(b), endpoint).url
    ensures a == b
  {
    DeleteUrlNamesId(api, a, endpoint);
    DeleteUrlNamesId(api, b, endpoint);
  }
}
