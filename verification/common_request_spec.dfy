/** The request descriptors the harness builds before every call: one pure
    constructor per builder, each returning exactly the fields that builder
    sets. */
module CommonRequestSpec {
  import opened Base
  import opened Text
  import opened ConfigurationReader

  datatype MediaType = Json | Multipart

  /** An immutable request descriptor. `None` in `contentType`, `accept` or
      `body` means the builder never set that field; `logged` records whether
      the request and response logging filters are attached. */
  datatype Request = Request(
    baseUri: string,
    contentType: Option<MediaType>,
    accept: Option<MediaType>,
    query: map<string, string>,
    pathParams: map<string, string>,
    headers: map<string, string>,
    body: Option<string>,
    logged: bool)

  const BASE_URI_KEY := "baseUri"

  /** The configured base URI followed directly by the endpoint, with Java's
      rendering of a null on either side. */
  function FullUri(cfg: Properties, endpoint: Option<string>): (uri: string)
    ensures BASE_URI_KEY !in cfg ==> uri == "null" + Show(endpoint)
    ensures BASE_URI_KEY in cfg && endpoint.None? ==> uri == cfg[BASE_URI_KEY] + "null"
    ensures BASE_URI_KEY in cfg && endpoint.Some? ==> uri == cfg[BASE_URI_KEY] + endpoint.value
  {
    Show(Get(cfg, BASE_URI_KEY)) + Show(endpoint)
  }

  /** A null map argument becomes the empty map. */
  function OrEmpty(m: Option<map<string, string>>): (r: map<string, string>)
    ensures m.None? ==> r == map[]
    ensures m.Some? ==> r == m.value
  {
    m.GetOr(map[])
  }

  /** The four-argument `petStoreRequestSpec`: JSON in and out, the given
      query and path parameters, and the body, with null becoming "". */
  function Build(cfg: Properties, endpoint: Option<string>, body: Option<string>,
                 query: Option<map<string, string>>, pathParams: Option<map<string, string>>): (r: Request)
    ensures r.baseUri == FullUri(cfg, endpoint)
    ensures r.contentType == Some(Json) && r.accept == Some(Json)
    ensures r.query == OrEmpty(query) && r.pathParams == OrEmpty(pathParams)
    ensures r.body == Some(body.GetOr(""))
    ensures r.headers == map[] && r.logged
  {
    Request(FullUri(cfg, endpoint), Some(Json), Some(Json), OrEmpty(query), OrEmpty(pathParams),
            map[], Some(body.GetOr("")), true)
  }

  /** The five-argument `petStoreRequestSpec`: as `Build`, plus the custom
      headers when the map is non-null and non-empty. */
  function BuildWithHeaders(cfg: Properties, endpoint: Option<string>, body: Option<string>,
                            query: Option<map<string, string>>, pathParams: Option<map<string, string>>,
                            headers: Option<map<string, string>>): (r: Request)
    ensures r.headers == OrEmpty(headers)
    ensures r == Build(cfg, endpoint, body, query, pathParams).(headers := r.headers)
  {
    var base := Request(FullUri(cfg, endpoint), Some(Json), Some(Json), OrEmpty(query),
                        OrEmpty(pathParams), map[], Some(body.GetOr("")), true);
    if headers.Some? && |headers.value| != 0 then base.(headers := headers.value) else base
  }

  /** Without custom headers the five-argument builder is the four-argument one. */
  lemma BuildWithoutHeaders(cfg: Properties, endpoint: Option<string>, body: Option<string>,
                            query: Option<map<string, string>>, pathParams: Option<map<string, string>>,
                            headers: Option<map<string, string>>)
    requires headers.None? || headers.value == map[]
    ensures BuildWithHeaders(cfg, endpoint, body, query, pathParams, headers) == Build(cfg, endpoint, body, query, pathParams)
  {
  }

  /** `petStoreRequestSpecNoLogging`: the same descriptor as `Build`, without
      the logging filters. */
  function BuildNoLogging(cfg: Properties, endpoint: Option<string>, body: Option<string>,
                          query: Option<map<string, string>>, pathParams: Option<map<string, string>>): (r: Request)
    ensures !r.logged
    ensures r.(logged := true) == Build(cfg, endpoint, body, query, pathParams)
  {
    Request(FullUri(cfg, endpoint), Some(Json), Some(Json), OrEmpty(query), OrEmpty(pathParams),
            map[], Some(body.GetOr("")), false)
  }

  /** `petStoreRequestSpecMinimal`: JSON in and out and no body at all, not
      even an empty one. */
  function BuildMinimal(cfg: Properties, endpoint: Option<string>): (r: Request)
    ensures r.body.None?
    ensures r == Build(cfg, endpoint, None, None, None).(body := None)
  {
    Request(FullUri(cfg, endpoint), Some(Json), Some(Json), map[], map[], map[], None, true)
  }

  /** `petStoreRequestSpecWithAuth`: an `Authorization` header carrying the
      bearer token, and the body with null becoming "". */
  function BuildWithAuth(cfg: Properties, endpoint: Option<string>, body: Option<string>, authToken: string): (r: Request)
    ensures "Authorization" in r.headers && r.headers["Authorization"] == "Bearer " + authToken
    ensures r == Build(cfg, endpoint, body, None, None).(headers := map["Authorization" := "Bearer " + authToken])
  {
    Request(FullUri(cfg, endpoint), Some(Json), Some(Json), map[], map[],
            map["Authorization" := "Bearer " + authToken], Some(body.GetOr("")), true)
  }

  /** `petStoreRequestSpecWithApiKey`: an `api_key` header and no body. */
  function BuildWithApiKey(cfg: Properties, endpoint: Option<string>, apiKey: string): (r: Request)
    ensures r.body.None?
    ensures r == BuildMinimal(cfg, endpoint).(headers := map["api_key" := apiKey])
  {
    Request(FullUri(cfg, endpoint), Some(Json), Some(Json), map[], map[], map["api_key" := apiKey], None, true)
  }

  /** `petStoreRequestSpecMultipart`: multipart content, no accept type and
      no body. */
  function BuildMultipart(cfg: Properties, endpoint: Option<string>): (r: Request)
    ensures r.contentType == Some(Multipart) && r.accept.None? && r.body.None?
    ensures r == BuildMinimal(cfg, endpoint).(contentType := Some(Multipart), accept := None)
  {
    Request(FullUri(cfg, endpoint), Some(Multipart), None, map[], map[], map[], None, true)
  }

  /** Every builder targets the same URI for the same endpoint. */
  lemma BuildersShareUri(cfg: Properties, endpoint: Option<string>, body: Option<string>,
                         query: Option<map<string, string>>, pathParams: Option<map<string, string>>,
                         headers: Option<map<string, string>>, token: string, apiKey: string)
    ensures var uri := Build(cfg, endpoint, body, query, pathParams).baseUri;
      && BuildWithHeaders(cfg, endpoint, body, query, pathParams, headers).baseUri == uri
      && BuildNoLogging(cfg, endpoint, body, query, pathParams).baseUri == uri
      && BuildMinimal(cfg, endpoint).baseUri == uri
      && BuildWithAuth(cfg, endpoint, body, token).baseUri == uri
      && BuildWithApiKey(cfg, endpoint, apiKey).baseUri == uri
      && BuildMultipart(cfg, endpoint).baseUri == uri
  {
  }
}
