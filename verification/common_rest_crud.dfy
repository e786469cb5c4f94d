/** The HTTP verbs the harness issues, with and without status validation,
    over an abstract transport that either delivers a response or throws. */
module CommonRestCRUD {
  import opened Base
  import opened Text
  import opened CommonRequestSpec

  datatype Verb = GET | POST | PUT | PATCH | DELETE

  /** What a JSON-path lookup on a response body yields: a string, a value
      of another JSON type (with its rendering by `getString`), null, or an
      exception (a body that is not JSON, a malformed path, ...). */
  datatype Extraction = Found(text: string) | NonString(rendering: string) | Null | Raises(reason: string)

  /** A captured response. `paths` is the abstract JSON-path view of the
      body: a key it does not list extracts to null. */
  datatype Response = Response(
    status: int,
    timeMs: int,
    contentType: Option<string>,
    body: Option<string>,
    headers: map<string, string>,
    paths: map<string, Extraction>)

  /** `response.path(key)` / `response.jsonPath().getString(key)`. */
  function PathValue(r: Response, key: string): Extraction {
    if key in r.paths then r.paths[key] else Null
  }

  /** `response.path(key)` read into a `String`: the string or null, and a
      ClassCastException for a value of another type. */
  function PathAsString(r: Response, key: string): (v: Result<Option<string>>)
    ensures v.Err? <==> PathValue(r, key).NonString? || PathValue(r, key).Raises?
    ensures v.Err? ==> v.failure.ExtractionFailure? && v.failure.IsException()
    ensures PathValue(r, key).Found? ==> v == Ok(Some(PathValue(r, key).text))
    ensures PathValue(r, key).Null? ==> v == Ok(None)
  {
    match PathValue(r, key)
    case Found(text) => Ok(Some(text))
    case NonString(_) => Err(ExtractionFailure(key, "value is not a String"))
    case Null => Ok(None)
    case Raises(reason) => Err(ExtractionFailure(key, reason))
  }

  /** `response.path(key)` read into an `Object`: whether the value is
      non-null; any type is accepted. */
  function PathIsPresent(r: Response, key: string): (v: Result<bool>)
    ensures v.Err? <==> PathValue(r, key).Raises?
    ensures v.Err? ==> v.failure.ExtractionFailure? && v.failure.IsException()
    ensures v.Ok? ==> (v.value <==> PathValue(r, key).Found? || PathValue(r, key).NonString?)
  {
    match PathValue(r, key)
    case Raises(reason) => Err(ExtractionFailure(key, reason))
    case Null => Ok(false)
    case _ => Ok(true)
  }

  /** `response.jsonPath().getString(key)`: the value rendered as a string
      whatever its type, or null. */
  function JsonPathString(r: Response, key: string): (v: Result<Option<string>>)
    ensures v.Err? <==> PathValue(r, key).Raises?
    ensures v.Err? ==> v.failure.ExtractionFailure? && v.failure.IsException()
    ensures v.Ok? ==> (v.value.None? <==> PathValue(r, key).Null?)
    ensures PathAsString(r, key).Ok? ==> v == PathAsString(r, key)
  {
    match PathValue(r, key)
    case Found(text) => Ok(Some(text))
    case NonString(rendering) => Ok(Some(rendering))
    case Null => Ok(None)
    case Raises(reason) => Err(ExtractionFailure(key, reason))
  }

  /** `response.getHeader(name)`. */
  function Header(r: Response, name: string): Option<string> {
    if name in r.headers then Some(r.headers[name]) else None
  }

  /** One network call: the verb, the descriptor, and the path given at
      call time ("" when the verb is called without one). */
  datatype Call = Call(verb: Verb, request: Request, path: string)

  datatype Delivery = Delivered(response: Response) | Raised(reason: string)

  /** The network: a response for every call, or an exception. */
  type Transport = Call -> Delivery

  /** Issuing a call and extracting the response, with no status check. */
  function Perform(transport: Transport, call: Call): (r: Result<Response>)
    ensures r.Ok? <==> transport(call).Delivered?
    ensures r.Ok? ==> r.value == transport(call).response
    ensures r.Err? ==> r.failure == TransportFailure(transport(call).reason)
  {
    match transport(call)
    case Delivered(response) => Ok(response)
    case Raised(reason) => Err(TransportFailure(reason))
  }

  /** `.statusCode(expected)`: an AssertionError when the status differs. */
  function Validate(r: Result<Response>, expected: int): Result<Response> {
    match r
    case Ok(response) =>
      if response.status == expected then r else Err(StatusMismatch(expected, response.status))
    case Err(_) => r
  }

  /** `get(spec)`, `post(spec)`, `put(spec)`, `patch(spec)`, `delete(spec)`:
      the response whatever its status; only the transport can throw, and
      what it throws is an Exception. */
  function Send(transport: Transport, verb: Verb, spec: Request): (r: Result<Response>)
    ensures r.Ok? <==> transport(Call(verb, spec, "")).Delivered?
    ensures r.Ok? ==> r.value == transport(Call(verb, spec, "")).response
    ensures r.Err? ==> r.failure.TransportFailure? && r.failure.IsException()
  {
    Perform(transport, Call(verb, spec, ""))
  }

  /** `get(spec, expected)` and its siblings: the same call, failing with a
      status mismatch when the delivered status is not `expected`. */
  function SendExpecting(transport: Transport, verb: Verb, spec: Request, expected: int): (r: Result<Response>)
    ensures r.Ok? <==> Send(transport, verb, spec).Ok? && Send(transport, verb, spec).value.status == expected
    ensures r.Ok? ==> r == Send(transport, verb, spec)
    ensures Send(transport, verb, spec).Ok? && Send(transport, verb, spec).value.status != expected
            ==> r == Err(StatusMismatch(expected, Send(transport, verb, spec).value.status))
    ensures Send(transport, verb, spec).Err? ==> r == Send(transport, verb, spec)
  {
    Validate(Send(transport, verb, spec), expected)
  }

  /** The call `getWithPathParam` makes: a GET of the path "/{id}", with the
      value bound to the `id` path parameter and nothing else changed. */
  function PathParamCall(spec: Request, pathParam: string): (c: Call)
    ensures c.verb == GET && c.path == "/{id}"
    ensures "id" in c.request.pathParams && c.request.pathParams["id"] == pathParam
    ensures c.request.pathParams.Keys == spec.pathParams.Keys + {"id"}
    ensures forall k :: k in spec.pathParams && k != "id" ==> c.request.pathParams[k] == spec.pathParams[k]
    ensures c.request == spec.(pathParams := c.request.pathParams)
  {
    Call(GET, spec.(pathParams := spec.pathParams["id" := pathParam]), "/{id}")
  }

  /** `getWithPathParam(spec, value, expected)`. */
  function GetWithPathParam(transport: Transport, spec: Request, pathParam: string, expected: int): (r: Result<Response>)
    ensures r.Ok? <==> transport(PathParamCall(spec, pathParam)).Delivered?
                       && transport(PathParamCall(spec, pathParam)).response.status == expected
    ensures r.Ok? ==> r.value == transport(PathParamCall(spec, pathParam)).response
  {
    Validate(Perform(transport, PathParamCall(spec, pathParam)), expected)
  }

  /** The call `getWithQueryParam` makes: a GET with the one query parameter
      added and nothing else changed. */
  function QueryParamCall(spec: Request, name: string, value: string): (c: Call)
    ensures c.verb == GET && c.path == ""
    ensures c.request.query.Keys == spec.query.Keys + {name}
    ensures c.request.query[name] == value
    ensures forall k :: k in spec.query && k != name ==> c.request.query[k] == spec.query[k]
    ensures c.request == spec.(query := c.request.query)
  {
    Call(GET, spec.(query := spec.query[name := value]), "")
  }

  /** `getWithQueryParam(spec, name, value, expected)`. */
  function GetWithQueryParam(transport: Transport, spec: Request, name: string, value: string, expected: int): (r: Result<Response>)
    ensures r.Ok? <==> transport(QueryParamCall(spec, name, value)).Delivered?
                       && transport(QueryParamCall(spec, name, value)).response.status == expected
    ensures r.Ok? ==> r.value == transport(QueryParamCall(spec, name, value)).response
  {
    Validate(Perform(transport, QueryParamCall(spec, name, value)), expected)
  }

  /** The name of each verb on the wire. */
  function VerbName(v: Verb): string {
    match v
    case GET => "GET"
    case POST => "POST"
    case PUT => "PUT"
    case PATCH => "PATCH"
    case DELETE => "DELETE"
  }

  /** The verb named by `method.toUpperCase()`, among the four that
      `executeRequest` supports; PATCH is not one of them. */
  function ParseMethod(verbName: string): (v: Option<Verb>)
    ensures v != Some(PATCH)
    ensures v.Some? ==> Upper(verbName) == VerbName(v.value)
    ensures v.None? <==> Upper(verbName) !in {"GET", "POST", "PUT", "DELETE"}
  {
    var upper := Upper(verbName);
    if upper == "GET" then Some(GET)
    else if upper == "POST" then Some(POST)
    else if upper == "PUT" then Some(PUT)
    else if upper == "DELETE" then Some(DELETE)
    else None
  }

  /** `executeRequest(spec, endpoint, method)`: the named verb against the
      endpoint with no status validation, or IllegalArgumentException for a
      method it does not support. */
  function ExecuteRequest(transport: Transport, spec: Request, endpoint: string, verbName: string): (r: Result<Response>)
    ensures ParseMethod(verbName).None? ==> r == Err(IllegalArgument("Unsupported HTTP method: " + verbName))
    ensures ParseMethod(verbName).Some? ==> r == Perform(transport, Call(ParseMethod(verbName).value, spec, endpoint))
    ensures r.Err? ==> r.failure.IsException()
  {
    match ParseMethod(verbName)
    case None => Err(IllegalArgument("Unsupported HTTP method: " + verbName))
    case Some(verb) => Perform(transport, Call(verb, spec, endpoint))
  }

  /** Method names that differ only in case select the same verb. */
  lemma ParseMethodIgnoresCase(m1: string, m2: string)
    requires EqualsIgnoreCase(m1, m2)
    ensures ParseMethod(m1) == ParseMethod(m2)
  {
    EqualsIgnoreCaseSameUpper(m1, m2);
  }

  /** The four supported verbs are accepted in upper and in lower case. */
  lemma ParseMethodAcceptsSupportedVerbs()
    ensures ParseMethod("GET") == Some(GET) && ParseMethod("get") == Some(GET)
    ensures ParseMethod("POST") == Some(POST) && ParseMethod("post") == Some(POST)
    ensures ParseMethod("PUT") == Some(PUT) && ParseMethod("put") == Some(PUT)
    ensures ParseMethod("DELETE") == Some(DELETE) && ParseMethod("delete") == Some(DELETE)
    ensures ParseMethod("PATCH").None? && ParseMethod("patch").None?
  {
    assert Upper("GET") == "GET" && Upper("get") == "GET";
    assert Upper("POST") == "POST" && Upper("post") == "POST";
    assert Upper("PUT") == "PUT" && Upper("put") == "PUT";
    assert Upper("DELETE") == "DELETE" && Upper("delete") == "DELETE";
    assert Upper("PATCH") == "PATCH" && Upper("patch") == "PATCH";
  }

  /** Every supported verb is selected by its own name, in upper and in
      lower case. */
  lemma ParseMethodNamesEachVerb(v: Verb)
    requires v != PATCH
    ensures ParseMethod(VerbName(v)) == Some(v)
    ensures ParseMethod(Lower(VerbName(v))) == Some(v)
  {
    UpperOfLower(VerbName(v));
    assert Upper(VerbName(v)) == VerbName(v);
  }

  /** A supported method gives the same call whatever its case. */
  lemma ExecuteRequestIgnoresCase(transport: Transport, spec: Request, endpoint: string, m1: string, m2: string)
    requires EqualsIgnoreCase(m1, m2)
    requires ParseMethod(m1).Some?
    ensures ExecuteRequest(transport, spec, endpoint, m1) == ExecuteRequest(transport, spec, endpoint, m2)
  {
    ParseMethodIgnoresCase(m1, m2);
  }
}
