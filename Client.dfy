/**
  The base client of both generations (`BaseApi` in the `tomtom_api` and
  `tomtom_apis` packages): default parameters and headers, request
  assembly, classification of failures into the client's error kinds, and
  the lifetime of the HTTP session. The transport is not modelled: what the
  session answers (a response or a raised exception) is an input.
 */
module Client {
  import opened Common
  import opened Values
  import LegacyParams
  import CurrentParams

  /** Which package: `tomtom_api` (Legacy) or its successor `tomtom_apis` (Current). */
  datatype Generation = Legacy | Current

  /** The two accepted base URLs. */
  datatype BaseUrl = Global | Korea

  function BaseUrlText(u: BaseUrl): string
  {
    match u
    case Global => "https://api.tomtom.com"
    case Korea => "https://kr-api.tomtom.com"
  }

  /** `ApiOptions`; the timeout is handed to the transport and plays no part in the model. */
  datatype ApiOptions = ApiOptions(
    apiKey: string,
    baseUrl: BaseUrl,
    gzipCompression: bool,
    timeoutSeconds: nat,
    trackingId: bool)

  datatype Method = DELETE | GET | POST | PUT

  /**
    A parameter object: its declared fields (the result of `asdict`) and,
    for the second generation, the fields that are serialized with brackets.
   */
  datatype ParamsObject = ParamsObject(fields: map<string, Value>, bracketed: set<string>)

  /** A post body object, carried with its `to_dict()` (library serialization). */
  datatype PostData = PostData(asDict: map<string, Value>)

  /** What is handed to `session.request`. */
  datatype HttpRequest = HttpRequest(
    verb: Method,
    endpoint: string,
    params: map<string, string>,
    json: Option<map<string, Value>>,
    headers: map<string, string>)

  const ContentType: string := "Content-Type"
  const UserAgent: string := "User-Agent"
  const AcceptEncoding: string := "Accept-Encoding"
  const TrackingIdHeader: string := "Tracking-ID"

  /** `params.to_dict()` of the generation at hand. */
  function EncodeParams(generation: Generation, p: ParamsObject): (r: map<string, string>)
    ensures forall k :: k in r <==> k in p.fields && Present(p.fields[k])
  {
    match generation
    case Legacy => LegacyParams.Encode(p.fields)
    case Current => CurrentParams.ToDict(p.fields, p.bracketed)
  }

  /** The caller's parameters, encoded; no parameter object means none. */
  function CallerParams(generation: Generation, params: Option<ParamsObject>): map<string, string>
  {
    if params.Some? then EncodeParams(generation, params.value) else map[]
  }

  /** `data.to_dict() if data else None`: a body object is always truthy. */
  function Body(data: Option<PostData>): (r: Option<map<string, Value>>)
    ensures r.Some? <==> data.Some?
    ensures data.Some? ==> r.value == data.value.asDict
  {
    if data.Some? then Some(data.value.asDict) else None
  }

  // ---------------------------------------------------------------------------
  // Failure classification

  /** The exception classes the handler in `_request` tells apart. */
  datatype ExcClass =
    | TimeoutError
    | ClientError
    | ClientConnectionError
    | ClientResponseError
    | GaiError
    | AttributeError

  /** A raised exception: every class it is an instance of, and its HTTP status where it has one. */
  datatype Failure = Failure(isa: set<ExcClass>, status: int)

  /** aiohttp's hierarchy: connection and response errors are both ClientErrors. */
  predicate WellFormed(f: Failure)
  {
    && (ClientConnectionError in f.isa ==> ClientError in f.isa)
    && (ClientResponseError in f.isa ==> ClientError in f.isa)
  }

  /** The classes some `except` clause of `_request` names. */
  const Caught: set<ExcClass> := {TimeoutError, ClientError, ClientConnectionError, ClientResponseError, GaiError}

  /** The client's own exception classes. */
  datatype ApiError =
    | TomTomAPIRequestTimeout
    | TomTomAPIConnectionError
    | TomTomAPIClientError
    | TomTomAPIServerError
    | TomTomAPIError

  /**
    The `except` clauses of `_request`, tried in order: timeout, connection
    error, response error by status, then any other client error or a name
    resolution failure. None: no clause matches and the exception escapes.
   */
  function Classify(f: Failure): (r: Option<ApiError>)
    ensures r.None? <==> f.isa !! Caught
    ensures TimeoutError in f.isa ==> r == Some(TomTomAPIRequestTimeout)
    ensures r == Some(TomTomAPIConnectionError) <==>
      TimeoutError !in f.isa &&
      (ClientConnectionError in f.isa ||
       (ClientResponseError !in f.isa && (ClientError in f.isa || GaiError in f.isa)))
  {
    if TimeoutError in f.isa then Some(TomTomAPIRequestTimeout)
    else if ClientConnectionError in f.isa then Some(TomTomAPIConnectionError)
    else if ClientResponseError in f.isa then
      if 400 <= f.status < 500 then Some(TomTomAPIClientError)
      else if f.status >= 500 then Some(TomTomAPIServerError)
      else Some(TomTomAPIError)
    else if ClientError in f.isa || GaiError in f.isa then Some(TomTomAPIConnectionError)
    else None
  }

  /** The exception `raise_for_status` raises for a status of 400 or more. */
  function ResponseFailure(status: int): Failure
  {
    Failure({ClientResponseError, ClientError}, status)
  }

  /**
    A response error is classified by its status alone, although it is also
    a ClientError: the status ranges 400-499, 500 and up, and the rest are
    each mapped to exactly one error kind.
   */
  lemma ResponseStatusTable(status: int)
    ensures WellFormed(ResponseFailure(status))
    ensures Classify(ResponseFailure(status)) == Some(TomTomAPIClientError) <==> 400 <= status < 500
    ensures Classify(ResponseFailure(status)) == Some(TomTomAPIServerError) <==> 500 <= status
    ensures Classify(ResponseFailure(status)) == Some(TomTomAPIError) <==> status < 400
  {
  }

  /**
    The specific clauses come before the generic one: a well-formed failure
    that is a response error but neither a timeout nor a connection error is
    never reported as a connection error, even though it is a ClientError.
   */
  lemma SpecificBeforeGeneric(f: Failure)
    requires WellFormed(f)
    requires ClientResponseError in f.isa
    requires TimeoutError !in f.isa && ClientConnectionError !in f.isa
    ensures ClientError in f.isa
    ensures Classify(f) in {Some(TomTomAPIClientError), Some(TomTomAPIServerError), Some(TomTomAPIError)}
  {
  }

  /** What the session answered: a response, or an exception it raised. */
  datatype Outcome = Responded(status: int, headers: map<string, string>) | Raised(failure: Failure)

  datatype Response = Response(status: int, headers: map<string, string>)

  /** A failed call: one of the client's errors, or an exception no clause catches. */
  datatype RequestError = Api(error: ApiError) | Propagated(failure: Failure)

  function Fail(f: Failure): Result<Response, RequestError>
  {
    match Classify(f)
    case Some(e) => Err(Api(e))
    case None => Err(Propagated(f))
  }

  /**
    The `try` block of `_request` once the session has answered:
    `raise_for_status` turns a status of 400 or more into a response error,
    and every exception goes through Classify.
   */
  function Handle(outcome: Outcome): (r: Result<Response, RequestError>)
    ensures r.Ok? <==> outcome.Responded? && outcome.status < 400
    ensures r.Ok? ==> r.value == Response(outcome.status, outcome.headers)
    ensures outcome.Responded? && 400 <= outcome.status < 500 ==> r == Err(Api(TomTomAPIClientError))
    ensures outcome.Responded? && 500 <= outcome.status ==> r == Err(Api(TomTomAPIServerError))
  {
    match outcome
    case Responded(status, headers) =>
      if status >= 400 then Fail(ResponseFailure(status)) else Ok(Response(status, headers))
    case Raised(f) => Fail(f)
  }

  /** Every exception the handler catches becomes a client error; the others escape unchanged. */
  lemma {:induction false} NothingSwallowed(f: Failure)
    ensures Handle(Raised(f)).Err?
    ensures !(f.isa !! Caught) ==> Handle(Raised(f)).error.Api?
    ensures f.isa !! Caught ==> Handle(Raised(f)) == Err(Propagated(f))
  {
    assert Handle(Raised(f)) == Fail(f);
  }

  /** The exception raised by `self.session.request` once the session is None. */
  const NoSession: Failure := Failure({AttributeError}, 0)

  // ---------------------------------------------------------------------------
  // The client object

  /** The HTTP session: the base URL it was opened on, and the number of `close()` calls. */
  class Session {
    const baseUrl: string
    var closeCalls: nat

    constructor (baseUrl: string)
      ensures this.baseUrl == baseUrl && closeCalls == 0
    {
      this.baseUrl := baseUrl;
      closeCalls := 0;
    }

    method Close()
      modifies this
      ensures closeCalls == old(closeCalls) + 1
    {
      closeCalls := closeCalls + 1;
    }
  }

  class BaseApi {
    const generation: Generation
    const options: ApiOptions
    /** The package version, read from the package metadata. */
    const version: string
    const defaultHeaders: map<string, string>
    const defaultParams: map<string, string>
    var session: Option<Session>

    /** The defaults set up by the constructor. */
    ghost predicate Valid()
    {
      && defaultHeaders == map[ContentType := "application/json", UserAgent := "TomTomApiPython/" + version]
      && defaultParams == map["key" := options.apiKey]
    }

    /** Uses the given session, or opens a new one on the configured base URL when none is given. */
    constructor (generation: Generation, options: ApiOptions, session: Option<Session>, version: string)
      ensures Valid()
      ensures this.generation == generation && this.options == options && this.version == version
      ensures session.Some? ==> this.session == session
      ensures session.None? ==>
        && this.session.Some? && fresh(this.session.value)
        && this.session.value.baseUrl == BaseUrlText(options.baseUrl)
        && this.session.value.closeCalls == 0
    {
      this.generation := generation;
      this.options := options;
      this.version := version;
      defaultHeaders := map[ContentType := "application/json", UserAgent := "TomTomApiPython/" + version];
      defaultParams := map["key" := options.apiKey];
      if session.Some? {
        this.session := session;
      } else {
        var s := new Session(BaseUrlText(options.baseUrl));
        this.session := Some(s);
      }
    }

    /**
      The request `_request` hands to the session for the given call:
      - the parameters are the caller's encoded parameters plus `key`, which
        is the API key unless the caller's object sets `key` itself;
      - the headers are the caller's headers over the two defaults, then
        `Accept-Encoding: gzip` when compression is on and the tracking
        header with `trackingId` when tracking is on, and nothing else;
      - the body is the post data's dictionary, or none.
     */
    ghost predicate IsAssembled(
      req: HttpRequest, verb: Method, endpoint: string, params: Option<ParamsObject>,
      headers: map<string, string>, data: Option<PostData>, trackingId: string)
    {
      var caller := CallerParams(generation, params);
      && req.verb == verb
      && req.endpoint == endpoint
      && req.params.Keys == caller.Keys + {"key"}
      && (forall k :: k in caller ==> req.params[k] == caller[k])
      && ("key" !in caller ==> req.params["key"] == options.apiKey)
      && req.headers.Keys == headers.Keys + {ContentType, UserAgent}
           + (if options.gzipCompression then {AcceptEncoding} else {})
           + (if options.trackingId then {TrackingIdHeader} else {})
      && (options.gzipCompression ==> req.headers[AcceptEncoding] == "gzip")
      && (options.trackingId ==> req.headers[TrackingIdHeader] == trackingId)
      && (forall h :: h in headers
            && !(options.gzipCompression && h == AcceptEncoding)
            && !(options.trackingId && h == TrackingIdHeader)
            ==> req.headers[h] == headers[h])
      && (ContentType !in headers ==> req.headers[ContentType] == "application/json")
      && (UserAgent !in headers ==> req.headers[UserAgent] == "TomTomApiPython/" + version)
      && req.json == Body(data)
    }

    /**
      The assembly steps of `_request`: merge the parameters, merge the
      headers, convert the body, then add the option-driven headers in place.
      `headers` is empty when the caller gives none; `trackingId` stands for
      the fresh `str(uuid.uuid4())`.
     */
    method Assemble(
      verb: Method, endpoint: string, params: Option<ParamsObject>,
      headers: map<string, string>, data: Option<PostData>, trackingId: string)
      returns (req: HttpRequest)
      requires Valid()
      ensures IsAssembled(req, verb, endpoint, params, headers, data, trackingId)
    {
      var requestParams := defaultParams + CallerParams(generation, params);
      var requestHeaders := defaultHeaders + headers;
      var requestData := Body(data);
      if options.gzipCompression {
        requestHeaders := requestHeaders[AcceptEncoding := "gzip"];
      }
      if options.trackingId {
        requestHeaders := requestHeaders[TrackingIdHeader := trackingId];
      }
      req := HttpRequest(verb, endpoint, requestParams, requestData, requestHeaders);
    }

    /**
      `_request`: assemble the request, hand it to the session (whose answer
      is `outcome`) and classify the result. Without a session the call
      fails with the uncaught AttributeError.
     */
    method Request(
      verb: Method, endpoint: string, params: Option<ParamsObject>,
      headers: map<string, string>, data: Option<PostData>, trackingId: string, outcome: Outcome)
      returns (req: HttpRequest, r: Result<Response, RequestError>)
      requires Valid()
      ensures IsAssembled(req, verb, endpoint, params, headers, data, trackingId)
      ensures session.None? ==> r == Err(Propagated(NoSession))
      ensures session.Some? ==> r == Handle(outcome)
    {
      req := Assemble(verb, endpoint, params, headers, data, trackingId);
      if session.None? {
        r := Err(Propagated(NoSession));
      } else {
        r := Handle(outcome);
      }
    }

    /** `get`: a GET request, never with a body. */
    method Get(
      endpoint: string, params: Option<ParamsObject>, headers: map<string, string>,
      trackingId: string, outcome: Outcome)
      returns (req: HttpRequest, r: Result<Response, RequestError>)
      requires Valid()
      ensures IsAssembled(req, GET, endpoint, params, headers, None, trackingId)
      ensures req.verb == GET && req.json == None
      ensures session.Some? ==> r == Handle(outcome)
    {
      req, r := Request(GET, endpoint, params, headers, None, trackingId, outcome);
    }

    /** `delete`: a DELETE request, never with a body. */
    method Delete(
      endpoint: string, params: Option<ParamsObject>, headers: map<string, string>,
      trackingId: string, outcome: Outcome)
      returns (req: HttpRequest, r: Result<Response, RequestError>)
      requires Valid()
      ensures IsAssembled(req, DELETE, endpoint, params, headers, None, trackingId)
      ensures req.verb == DELETE && req.json == None
      ensures session.Some? ==> r == Handle(outcome)
    {
      req, r := Request(DELETE, endpoint, params, headers, None, trackingId, outcome);
    }

    /** `post`: a POST request whose body is the data's dictionary when data is given. */
    method Post(
      endpoint: string, params: Option<ParamsObject>, headers: map<string, string>,
      data: Option<PostData>, trackingId: string, outcome: Outcome)
      returns (req: HttpRequest, r: Result<Response, RequestError>)
      requires Valid()
      ensures IsAssembled(req, POST, endpoint, params, headers, data, trackingId)
      ensures req.verb == POST
      ensures req.json.Some? <==> data.Some?
      ensures data.Some? ==> req.json.value == data.value.asDict
      ensures session.Some? ==> r == Handle(outcome)
    {
      req, r := Request(POST, endpoint, params, headers, data, trackingId, outcome);
    }

    /** `put`: a PUT request whose body is the data's dictionary when data is given. */
    method Put(
      endpoint: string, params: Option<ParamsObject>, headers: map<string, string>,
      data: Option<PostData>, trackingId: string, outcome: Outcome)
      returns (req: HttpRequest, r: Result<Response, RequestError>)
      requires Valid()
      ensures IsAssembled(req, PUT, endpoint, params, headers, data, trackingId)
      ensures req.verb == PUT
      ensures req.json.Some? <==> data.Some?
      ensures data.Some? ==> req.json.value == data.value.asDict
      ensures session.Some? ==> r == Handle(outcome)
    {
      req, r := Request(PUT, endpoint, params, headers, data, trackingId, outcome);
    }

    /** `close()`: closes and forgets the session if there is one; otherwise does nothing. */
    method Close()
      modifies this, if session.Some? then {session.value} else {}
      ensures session == None
      ensures old(session).Some? ==> old(session).value.closeCalls == old(session.value.closeCalls) + 1
    {
      if session.Some? {
        session.value.Close();
        session := None;
      }
    }

    /** `__aexit__`: the same as `close()`. */
    method Exit()
      modifies this, if session.Some? then {session.value} else {}
      ensures session == None
      ensures old(session).Some? ==> old(session).value.closeCalls == old(session.value.closeCalls) + 1
    {
      Close();
    }
  }

  /** Closing twice closes the session once: the second close calls nothing. */
  method CloseTwice(api: BaseApi)
    requires api.session.Some?
    modifies api, api.session.value
    ensures api.session == None
    ensures old(api.session).value.closeCalls == old(api.session.value.closeCalls) + 1
  {
    api.Close();
    api.Close();
  }

  /**
    The API key is always sent, and it is the caller's `key` field exactly
    when that field is set (neither None nor an empty list).
   */
  lemma KeyAlwaysSent(api: BaseApi, req: HttpRequest, verb: Method, endpoint: string,
                      params: ParamsObject, headers: map<string, string>, data: Option<PostData>, trackingId: string)
    requires api.IsAssembled(req, verb, endpoint, Some(params), headers, data, trackingId)
    ensures "key" in req.params
    ensures "key" in params.fields && Present(params.fields["key"]) ==>
      req.params["key"] == EncodeParams(api.generation, params)["key"]
    ensures !("key" in params.fields && Present(params.fields["key"])) ==>
      req.params["key"] == api.options.apiKey
  {
  }

  /** With compression and tracking off, exactly the caller's headers and the two defaults are sent. */
  lemma NoOptionalHeaders(api: BaseApi, req: HttpRequest, verb: Method, endpoint: string,
                          params: Option<ParamsObject>, headers: map<string, string>, data: Option<PostData>, trackingId: string)
    requires api.IsAssembled(req, verb, endpoint, params, headers, data, trackingId)
    requires !api.options.gzipCompression && !api.options.trackingId
    ensures req.headers.Keys == headers.Keys + {ContentType, UserAgent}
    ensures forall h :: h in headers ==> req.headers[h] == headers[h]
  {
  }
}
