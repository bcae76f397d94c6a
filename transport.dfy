/**
 * The caching HTTP transport: a decorator that answers a request from a cache
 * when it can, falls back to the wrapped transport on a cache miss, restores
 * the request body into the response and saves responses outside the
 * configured pass-through envelope.
 */
module HttpCache {
  import opened Wrappers

  newtype Byte = b: int | 0 <= b < 256

  /** Error values. `ErrNoResponse` is the cache's miss sentinel; `Wrapped`
      is an error that wraps a cause (what `Unwrap` returns). */
  datatype Error =
    | ErrNoCache
    | ErrNoResponse
    | Opaque(text: string)
    | Wrapped(text: string, cause: Error)

  /** The chain `err`, `Unwrap(err)`, `Unwrap(Unwrap(err))`, ... */
  function Chain(err: Error): seq<Error>
  {
    [err] + if err.Wrapped? then Chain(err.cause) else []
  }

  /** `errors.Is`: whether `target` occurs on the unwrap chain of `err`. */
  function Is(err: Error, target: Error): (r: bool)
    ensures r <==> target in Chain(err)
  {
    err == target || (err.Wrapped? && Is(err.cause, target))
  }

  /** An `io.ReadCloser`. A full read yields `content`, unless the stream
      fails with `readError`; `closed` records that `Close` was called. */
  class Body {
    const content: seq<Byte>
    const readError: Option<Error>
    var closed: bool

    constructor (content: seq<Byte>, readError: Option<Error>)
      ensures this.content == content && this.readError == readError && !closed
    {
      this.content := content;
      this.readError := readError;
      closed := false;
    }

    /** `Close`: afterwards the stream is closed. */
    method Close()
      modifies this
      ensures closed
    {
      closed := true;
    }
  }

  /** `io.ReadAll` over a whole stream. */
  function ReadAll(body: Body): Result<seq<Byte>, Error>
  {
    if body.readError.Some? then Err(body.readError.value) else Ok(body.content)
  }

  /** The request's `GetBody` field: nil, or a function that opens a fresh
      copy of the body or fails. */
  datatype BodySource = NilGetBody | GetBody(opens: Result<Body, Error>)

  /** An outgoing request. Only `Body` is reassigned by the transport. */
  class Request {
    const httpMethod: string
    const getBody: BodySource
    var body: Body?

    constructor (httpMethod: string, getBody: BodySource, body: Body?)
      ensures this.httpMethod == httpMethod && this.getBody == getBody && this.body == body
    {
      this.httpMethod := httpMethod;
      this.getBody := getBody;
      this.body := body;
    }
  }

  /** A response with its body and the request that produced it. */
  class Response {
    const statusCode: int
    const body: Body
    const request: Request

    constructor (statusCode: int, body: Body, request: Request)
      ensures this.statusCode == statusCode && this.body == body && this.request == request
    {
      this.statusCode := statusCode;
      this.body := body;
      this.request := request;
    }
  }

  /** The identity of a `Cache` implementation; its storage is not modelled. */
  datatype Cache = Cache(name: string)

  /** The identity of the wrapped `http.RoundTripper`. */
  datatype RoundTripper = DefaultTransport | CustomTransport(name: string)

  /** The configuration bundle: an optional cache and the two allow-lists. */
  datatype Config = Config(cache: Option<Cache>, allowedStatusCodes: seq<int>, allowedMethods: seq<string>)

  /** One call the transport makes to a collaborator, in the order made. */
  datatype Step =
    | ReadFrom(cache: Cache)
    | CallGetBody
    | CallReadAll
    | Delegate(transport: RoundTripper)
    | SaveTo(cache: Cache)

  /** Generic linear search: whether `searchValue` occurs in `slice`. */
  method Contains<T(==)>(slice: seq<T>, searchValue: T) returns (found: bool)
    ensures found <==> searchValue in slice
  {
    for i := 0 to |slice|
      invariant searchValue !in slice[..i]
    {
      if slice[i] == searchValue {
        return true;
      }
    }
    return false;
  }

  /** The save policy. The allow-lists name the pass-through envelope: a
      response is saved when its status code is NOT allowed or its method is
      NOT allowed. */
  predicate SaveEligible(config: Config, statusCode: int, httpMethod: string)
  {
    statusCode !in config.allowedStatusCodes || httpMethod !in config.allowedMethods
  }

  /** What the miss path captures from `GetBody` before delegating: nothing
      (no `GetBody`), the error of opening or of reading, or the bytes. */
  function CapturedBody(source: BodySource): Result<seq<Byte>, Error>
  {
    match source
    case NilGetBody => Ok([])
    case GetBody(Err(e)) => Err(e)
    case GetBody(Ok(body)) => ReadAll(body)
  }

  /** The calls made while capturing the body. */
  function CaptureSteps(source: BodySource): seq<Step>
  {
    match source
    case NilGetBody => []
    case GetBody(Err(_)) => [CallGetBody]
    case GetBody(Ok(_)) => [CallGetBody, CallReadAll]
  }

  /** The body that the deferred `Close` closes: the one opened through
      `GetBody`, once it has been read successfully. */
  function DeferredClose(source: BodySource): set<Body>
  {
    match source
    case GetBody(Ok(body)) => if ReadAll(body).Ok? then {body} else {}
    case _ => {}
  }

  /** Everything a round trip may change: the body opened through `GetBody`,
      and the request and body of the response the wrapped transport returns. */
  ghost function Footprint(request: Request, sent: Result<Response, Error>): set<object>
  {
    (match request.getBody
     case GetBody(Ok(body)) => {body}
     case _ => {})
    + (if sent.Ok? then {sent.value.request, sent.value.body} else {})
  }

  /** `Read` failed with the miss sentinel (possibly wrapped). */
  predicate Missed(cached: Result<Response?, Error>)
  {
    cached.Err? && Is(cached.error, ErrNoResponse)
  }

  datatype Transport = Transport(transport: RoundTripper, cache: Cache, config: Config)
  {
    /** The save policy, evaluated with the generic search. */
    method ShouldSaveResponse(statusCode: int, httpMethod: string) returns (save: bool)
      ensures save == SaveEligible(config, statusCode, httpMethod)
    {
      var isAllowedStatusCode := Contains(config.allowedStatusCodes, statusCode);
      var isAllowedMethod := Contains(config.allowedMethods, httpMethod);
      save := !isAllowedStatusCode || !isAllowedMethod;
    }

    /** One interception. `cached` is what `cache.Read(request)` returns,
        `sent` what the wrapped transport returns and `saved` what
        `cache.Save` returns; each is consulted only if that call is made,
        and `steps` lists the calls made. */
    method RoundTrip(request: Request, cached: Result<Response?, Error>,
                     sent: Result<Response, Error>, saved: Option<Error>)
      returns (response: Response?, err: Option<Error>, steps: seq<Step>)
      modifies Footprint(request, sent)
      // Hit: the cached response, nothing else consulted, nothing changed.
      ensures cached.Ok? ==>
        response == cached.value && err == None && steps == [ReadFrom(cache)]
        && unchanged(Footprint(request, sent))
      // Read failed otherwise: that exact error, no fallback.
      ensures cached.Err? && !Missed(cached) ==>
        response == null && err == Some(cached.error) && steps == [ReadFrom(cache)]
        && unchanged(Footprint(request, sent))
      // Opening or reading the body failed: that error, no delegation; the
      // body whose read failed is left open.
      ensures Missed(cached) && CapturedBody(request.getBody).Err? ==>
        response == null && err == Some(CapturedBody(request.getBody).error)
        && steps == [ReadFrom(cache)] + CaptureSteps(request.getBody)
        && unchanged(Footprint(request, sent))
      // From here on the opened body is closed on every path.
      ensures Missed(cached) && CapturedBody(request.getBody).Ok? ==>
        forall body <- DeferredClose(request.getBody) :: body.closed
      // The wrapped transport failed: its error unchanged, no save.
      ensures Missed(cached) && CapturedBody(request.getBody).Ok? && sent.Err? ==>
        response == null && err == Some(sent.error)
        && steps == [ReadFrom(cache)] + CaptureSteps(request.getBody) + [Delegate(transport)]
      // The transport answered: its request now carries a fresh body that
      // reads back the captured bytes, and Save is called exactly when the
      // policy says so.
      ensures Missed(cached) && CapturedBody(request.getBody).Ok? && sent.Ok? ==>
        var r := sent.value;
        var eligible := SaveEligible(config, r.statusCode, r.request.httpMethod);
        r.request.body != null && fresh(r.request.body)
        && ReadAll(r.request.body) == Ok(CapturedBody(request.getBody).value)
        && steps == [ReadFrom(cache)] + CaptureSteps(request.getBody) + [Delegate(transport)]
                    + (if eligible then [SaveTo(cache)] else [])
        && (eligible && saved.Some? ==>
              response == null && err == saved && r.body.closed && r.request.body.closed)
        && (!eligible || saved.None? ==>
              response == r && err == None && !r.request.body.closed
              && (r.body !in DeferredClose(request.getBody) ==> unchanged(r.body)))
    {
      steps := [ReadFrom(cache)];
      if cached.Ok? {
        return cached.value, None, steps;
      }
      if !Is(cached.error, ErrNoResponse) {
        return null, Some(cached.error), steps;
      }

      var requestBody: seq<Byte> := [];
      var deferred: Body? := null;
      if request.getBody.GetBody? {
        steps := steps + [CallGetBody];
        if request.getBody.opens.Err? {
          return null, Some(request.getBody.opens.error), steps;
        }
        var body := request.getBody.opens.value;
        steps := steps + [CallReadAll];
        var drained := ReadAll(body);
        if drained.Err? {
          return null, Some(drained.error), steps;
        }
        requestBody := drained.value;
        deferred := body;  // `defer body.Close()`, run on every path below
      }

      steps := steps + [Delegate(transport)];
      if sent.Err? {
        response, err := null, Some(sent.error);
      } else {
        response := sent.value;
        var restored := new Body(requestBody, None);
        response.request.body := restored;
        var save := ShouldSaveResponse(response.statusCode, response.request.httpMethod);
        err := None;
        if save {
          steps := steps + [SaveTo(cache)];
          if saved.Some? {
            response.body.Close();
            restored.Close();
            response, err := null, saved;
          }
        }
      }

      if deferred != null {
        deferred.Close();
      }
    }
  }

  /** Builds a transport over the configured cache and the default wrapped
      transport; fails with `ErrNoCache` when no cache is configured. */
  function NewTransport(config: Config): (r: Result<Transport, Error>)
    ensures r.Err? <==> config.cache.None?
    ensures r.Err? ==> r.error == ErrNoCache
    ensures r.Ok? ==> r.value.cache == config.cache.value && r.value.transport == DefaultTransport
                      && r.value.config == config
  {
    if config.cache.None? then Err(ErrNoCache)
    else Ok(Transport(DefaultTransport, config.cache.value, config))
  }

  /** With GET as the only allowed method and 200 as the only allowed status,
      a cache miss that the transport answers with GET 200 is not saved,
      while POST 200 and GET 500 are. */
  method SaveScenario() returns (get200Saved: bool, post200Saved: bool, get500Saved: bool)
    ensures !get200Saved && post200Saved && get500Saved
  {
    var store := Cache("memory");
    var made := NewTransport(Config(Some(store), [200], ["GET"]));
    var t := made.value;

    var get := new Request("GET", NilGetBody, null);
    var post := new Request("POST", NilGetBody, null);
    var emptyBody := new Body([], None);
    var getOk := new Response(200, emptyBody, get);
    var postOk := new Response(200, emptyBody, post);
    var getFailed := new Response(500, emptyBody, get);

    var _, _, steps1 := t.RoundTrip(get, Err(ErrNoResponse), Ok(getOk), None);
    get200Saved := SaveTo(store) in steps1;
    var _, _, steps2 := t.RoundTrip(post, Err(ErrNoResponse), Ok(postOk), None);
    post200Saved := SaveTo(store) in steps2;
    var _, _, steps3 := t.RoundTrip(get, Err(ErrNoResponse), Ok(getFailed), None);
    get500Saved := SaveTo(store) in steps3;
  }
}
