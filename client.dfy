/** The client side of src/client.rs: a three-phase pipeline `Client` →
    `TransformRequest` → `ReadyRequest`, and `send`, which turns the last
    phase into one HTTP request and decodes its answer. Each phase is a new
    value built from the fields of the previous one. */
module Client {
  import opened Http
  import opened Server

  /** A `reqwest::Client` handle; cloning it yields the same handle. */
  datatype HttpClient = HttpClient(handle: nat)

  /** `Client { base_http_url, http_client }`. */
  datatype Client = Client(baseHttpUrl: string, httpClient: HttpClient)

  /** `TransformRequest<R>`: the url of route `R`; `route` stands for the
      phantom type parameter `R`. */
  datatype TransformRequest = TransformRequest(url: string, route: Route, httpClient: HttpClient)

  /** `ReadyRequest<R, R::ResponseType>`: the url and the arguments. */
  datatype ReadyRequest<A> = ReadyRequest(url: string, args: A, route: Route, httpClient: HttpClient)

  /** How the arguments travel: `RequestBuilder::json` (a JSON body) or
      `RequestBuilder::query` (a query string). */
  datatype Encoded<A> = JsonBody(value: A) | QueryString(value: A)

  /** The request `send` hands to the transport. */
  datatype Request<A> = Request(httpClient: HttpClient, verb: Verb, url: string, encoded: Encoded<A>)

  /** `Client::new(base_url)`: the base URL is `http://` followed by the
      address, unchanged. The `reqwest::Client` it creates is a parameter. */
  function New(baseUrl: string, httpClient: HttpClient): (c: Client)
    ensures |c.baseHttpUrl| == |baseUrl| + 7
    ensures c.baseHttpUrl[..7] == "http://" && c.baseHttpUrl[7..] == baseUrl
    ensures c.httpClient == httpClient
  {
    Client("http://" + baseUrl, httpClient)
  }

  /** `request_for::<R>()`: the url is the base URL followed by `R::route()`,
      and the request uses (a clone of) the client's handle. */
  function RequestFor(c: Client, r: Route): (t: TransformRequest)
    ensures |t.url| == |c.baseHttpUrl| + |r.path|
    ensures t.url[..|c.baseHttpUrl|] == c.baseHttpUrl && t.url[|c.baseHttpUrl|..] == r.path
    ensures t.route == r && t.httpClient == c.httpClient
  {
    TransformRequest(c.baseHttpUrl + r.path, r, c.httpClient)
  }

  /** `with_args(args)`: consumes the target and keeps its url, route and
      handle; the arguments are stored as given. */
  function WithArgs<A>(t: TransformRequest, args: A): (rr: ReadyRequest<A>)
    ensures rr.url == t.url && rr.route == t.route && rr.httpClient == t.httpClient
    ensures rr.args == args
  {
    ReadyRequest(t.url, args, t.route, t.httpClient)
  }

  /** The first `match R::METHOD` of `send`: `reqwest::Client::post` or
      `reqwest::Client::get`. */
  function ClientVerb(m: HttpMethod): (v: Verb)
    ensures v == POST <==> m == Post
    ensures v == GET <==> m == Get
  {
    match m
    case Post => POST
    case Get => GET
  }

  /** The second `match R::METHOD` of `send`: `RequestBuilder::json` or
      `RequestBuilder::query`. */
  function EncodeArgs<A>(m: HttpMethod, args: A): (e: Encoded<A>)
    ensures e.value == args
    ensures e.JsonBody? <==> m == Post
    ensures e.QueryString? <==> m == Get
  {
    match m
    case Post => JsonBody(args)
    case Get => QueryString(args)
  }

  /** Verb and encoding agree: a POST carries a JSON body, a GET a query
      string. */
  predicate Agrees<A>(req: Request<A>) {
    (req.verb == POST <==> req.encoded.JsonBody?) &&
    (req.verb == GET <==> req.encoded.QueryString?)
  }

  /** `args(method(&client, self.url), &self.args)`: the one request `send`
      builds. Both its verb and its encoding follow `R::METHOD`. */
  function BuildRequest<A>(rr: ReadyRequest<A>): (req: Request<A>)
    ensures req.httpClient == rr.httpClient && req.url == rr.url
    ensures req.encoded.value == rr.args
    ensures req.verb == POST <==> rr.route.httpMethod == Post
    ensures req.verb == GET <==> rr.route.httpMethod == Get
    ensures Agrees(req)
  {
    var verb := ClientVerb(rr.route.httpMethod);
    var encoded := EncodeArgs(rr.route.httpMethod, rr.args);
    Request(rr.httpClient, verb, rr.url, encoded)
  }

  /** `send()`: the request goes to `transport` (reqwest's `request.send()`);
      a transport error is returned at once (`?`), otherwise the result is
      whatever `decode` makes of the response's JSON body (`r.json()`), which
      may itself be an error. */
  function Send<A, J, D, E>(rr: ReadyRequest<A>,
                            transport: Request<A> -> Result<Response<J>, E>,
                            decode: J -> Result<D, E>): (res: Result<D, E>)
    ensures transport(BuildRequest(rr)).Err? ==> res == Err(transport(BuildRequest(rr)).error)
    ensures transport(BuildRequest(rr)).Ok? ==> res == decode(transport(BuildRequest(rr)).value.jsonBody)
  {
    var request := BuildRequest(rr);
    match transport(request)
    case Err(e) => Err(e)
    case Ok(response) => decode(response.jsonBody)
  }

  /** `send` issues a single request, the one `BuildRequest` describes: two
      transports that answer that request alike give the same result. */
  lemma SendUsesOneRequest<A, J, D, E>(rr: ReadyRequest<A>,
                                       t1: Request<A> -> Result<Response<J>, E>,
                                       t2: Request<A> -> Result<Response<J>, E>,
                                       decode: J -> Result<D, E>)
    requires t1(BuildRequest(rr)) == t2(BuildRequest(rr))
    ensures Send(rr, t1, decode) == Send(rr, t2, decode)
  {
  }

  /** On a transport error no decoding happens: the decoder does not matter. */
  lemma TransportErrorSkipsDecode<A, J, D, E>(rr: ReadyRequest<A>,
                                              transport: Request<A> -> Result<Response<J>, E>,
                                              d1: J -> Result<D, E>, d2: J -> Result<D, E>)
    requires transport(BuildRequest(rr)).Err?
    ensures Send(rr, transport, d1) == Send(rr, transport, d2)
    ensures Send(rr, transport, d1).Err?
  {
  }

  /** A body the decoder rejects is reported as an error, never as an
      outcome value. */
  lemma DecodeFailureIsError<A, J, D, E>(rr: ReadyRequest<A>,
                                         transport: Request<A> -> Result<Response<J>, E>,
                                         decode: J -> Result<D, E>)
    requires transport(BuildRequest(rr)).Ok?
    requires decode(transport(BuildRequest(rr)).value.jsonBody).Err?
    ensures Send(rr, transport, decode).Err?
  {
  }

  /** `r.json()` reads only the body: responses that differ only in their
      status code decode alike, so a 404 or a 500 carrying a well-formed body
      is an outcome value, not an error. */
  lemma SendIgnoresStatus<A, J, D, E>(rr: ReadyRequest<A>,
                                      t1: Request<A> -> Result<Response<J>, E>,
                                      t2: Request<A> -> Result<Response<J>, E>,
                                      decode: J -> Result<D, E>)
    requires t1(BuildRequest(rr)).Ok? && t2(BuildRequest(rr)).Ok?
    requires t1(BuildRequest(rr)).value.jsonBody == t2(BuildRequest(rr)).value.jsonBody
    ensures Send(rr, t1, decode) == Send(rr, t2, decode)
  {
  }

  /** The request built from an address, a route and arguments: its url is
      `http://`, the address and the route's path, in that order. */
  lemma PipelineUrl<A>(addr: string, httpClient: HttpClient, r: Route, args: A)
    ensures var req := BuildRequest(WithArgs(RequestFor(New(addr, httpClient), r), args));
      req.url == "http://" + addr + r.path && req.httpClient == httpClient &&
      req.encoded == EncodeArgs(r.httpMethod, args)
  {
    var c := New(addr, httpClient);
    assert c.baseHttpUrl == "http://" + addr;
    var t := RequestFor(c, r);
    assert t.url == c.baseHttpUrl + r.path;
  }
}
