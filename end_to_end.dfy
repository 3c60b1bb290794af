/** What the shared route contract buys: the client's request for a route
    reaches the entry the server registered for it, and the handler's outcome
    comes back to the client unchanged. */
module EndToEnd {
  import opened Http
  import opened Types
  import opened TypedHandlers
  import opened Server
  import opened Routes
  import opened TestRoutes
  import opened Client

  /** The verb the client sends for a method is the verb the server
      registers for it. */
  lemma VerbsAgree(m: HttpMethod)
    ensures ClientVerb(m) == RouterVerb(m)
  {
  }

  /** After `add_route::<R>` the server has an entry for the verb of every
      request the client builds for `R` at `R::route()`, which is the part of
      the request's url after `"http://"` and the address. The url is not
      parsed: that part is the url's path only when the address is a bare
      `host[:port]`. */
  lemma ClientReachesRegisteredRoute<B, A>(router: Router<B>, r: Route, handler: Handler<B>,
                                           addr: string, httpClient: HttpClient, args: A)
    requires TypedHandler(handler.sig, r.handlerInput, TypedResponseTy(r.handlerOutput))
    ensures var req := BuildRequest(WithArgs(RequestFor(New(addr, httpClient), r), args));
      Registered(AddRoute(router, r, handler), req.verb, r.path) &&
      req.url == "http://" + addr + r.path &&
      req.url[|"http://" + addr|..] == r.path
  {
    var req := BuildRequest(WithArgs(RequestFor(New(addr, httpClient), r), args));
    PipelineUrl(addr, httpClient, r, args);
    VerbsAgree(r.httpMethod);
    assert req.verb == RouterVerb(r.httpMethod);
  }

  /** For a route declared with `define_route!`, the client decodes the
      type the server's handlers produce, and a handler's outcome, sent
      through `typed()` and `into_response`, is decoded as that very outcome
      when the serializer's decoder inverts its encoder; the response's
      status is the one declared for the outcome's variant. */
  lemma OutcomeRoundTrip<A, J, V, E>(rr: ReadyRequest<A>, d: RouteDecl, e: EnumDecl, v: Outcome<V>,
                                     toJson: Outcome<V> -> J, decode: J -> Result<Outcome<V>, E>,
                                     transport: Request<A> -> Result<Response<J>, E>)
    requires DistinctTags(e.variants) && IsValueOf(e, v)
    requires e == d.responseEnum && rr.route == DefineRoute(d)
    requires forall x :: decode(toJson(x)) == Ok(x)
    requires transport(BuildRequest(rr)) == Ok(IntoResponse(Typed(e, v), toJson))
    ensures rr.route.responseType == rr.route.handlerOutput == EnumTy(e)
    ensures Send(rr, transport, decode) == Ok(v)
    ensures DeclaresStatus(e, v, transport(BuildRequest(rr)).value.status)
  {
    ExactlyOneStatus(e, v, Typed(e, v).statusCode);
  }

  // -------------------------------------------------- the two test routes

  function GetMsgRequest(addr: string, httpClient: HttpClient, args: GetMsgQueryArgs): Request<GetMsgQueryArgs> {
    BuildRequest(WithArgs(RequestFor(New(addr, httpClient), GetMsg()), args))
  }

  function SetMsgRequest(addr: string, httpClient: HttpClient, msg: string): Request<string> {
    BuildRequest(WithArgs(RequestFor(New(addr, httpClient), SetMsg()), msg))
  }

  /** `GetMsg` sends its arguments as a query string of a GET to
      `http://<addr>/get_msg`. */
  lemma GetMsgRequestShape(addr: string, httpClient: HttpClient, args: GetMsgQueryArgs)
    ensures GetMsgRequest(addr, httpClient, args) ==
      Request(httpClient, GET, "http://" + addr + "/get_msg", QueryString(args))
  {
    PipelineUrl(addr, httpClient, GetMsg(), args);
  }

  /** `SetMsg` sends its string as the JSON body of a POST to
      `http://<addr>/set_msg`. */
  lemma SetMsgRequestShape(addr: string, httpClient: HttpClient, msg: string)
    ensures SetMsgRequest(addr, httpClient, msg) ==
      Request(httpClient, POST, "http://" + addr + "/set_msg", JsonBody(msg))
  {
    PipelineUrl(addr, httpClient, SetMsg(), msg);
  }

  /** A `GetMsg` handler's outcome reaches the client unchanged, whatever its
      status: `NotFound` under 404 and `OtherError` under 500 decode to
      themselves, and `Done { new_msg }` keeps its field. */
  lemma GetMsgOutcomeRoundTrip<J, E>(addr: string, httpClient: HttpClient, args: GetMsgQueryArgs,
                                     o: GetMsgSuccess, toJson: GetMsgSuccess -> J,
                                     decode: J -> Result<GetMsgSuccess, E>,
                                     transport: Request<GetMsgQueryArgs> -> Result<Response<J>, E>)
    requires forall x :: decode(toJson(x)) == Ok(x)
    requires transport(GetMsgRequest(addr, httpClient, args)) == Ok(IntoResponse(GetMsgTyped(o), toJson))
    ensures Send(WithArgs(RequestFor(New(addr, httpClient), GetMsg()), args), transport, decode) == Ok(o)
    ensures o == NotFound ==> transport(GetMsgRequest(addr, httpClient, args)).value.status == 404
    ensures o == OtherError ==> transport(GetMsgRequest(addr, httpClient, args)).value.status == 500
    ensures o == GetMsgSuccess.Done("x3x3x3") ==> transport(GetMsgRequest(addr, httpClient, args)).value.status == 201
  {
    GetMsgStatusTable("x3x3x3");
  }

  /** With no server to answer, `send` yields the transport's error and no
      outcome value. */
  lemma UnreachableServer<J, E>(addr: string, httpClient: HttpClient, msg: string, err: E,
                                decode: J -> Result<SetMsgSuccess, E>,
                                transport: Request<string> -> Result<Response<J>, E>)
    requires transport(SetMsgRequest(addr, httpClient, msg)) == Err(err)
    ensures Send(WithArgs(RequestFor(New(addr, httpClient), SetMsg()), msg), transport, decode) == Err(err)
  {
  }
}
