/** The server side of src/server.rs: typed responses, their conversion to
    HTTP responses, the `Route` contract and route registration on a router. */
module Server {
  import opened Http
  import opened Types
  import opened TypedHandlers

  /** `HttpMethod`: the method a route is declared with. */
  datatype HttpMethod = Post | Get

  /** `TypedResponse<T>`: a status code together with the value to send. */
  datatype TypedResponse<T> = TypedResponse(statusCode: StatusCode, payload: T)

  /** The HTTP response axum writes: a status line and a JSON body. */
  datatype Response<J> = Response(status: StatusCode, jsonBody: J)

  /** `into_response`: the status code is carried over and the payload is
      serialized by `toJson` (serde) as the JSON body. */
  function IntoResponse<T, J>(tr: TypedResponse<T>, toJson: T -> J): (resp: Response<J>)
    ensures resp.status == tr.statusCode
    ensures resp.jsonBody == toJson(tr.payload)
  {
    Response(tr.statusCode, toJson(tr.payload))
  }

  /** `typed()` for a plain `Result<T, E>`: `Ok` goes out as 200, `Err` as
      500, and the payload is the occurred branch's value converted by
      `value.into()` (`okInto`) or `err.into()` (`errInto`). */
  function TypedResult<T, E>(r: Result<T, E>, okInto: T -> Result<T, E>, errInto: E -> Result<T, E>)
    : (tr: TypedResponse<Result<T, E>>)
    ensures r.Ok? <==> tr.statusCode == StatusOk
    ensures r.Err? <==> tr.statusCode == StatusInternalServerError
    ensures r.Ok? ==> tr.payload == okInto(r.value)
    ensures r.Err? ==> tr.payload == errInto(r.error)
  {
    match r
    case Ok(value) => TypedResponse(StatusOk, okInto(value))
    case Err(err) => TypedResponse(StatusInternalServerError, errInto(err))
  }

  /** The status `TypedResult` picks depends on the branch alone: neither the
      inner value nor the conversions influence it. */
  lemma TypedResultStatusIgnoresValue<T, E>(r1: Result<T, E>, r2: Result<T, E>,
                                            ok1: T -> Result<T, E>, err1: E -> Result<T, E>,
                                            ok2: T -> Result<T, E>, err2: E -> Result<T, E>)
    requires r1.Ok? == r2.Ok?
    ensures TypedResult(r1, ok1, err1).statusCode == TypedResult(r2, ok2, err2).statusCode
  {
  }

  /** When the conversions keep the branch (an `Ok` value converts to an `Ok`,
      an error to an `Err`), the status agrees with the branch the payload
      carries: 200 exactly for an `Ok` payload, 500 exactly for an `Err`. */
  lemma TypedResultStatusMatchesPayload<T, E>(r: Result<T, E>, okInto: T -> Result<T, E>, errInto: E -> Result<T, E>)
    requires forall v :: okInto(v).Ok?
    requires forall e :: errInto(e).Err?
    ensures TypedResult(r, okInto, errInto).payload.Ok? <==> TypedResult(r, okInto, errInto).statusCode == StatusOk
    ensures TypedResult(r, okInto, errInto).payload.Err? <==> TypedResult(r, okInto, errInto).statusCode == StatusInternalServerError
  {
  }

  /** Without that assumption the coarse fallback can disagree with its own
      payload: a conversion that turns an `Ok` value into an `Err` produces an
      `Err` payload under status 200. */
  lemma TypedResultCanMislabel()
    ensures var tr := TypedResult<int, int>(Ok(1), v => Err(v), e => Err(e));
      tr.statusCode == StatusOk && tr.payload.Err?
  {
  }

  /** The `Route<S>` trait, as the values its implementation fixes: the
      associated types `HandlerOutput`, `HandlerInput`, `RequestArgs` and
      `ResponseType`, the constant `METHOD` (`httpMethod`) and the result of `route()`. */
  datatype Route = Route(
    handlerOutput: Ty,
    handlerInput: Ty,
    requestArgs: Ty,
    responseType: Ty,
    httpMethod: HttpMethod,
    path: string)

  function TypedResponseTy(t: Ty): Ty { Named("TypedResponse", [t]) }

  /** A handler function value together with its signature. */
  datatype Handler<B> = Handler(sig: FnSig, body: B)

  /** What axum's `get(handler)` or `post(handler)` builds. */
  datatype MethodRouter<B> = MethodRouter(verb: Verb, handler: Handler<B>)

  datatype RouteEntry<B> = RouteEntry(path: string, methodRouter: MethodRouter<B>)

  /** The router's table of registered routes, in registration order. */
  datatype Router<B> = Router(entries: seq<RouteEntry<B>>)

  /** Some entry of `router` handles `verb` at `path`. */
  ghost predicate Registered<B>(router: Router<B>, verb: Verb, path: string) {
    exists i :: 0 <= i < |router.entries| &&
      router.entries[i].path == path && router.entries[i].methodRouter.verb == verb
  }

  /** The method-router constructor `add_route` picks for a declared method. */
  function RouterVerb(m: HttpMethod): (v: Verb)
    ensures v == POST <==> m == Post
    ensures v == GET <==> m == Get
  {
    match m
    case Post => POST
    case Get => GET
  }

  /** `add_route::<R, T, TH>(handler)`: the handler must be a `TypedHandler`
      for `R::HandlerInput` and `TypedResponse<R::HandlerOutput>` (a
      compile-time bound), and it is registered at `R::route()` under the verb
      of `R::METHOD`. Earlier entries are kept. */
  function AddRoute<B>(router: Router<B>, r: Route, handler: Handler<B>): (router': Router<B>)
    requires TypedHandler(handler.sig, r.handlerInput, TypedResponseTy(r.handlerOutput))
    ensures |router'.entries| == |router.entries| + 1
    ensures router'.entries[..|router.entries|] == router.entries
    ensures router'.entries[|router.entries|] == RouteEntry(r.path, MethodRouter(RouterVerb(r.httpMethod), handler))
    ensures forall v, p :: Registered(router', v, p) <==>
      Registered(router, v, p) || (v == RouterVerb(r.httpMethod) && p == r.path)
  {
    var verb := RouterVerb(r.httpMethod);
    var router' := Router(router.entries + [RouteEntry(r.path, MethodRouter(verb, handler))]);
    assert router'.entries[|router.entries|].path == r.path;
    router'
  }
}
