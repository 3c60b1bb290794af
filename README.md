# axum-double-sided-tape, modelled in Dafny

The library declares each HTTP endpoint once, with `define_route!`. One
declaration gives the endpoint's method, its path, its request-argument type,
the handler's input types, and an outcome enum whose variants each carry an
HTTP status code. From that single declaration come:

- on the server (axum), `add_route`, which registers a handler under the
  declared verb and path, and `typed()`, which turns a handler's outcome into
  a status code plus a payload (the value itself, or its `into()`), which
  `into_response` then serializes as the JSON body;
- on the client (reqwest), a three-phase pipeline `Client` →
  `TransformRequest` → `ReadyRequest`, whose `send` builds one request. The
  verb and the argument encoding both come from the declared method.

This project models that decision logic as pure Dafny functions over
datatypes and proves the contract each side relies on:

- the status table;
- that `typed()` returns the outcome unchanged;
- the 200/500 fallback for plain `Result`s;
- the range of handler arities the `TypedHandler` family covers (1 to 16);
- how the request URL is formed;
- that verb and encoding always agree;
- how `send` handles transport and decode errors.

Modules, one per concern:

- `Http`: `Result`, `Option`, `StatusCode` and the wire `Verb`.
- `Types`: Rust types as values (`Ty`, `FnSig`), so that the compile-time
  agreements can be stated.
- `TypedHandlers`: the `all_the_tuples!` / `impl_my_trait!` family of
  src/server.rs. `all_the_tuples!` is invoked once and expands to sixteen
  invocations of `impl_my_trait!`; the model writes these as one sequence
  comprehension with the same pattern: the k-th passes `[T1, ..., Tk]` and
  `T(k+1)`.
- `Server`: `HttpMethod`, `TypedResponse`, `into_response`, `typed()` for
  `Result`, the `Route` trait, and `add_route` over a table of routes.
- `Routes`: the `define_route!` expansion for an arbitrary declaration.
- `TestRoutes`: the two contracts declared in src/lib.rs's tests, `GetMsg`
  and `SetMsg`, as concrete datatypes tied to the general expansion.
- `Client`: src/client.rs.
- `EndToEnd`: lemmas that join the two sides.

Serialization (serde), the transport (reqwest's `send`) and the creation of
a `reqwest::Client` are parameters of the model. Serialization is
`toJson`/`decode`, the transport is a function from the request to a
`Result` of a response, and the handle is a value of `HttpClient`. The round
trip of serialization is never assumed except as the explicit hypothesis of
`EndToEnd.OutcomeRoundTrip` and `EndToEnd.GetMsgOutcomeRoundTrip`.

Three behaviours of the code that are easy to misread:

- The `TypedHandler` family covers arities 1 to 16. There is no
  zero-argument implementation (`all_the_tuples!` starts at `[], T1`), so
  `TestRoutes.NoZeroArityHandler` proves that a handler with no parameters is
  never a typed handler.
- The client does not report the status code. `try_from_http_response`
  decodes the body with `r.json()` and ignores the status, so
  `Client.SendIgnoresStatus` proves that two responses with equal bodies give
  the same result, whatever their status.
- `typed()` for a plain `Result` uses a fixed 200 for `Ok` and 500 for
  `Err`, not per-variant tables. The payload is whatever the user's `Into`
  conversion returns. `Server.TypedResultCanMislabel` shows that a
  conversion which turns an `Ok` value into an `Err` payload goes out under
  status 200. `Server.TypedResultStatusMatchesPayload` gives the condition
  under which status and payload agree.

## Model

| member | source | states |
|---|---|---|
| `Server.IntoResponse` | src/server.rs:32-40 | the HTTP response keeps the typed response's status code and carries the serialized payload as its JSON body |
| `Server.TypedResult` | src/server.rs:42-60 | `typed()` on a `Result`: status is 200 exactly for `Ok` and 500 exactly for `Err`; the payload is the occurred branch's value passed through that branch's `into()` |
| `Server.TypedResultStatusIgnoresValue` | src/server.rs:48-58 | the fallback status depends only on which branch occurred, not on the value or on the conversions |
| `Server.TypedResultStatusMatchesPayload` | src/server.rs:48-58 | if the conversions keep the branch, the payload is `Ok` exactly under 200 and `Err` exactly under 500 |
| `Server.TypedResultCanMislabel` | src/server.rs:43-53 | a conversion that turns an `Ok` value into an `Err` yields an `Err` payload under status 200 |
| `Server.RouterVerb` | src/server.rs:92-95 | `add_route` picks the POST method router exactly for `HttpMethod::Post` and GET exactly for `HttpMethod::Get` |
| `Server.AddRoute` | src/server.rs:83-98 | only a `TypedHandler` for the route's input and `TypedResponse<HandlerOutput>` is accepted; one entry is appended at `R::route()` under the verb of `R::METHOD`; earlier entries are kept; afterwards (verb, path) is registered iff it was before or it is the route's own pair |
| `TypedHandlers.ImplMyTrait` | src/server.rs:126-134 | one generated implementation: the input tuple and the function's parameter list are both the given type parameters followed by the last one, in order |
| `TypedHandlers.AllTheTuples` | src/server.rs:105-123 | the expansion of `all_the_tuples!(impl_my_trait)`: sixteen implementations, the k-th with input tuple equal to its parameter list and of length k+1 |
| `TypedHandlers.TypedHandler` | src/server.rs:102 | `f: TypedHandler<I, Ret>` holds when one of the generated implementations applies; any such `I` is a tuple and `f` returns a `Send` future of `Ret` |
| `TypedHandlers.GeneratedImplShape` | src/server.rs:105-134 | there are 16 generated implementations; the k-th has input tuple and parameter list both exactly T1..T(k+1), in order |
| `TypedHandlers.AritiesAreOneToSixteen` | src/server.rs:105-123 | the family covers arities 1 through 16 exactly; arity 0 is not generated |
| `TypedHandlers.TypedHandlerIff` | src/server.rs:126-136 | a function is a `TypedHandler<I, Ret>` iff `I` is a tuple of 1 to 16 types equal, in order, to the function's parameters, and the function returns a `Send` future whose `Output` is `Ret` |
| `Routes.ArmFor` | src/lib.rs:28-35 | the arm the generated `match` takes for a tag is the first declared variant with that tag; none exists only if no variant has it |
| `Routes.Typed` | src/lib.rs:26-37 | the generated `typed()` returns the value itself as payload, with the status declared next to its variant |
| `Routes.ExactlyOneStatus` | src/lib.rs:20-35 | the match is exhaustive and unambiguous: every value of the enum has exactly one declared status, the one `typed()` reports |
| `Routes.DefineRoute` | src/lib.rs:39-51 | the generated `Route` has the declared method and path, the generated enum as `HandlerOutput`, `ResponseType == HandlerOutput`, and the declared argument and input types |
| `TestRoutes.GetMsgOutcome` | src/lib.rs:68-74 | every `GetMsgSuccess` value is a value of the declared `GetMsgSuccess` enum |
| `TestRoutes.GetMsgOutcomeInjective` | src/lib.rs:20-24 | distinct `GetMsgSuccess` values are distinct enum values |
| `TestRoutes.GetMsg` | src/lib.rs:62-75 | `GetMsg` is a GET route at "/get_msg" whose response type is its handler output, `GetMsgSuccess` |
| `TestRoutes.GetMsgTyped` | src/lib.rs:68-73 | `GetMsgSuccess::typed` returns the value unchanged, with the status the general expansion gives that variant |
| `TestRoutes.GetMsgStatusTable` | src/lib.rs:68-73 | Done → 201, SuperGood → 202, NotFound → 404, OtherError → 500 |
| `TestRoutes.SetMsgOutcome` | src/lib.rs:83-86 | every `SetMsgSuccess` value is a value of the declared `SetMsgSuccess` enum |
| `TestRoutes.SetMsgOutcomeInjective` | src/lib.rs:83-86 | distinct `SetMsgSuccess` values are distinct enum values |
| `TestRoutes.SetMsg` | src/lib.rs:77-87 | `SetMsg` is a POST route at "/set_msg" with `String` arguments and handler input `(State<S>, Json<String>)`, whose response type is its handler output, `SetMsgSuccess` |
| `TestRoutes.SetMsgTyped` | src/lib.rs:83-86 | `SetMsgSuccess::typed` returns the value unchanged, with the status the general expansion gives that variant |
| `TestRoutes.SetMsgStatusTable` | src/lib.rs:83-86 | Done → 201, SuperGood → 202 |
| `TestRoutes.GetMsgHandlerArity` | src/lib.rs:67 | `GetMsg`'s handlers take `(State<S>, Query<GetMsgQueryArgs>)` in that order and return a `Send` future; swapping the arguments or returning a plain value is rejected |
| `TestRoutes.NoZeroArityHandler` | src/server.rs:105-108 | a zero-parameter function is not a typed handler for any input type, the unit input `()` included |
| `Client.New` | src/client.rs:31-37 | the base URL is "http://" followed by the address, unchanged, and the client keeps the given handle |
| `Client.RequestFor` | src/client.rs:39-45 | the url is the base URL followed by `R::route()`, with the client's handle |
| `Client.WithArgs` | src/client.rs:58-65 | keeps url, route and handle, and stores the arguments as given |
| `Client.ClientVerb` | src/client.rs:87-90 | `send` uses `reqwest::Client::post` exactly for `HttpMethod::Post` and `get` exactly for `HttpMethod::Get` |
| `Client.EncodeArgs` | src/client.rs:92-95 | the arguments, unchanged, go as a JSON body exactly for `Post` and as a query string exactly for `Get` |
| `Client.BuildRequest` | src/client.rs:85-97 | the request goes to the stored url with the stored arguments and handle; its verb is POST iff the method is `Post` and GET iff `Get`; the verb always agrees with the encoding (POST with a JSON body, GET with a query string) |
| `Client.Send` | src/client.rs:84-103 | a transport error is returned as it is; otherwise the result is the decoder's result on the response body |
| `Client.SendUsesOneRequest` | src/client.rs:97-99 | only the transport's answer to the one built request influences the result |
| `Client.TransportErrorSkipsDecode` | src/client.rs:99 | on a transport error the result is an error and the decoder is never consulted |
| `Client.DecodeFailureIsError` | src/client.rs:99-102 | a body the decoder rejects gives an error, never an outcome value |
| `Client.SendIgnoresStatus` | src/client.rs:16-23 | responses with equal bodies give equal results whatever their status codes |
| `Client.PipelineUrl` | src/client.rs:31-44 | the whole pipeline from an address produces the url "http://" + address + path, with the method's encoding of the arguments |
| `EndToEnd.VerbsAgree` | src/client.rs:87-90 | the client sends, for each method, the verb the server registers for it |
| `EndToEnd.ClientReachesRegisteredRoute` | src/server.rs:92-97 | after `add_route::<R>` the router has an entry for the verb of every request the client builds for `R` at `R::route()`, which is the part of the request's url after `"http://"` + address |
| `EndToEnd.OutcomeRoundTrip` | src/server.rs:36-39 | for a route generated by `define_route!`, the client's response type is the server's handler output, the generated enum; if decode inverts encode, a handler's outcome sent through `typed()` and `into_response` is decoded by the client as that outcome, and the response status is the declared one |
| `EndToEnd.GetMsgRequestShape` | src/lib.rs:62-66 | a `GetMsg` call is a GET to "http://" + address + "/get_msg" with the arguments as a query string |
| `EndToEnd.SetMsgRequestShape` | src/lib.rs:77-81 | a `SetMsg` call is a POST to "http://" + address + "/set_msg" with the string as a JSON body |
| `EndToEnd.GetMsgOutcomeRoundTrip` | src/lib.rs:68-73 | a `GetMsg` outcome reaches the client unchanged (NotFound under 404, OtherError under 500, Done("x3x3x3") under 201), if decode inverts encode |
| `EndToEnd.UnreachableServer` | src/client.rs:99 | when the transport fails, `send` yields that error and no outcome |

## Left out

- Networking: reqwest's connection handling, the real `request.send()` and
  the `dbg!` of the response (src/client.rs:99-100). These are I/O, so the
  transport is a function parameter. Request-building errors that reqwest
  defers to `send()` (an unparsable url built from `"http://" + addr + path`,
  arguments `json` or `query` cannot encode) are not raised by
  `Client.BuildRequest`; the model covers them only in that the transport
  may answer any request with `Err`.
- HEAD: axum's `get` method router also answers HEAD requests. The model's
  verbs are GET and POST only, so `Server.AddRoute`'s registration iff is
  stated over those two verbs.
- serde: the JSON encoding and decoding (src/lib.rs:19, src/server.rs:38,
  src/client.rs:21). This is a foreign library, so it appears as the
  parameters `toJson` and `decode`. No round trip is claimed except as a
  stated hypothesis. A payload serde cannot serialize goes out from axum's
  `Json` as a plain-text error body under the typed status; `toJson` may
  map such a payload to any `J`, and the model does not distinguish it.
- URL parsing: the model does not parse the url. The url's path is
  `R::route()` only for an address that is a bare `host[:port]`; an address
  with a path or a trailing `/` (e.g. `localhost:3000/api`) gives a request
  whose path is not the registered one.
- axum's router internals: the real `Router::route` and the panics it
  raises when the same path and verb are registered twice, or when a path is
  empty or does not start with `/` (src/server.rs:97). `define_route!`
  accepts any `$route` expression and `Server.AddRoute` accepts any path.
  The router is a table of entries in registration order.
- `TH: Handler<T, S>` and the extraction of `State`, `Query` and `Json` from
  raw requests (src/server.rs:78). These belong to axum.
- The `ToStatusCode` trait (src/server.rs:10-12). It is declared but never
  implemented or used in the core.
- async, `Future`, `Send` and `'static` bounds. A future is modelled only by
  the type of its `Output` and whether it is `Send`. There is no scheduler.
- Rust's type checker in general. Trait bounds are modelled only where they
  decide behaviour: the handler family and `ResponseType = HandlerOutput`.
  Phantom types are carried as the `route` field, and the move-only
  pipeline is modelled as fresh values built from the previous phase.
- `TypedHandlers.TypedHandler`: models which signatures the generated
  implementations accept. It does not model `FnOnce` versus other closure
  kinds, or type inference.
