/** The two contracts declared in the tests of src/lib.rs with
    `define_route!`: `GetMsg` and `SetMsg`. */
module TestRoutes {
  import opened Http
  import opened Types
  import opened TypedHandlers
  import opened Server
  import opened Routes

  /** Rust's `u32`. */
  type U32 = n: int | 0 <= n < 0x1_0000_0000

  /** `GetMsgQueryArgs { num: u32, prefix: String }`. */
  datatype GetMsgQueryArgs = GetMsgQueryArgs(num: U32, prefix: string)

  /** The enum `define_route!` generates for `GetMsg`. */
  datatype GetMsgSuccess = Done(newMsg: string) | SuperGood | NotFound | OtherError

  /** The enum `define_route!` generates for `SetMsg`. */
  datatype SetMsgSuccess = Done(newMsg: string) | SuperGood

  // ---------------------------------------------------------------- GetMsg

  function GetMsgEnum(): EnumDecl {
    EnumDecl("GetMsgSuccess", [
      VariantDecl("Done", ["new_msg"], StatusCreated),
      VariantDecl("SuperGood", [], StatusAccepted),
      VariantDecl("NotFound", [], StatusNotFound),
      VariantDecl("OtherError", [], StatusInternalServerError)])
  }

  function GetMsgDecl(): RouteDecl {
    RouteDecl("GetMsg", Get, "/get_msg", Simple("GetMsgQueryArgs"),
      Tuple([Named("State", [Simple("S")]), Named("Query", [Simple("GetMsgQueryArgs")])]),
      GetMsgEnum())
  }

  /** A `GetMsgSuccess` value as a value of the declared enum. */
  function GetMsgOutcome(o: GetMsgSuccess): (v: Outcome<string>)
    ensures IsValueOf(GetMsgEnum(), v)
  {
    match o
    case Done(newMsg) =>
      assert Matches(GetMsgEnum().variants[0], Outcome("Done", [newMsg]));
      Outcome("Done", [newMsg])
    case SuperGood =>
      var v: Outcome<string> := Outcome("SuperGood", []);
      assert Matches(GetMsgEnum().variants[1], v);
      v
    case NotFound =>
      var v: Outcome<string> := Outcome("NotFound", []);
      assert Matches(GetMsgEnum().variants[2], v);
      v
    case OtherError =>
      var v: Outcome<string> := Outcome("OtherError", []);
      assert Matches(GetMsgEnum().variants[3], v);
      v
  }

  /** Distinct `GetMsgSuccess` values are distinct enum values. */
  lemma GetMsgOutcomeInjective(a: GetMsgSuccess, b: GetMsgSuccess)
    ensures GetMsgOutcome(a) == GetMsgOutcome(b) ==> a == b
  {
  }

  /** `GetMsg`'s `Route` implementation. */
  function GetMsg(): (r: Route)
    ensures r.httpMethod == Get && r.path == "/get_msg"
    ensures r.responseType == r.handlerOutput == Simple("GetMsgSuccess")
    ensures r.requestArgs == Simple("GetMsgQueryArgs")
    ensures r.handlerInput == Tuple([Named("State", [Simple("S")]), Named("Query", [Simple("GetMsgQueryArgs")])])
  {
    DefineRoute(GetMsgDecl())
  }

  /** The generated `GetMsgSuccess::typed`: the payload is the value itself and
      the status is the one the declaration gives its variant. */
  function GetMsgTyped(o: GetMsgSuccess): (tr: TypedResponse<GetMsgSuccess>)
    ensures tr.payload == o
    ensures tr.statusCode == Typed(GetMsgEnum(), GetMsgOutcome(o)).statusCode
  {
    var v := GetMsgOutcome(o);
    match o
    case Done(_) =>
      assert Matches(GetMsgEnum().variants[0], v);
      TypedResponse(StatusCreated, o)
    case SuperGood =>
      assert Matches(GetMsgEnum().variants[1], v);
      TypedResponse(StatusAccepted, o)
    case NotFound =>
      assert Matches(GetMsgEnum().variants[2], v);
      TypedResponse(StatusNotFound, o)
    case OtherError =>
      assert Matches(GetMsgEnum().variants[3], v);
      TypedResponse(StatusInternalServerError, o)
  }

  /** The status table of `GetMsgSuccess`. */
  lemma GetMsgStatusTable(m: string)
    ensures GetMsgTyped(GetMsgSuccess.Done(m)).statusCode == 201
    ensures GetMsgTyped(GetMsgSuccess.SuperGood).statusCode == 202
    ensures GetMsgTyped(NotFound).statusCode == 404
    ensures GetMsgTyped(OtherError).statusCode == 500
  {
  }

  // ---------------------------------------------------------------- SetMsg

  function SetMsgEnum(): EnumDecl {
    EnumDecl("SetMsgSuccess", [
      VariantDecl("Done", ["new_msg"], StatusCreated),
      VariantDecl("SuperGood", [], StatusAccepted)])
  }

  function SetMsgDecl(): RouteDecl {
    RouteDecl("SetMsg", Post, "/set_msg", Simple("String"),
      Tuple([Named("State", [Simple("S")]), Named("Json", [Simple("String")])]),
      SetMsgEnum())
  }

  /** A `SetMsgSuccess` value as a value of the declared enum. */
  function SetMsgOutcome(o: SetMsgSuccess): (v: Outcome<string>)
    ensures IsValueOf(SetMsgEnum(), v)
  {
    match o
    case Done(newMsg) =>
      assert Matches(SetMsgEnum().variants[0], Outcome("Done", [newMsg]));
      Outcome("Done", [newMsg])
    case SuperGood =>
      var v: Outcome<string> := Outcome("SuperGood", []);
      assert Matches(SetMsgEnum().variants[1], v);
      v
  }

  /** Distinct `SetMsgSuccess` values are distinct enum values. */
  lemma SetMsgOutcomeInjective(a: SetMsgSuccess, b: SetMsgSuccess)
    ensures SetMsgOutcome(a) == SetMsgOutcome(b) ==> a == b
  {
  }

  /** `SetMsg`'s `Route` implementation. */
  function SetMsg(): (r: Route)
    ensures r.httpMethod == Post && r.path == "/set_msg"
    ensures r.responseType == r.handlerOutput == Simple("SetMsgSuccess")
    ensures r.requestArgs == Simple("String")
    ensures r.handlerInput == Tuple([Named("State", [Simple("S")]), Named("Json", [Simple("String")])])
  {
    DefineRoute(SetMsgDecl())
  }

  /** The generated `SetMsgSuccess::typed`. */
  function SetMsgTyped(o: SetMsgSuccess): (tr: TypedResponse<SetMsgSuccess>)
    ensures tr.payload == o
    ensures tr.statusCode == Typed(SetMsgEnum(), SetMsgOutcome(o)).statusCode
  {
    var v := SetMsgOutcome(o);
    match o
    case Done(_) =>
      assert Matches(SetMsgEnum().variants[0], v);
      TypedResponse(StatusCreated, o)
    case SuperGood =>
      assert Matches(SetMsgEnum().variants[1], v);
      TypedResponse(StatusAccepted, o)
  }

  /** The status table of `SetMsgSuccess`. */
  lemma SetMsgStatusTable(m: string)
    ensures SetMsgTyped(SetMsgSuccess.Done(m)).statusCode == 201
    ensures SetMsgTyped(SetMsgSuccess.SuperGood).statusCode == 202
  {
  }

  // ------------------------------------------------------------- handlers

  /** A handler `async fn(State<S>, Query<GetMsgQueryArgs>) ->
      TypedResponse<GetMsgSuccess>` fits `GetMsg`, one with the arguments in
      the other order does not, and neither does one that returns a value
      instead of a future. */
  lemma GetMsgHandlerArity()
    ensures var input := GetMsg().handlerInput;
      var want := TypedResponseTy(GetMsg().handlerOutput);
      TypedHandler(FnSig(input.components, FutureOf(want, true)), input, want) &&
      !TypedHandler(FnSig([input.components[1], input.components[0]], FutureOf(want, true)), input, want) &&
      !TypedHandler(FnSig(input.components, Plain(want)), input, want)
  {
    var input := GetMsg().handlerInput;
    var want := TypedResponseTy(GetMsg().handlerOutput);
    TypedHandlerIff(FnSig(input.components, FutureOf(want, true)), input, want);
    TypedHandlerIff(FnSig([input.components[1], input.components[0]], FutureOf(want, true)), input, want);
    TypedHandlerIff(FnSig(input.components, Plain(want)), input, want);
  }

  /** A handler taking no arguments is never a typed handler, whatever the
      handler input, the unit type `()` included. */
  lemma NoZeroArityHandler(ret: ReturnTy, input: Ty, out: Ty)
    ensures !TypedHandler(FnSig([], ret), input, out)
  {
    TypedHandlerIff(FnSig([], ret), input, out);
  }
}
