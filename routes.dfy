/** The `define_route!` macro of src/lib.rs: one declaration produces the
    outcome enum, its `typed()` conversion and the `Route` implementation. */
module Routes {
  import opened Http
  import opened Types
  import opened Server

  /** One line `Variant { field: Ty, ... } => status` of the declaration. */
  datatype VariantDecl = VariantDecl(tag: string, fields: seq<string>, status: StatusCode)

  /** The declared response enum: its name and its variants in order. */
  datatype EnumDecl = EnumDecl(name: string, variants: seq<VariantDecl>)

  /** The macro's arguments `$name, $method, $route, $request_args,
      $handler_input, $response_enum { ... }`. */
  datatype RouteDecl = RouteDecl(
    name: string,
    httpMethod: HttpMethod,
    route: string,
    requestArgs: Ty,
    handlerInput: Ty,
    responseEnum: EnumDecl)

  /** A value of a generated enum: its variant and its field values in
      declaration order. */
  datatype Outcome<V> = Outcome(tag: string, fieldValues: seq<V>)

  /** Rust only compiles an enum whose variant names are distinct. */
  predicate DistinctTags(vs: seq<VariantDecl>) {
    forall i, j :: 0 <= i < j < |vs| ==> vs[i].tag != vs[j].tag
  }

  /** `v` is built with the variant `d`. */
  predicate Matches<V>(d: VariantDecl, v: Outcome<V>) {
    v.tag == d.tag && |v.fieldValues| == |d.fields|
  }

  /** `v` is a value of the enum declared by `e`. */
  ghost predicate IsValueOf<V>(e: EnumDecl, v: Outcome<V>) {
    exists i :: 0 <= i < |e.variants| && Matches(e.variants[i], v)
  }

  /** The arm of the generated `match &self` that a value with variant `tag`
      takes: arms are tried in declaration order. */
  function ArmFor(vs: seq<VariantDecl>, tag: string): (k: Option<nat>)
    ensures k.Some? ==>
              k.value < |vs| && vs[k.value].tag == tag &&
              forall j :: 0 <= j < k.value ==> vs[j].tag != tag
    ensures k.None? ==> forall j :: 0 <= j < |vs| ==> vs[j].tag != tag
  {
    if |vs| == 0 then None
    else if vs[0].tag == tag then Some(0)
    else match ArmFor(vs[1..], tag)
      case None => None
      case Some(k) => Some(k + 1)
  }

  /** The generated `typed()`: the value itself is the payload, and the status
      is the one declared next to its variant. */
  function Typed<V>(e: EnumDecl, v: Outcome<V>): (tr: TypedResponse<Outcome<V>>)
    requires DistinctTags(e.variants)
    requires IsValueOf(e, v)
    ensures tr.payload == v
    ensures forall i :: 0 <= i < |e.variants| && Matches(e.variants[i], v) ==>
      tr.statusCode == e.variants[i].status
  {
    var arm := ArmFor(e.variants, v.tag);
    match arm
    case Some(i) => TypedResponse(e.variants[i].status, v)
  }

  /** The declaration gives `v` the status `s`. */
  ghost predicate DeclaresStatus<V>(e: EnumDecl, v: Outcome<V>, s: StatusCode) {
    exists i :: 0 <= i < |e.variants| && Matches(e.variants[i], v) && e.variants[i].status == s
  }

  /** The match is exhaustive and unambiguous: every value of the enum is
      given exactly one status, the one `typed()` reports. */
  lemma ExactlyOneStatus<V>(e: EnumDecl, v: Outcome<V>, s: StatusCode)
    requires DistinctTags(e.variants)
    requires IsValueOf(e, v)
    ensures DeclaresStatus(e, v, s) <==> s == Typed(e, v).statusCode
  {
    var i :| 0 <= i < |e.variants| && Matches(e.variants[i], v);
    if s == Typed(e, v).statusCode {
      assert Matches(e.variants[i], v) && e.variants[i].status == s;
    }
  }

  /** The enum a declaration generates, as a type. */
  function EnumTy(e: EnumDecl): Ty { Named(e.name, []) }

  /** The `Route` implementation the macro generates for `$name`. */
  function DefineRoute(d: RouteDecl): (r: Route)
    requires DistinctTags(d.responseEnum.variants)
    ensures r.httpMethod == d.httpMethod && r.path == d.route
    ensures r.handlerOutput == EnumTy(d.responseEnum)
    ensures r.responseType == r.handlerOutput
    ensures r.requestArgs == d.requestArgs && r.handlerInput == d.handlerInput
  {
    var output := EnumTy(d.responseEnum);
    Route(output, d.handlerInput, d.requestArgs, output, d.httpMethod, d.route)
  }
}
