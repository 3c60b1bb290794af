/** Rust types, as values, so that the compile-time agreements the library
    relies on (handler input tuples, handler outputs, response types) can be
    stated about them. */
module Types {

  /** A type: a named type applied to arguments (`State<S>`, `String`) or a
      tuple (`(State<S>, Query<GetMsgQueryArgs>)`, the unit type `()`). */
  datatype Ty = Named(name: string, args: seq<Ty>) | Tuple(components: seq<Ty>)

  /** What a function returns: a future with its `Output` type and whether it
      is `Send`, or a plain value. */
  datatype ReturnTy = FutureOf(output: Ty, isSend: bool) | Plain(ty: Ty)

  /** The signature of a function value: its parameter types in order and its
      return type. */
  datatype FnSig = FnSig(params: seq<Ty>, returnTy: ReturnTy)

  function Simple(name: string): Ty { Named(name, []) }
}
