/** The `TypedHandler` family of src/server.rs: `all_the_tuples!` invokes
    `impl_my_trait!` once per arity, and each invocation generates one blanket
    implementation of `TypedHandler<(T1, ..., Tk,), Ret>` for every
    `F: FnOnce(T1, ..., Tk) -> Fut` with `Fut: Future<Output = Ret> + Send`. */
module TypedHandlers {
  import opened Types

  /** A type parameter of a generated implementation: `Tn` is `n`. */
  type TypeParam = nat

  /** One generated implementation: the type parameters of the input tuple and
      of the function's parameter list, in order (`Fut` and `Ret` are the same
      in every implementation and are built into `ImplApplies`). */
  datatype Impl = Impl(tupleParams: seq<TypeParam>, fnParams: seq<TypeParam>)

  /** `impl_my_trait!([$($Ts),*], $Last)`: both the tuple and the parameter
      list are `$($Ts,)* $Last`. */
  function ImplMyTrait(ts: seq<TypeParam>, last: TypeParam): (impl: Impl)
    ensures impl.tupleParams == impl.fnParams
    ensures |impl.tupleParams| == |ts| + 1
    ensures impl.tupleParams[..|ts|] == ts && impl.tupleParams[|ts|] == last
  {
    Impl(ts + [last], ts + [last])
  }

  /** `all_the_tuples!(impl_my_trait)`: sixteen invocations, the `k`-th
      (from 0) passing the list T1, ..., Tk and then T(k+1). */
  function AllTheTuples(): (impls: seq<Impl>)
    ensures |impls| == 16
    ensures forall k :: 0 <= k < 16 ==>
              impls[k].tupleParams == impls[k].fnParams && |impls[k].tupleParams| == k + 1
  {
    seq(16, k requires 0 <= k => ImplMyTrait(Params(k), k + 1))
  }

  /** The type parameters T1, ..., Tn in order. */
  function Params(n: nat): (ps: seq<TypeParam>)
    ensures |ps| == n
    ensures forall p :: p in ps ==> 1 <= p <= n
  {
    if n == 0 then [] else Params(n - 1) + [n]
  }

  lemma {:induction false} ParamsAt(n: nat, j: nat)
    requires j < n
    ensures Params(n)[j] == j + 1
  {
    if j < n - 1 {
      ParamsAt(n - 1, j);
    }
  }

  /** The arities the family covers: the length of each generated input
      tuple. */
  function Arities(): set<nat> {
    set i | 0 <= i < |AllTheTuples()| :: |AllTheTuples()[i].tupleParams|
  }

  /** The `k`-th invocation generates the implementation for arity `k + 1`:
      tuple and parameter list are both exactly T1, ..., T(k+1). */
  lemma GeneratedImplShape(k: nat)
    requires k < |AllTheTuples()|
    ensures |AllTheTuples()| == 16
    ensures AllTheTuples()[k] == Impl(Params(k + 1), Params(k + 1))
    ensures forall j :: 0 <= j < k + 1 ==> AllTheTuples()[k].tupleParams[j] == j + 1
  {
    var n := k + 1;
    forall j | 0 <= j < n ensures Params(n)[j] == j + 1 {
      ParamsAt(n, j);
    }
  }

  /** The family covers arities 1 through 16 and nothing else; in particular
      no implementation exists for a zero-parameter handler. */
  lemma AritiesAreOneToSixteen()
    ensures forall k :: k in Arities() <==> 1 <= k <= 16
    ensures 0 !in Arities()
  {
    forall k: nat | 1 <= k <= 16 ensures k in Arities() {
      GeneratedImplShape(k - 1);
    }
    forall k | k in Arities() ensures 1 <= k <= 16 {
      var i :| 0 <= i < |AllTheTuples()| && |AllTheTuples()[i].tupleParams| == k;
      GeneratedImplShape(i);
    }
  }

  /** Instantiates type parameters by `sigma`. */
  function Subst(sigma: map<TypeParam, Ty>, ps: seq<TypeParam>): (ts: seq<Ty>)
    requires forall p :: p in ps ==> p in sigma
    ensures |ts| == |ps| && forall j :: 0 <= j < |ps| ==> ts[j] == sigma[ps[j]]
  {
    seq(|ps|, j requires 0 <= j < |ps| => sigma[ps[j]])
  }

  predicate Binds(sigma: map<TypeParam, Ty>, impl: Impl) {
    (forall p :: p in impl.tupleParams ==> p in sigma) &&
    (forall p :: p in impl.fnParams ==> p in sigma)
  }

  /** The generated implementation `impl` applies to `f` as a
      `TypedHandler<input, ret>`: some instantiation of its type parameters
      makes the input tuple `input` and `f`'s parameter list, and `f` returns
      a `Send` future whose `Output` is `ret`. */
  ghost predicate ImplApplies(impl: Impl, f: FnSig, input: Ty, ret: Ty) {
    exists sigma :: Binds(sigma, impl) &&
      input == Tuple(Subst(sigma, impl.tupleParams)) &&
      f.params == Subst(sigma, impl.fnParams) &&
      f.returnTy == FutureOf(ret, true)
  }

  /** `f: TypedHandler<input, ret>` holds: one of the generated
      implementations applies. */
  ghost predicate TypedHandler(f: FnSig, input: Ty, ret: Ty)
    ensures TypedHandler(f, input, ret) ==> input.Tuple? && f.returnTy == FutureOf(ret, true)
  {
    exists i :: 0 <= i < |AllTheTuples()| && ImplApplies(AllTheTuples()[i], f, input, ret)
  }

  /** The shape every typed handler has. */
  predicate HandlerShape(f: FnSig, input: Ty, ret: Ty) {
    input.Tuple? && 1 <= |input.components| <= 16 &&
    f.params == input.components && f.returnTy == FutureOf(ret, true)
  }

  lemma TypedHandlerHasShape(f: FnSig, input: Ty, ret: Ty)
    requires TypedHandler(f, input, ret)
    ensures HandlerShape(f, input, ret)
  {
    var i :| 0 <= i < |AllTheTuples()| && ImplApplies(AllTheTuples()[i], f, input, ret);
    GeneratedImplShape(i);
    var impl := AllTheTuples()[i];
    var sigma :| Binds(sigma, impl) &&
      input == Tuple(Subst(sigma, impl.tupleParams)) &&
      f.params == Subst(sigma, impl.fnParams) &&
      f.returnTy == FutureOf(ret, true);
    assert |input.components| == i + 1;
  }

  /** The instantiation that sends `Tn` to the `n`-th component of `cs`. */
  function Binding(cs: seq<Ty>): map<TypeParam, Ty> {
    map p | p in Params(|cs|) :: cs[p - 1]
  }

  /** Instantiating T1, ..., Tk by `Binding(cs)` gives back `cs`. */
  lemma SubstBinding(cs: seq<Ty>)
    ensures forall p :: p in Params(|cs|) ==> p in Binding(cs)
    ensures Subst(Binding(cs), Params(|cs|)) == cs
  {
    var ts := Subst(Binding(cs), Params(|cs|));
    forall j | 0 <= j < |cs| ensures ts[j] == cs[j] {
      ParamsAt(|cs|, j);
    }
  }

  lemma ShapeIsTypedHandler(f: FnSig, input: Ty, ret: Ty)
    requires HandlerShape(f, input, ret)
    ensures TypedHandler(f, input, ret)
  {
    var cs := input.components;
    var k := |cs|;
    GeneratedImplShape(k - 1);
    var impl := AllTheTuples()[k - 1];
    assert impl == Impl(Params(k), Params(k));
    SubstBinding(cs);
    var sigma := Binding(cs);
    assert Binds(sigma, impl);
    assert ImplApplies(impl, f, input, ret);
  }

  /** A function is a typed handler for `input` and `ret` exactly when
      `input` is a tuple of 1 to 16 types, the function's parameters are those
      types in the same order, and it returns a `Send` future of `ret`. */
  lemma TypedHandlerIff(f: FnSig, input: Ty, ret: Ty)
    ensures TypedHandler(f, input, ret) <==>
      input.Tuple? && 1 <= |input.components| <= 16 &&
      f.params == input.components && f.returnTy == FutureOf(ret, true)
  {
    if TypedHandler(f, input, ret) {
      TypedHandlerHasShape(f, input, ret);
    }
    if HandlerShape(f, input, ret) {
      ShapeIsTypedHandler(f, input, ret);
    }
  }
}
