/** The proptest boilerplate printer: one property test per free function and per
    method of an impl block, taking every typed parameter as an arbitrary value
    and passing it on to the callable. */
module Proptest {
  import opened Syntax
  import opened Text

  /** The separator the printer writes after every parameter and argument. */
  const Sep := ", "

  function TestHead(ident: string): string
  {
    "proptest! { #[test] fn test_" + ident + "_fuzz ("
  }

  function SelfParam(selfTy: string): string
  {
    "self_like_thing: Any::<" + selfTy + ">()"
  }

  function ParamPiece(pat: Pat, ty: Ty): string
  {
    PatText(pat) + ": Any::<" + TyText(ty) + ">()"
  }

  function SelfParams(selfTy: Option<string>): seq<string>
  {
    if selfTy.Some? then [SelfParam(selfTy.value)] else []
  }

  /** The test's parameters for the typed inputs, in order. */
  function Params(inputs: seq<FnArg>): (r: seq<string>)
    ensures |r| == CountTyped(inputs)
  {
    if inputs == [] then []
    else
      var init := Params(inputs[..|inputs| - 1]);
      match inputs[|inputs| - 1]
      case Typed(pat, ty) => init + [ParamPiece(pat, ty)]
      case Receiver(_) => init
  }

  /** The call's arguments: the typed inputs' patterns, in order. */
  function Pats(inputs: seq<FnArg>): (r: seq<string>)
    ensures |r| == CountTyped(inputs)
  {
    if inputs == [] then []
    else
      var init := Pats(inputs[..|inputs| - 1]);
      match inputs[|inputs| - 1]
      case Typed(pat, _) => init + [PatText(pat)]
      case Receiver(_) => init
  }

  /** The printed test for one callable. */
  function Test(selfTy: Option<string>, ident: string, inputs: seq<FnArg>): string
  {
    TestHead(ident) + Terminated(SelfParams(selfTy) + Params(inputs), Sep) + ") {"
    + (if selfTy.Some? then "self_like_thing." else "") + (ident + " (") + Terminated(Pats(inputs), Sep) + (")}}" + NL)
  }

  /** Prints the test for one callable. */
  method PrintATest(selfTy: Option<string>, ident: string, inputs: seq<FnArg>) returns (out: string)
    ensures out == Test(selfTy, ident, inputs)
  {
    out := TestHead(ident);
    ghost var head, selfParams := out, Terminated(SelfParams(selfTy), Sep);
    SelfParamsPrinted(selfTy);
    if selfTy.Some? {
      out := out + (SelfParam(selfTy.value) + Sep);
    } else {
      EmptyRight(out);
    }
    var params := PrintParams(SelfParams(selfTy), inputs);
    out := out + params;
    out := out + ") {";
    ghost var before := out;
    if selfTy.Some? {
      out := out + "self_like_thing.";
    } else {
      EmptyRight(before);
    }
    out := out + (ident + " (");
    var args := PrintArgs(inputs);
    out := out + args;
    out := out + (")}}" + NL);
    TestRegroup(head, selfParams, params, ") {", if selfTy.Some? then "self_like_thing." else "",
                ident + " (", args, ")}}" + NL);
  }

  lemma SelfParamsPrinted(selfTy: Option<string>)
    ensures Terminated(SelfParams(selfTy), Sep) == if selfTy.Some? then SelfParam(selfTy.value) + Sep else ""
  {
    if selfTy.Some? {
      assert [SelfParam(selfTy.value)][..0] == [];
    }
  }

  lemma TestRegroup(h: string, sp: string, ps: string, o: string, sl: string, id: string, a: string, cl: string)
    ensures h + sp + ps + o + sl + id + a + cl == h + (sp + ps) + o + sl + id + a + cl
  {
  }

  /** The parameter loop: what it adds after the parameters `pre` already printed. */
  method PrintParams(pre: seq<string>, inputs: seq<FnArg>) returns (text: string)
    ensures Terminated(pre, Sep) + text == Terminated(pre + Params(inputs), Sep)
  {
    text := "";
    var i := 0;
    assert pre + Params(inputs[..0]) == pre;
    assert Terminated(pre, Sep) + text == Terminated(pre, Sep);
    while i < |inputs|
      invariant i <= |inputs|
      invariant Terminated(pre, Sep) + text == Terminated(pre + Params(inputs[..i]), Sep)
    {
      assert inputs[..i + 1][..i] == inputs[..i];
      match inputs[i] {
        case Typed(pat, ty) =>
          var xs := pre + Params(inputs[..i]);
          assert pre + Params(inputs[..i + 1]) == xs + [ParamPiece(pat, ty)];
          assert (xs + [ParamPiece(pat, ty)])[..|xs|] == xs;
          ConcatAssoc(Terminated(pre, Sep), text, ParamPiece(pat, ty) + Sep);
          text := text + (ParamPiece(pat, ty) + Sep);
        case Receiver(_) =>
      }
      i := i + 1;
    }
    assert inputs[..i] == inputs;
  }

  /** The argument loop. */
  method PrintArgs(inputs: seq<FnArg>) returns (text: string)
    ensures text == Terminated(Pats(inputs), Sep)
  {
    text := "";
    var i := 0;
    while i < |inputs|
      invariant i <= |inputs|
      invariant text == Terminated(Pats(inputs[..i]), Sep)
    {
      assert inputs[..i + 1][..i] == inputs[..i];
      match inputs[i] {
        case Typed(pat, _) =>
          assert (Pats(inputs[..i]) + [PatText(pat)])[..|Pats(inputs[..i])|] == Pats(inputs[..i]);
          text := text + (PatText(pat) + Sep);
        case Receiver(_) =>
      }
      i := i + 1;
    }
    assert inputs[..i] == inputs;
  }

  /** Argument `k` of the call is the pattern of the `k`-th typed input. */
  lemma {:induction false} PatsAt(inputs: seq<FnArg>)
    ensures |Pats(inputs)| == |TypedIndices(inputs)|
    ensures forall k | 0 <= k < |Pats(inputs)| ::
      inputs[TypedIndices(inputs)[k]].Typed? && Pats(inputs)[k] == PatText(inputs[TypedIndices(inputs)[k]].pat)
  {
    TypedIndicesExact(inputs);
    if inputs != [] {
      var init := inputs[..|inputs| - 1];
      PatsAt(init);
      TypedIndicesExact(init);
      forall k | 0 <= k < |Pats(inputs)|
        ensures inputs[TypedIndices(inputs)[k]].Typed? && Pats(inputs)[k] == PatText(inputs[TypedIndices(inputs)[k]].pat)
      {
        if k < |Pats(init)| {
          assert Pats(inputs)[k] == Pats(init)[k];
          assert TypedIndices(inputs)[k] == TypedIndices(init)[k];
          assert init[TypedIndices(init)[k]] == inputs[TypedIndices(init)[k]];
        }
      }
    }
  }

  /** Parameter `k` of the test binds the `k`-th typed input's pattern to an
      arbitrary value of its type. */
  lemma {:induction false} ParamsAt(inputs: seq<FnArg>)
    ensures |Params(inputs)| == |TypedIndices(inputs)|
    ensures forall k | 0 <= k < |Params(inputs)| ::
      inputs[TypedIndices(inputs)[k]].Typed?
      && Params(inputs)[k] == ParamPiece(inputs[TypedIndices(inputs)[k]].pat, inputs[TypedIndices(inputs)[k]].ty)
  {
    TypedIndicesExact(inputs);
    if inputs != [] {
      var init := inputs[..|inputs| - 1];
      ParamsAt(init);
      TypedIndicesExact(init);
      forall k | 0 <= k < |Params(inputs)|
        ensures inputs[TypedIndices(inputs)[k]].Typed?
          && Params(inputs)[k] == ParamPiece(inputs[TypedIndices(inputs)[k]].pat, inputs[TypedIndices(inputs)[k]].ty)
      {
        if k < |Params(init)| {
          assert Params(inputs)[k] == Params(init)[k];
          assert TypedIndices(inputs)[k] == TypedIndices(init)[k];
          assert init[TypedIndices(init)[k]] == inputs[TypedIndices(init)[k]];
        }
      }
    }
  }

  /** Parameter `k` of the test binds the name that argument `k` passes. */
  lemma ParamsBindPats(inputs: seq<FnArg>)
    ensures |Params(inputs)| == |Pats(inputs)|
    ensures forall k | 0 <= k < |Pats(inputs)| :: Pats(inputs)[k] <= Params(inputs)[k]
  {
    PatsAt(inputs);
    ParamsAt(inputs);
  }

  /** No pattern or type of a typed input contains a comma. */
  predicate CommaFree(inputs: seq<FnArg>)
  {
    forall k | 0 <= k < |inputs| ::
      inputs[k].Typed? ==> Avoids(PatText(inputs[k].pat), ',') && Avoids(TyText(inputs[k].ty), ',')
  }

  /** When no pattern, type or self type contains a comma, splitting the printed
      parameter list at `", "` recovers every parameter, the list ending with an
      empty piece after its trailing separator. */
  lemma ParamListSplits(selfTy: Option<string>, inputs: seq<FnArg>)
    requires selfTy.Some? ==> Avoids(selfTy.value, ',')
    requires CommaFree(inputs)
    ensures SplitOn(Terminated(SelfParams(selfTy) + Params(inputs), Sep), Sep) == SelfParams(selfTy) + Params(inputs) + [""]
  {
    ParamsAvoid(inputs);
    if selfTy.Some? {
      SelfParamAvoids(selfTy.value);
    }
    AllAvoidConcat(SelfParams(selfTy), Params(inputs), ',');
    TerminatedSplit(SelfParams(selfTy) + Params(inputs), Sep);
  }

  lemma ParamsAvoid(inputs: seq<FnArg>)
    requires CommaFree(inputs)
    ensures forall k | 0 <= k < |Params(inputs)| :: Avoids(Params(inputs)[k], ',')
  {
    ParamsAt(inputs);
    var ps := Params(inputs);
    forall k | 0 <= k < |ps|
      ensures Avoids(ps[k], ',')
    {
      var a := inputs[TypedIndices(inputs)[k]];
      ParamPieceAvoids(a.pat, a.ty);
    }
  }

  lemma AllAvoidConcat(xs: seq<string>, ys: seq<string>, c: char)
    requires forall k | 0 <= k < |xs| :: Avoids(xs[k], c)
    requires forall k | 0 <= k < |ys| :: Avoids(ys[k], c)
    ensures forall k | 0 <= k < |xs + ys| :: Avoids((xs + ys)[k], c)
  {
    forall k | 0 <= k < |xs + ys|
      ensures Avoids((xs + ys)[k], c)
    {
      if k >= |xs| {
        assert (xs + ys)[k] == ys[k - |xs|];
      }
    }
  }

  /** Likewise the call's argument list recovers every argument. */
  lemma ArgListSplits(inputs: seq<FnArg>)
    requires CommaFree(inputs)
    ensures SplitOn(Terminated(Pats(inputs), Sep), Sep) == Pats(inputs) + [""]
  {
    PatsAt(inputs);
    TerminatedSplit(Pats(inputs), Sep);
  }

  lemma SelfParamAvoids(t: string)
    requires Avoids(t, ',')
    ensures Avoids(SelfParam(t), ',')
  {
    AvoidsFour("self_like_thing: Any::<", t, ">()", "");
  }

  lemma ParamPieceAvoids(pat: Pat, ty: Ty)
    requires Avoids(PatText(pat), ',') && Avoids(TyText(ty), ',')
    ensures Avoids(ParamPiece(pat, ty), ',')
  {
    AvoidsFour(PatText(pat), ": Any::<", TyText(ty), ">()");
  }

  lemma AvoidsFour(a: string, b: string, c: string, d: string)
    requires Avoids(a, ',') && Avoids(b, ',') && Avoids(c, ',') && Avoids(d, ',')
    ensures Avoids(a + b + c + d, ',')
  {
    var s := a + b + c + d;
    forall j | 0 <= j < |s|
      ensures s[j] != ','
    {
      if j < |a| { assert s[j] == a[j]; }
      else if j < |a| + |b| { assert s[j] == b[j - |a|]; }
      else if j < |a| + |b| + |c| { assert s[j] == c[j - |a| - |b|]; }
      else { assert s[j] == d[j - |a| - |b| - |c|]; }
    }
  }

  // ------------------------------------------------------------- the visitor

  datatype ImplItem = Method(sig: Signature) | OtherImplItem
  /** A top-level item: a free function, an impl block with its printed self type,
      or anything else. */
  datatype Item = ItemFn(sig: Signature) | ItemImpl(selfTy: string, items: seq<ImplItem>) | OtherItem

  /** A callable to print a test for: its self type, if a method, and its signature. */
  datatype Callable = Callable(selfTy: Option<string>, sig: Signature)

  function MethodsOf(selfTy: string, items: seq<ImplItem>): (r: seq<Callable>)
    ensures forall k | 0 <= k < |r| :: r[k].selfTy == Some(selfTy)
  {
    if items == [] then []
    else
      var init := MethodsOf(selfTy, items[..|items| - 1]);
      match items[|items| - 1]
      case Method(sig) => init + [Callable(Some(selfTy), sig)]
      case OtherImplItem => init
  }

  /** The callables in item order; the methods of an impl block in their order. */
  function Callables(items: seq<Item>): seq<Callable>
  {
    if items == [] then []
    else
      var init := Callables(items[..|items| - 1]);
      match items[|items| - 1]
      case ItemFn(sig) => init + [Callable(None, sig)]
      case ItemImpl(selfTy, implItems) => init + MethodsOf(selfTy, implItems)
      case OtherItem => init
  }

  lemma {:induction false} MethodsOfExact(selfTy: string, items: seq<ImplItem>)
    ensures forall sig :: Callable(Some(selfTy), sig) in MethodsOf(selfTy, items) <==> Method(sig) in items
  {
    if items != [] {
      var init := items[..|items| - 1];
      MethodsOfExact(selfTy, init);
      assert items == init + [items[|items| - 1]];
    }
  }

  /** Each free function is visited with no self type, each method of an impl block
      with that block's self type, and nothing else is visited. */
  lemma {:induction false} CallablesExact(items: seq<Item>)
    ensures forall sig :: Callable(None, sig) in Callables(items) <==> ItemFn(sig) in items
    ensures forall t, sig :: Callable(Some(t), sig) in Callables(items) <==>
      exists i | 0 <= i < |items| :: items[i].ItemImpl? && items[i].selfTy == t && Method(sig) in items[i].items
  {
    if items != [] {
      var init := items[..|items| - 1];
      var last := items[|items| - 1];
      CallablesExact(init);
      assert items == init + [last];
      if last.ItemImpl? {
        MethodsOfExact(last.selfTy, last.items);
      }
      assert forall i | 0 <= i < |init| :: init[i] == items[i];
      forall t, sig
        ensures Callable(Some(t), sig) in Callables(items) <==>
          exists i | 0 <= i < |items| :: items[i].ItemImpl? && items[i].selfTy == t && Method(sig) in items[i].items
      {
        var c := Callable(Some(t), sig);
        if c in Callables(items) && c !in Callables(init) {
          assert last.ItemImpl? && c in MethodsOf(last.selfTy, last.items);
          assert last.selfTy == t;
          assert items[|items| - 1].ItemImpl? && items[|items| - 1].selfTy == t && Method(sig) in items[|items| - 1].items;
        }
        if exists i | 0 <= i < |items| :: items[i].ItemImpl? && items[i].selfTy == t && Method(sig) in items[i].items {
          var i :| 0 <= i < |items| && items[i].ItemImpl? && items[i].selfTy == t && Method(sig) in items[i].items;
          if i < |init| {
            assert init[i].ItemImpl? && init[i].selfTy == t && Method(sig) in init[i].items;
          } else {
            assert c in MethodsOf(t, last.items);
          }
        }
      }
    }
  }

  /** The tests printed for a sequence of callables. */
  function Rendered(cs: seq<Callable>): (r: seq<string>)
    ensures |r| == |cs|
    ensures forall k | 0 <= k < |cs| :: r[k] == Test(cs[k].selfTy, cs[k].sig.ident, cs[k].sig.inputs)
  {
    if cs == [] then []
    else Rendered(cs[..|cs| - 1]) + [Test(cs[|cs| - 1].selfTy, cs[|cs| - 1].sig.ident, cs[|cs| - 1].sig.inputs)]
  }

  lemma RenderedAppend(a: seq<Callable>, b: seq<Callable>)
    ensures Rendered(a + b) == Rendered(a) + Rendered(b)
  {
    var r, ra, rb := Rendered(a + b), Rendered(a), Rendered(b);
    forall k | 0 <= k < |a + b|
      ensures r[k] == (ra + rb)[k]
    {
      if k < |a| {
        assert (a + b)[k] == a[k];
      } else {
        assert (a + b)[k] == b[k - |a|];
      }
    }
  }

  /** Visits the items of a file, printing one test per callable. */
  method VisitFile(items: seq<Item>) returns (tests: seq<string>)
    ensures tests == Rendered(Callables(items))
  {
    tests := [];
    var i := 0;
    while i < |items|
      invariant i <= |items|
      invariant tests == Rendered(Callables(items[..i]))
    {
      assert items[..i + 1][..i] == items[..i];
      match items[i] {
        case ItemFn(sig) =>
          var t := PrintATest(None, sig.ident, sig.inputs);
          RenderedAppend(Callables(items[..i]), [Callable(None, sig)]);
          tests := tests + [t];
        case ItemImpl(selfTy, implItems) =>
          var more := VisitImpl(selfTy, implItems);
          RenderedAppend(Callables(items[..i]), MethodsOf(selfTy, implItems));
          tests := tests + more;
        case OtherItem =>
      }
      i := i + 1;
    }
    assert items[..i] == items;
  }

  /** Prints a test for every method of an impl block, in order. */
  method VisitImpl(selfTy: string, implItems: seq<ImplItem>) returns (tests: seq<string>)
    ensures tests == Rendered(MethodsOf(selfTy, implItems))
  {
    tests := [];
    var j := 0;
    while j < |implItems|
      invariant j <= |implItems|
      invariant tests == Rendered(MethodsOf(selfTy, implItems[..j]))
    {
      assert implItems[..j + 1][..j] == implItems[..j];
      match implItems[j] {
        case Method(sig) =>
          var t := PrintATest(Some(selfTy), sig.ident, sig.inputs);
          RenderedAppend(MethodsOf(selfTy, implItems[..j]), [Callable(Some(selfTy), sig)]);
          tests := tests + [t];
        case OtherImplItem =>
      }
      j := j + 1;
    }
    assert implItems[..j] == implItems;
  }
}
