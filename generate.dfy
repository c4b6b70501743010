/** The code-shape synthesis of the attribute macros: from a callable's signature
    (and, for a method, the type of its impl block) it builds
    - the argument struct `__fuzz_struct_<ident>` with one field per parameter,
    - the wrapper `__fuzz_<ident>(mut input: __fuzz_struct_<ident>)` that calls the
      callable with those fields, and
    - the fuzz target that feeds the wrapper.
    The Rust code edits parsed templates in place; here the struct's fields and the
    call's arguments are sequences built by a loop over the parameters. */
module Generate {
  import opened Syntax

  datatype GenerateError =
    | Unsafe
    | Async
    | Empty
    | ComplexArg
    | ComplexSelfType
    | MultipleRes
    | ComplexMethodCall
    | ComplexVariable

  /** The text `Display` prints for each error. */
  function Message(e: GenerateError): string
  {
    match e
    case Async => "Can not fuzz async functions."
    case Unsafe => "unsafe functions can not be fuzzed automatically."
    case Empty => "It is useless to fuzz function without input parameters."
    case ComplexArg =>
      "Type of the function must be either standalone, or borrowed standalone (like `&Type`, but not like `&(u32, String)`)"
    case ComplexSelfType => "Only implementations for simple (like `MyType`) types are supported"
    case MultipleRes => "Muptiple Self values in function args."
    case ComplexMethodCall => "Complex method calls are not currently supported."
    case ComplexVariable => "Complex variables (like `&mut *a`) are not supported"
  }

  /** A generator's outcome: a value, a reported error, or a panic with its message. */
  datatype Outcome<+T> = Ok(value: T) | Err(error: GenerateError) | Panic(message: string)

  /** A failed outcome carried over to another result type. */
  function Fail<T, U>(o: Outcome<T>): (r: Outcome<U>)
    requires !o.Ok?
    ensures !r.Ok? && r.Err? == o.Err?
    ensures o.Err? ==> r.error == o.error
    ensures o.Panic? ==> r.message == o.message
  {
    match o
    case Err(e) => Err(e)
    case Panic(m) => Panic(m)
  }

  const MissingSelfType := "Self type must be supplied for method parsing"
  const MethodInFunctionMacro :=
    "This macros can not be used for fuzzing methods, use #[create_cargofuzz_impl_harness]"
  const UnwrapNone := "called `Option::unwrap()` on a `None` value"

  function StructName(ident: string): string { "__fuzz_struct_" + ident }

  function WrapperName(ident: string): string { "__fuzz_" + ident }

  /** The name the receiver's field gets in the argument struct. */
  const SelfField := "slf"

  // ---------------------------------------------------------------- fuzz_struct

  /** A field's type: the parameter's type itself, or `Box<T>` for a borrowed `T`. */
  datatype FieldTy = Direct(ty: Ty) | Boxed(inner: Ty)

  datatype Field = Field(name: string, ty: FieldTy)

  datatype ArgStruct = ArgStruct(ident: string, fields: seq<Field>)

  /** The field that `fuzz_struct` makes of one parameter, or why it cannot. */
  function StructField(arg: FnArg, implTy: Option<Ty>): Outcome<Field>
  {
    match arg
    case Typed(Complex(_), _) => Err(ComplexVariable)
    case Typed(Ident(x), Reference(_, Path(p))) => Ok(Field(x, Boxed(Path(p))))
    case Typed(Ident(_), Reference(_, _)) => Err(ComplexArg)
    case Typed(Ident(x), Path(p)) => Ok(Field(x, Direct(Path(p))))
    case Typed(Ident(_), Other(_)) => Err(ComplexArg)
    case Receiver(isRef) =>
      match implTy
      case None => Panic(MissingSelfType)
      case Some(Path(p)) => Ok(Field(SelfField, if isRef then Boxed(Path(p)) else Direct(Path(p))))
      case Some(_) => Err(ComplexSelfType)
  }

  /** Parameter `k` is the first one `fuzz_struct` cannot turn into a field. */
  ghost predicate StructFailsAt(inputs: seq<FnArg>, implTy: Option<Ty>, k: int)
  {
    0 <= k < |inputs| && !StructField(inputs[k], implTy).Ok?
    && forall j | 0 <= j < k :: StructField(inputs[j], implTy).Ok?
  }

  /** Builds the argument struct, one field per parameter in declaration order;
      the first parameter that has no field decides the error. */
  method FuzzStruct(sig: Signature, implTy: Option<Ty>) returns (r: Outcome<ArgStruct>)
    ensures r.Ok? <==> forall j | 0 <= j < |sig.inputs| :: StructField(sig.inputs[j], implTy).Ok?
    ensures r.Ok? ==> r.value.ident == StructName(sig.ident) && |r.value.fields| == |sig.inputs|
    ensures r.Ok? ==> forall j | 0 <= j < |sig.inputs| ::
      r.value.fields[j] == StructField(sig.inputs[j], implTy).value
    ensures !r.Ok? ==> exists k ::
      (StructFailsAt(sig.inputs, implTy, k) && r == Fail(StructField(sig.inputs[k], implTy)))
  {
    var fields: seq<Field> := [];
    var i := 0;
    while i < |sig.inputs|
      invariant 0 <= i <= |sig.inputs| && |fields| == i
      invariant forall j | 0 <= j < i ::
        (StructField(sig.inputs[j], implTy).Ok? && fields[j] == StructField(sig.inputs[j], implTy).value)
    {
      var field := StructField(sig.inputs[i], implTy);
      if !field.Ok? {
        assert StructFailsAt(sig.inputs, implTy, i);
        return Fail(field);
      }
      fields := fields + [field.value];
      i := i + 1;
    }
    return Ok(ArgStruct(StructName(sig.ident), fields));
  }

  // -------------------------------------------------------------- fuzz_function

  /** A call argument read from the struct: `input.x`, or `&*input.x` / `&mut *input.x`. */
  datatype CallArg = ByValue(field: string) | ByRef(isMut: bool, field: string)

  function CallArgText(a: CallArg): string
  {
    match a
    case ByValue(x) => "input." + x
    case ByRef(isMut, x) => (if isMut then "&mut *input." else "&*input.") + x
  }

  /** The call in the wrapper: `f(..)`, `(input.slf).m(..)` or `Ty::m(..)`. */
  datatype Callee = Function(ident: string) | SelfMethod(ident: string) | Associated(typeIdent: string, ident: string)

  datatype Wrapper = Wrapper(ident: string, inputType: string, callee: Callee, args: seq<CallArg>)

  /** Which of the three templates the wrapper is built from. */
  datatype Branch = FreeFunction | ReceiverFirst | TypedFirst

  /** The checks made before any parameter is looked at all pass. */
  predicate Admitted(sig: Signature)
  {
    !sig.isAsync && !sig.isUnsafe && |sig.inputs| > 0
  }

  function BranchOf(inputs: seq<FnArg>, implTy: Option<Ty>): Branch
    requires |inputs| > 0
  {
    if implTy.None? then FreeFunction
    else if inputs[0].Receiver? then ReceiverFirst
    else TypedFirst
  }

  /** The parameters that become call arguments: all of them, except a leading receiver. */
  function Forwarded(inputs: seq<FnArg>, implTy: Option<Ty>): seq<FnArg>
    requires |inputs| > 0
  {
    if BranchOf(inputs, implTy) == ReceiverFirst then inputs[1..] else inputs
  }

  /** The callee, or why the wrapper cannot name it. The impl type is inspected only
      when the first parameter is not a receiver. */
  function CalleeOf(sig: Signature, implTy: Option<Ty>): Outcome<Callee>
    requires |sig.inputs| > 0
  {
    match BranchOf(sig.inputs, implTy)
    case FreeFunction => Ok(Function(sig.ident))
    case ReceiverFirst => Ok(SelfMethod(sig.ident))
    case TypedFirst =>
      match implTy.value
      case Path(segments) =>
        if |segments| == 0 then Panic(UnwrapNone) else Ok(Associated(segments[0].ident, sig.ident))
      case _ => Err(ComplexMethodCall)
  }

  /** The call argument one forwarded parameter becomes, or why it cannot. */
  function CallArgOf(arg: FnArg, branch: Branch): Outcome<CallArg>
  {
    match arg
    case Typed(Ident(x), Reference(isMut, _)) => Ok(ByRef(isMut, x))
    case Typed(Ident(x), Path(_)) => Ok(ByValue(x))
    case Typed(Ident(_), Other(_)) => Err(ComplexArg)
    case Typed(Complex(_), _) =>
      if branch == FreeFunction then Err(ComplexVariable) else Err(ComplexSelfType)
    case Receiver(_) =>
      if branch == ReceiverFirst then Err(MultipleRes) else Panic(MethodInFunctionMacro)
  }

  /** Forwarded parameter `k` is the first that has no call argument. */
  ghost predicate CallFailsAt(args: seq<FnArg>, branch: Branch, k: int)
  {
    0 <= k < |args| && !CallArgOf(args[k], branch).Ok?
    && forall j | 0 <= j < k :: CallArgOf(args[j], branch).Ok?
  }

  /** Builds the wrapper. Async, unsafe and parameterless callables are refused, in
      that order, before anything else; then the callee is fixed and one argument is
      made per forwarded parameter, in order, the first failing parameter deciding. */
  method FuzzFunction(sig: Signature, implTy: Option<Ty>) returns (r: Outcome<Wrapper>)
    ensures sig.isAsync ==> r == Err(Async)
    ensures !sig.isAsync && sig.isUnsafe ==> r == Err(Unsafe)
    ensures !sig.isAsync && !sig.isUnsafe && |sig.inputs| == 0 ==> r == Err(Empty)
    ensures Admitted(sig) && !CalleeOf(sig, implTy).Ok? ==> r == Fail(CalleeOf(sig, implTy))
    ensures Admitted(sig) && CalleeOf(sig, implTy).Ok? ==>
      var args, branch := Forwarded(sig.inputs, implTy), BranchOf(sig.inputs, implTy);
      (r.Ok? <==> forall j | 0 <= j < |args| :: CallArgOf(args[j], branch).Ok?)
      && (!r.Ok? ==> exists k :: CallFailsAt(args, branch, k) && r == Fail(CallArgOf(args[k], branch)))
    ensures r.Ok? ==>
      (Admitted(sig) && CalleeOf(sig, implTy).Ok?
       && r.value.ident == WrapperName(sig.ident)
       && r.value.inputType == StructName(sig.ident)
       && r.value.callee == CalleeOf(sig, implTy).value)
    ensures r.Ok? ==>
      var args, branch := Forwarded(sig.inputs, implTy), BranchOf(sig.inputs, implTy);
      |r.value.args| == |args|
      && forall j | 0 <= j < |args| :: r.value.args[j] == CallArgOf(args[j], branch).value
  {
    if sig.isAsync {
      return Err(Async);
    }
    if sig.isUnsafe {
      return Err(Unsafe);
    }
    if |sig.inputs| == 0 {
      return Err(Empty);
    }
    var branch: Branch;
    var callee: Callee;
    var start: nat;
    match implTy {
      case None =>
        branch, callee, start := FreeFunction, Function(sig.ident), 0;
      case Some(t) =>
        if sig.inputs[0].Receiver? {
          branch, callee, start := ReceiverFirst, SelfMethod(sig.ident), 1;
        } else {
          if !t.Path? {
            return Err(ComplexMethodCall);
          }
          if |t.segments| == 0 {
            return Panic(UnwrapNone);
          }
          branch, callee, start := TypedFirst, Associated(t.segments[0].ident, sig.ident), 0;
        }
    }
    ghost var forwarded := Forwarded(sig.inputs, implTy);
    assert forwarded == sig.inputs[start..];
    var args: seq<CallArg> := [];
    var i := start;
    while i < |sig.inputs|
      invariant start <= i <= |sig.inputs| && |args| == i - start
      invariant forall j | 0 <= j < i - start ::
        (CallArgOf(forwarded[j], branch).Ok? && args[j] == CallArgOf(forwarded[j], branch).value)
    {
      var arg := CallArgOf(sig.inputs[i], branch);
      if !arg.Ok? {
        assert sig.inputs[i] == forwarded[i - start];
        assert CallFailsAt(forwarded, branch, i - start);
        return Fail(arg);
      }
      args := args + [arg.value];
      i := i + 1;
    }
    return Ok(Wrapper(WrapperName(sig.ident), StructName(sig.ident), callee, args));
  }

  // --------------------------------------------- how the struct and the call agree

  /** A typed parameter that has a field has a call argument in every branch: the
      argument reads that field, through a borrow exactly when the field is boxed,
      and the borrow has the parameter's own mutability. */
  lemma FieldFeedsArgument(arg: FnArg, implTy: Option<Ty>, branch: Branch)
    requires arg.Typed? && StructField(arg, implTy).Ok?
    ensures CallArgOf(arg, branch).Ok?
    ensures CallArgOf(arg, branch).value.field == StructField(arg, implTy).value.name
    ensures CallArgOf(arg, branch).value.ByRef? <==> StructField(arg, implTy).value.ty.Boxed?
    ensures CallArgOf(arg, branch).value.ByRef? ==> CallArgOf(arg, branch).value.isMut == arg.ty.isMut
  {
  }

  /** An associated function is called through the identifier of the impl type's
      first segment alone: `fn new(a: u8)` on `impl Foo<u8>` is called as `Foo::new`,
      whatever the generic arguments and later segments are. */
  lemma CalleeIgnoresGenerics(sig: Signature, segs: seq<Segment>, other: seq<Segment>)
    requires |sig.inputs| > 0 && sig.inputs[0].Typed?
    requires |segs| > 0 && |other| > 0 && segs[0].ident == other[0].ident
    ensures CalleeOf(sig, Some(Path(segs))) == Ok(Associated(segs[0].ident, sig.ident))
    ensures CalleeOf(sig, Some(Path(segs))) == CalleeOf(sig, Some(Path(other)))
  {
  }

  /** The two generators disagree on exactly one kind of parameter: a plain binding
      whose type borrows something that is not a path (`sl: &[u32]`). The wrapper
      forwards it as `&*input.sl`, but the struct has no field for it. */
  lemma SliceBorrowMismatch(arg: FnArg, implTy: Option<Ty>, branch: Branch)
    ensures (CallArgOf(arg, branch).Ok? && !StructField(arg, implTy).Ok?)
      <==> (arg.Typed? && arg.pat.Ident? && arg.ty.Reference? && !arg.ty.elem.Path?)
  {
  }

  /** A destructuring pattern is reported as `ComplexVariable` by the struct and by a
      free function's wrapper, but as `ComplexSelfType` by both method wrappers. */
  lemma DestructuringErrors(arg: FnArg, implTy: Option<Ty>, branch: Branch)
    requires arg.Typed? && arg.pat.Complex?
    ensures StructField(arg, implTy) == Err(ComplexVariable)
    ensures CallArgOf(arg, branch) == if branch == FreeFunction then Err(ComplexVariable) else Err(ComplexSelfType)
  {
  }

  /** A receiver becomes the field `slf`, boxed exactly when the receiver borrows,
      provided the impl type is a path; without an impl type the struct generator panics. */
  lemma ReceiverField(isRef: bool, implTy: Option<Ty>)
    ensures implTy.None? <==> StructField(Receiver(isRef), implTy).Panic?
    ensures StructField(Receiver(isRef), implTy).Ok? <==> implTy.Some? && implTy.value.Path?
    ensures StructField(Receiver(isRef), implTy).Ok? ==>
      var f := StructField(Receiver(isRef), implTy).value;
      f.name == SelfField && f.ty.Boxed? == isRef
      && (if isRef then f.ty.inner else f.ty.ty) == implTy.value
  {
  }

  /** Generating both pieces for one signature, as a macro expansion does: when both
      succeed for a free function or a receiver-first method, the call's arguments
      are the struct's fields after the receiver's, read in the same order. */
  method StructAndWrapper(sig: Signature, implTy: Option<Ty>)
    returns (s: Outcome<ArgStruct>, w: Outcome<Wrapper>)
    ensures s.Ok? && w.Ok? ==> w.value.inputType == s.value.ident
    ensures s.Ok? && w.Ok? && |sig.inputs| > 0 && BranchOf(sig.inputs, implTy) != TypedFirst ==>
      var skip := if BranchOf(sig.inputs, implTy) == ReceiverFirst then 1 else 0;
      |s.value.fields| == |w.value.args| + skip
      && forall j | 0 <= j < |w.value.args| ::
        w.value.args[j].field == s.value.fields[j + skip].name
        && (w.value.args[j].ByRef? <==> s.value.fields[j + skip].ty.Boxed?)
  {
    s := FuzzStruct(sig, implTy);
    w := FuzzFunction(sig, implTy);
    if s.Ok? && w.Ok? && BranchOf(sig.inputs, implTy) != TypedFirst {
      var skip := if BranchOf(sig.inputs, implTy) == ReceiverFirst then 1 else 0;
      var args := Forwarded(sig.inputs, implTy);
      assert args == sig.inputs[skip..];
      forall j | 0 <= j < |w.value.args|
        ensures w.value.args[j].field == s.value.fields[j + skip].name
        ensures w.value.args[j].ByRef? <==> s.value.fields[j + skip].ty.Boxed?
      {
        assert args[j] == sig.inputs[j + skip];
        if args[j].Typed? {
          FieldFeedsArgument(args[j], implTy, BranchOf(sig.inputs, implTy));
        }
      }
    }
  }

  // ---------------------------------------------------------------- fuzz_harness

  /** The fuzz target: the crate it links, and the paths of the argument struct and
      of the wrapper it calls. */
  datatype Harness = Harness(crateIdent: string, inputType: seq<string>, wrapper: seq<string>)

  /** The target's paths are qualified by the crate, then by the module path `attr`
      when one is given. */
  function FuzzHarness(sig: Signature, crateIdent: string, attr: seq<string>): (h: Harness)
    ensures h.crateIdent == crateIdent
    ensures |h.inputType| == |h.wrapper| == |attr| + 2
    ensures h.inputType[0] == h.wrapper[0] == crateIdent
    ensures h.inputType[1..|attr| + 1] == h.wrapper[1..|attr| + 1] == attr
    ensures h.inputType[|attr| + 1] == StructName(sig.ident)
    ensures h.wrapper[|attr| + 1] == WrapperName(sig.ident)
  {
    var path := if |attr| > 0 then [crateIdent] + attr else [crateIdent];
    Harness(crateIdent, path + [StructName(sig.ident)], path + [WrapperName(sig.ident)])
  }

  const TargetPreamble := "#![no_main] use libfuzzer_sys::fuzz_target; extern crate "

  /** The target's text, up to the token printer's spacing. */
  function HarnessText(h: Harness): string
  {
    TargetPreamble + h.crateIdent
    + "; fuzz_target!(|input: " + JoinPath(h.inputType) + "| { "
    + JoinPath(h.wrapper) + "(input); });"
  }

  /** The target's text declares the crate, takes the argument struct through the
      crate and module path as the closure's input, and passes that input to the
      wrapper under the same path. */
  lemma HarnessTextLayout(sig: Signature, crateIdent: string, attr: seq<string>)
    ensures var path := JoinPath([crateIdent] + attr);
      HarnessText(FuzzHarness(sig, crateIdent, attr))
      == TargetPreamble + crateIdent
         + "; fuzz_target!(|input: " + path + "::" + StructName(sig.ident) + "| { "
         + path + "::" + WrapperName(sig.ident) + "(input); });"
  {
    var h := FuzzHarness(sig, crateIdent, attr);
    var path := if |attr| > 0 then [crateIdent] + attr else [crateIdent];
    assert path == [crateIdent] + attr;
    assert h.inputType == path + [StructName(sig.ident)];
    assert h.wrapper == path + [WrapperName(sig.ident)];
    JoinPathSnoc(path, StructName(sig.ident));
    JoinPathSnoc(path, WrapperName(sig.ident));
    SpliceTwo(TargetPreamble + crateIdent + "; fuzz_target!(|input: ", JoinPath(path), "::",
      StructName(sig.ident), "| { ", WrapperName(sig.ident), "(input); });");
  }

  lemma SpliceTwo(a: string, p: string, sep: string, s: string, b: string, w: string, e: string)
    ensures a + (p + sep + s) + b + (p + sep + w) + e == a + p + sep + s + b + p + sep + w + e
  {
  }

  lemma PrefixCancel(p: string, a: string, b: string)
    requires p + a == p + b
    ensures a == b
  {
    assert a == (p + a)[|p|..];
    assert b == (p + b)[|p|..];
  }

  /** A sanity check on the generated paths: different callables, or the same
      callable in different modules, get different struct and wrapper paths. */
  lemma {:induction false} HarnessInjective(sig1: Signature, sig2: Signature, crateIdent: string,
                                            attr1: seq<string>, attr2: seq<string>)
    requires FuzzHarness(sig1, crateIdent, attr1) == FuzzHarness(sig2, crateIdent, attr2)
    ensures attr1 == attr2 && sig1.ident == sig2.ident
  {
    var h := FuzzHarness(sig1, crateIdent, attr1);
    assert |attr1| == |attr2|;
    PrefixCancel("__fuzz_struct_", sig1.ident, sig2.ident);
  }
}
