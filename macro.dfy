/** The older attribute macro's expansion of a free function: in a single pass
    over the parameters it builds both the argument struct's fields and the
    wrapper's call arguments, aborting on the first parameter it cannot handle.
    It reuses the struct, field and call shapes of the generator. */
module Macro {
  import opened Syntax
  import opened Generate

  const AsyncMessage := "Can not fuzz async functions."
  const UnsafeMessage := "unsafe functions can not be fuzzed automatically."
  /** The prefix `unimplemented!` puts before its message. */
  const NotImplemented := "not implemented: "
  const SlicedMessage := NotImplemented + "Sliced arguments."
  const TypeMessage := NotImplemented + "Type of the function must be " + "either standalone, or borrowed standalone"
  const PatternMessage := NotImplemented + "Only simple arguments are " + "currently supported."
  const ReceiverMessage := NotImplemented + "Only standalone functions are " + "currently supported."

  /** What one parameter contributes: a field and a call argument, or an abort. */
  datatype Step = Push(field: Field, arg: CallArg) | Abort(message: string)

  function ParamStep(arg: FnArg): Step
  {
    match arg
    case Typed(Ident(x), Reference(isMut, Path(p))) => Push(Field(x, Boxed(Path(p))), ByRef(isMut, x))
    case Typed(Ident(_), Reference(_, _)) => Abort(SlicedMessage)
    case Typed(Ident(x), Path(p)) => Push(Field(x, Direct(Path(p))), ByValue(x))
    case Typed(Ident(_), Other(_)) => Abort(TypeMessage)
    case Typed(Complex(_), _) => Abort(PatternMessage)
    case Receiver(_) => Abort(ReceiverMessage)
  }

  /** The expansion: the argument struct and the wrapper, or the message it aborts with. */
  datatype Expansion = Expanded(argStruct: ArgStruct, wrapper: Wrapper) | Aborted(message: string)

  /** Parameter `k` is the first one the expansion cannot handle. */
  ghost predicate AbortsAt(inputs: seq<FnArg>, k: int)
  {
    0 <= k < |inputs| && ParamStep(inputs[k]).Abort?
    && forall j | 0 <= j < k :: ParamStep(inputs[j]).Push?
  }

  method TransformStream(sig: Signature) returns (r: Expansion)
    ensures sig.isAsync ==> r == Aborted(AsyncMessage)
    ensures !sig.isAsync && sig.isUnsafe ==> r == Aborted(UnsafeMessage)
    ensures !sig.isAsync && !sig.isUnsafe ==>
      (r.Expanded? <==> forall j | 0 <= j < |sig.inputs| :: ParamStep(sig.inputs[j]).Push?)
    ensures !sig.isAsync && !sig.isUnsafe && !r.Expanded? ==>
      exists k :: AbortsAt(sig.inputs, k) && r == Aborted(ParamStep(sig.inputs[k]).message)
    ensures r.Expanded? ==>
      var s, w := r.argStruct, r.wrapper;
      s.ident == StructName(sig.ident)
      && w.ident == WrapperName(sig.ident) && w.inputType == s.ident && w.callee == Function(sig.ident)
      && |s.fields| == |w.args| == |sig.inputs|
      && forall j | 0 <= j < |sig.inputs| ::
        s.fields[j] == ParamStep(sig.inputs[j]).field && w.args[j] == ParamStep(sig.inputs[j]).arg
  {
    if sig.isAsync {
      return Aborted(AsyncMessage);
    }
    if sig.isUnsafe {
      return Aborted(UnsafeMessage);
    }
    var fields: seq<Field> := [];
    var args: seq<CallArg> := [];
    var i := 0;
    while i < |sig.inputs|
      invariant 0 <= i <= |sig.inputs| && |fields| == |args| == i
      invariant forall j | 0 <= j < i ::
        (ParamStep(sig.inputs[j]).Push?
         && fields[j] == ParamStep(sig.inputs[j]).field && args[j] == ParamStep(sig.inputs[j]).arg)
    {
      match ParamStep(sig.inputs[i]) {
        case Abort(message) =>
          assert AbortsAt(sig.inputs, i);
          return Aborted(message);
        case Push(field, arg) =>
          args := args + [arg];
          fields := fields + [field];
      }
      i := i + 1;
    }
    var structIdent := StructName(sig.ident);
    r := Expanded(ArgStruct(structIdent, fields), Wrapper(WrapperName(sig.ident), structIdent, Function(sig.ident), args));
  }

  /** The field and the argument a parameter contributes agree: the argument reads
      that field, through a borrow exactly when the field is boxed, and the borrow
      copies the parameter's mutability. */
  lemma PushLockstep(arg: FnArg)
    requires ParamStep(arg).Push?
    ensures arg.Typed? && arg.pat.Ident?
    ensures ParamStep(arg).arg.field == ParamStep(arg).field.name == arg.pat.name
    ensures ParamStep(arg).arg.ByRef? <==> ParamStep(arg).field.ty.Boxed?
    ensures ParamStep(arg).arg.ByRef? ==> ParamStep(arg).arg.isMut == arg.ty.isMut
  {
  }

  /** A parameter the expansion handles gets the same field from the struct generator
      and the same argument from a free function's wrapper; every parameter the
      generator turns into a field and an argument of a free function, the expansion
      handles too. */
  lemma StepAgreesWithGenerator(arg: FnArg)
    ensures ParamStep(arg).Push? <==> StructField(arg, None).Ok? && CallArgOf(arg, FreeFunction).Ok?
    ensures ParamStep(arg).Push? ==>
      StructField(arg, None) == Ok(ParamStep(arg).field) && CallArgOf(arg, FreeFunction) == Ok(ParamStep(arg).arg)
  {
  }
}
