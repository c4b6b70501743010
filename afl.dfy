/** The older AFL/QuickCheck harness renderer: a fixed program prelude that reads
    the fuzzer's input from standard input, assignments of the receiver and of
    every typed parameter drawn from that input, and the call. */
module Afl {
  import opened Syntax
  import opened Text
  import CargoFuzz

  // ------------------------------------------------------------ the prelude

  const UseRandLine := "use rand;"
  const ArbitraryBraceLine := "use quickcheck::{Arbitrary};"
  const AsanComment := "// suppress ASAN false positives"
  const AsanConstLine :=
    "const ASAN_DEFAULT_OPTIONS: " + "&'static [u8] = b\"" + "allocator_may_return_null=1," + "detect_odr_violation=1\0\";"
  const NoMangleLine := "#[no_mangle]"
  const AsanFnLine := "pub extern \"C\" fn " + "__asan_default_options() " + "-> *const u8 {"
  const AsanBodyLine := "    ASAN_DEFAULT_OPTIONS as " + "*const [u8] as *const u8"
  const MainLine := "fn main() -> std::result::" + "Result<(), std::io::Error> {"
  const StdinComment := "    // read fuzzer input " + "from stdin"
  const RawInputLine := "    let mut raw_input = vec![];"
  const ReadToEndLine := "    std::io::stdin()." + "read_to_end(&mut raw_input)?;"

  /** The text the harness starts with, up to and including the comment that
      announces the creation of the input data. */
  const Prelude :=
    Join(["", CargoFuzz.RandLine, CargoFuzz.QuickcheckLine, "", UseRandLine, CargoFuzz.PreludeLine,
          ArbitraryBraceLine, "", AsanComment, AsanConstLine, NoMangleLine, AsanFnLine, AsanBodyLine, "}", "",
          MainLine, StdinComment, RawInputLine, ReadToEndLine, "", CargoFuzz.PrepComment, CargoFuzz.CursorLine,
          CargoFuzz.ReadRngLine, CargoFuzz.StdGenLine, "", ""], NL)
    + CargoFuzz.CommentLine

  /** What follows the argument list: the end of the call and of `main`. */
  const Closing := ");" + NL + "    Ok(())" + NL + "}" + NL

  // ----------------------------------------------------------- the harness

  function SelfAssignLine(t: Ty): string
  {
    "    fuzz_self = " + TyText(t) + CargoFuzz.ArbitraryCall + NL
  }

  function SelfAssign(selfTy: Option<Ty>): string
  {
    if selfTy.Some? then SelfAssignLine(selfTy.value) else ""
  }

  /** The assignment of variable number `n` from the fuzzer's input. */
  function AssignLine(n: nat, ty: Ty): string
  {
    "    " + CargoFuzz.ArgName(n) + " = " + TyText(ty) + CargoFuzz.ArbitraryCall + NL
  }

  /** The assignment of parameter `n`: none for a receiver. */
  function ArgAssign(inputs: seq<FnArg>, n: nat): string
    requires n < |inputs|
  {
    match inputs[n]
    case Typed(_, ty) => AssignLine(n, ty)
    case Receiver(_) => ""
  }

  function Assigns(inputs: seq<FnArg>, nums: seq<nat>): string
    requires forall k | 0 <= k < |nums| :: nums[k] < |inputs|
  {
    if nums == [] then "" else Assigns(inputs, nums[..|nums| - 1]) + ArgAssign(inputs, nums[|nums| - 1])
  }

  /** What follows the prelude up to the argument list: the assignments, the call
      head and the callee's name with its opening parenthesis. */
  function CallHead(selfTy: Option<Ty>, ident: string, inputs: seq<FnArg>): string
  {
    SelfAssign(selfTy) + Assigns(inputs, TypedIndices(inputs)) + CargoFuzz.InvokeHead
    + (if selfTy.Some? then "fuzz_self." else "") + (ident + "(")
  }

  /** The harness with the call's arguments separated by commas, as the cargo-fuzz
      renderer writes them and as evidently intended here. */
  function Harness(selfTy: Option<Ty>, ident: string, inputs: seq<FnArg>): string
  {
    Prelude + (CallHead(selfTy, ident, inputs) + CargoFuzz.ArgList(TypedIndices(inputs)) + Closing)
  }

  /** The harness as the source's argument loop writes it: the names run together. */
  function HarnessAsWritten(selfTy: Option<Ty>, ident: string, inputs: seq<FnArg>): string
  {
    Prelude + (CallHead(selfTy, ident, inputs) + RunTogether(TypedIndices(inputs)) + Closing)
  }

  /** Renders the harness of one callable with the comma-separated argument list. */
  method GenerateFuzzingHarness(selfTy: Option<Ty>, ident: string, inputs: seq<FnArg>) returns (result: string)
    ensures result == Harness(selfTy, ident, inputs)
    ensures Prelude <= result
  {
    var head, argNumbers := WriteCallHead(selfTy, ident, inputs);
    var args := CargoFuzz.WriteArgList(argNumbers);
    result := Prelude + (head + args + Closing);
  }

  /** Renders the harness of one callable as the source does, with its argument loop. */
  method GenerateFuzzingHarnessAsWritten(selfTy: Option<Ty>, ident: string, inputs: seq<FnArg>)
    returns (result: string)
    ensures result == HarnessAsWritten(selfTy, ident, inputs)
    ensures Prelude <= result
  {
    var head, argNumbers := WriteCallHead(selfTy, ident, inputs);
    var args := WriteArgsAsWritten(argNumbers);
    result := Prelude + (head + args + Closing);
  }

  /** Writes what follows the prelude up to the argument list, step by step, and
      returns the numbers of the variables to pass. */
  method WriteCallHead(selfTy: Option<Ty>, ident: string, inputs: seq<FnArg>)
    returns (result: string, argNumbers: seq<nat>)
    ensures argNumbers == TypedIndices(inputs)
    ensures result == CallHead(selfTy, ident, inputs)
  {
    var selfLine := "";
    if selfTy.Some? {
      selfLine := SelfAssignLine(selfTy.value);
    }
    var assigns;
    assigns, argNumbers := WriteAssigns(inputs);
    var receiver := "";
    if selfTy.Some? {
      receiver := "fuzz_self.";
    }
    result := selfLine + assigns + CargoFuzz.InvokeHead + receiver + (ident + "(");
  }

  /** The assignment lines of the typed parameters, and their numbers in order. */
  method WriteAssigns(inputs: seq<FnArg>) returns (text: string, argNumbers: seq<nat>)
    ensures argNumbers == TypedIndices(inputs)
    ensures forall k | 0 <= k < |argNumbers| :: argNumbers[k] < |inputs|
    ensures text == Assigns(inputs, argNumbers)
  {
    text, argNumbers := "", [];
    var num := 0;
    while num < |inputs|
      invariant num <= |inputs|
      invariant argNumbers == TypedIndices(inputs[..num])
      invariant text == Assigns(inputs, argNumbers)
    {
      CargoFuzz.TypedIndicesStep(inputs, num);
      match inputs[num] {
        case Typed(_, ty) =>
          text := text + AssignLine(num, ty);
          assert (argNumbers + [num])[..|argNumbers|] == argNumbers;
          argNumbers := argNumbers + [num];
        case Receiver(_) =>
      }
      num := num + 1;
    }
    assert inputs[..num] == inputs;
  }

  // ------------------------------------------------ the argument list as written

  /** The variable names one after another, with nothing between them. */
  function RunTogether(nums: seq<nat>): string
  {
    Join(CargoFuzz.ArgNames(nums), "")
  }

  /** The argument loop as the source writes it: the flag that should suppress the
      comma before the first argument is never cleared, and the comma it guards comes
      after the name, so no comma is ever written. */
  method WriteArgsAsWritten(argNumbers: seq<nat>) returns (text: string)
    ensures text == RunTogether(argNumbers)
  {
    text := "";
    var isFirstArgument := true;
    var k := 0;
    while k < |argNumbers|
      invariant k <= |argNumbers|
      invariant isFirstArgument
      invariant text == RunTogether(argNumbers[..k])
    {
      var name := CargoFuzz.ArgName(argNumbers[k]);
      assert argNumbers[..k + 1][..k] == argNumbers[..k];
      if k > 0 {
        JoinSnoc(CargoFuzz.ArgNames(argNumbers[..k]), name, "");
      }
      text := text + name;
      if !isFirstArgument {
        text := text + ",";
      }
      k := k + 1;
    }
    assert argNumbers[..k] == argNumbers;
  }

  /** With one argument or none the two lists agree. */
  lemma SingleArgumentAgrees(nums: seq<nat>)
    requires |nums| <= 1
    ensures RunTogether(nums) == CargoFuzz.ArgList(nums)
  {
  }

  /** The run-together list never holds a comma, so splitting it at commas always
      gives one piece, whatever the number of arguments. */
  lemma RunTogetherOnePiece(nums: seq<nat>)
    ensures Avoids(RunTogether(nums), ',')
    ensures SplitOn(RunTogether(nums), ",") == [RunTogether(nums)]
  {
    var names := CargoFuzz.ArgNames(nums);
    CargoFuzz.ArgNamesIndices(nums);
    forall k | 0 <= k < |names|
      ensures Avoids(names[k], ',')
    {
      CargoFuzz.ArgNameIndex(nums[k]);
    }
    CargoFuzz.AvoidsJoin(names, "", ',');
    AvoidsSplit(RunTogether(nums), ',');
  }

  /** The as-written list equals the comma-separated one exactly when at most one
      parameter is typed. */
  lemma ListsAgree(inputs: seq<FnArg>)
    ensures RunTogether(TypedIndices(inputs)) == CargoFuzz.ArgList(TypedIndices(inputs))
      <==> CountTyped(inputs) <= 1
  {
    var nums := TypedIndices(inputs);
    CargoFuzz.ArgListDecodes(inputs);
    RunTogetherOnePiece(nums);
    if |nums| <= 1 {
      SingleArgumentAgrees(nums);
    }
  }

  /** The harness the program prints is the intended one exactly when the callable
      has at most one typed parameter; with two or more the call is malformed. */
  lemma HarnessAsWrittenAgrees(selfTy: Option<Ty>, ident: string, inputs: seq<FnArg>)
    ensures HarnessAsWritten(selfTy, ident, inputs) == Harness(selfTy, ident, inputs)
      <==> CountTyped(inputs) <= 1
  {
    var nums := TypedIndices(inputs);
    ListsAgree(inputs);
    if HarnessAsWritten(selfTy, ident, inputs) == Harness(selfTy, ident, inputs) {
      MiddleCancel(Prelude, CallHead(selfTy, ident, inputs), RunTogether(nums), CargoFuzz.ArgList(nums), Closing);
    }
  }

  lemma MiddleCancel(p: string, h: string, a: string, b: string, q: string)
    requires p + (h + a + q) == p + (h + b + q)
    ensures a == b
  {
    var s, t := p + (h + a + q), p + (h + b + q);
    assert |a| == |b|;
    assert s[|p| + |h|..|p| + |h| + |a|] == a;
    assert t[|p| + |h|..|p| + |h| + |b|] == b;
  }

  /** Example: two typed parameters are passed as the single token
      `fuzz_arg_0fuzz_arg_1`, one comma-separated piece where the callee expects two. */
  lemma ArgumentsRunTogether(a: Ty, b: Ty)
    ensures var inputs := [Typed(Ident("a"), a), Typed(Ident("b"), b)];
      TypedIndices(inputs) == [0, 1]
      && RunTogether(TypedIndices(inputs)) == "fuzz_arg_0fuzz_arg_1"
      && |SplitOn(RunTogether(TypedIndices(inputs)), ",")| == 1
      && |SplitOn(CargoFuzz.ArgList(TypedIndices(inputs)), ",")| == 2
  {
    var inputs := [Typed(Ident("a"), a), Typed(Ident("b"), b)];
    assert TypedIndices(inputs) == [0, 1] by {
      assert inputs[..1][..0] == [];
      assert inputs[..1] == [inputs[0]];
      assert TypedIndices(inputs[..1]) == [0];
    }
    assert RunTogether([0, 1]) == "fuzz_arg_0fuzz_arg_1" by {
      assert [0, 1][..1] == [0];
      assert CargoFuzz.ArgNames([0, 1]) == [CargoFuzz.ArgName(0), CargoFuzz.ArgName(1)];
      assert CargoFuzz.ArgName(0) == "fuzz_arg_0";
      assert CargoFuzz.ArgName(1) == "fuzz_arg_1";
    }
    RunTogetherOnePiece([0, 1]);
    CargoFuzz.ArgListDecodes(inputs);
    TypedIndicesExact(inputs);
  }

  // ----------------------------------------------------------- the callback

  /** What the visitor's callback prints for one callable: nothing for unsafe and
      async callables, for any other the harness as the source renders it followed
      by the newline of the print. */
  method HarnessFor(selfTy: Option<Ty>, sig: Signature) returns (printed: Option<string>)
    ensures printed.Some? <==> !sig.isUnsafe && !sig.isAsync
    ensures printed.Some? ==> printed.value == HarnessAsWritten(selfTy, sig.ident, sig.inputs) + NL
  {
    if !sig.isUnsafe && !sig.isAsync {
      var text := GenerateFuzzingHarnessAsWritten(selfTy, sig.ident, sig.inputs);
      printed := Some(text + NL);
    } else {
      printed := None;
    }
  }
}
