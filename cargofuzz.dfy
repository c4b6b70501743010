/** The cargo-fuzz harness renderer: a callable's typed parameters become
    `fuzz_arg_<n>` variables drawn from the fuzzer's input, and the harness
    template is filled around their creation and the call. */
module CargoFuzz {
  import opened Syntax
  import opened Text

  /** What rendering produces: the harness text, or the message of a panic. */
  datatype Render = Output(text: string) | Panic(message: string)

  const CrateMarker := "{crate_name}"
  const BodyMarker := "{0}"
  const MissingBodyMarker := "need '{0}' in template"
  const MissingCrateMarker := "need '{crate_name}' in template"

  // ------------------------------------------------------------ the template

  const HeaderComment := "// Autogenerated fuzzing harness."
  const NoMainLine := "#![no_main]"
  const MacroUseLine := "#[macro_use] extern crate " + "libfuzzer_sys;"
  const RandLine := "extern crate rand;"
  const QuickcheckLine := "extern crate quickcheck;"
  const ExternKey := "extern crate "
  const PreludeLine := "use std::io::prelude::*;"
  const ArbitraryUseLine := "use quickcheck::Arbitrary;"
  const TargetOpen := "fuzz_target!(" + "|raw_input: &[u8]| {"
  const PrepComment :=
    "    // input preparation " + "for QuickCheck, " + "not specific to the " + "fuzzed function"
  const CursorLine := "    let input_cursor = " + "std::io::Cursor::" + "new(raw_input);"
  const ReadRngLine := "    let read_rng = " + "rand::rngs::adapter::" + "ReadRng::new(input_cursor);"
  const StdGenLine :=
    "    let mut read_rng = " + "quickcheck::StdGen::new(" + "read_rng, std::usize::MAX);"
  const CloseLine := "});"

  /** The template up to the crate name marker. */
  const TemplateHead := Join([HeaderComment, NoMainLine, MacroUseLine, RandLine, QuickcheckLine, ExternKey], NL)
  /** The template between the crate name marker and the body marker. */
  const TemplateMiddle :=
    Join([";", "", PreludeLine, ArbitraryUseLine, "", TargetOpen, PrepComment, CursorLine, ReadRngLine, StdGenLine, "", ""], NL)
  /** The template after the body marker. */
  const TemplateTail := NL + CloseLine + NL

  const FuzzingHarnessTemplate := TemplateHead + CrateMarker + TemplateMiddle + BodyMarker + TemplateTail

  // --------------------------------------------------------------- the body

  const CommentLine := "    // create input data for " + "specific function from random bytes" + NL
  const ArbitraryCall := "::arbitrary(&mut read_rng);"
  const InvokeHead := NL + "    // invoke function" + NL + "    "

  function ArgName(n: nat): string
  {
    "fuzz_arg_" + NatToString(n)
  }

  /** The line creating variable number `n` from the fuzzer's input. */
  function DeclLine(n: nat, ty: Ty, pat: Pat): string
  {
    "    let " + ArgName(n) + " = " + TyText(ty) + ArbitraryCall + " // " + PatText(pat) + NL
  }

  /** The creation line of parameter `n`: none for a receiver. */
  function ArgDecl(inputs: seq<FnArg>, n: nat): string
    requires n < |inputs|
  {
    match inputs[n]
    case Typed(pat, ty) => DeclLine(n, ty, pat)
    case Receiver(_) => ""
  }

  /** The creation lines for the recorded parameter numbers, in order. */
  function Decls(inputs: seq<FnArg>, nums: seq<nat>): string
    requires forall k | 0 <= k < |nums| :: nums[k] < |inputs|
  {
    if nums == [] then "" else Decls(inputs, nums[..|nums| - 1]) + ArgDecl(inputs, nums[|nums| - 1])
  }

  function ArgNames(nums: seq<nat>): (r: seq<string>)
    ensures |r| == |nums|
  {
    if nums == [] then [] else ArgNames(nums[..|nums| - 1]) + [ArgName(nums[|nums| - 1])]
  }

  /** The argument list of the call. */
  function ArgList(nums: seq<nat>): string
  {
    Join(ArgNames(nums), ",")
  }

  function SelfLine(t: Ty): string
  {
    "    let fuzz_self = " + TyText(t) + ArbitraryCall + NL
  }

  function SelfDecl(selfTy: Option<Ty>): string
  {
    if selfTy.Some? then SelfLine(selfTy.value) else ""
  }

  /** What is written in place of the body marker. */
  function Body(selfTy: Option<Ty>, ident: string, inputs: seq<FnArg>): string
  {
    var nums := TypedIndices(inputs);
    CommentLine + SelfDecl(selfTy) + Decls(inputs, nums)
    + InvokeHead + (if selfTy.Some? then "fuzz_self." else "") + (ident + "(") + ArgList(nums) + (");" + NL)
  }

  /** The harness for a template: the template is cut at its first body marker and
      the text before it at its first crate name marker; either marker missing panics. */
  function Invocation(template: string, selfTy: Option<Ty>, ident: string, inputs: seq<FnArg>, crateName: string): Render
  {
    var split := SplitOn(template, BodyMarker);
    if |split| < 2 then Panic(MissingBodyMarker)
    else
      var crateSplit := SplitOn(split[0], CrateMarker);
      if |crateSplit| < 2 then Panic(MissingCrateMarker)
      else Output(crateSplit[0] + Replace(crateName, "-", "_") + crateSplit[1] + Body(selfTy, ident, inputs) + split[1])
  }

  /** Writes the harness for one callable into a fresh buffer. */
  method WriteFnInvocation(template: string, selfTy: Option<Ty>, ident: string, inputs: seq<FnArg>, crateName: string)
    returns (r: Render)
    ensures r == Invocation(template, selfTy, ident, inputs, crateName)
  {
    var split := SplitOn(template, BodyMarker);
    if |split| < 2 {
      return Panic(MissingBodyMarker);
    }
    var prefix, suffix := split[0], split[1];
    var crateNameUnderscored := Replace(crateName, "-", "_");
    var crateSplit := SplitOn(prefix, CrateMarker);
    if |crateSplit| < 2 {
      return Panic(MissingCrateMarker);
    }
    var out := crateSplit[0] + crateNameUnderscored + crateSplit[1];
    out := out + CommentLine;
    ghost var before := out;
    if selfTy.Some? {
      out := out + SelfLine(selfTy.value);
    } else {
      EmptyRight(before);
    }
    assert out == before + SelfDecl(selfTy);
    var decls, argNumbers := WriteArgDecls(inputs);
    out := out + decls;
    out := out + InvokeHead;
    before := out;
    if selfTy.Some? {
      out := out + "fuzz_self.";
    } else {
      EmptyRight(before);
    }
    assert out == before + (if selfTy.Some? then "fuzz_self." else "");
    out := out + (ident + "(");
    var args := WriteArgList(argNumbers);
    out := out + args;
    out := out + (");" + NL);
    BodyRegroup(crateSplit[0] + crateNameUnderscored + crateSplit[1], CommentLine, SelfDecl(selfTy), decls,
      InvokeHead, if selfTy.Some? then "fuzz_self." else "", ident + "(", args, ");" + NL);
    out := out + suffix;
    return Output(out);
  }

  /** Appends in sequence are one append of their concatenation. */
  lemma BodyRegroup(h: string, c: string, s: string, d: string, i: string, f: string, n: string, a: string, e: string)
    ensures h + c + s + d + i + f + n + a + e == h + (c + s + d + i + f + n + a + e)
  {
  }

  /** The creation lines of the typed parameters, and their numbers in order. */
  method WriteArgDecls(inputs: seq<FnArg>) returns (text: string, argNumbers: seq<nat>)
    ensures argNumbers == TypedIndices(inputs)
    ensures forall k | 0 <= k < |argNumbers| :: argNumbers[k] < |inputs|
    ensures text == Decls(inputs, argNumbers)
  {
    text, argNumbers := "", [];
    var num := 0;
    while num < |inputs|
      invariant num <= |inputs|
      invariant argNumbers == TypedIndices(inputs[..num])
      invariant text == Decls(inputs, argNumbers)
    {
      TypedIndicesStep(inputs, num);
      match inputs[num] {
        case Typed(pat, ty) =>
          DeclsSnoc(inputs, argNumbers, num);
          text := text + DeclLine(num, ty, pat);
          argNumbers := argNumbers + [num];
        case Receiver(_) =>
      }
      num := num + 1;
    }
    assert inputs[..num] == inputs;
  }

  lemma DeclsSnoc(inputs: seq<FnArg>, nums: seq<nat>, n: nat)
    requires n < |inputs| && inputs[n].Typed? && forall k | 0 <= k < |nums| :: nums[k] < |inputs|
    ensures Decls(inputs, nums + [n]) == Decls(inputs, nums) + DeclLine(n, inputs[n].ty, inputs[n].pat)
  {
    assert (nums + [n])[..|nums|] == nums;
  }

  /** The call's argument list: the variable names, a comma before all but the first. */
  method WriteArgList(argNumbers: seq<nat>) returns (text: string)
    ensures text == ArgList(argNumbers)
  {
    text := "";
    var isFirstArgument := true;
    var k := 0;
    while k < |argNumbers|
      invariant k <= |argNumbers|
      invariant isFirstArgument <==> k == 0
      invariant text == ArgList(argNumbers[..k])
    {
      var name := ArgName(argNumbers[k]);
      assert argNumbers[..k + 1][..k] == argNumbers[..k];
      if !isFirstArgument {
        JoinSnoc(ArgNames(argNumbers[..k]), name, ",");
        text := text + ",";
      }
      isFirstArgument := false;
      text := text + name;
      k := k + 1;
    }
    assert argNumbers[..k] == argNumbers;
  }

  lemma TypedIndicesStep(inputs: seq<FnArg>, num: nat)
    requires num < |inputs|
    ensures TypedIndices(inputs[..num + 1])
      == TypedIndices(inputs[..num]) + (if inputs[num].Typed? then [num] else [])
  {
    assert inputs[..num + 1][..num] == inputs[..num];
  }

  // ------------------------------------------------------ template markers

  /** Every `{` in `s` is followed, inside `s`, by a character other than `c`. */
  predicate Guarded(s: string, c: char)
  {
    forall i | 0 <= i < |s| :: s[i] == '{' ==> i + 1 < |s| && s[i + 1] != c
  }

  lemma AvoidsGuarded(s: string, c: char)
    requires Avoids(s, '{')
    ensures Guarded(s, c) && GuardedLine(s, c)
  {
  }

  lemma GuardedAppend(a: string, b: string, c: char)
    requires Guarded(a, c) && Guarded(b, c)
    ensures Guarded(a + b, c)
  {
    forall i | 0 <= i < |a + b|
      ensures (a + b)[i] == '{' ==> i + 1 < |a + b| && (a + b)[i + 1] != c
    {
      if i < |a| {
        assert (a + b)[i] == a[i];
        if a[i] == '{' { assert (a + b)[i + 1] == a[i + 1]; }
      } else {
        assert (a + b)[i] == b[i - |a|];
        if b[i - |a|] == '{' { assert (a + b)[i + 1] == b[i - |a| + 1]; }
      }
    }
  }

  lemma AvoidsAppend(a: string, b: string, c: char)
    requires Avoids(a, c) && Avoids(b, c)
    ensures Avoids(a + b, c)
  {
    assert forall i | 0 <= i < |a + b| :: (a + b)[i] == if i < |a| then a[i] else b[i - |a|];
  }

  /** A marker starting with `{` occurs nowhere inside a guarded string. */
  lemma GuardedNoMatch(a: string, sep: string, b: string)
    requires |sep| >= 2 && sep[0] == '{' && Guarded(a, sep[1])
    ensures forall i | 0 <= i <= |a| :: !MatchAt(a, i, sep)
    ensures forall i | 0 <= i < |a| :: !MatchAt(a + sep + b, i, sep)
  {
    forall i | 0 <= i <= |a|
      ensures !MatchAt(a, i, sep)
    {
      if i + |sep| <= |a| {
        assert a[i..i + |sep|][0] == a[i];
        assert a[i..i + |sep|][1] == a[i + 1];
      }
    }
    forall i | 0 <= i < |a|
      ensures !MatchAt(a + sep + b, i, sep)
    {
      var s := a + sep + b;
      if i + |sep| <= |s| {
        assert s[i..i + |sep|][0] == s[i] == a[i];
        assert s[i..i + |sep|][1] == s[i + 1];
        if i + 1 < |a| {
          assert s[i + 1] == a[i + 1];
        } else {
          assert s[i + 1] == sep[0];
        }
      }
    }
  }

  /** Splitting `a + sep + b` at the first `sep` when `a` is guarded. */
  lemma SplitAtMarker(a: string, sep: string, b: string)
    requires |sep| >= 2 && sep[0] == '{' && Guarded(a, sep[1])
    ensures SplitOn(a + sep + b, sep) == [a] + SplitOn(b, sep)
  {
    GuardedNoMatch(a, sep, b);
    SplitCons(a, sep, b);
  }

  lemma SplitGuarded(a: string, sep: string)
    requires |sep| >= 2 && sep[0] == '{' && Guarded(a, sep[1])
    ensures SplitOn(a, sep) == [a]
  {
    GuardedNoMatch(a, sep, "");
    SplitWhole(a, sep);
  }

  /** Like `Guarded`, except that the last character may be a `{`. */
  predicate GuardedLine(s: string, c: char)
  {
    forall i | 0 <= i < |s| :: s[i] == '{' && i + 1 < |s| ==> s[i + 1] != c
  }

  /** Lines joined by line breaks are guarded when each line is and the last line
      does not end with `{`. */
  lemma {:induction false} GuardedJoin(xs: seq<string>, c: char)
    requires |xs| >= 1 && c != '\n'
    requires forall k | 0 <= k < |xs| :: GuardedLine(xs[k], c)
    requires Guarded(xs[|xs| - 1], c)
    ensures Guarded(Join(xs, NL), c)
  {
    if |xs| > 1 {
      var x := xs[0];
      assert GuardedLine(x, c);
      assert Guarded(x + NL, c) by {
        forall i | 0 <= i < |x + NL|
          ensures (x + NL)[i] == '{' ==> i + 1 < |x + NL| && (x + NL)[i + 1] != c
        {
          if i < |x| {
            assert (x + NL)[i] == x[i];
            if i + 1 < |x| { assert (x + NL)[i + 1] == x[i + 1]; }
            else { assert (x + NL)[i + 1] == '\n'; }
          }
        }
      }
      GuardedJoin(xs[1..], c);
      GuardedAppend(x + NL, Join(xs[1..], NL), c);
    }
  }

  lemma LinesAvoidBrace()
    ensures Avoids(HeaderComment, '{') && Avoids(NoMainLine, '{') && Avoids(MacroUseLine, '{')
    ensures Avoids(RandLine, '{') && Avoids(QuickcheckLine, '{') && Avoids(ExternKey, '{')
    ensures Avoids(PreludeLine, '{') && Avoids(ArbitraryUseLine, '{')
  {
    HeadLinesAvoidBrace();
    ExternLinesAvoidBrace();
  }

  lemma HeadLinesAvoidBrace()
    ensures Avoids(HeaderComment, '{') && Avoids(NoMainLine, '{') && Avoids(MacroUseLine, '{')
  {
    AvoidsAppend("#[macro_use] extern crate ", "libfuzzer_sys;", '{');
  }

  lemma ExternLinesAvoidBrace()
    ensures Avoids(RandLine, '{') && Avoids(QuickcheckLine, '{') && Avoids(ExternKey, '{')
    ensures Avoids(PreludeLine, '{') && Avoids(ArbitraryUseLine, '{')
  {
  }

  lemma InputLinesAvoidBrace()
    ensures Avoids(PrepComment, '{') && Avoids(CursorLine, '{')
    ensures Avoids(ReadRngLine, '{') && Avoids(StdGenLine, '{')
  {
    PrepCommentAvoidsBrace();
    CursorLineAvoidsBrace();
    ReadRngLineAvoidsBrace();
    StdGenLineAvoidsBrace();
  }

  lemma CursorLineAvoidsBrace()
    ensures Avoids(CursorLine, '{')
  {
    AvoidsThree("    let input_cursor = ", "std::io::Cursor::", "new(raw_input);", '{');
  }

  lemma ReadRngLineAvoidsBrace()
    ensures Avoids(ReadRngLine, '{')
  {
    AvoidsThree("    let read_rng = ", "rand::rngs::adapter::", "ReadRng::new(input_cursor);", '{');
  }

  lemma StdGenLineAvoidsBrace()
    ensures Avoids(StdGenLine, '{')
  {
    AvoidsThree("    let mut read_rng = ", "quickcheck::StdGen::new(", "read_rng, std::usize::MAX);", '{');
  }

  lemma PrepCommentAvoidsBrace()
    ensures Avoids(PrepComment, '{')
  {
    AvoidsThree("    // input preparation ", "for QuickCheck, ", "not specific to the ", '{');
    AvoidsAppend("    // input preparation " + "for QuickCheck, " + "not specific to the ", "fuzzed function", '{');
  }

  lemma AvoidsThree(a: string, b: string, d: string, c: char)
    requires Avoids(a, c) && Avoids(b, c) && Avoids(d, c)
    ensures Avoids(a + b + d, c)
  {
    AvoidsAppend(a, b, c);
    AvoidsAppend(a + b, d, c);
  }

  lemma TargetOpenGuarded(c: char)
    ensures GuardedLine(TargetOpen, c)
  {
  }

  lemma HeadAvoidsBrace()
    ensures Avoids(TemplateHead, '{')
  {
    var xs := [HeaderComment, NoMainLine, MacroUseLine, RandLine, QuickcheckLine, ExternKey];
    LinesAvoidBrace();
    AvoidsJoin(xs, NL, '{');
  }

  lemma {:induction false} AvoidsJoin(xs: seq<string>, sep: string, c: char)
    requires Avoids(sep, c) && forall k | 0 <= k < |xs| :: Avoids(xs[k], c)
    ensures Avoids(Join(xs, sep), c)
  {
    if |xs| > 1 {
      AvoidsJoin(xs[1..], sep, c);
      AvoidsAppend(xs[0], sep, c);
      AvoidsAppend(xs[0] + sep, Join(xs[1..], sep), c);
    }
  }

  lemma MiddleGuarded(c: char)
    requires c != '\n'
    ensures Guarded(TemplateMiddle, c)
  {
    var xs := [";", "", PreludeLine, ArbitraryUseLine, "", TargetOpen, PrepComment, CursorLine, ReadRngLine, StdGenLine, "", ""];
    LinesAvoidBrace();
    InputLinesAvoidBrace();
    TargetOpenGuarded(c);
    forall k | 0 <= k < |xs|
      ensures GuardedLine(xs[k], c)
    {
      if k != 5 { AvoidsGuarded(xs[k], c); }
    }
    GuardedJoin(xs, c);
  }

  lemma TailGuarded(c: char)
    ensures Guarded(TemplateTail, c)
  {
  }

  /** The harness template is cut into its three fixed parts by the two markers. */
  lemma TemplateSplits()
    ensures SplitOn(FuzzingHarnessTemplate, BodyMarker)
      == [TemplateHead + CrateMarker + TemplateMiddle, TemplateTail]
    ensures SplitOn(TemplateHead + CrateMarker + TemplateMiddle, CrateMarker)
      == [TemplateHead, TemplateMiddle]
  {
    BodyMarkerSplit();
    CrateMarkerSplit();
  }

  lemma BodyMarkerSplit()
    ensures SplitOn(FuzzingHarnessTemplate, BodyMarker)
      == [TemplateHead + CrateMarker + TemplateMiddle, TemplateTail]
  {
    HeadAvoidsBrace();
    AvoidsGuarded(TemplateHead, '0');
    MiddleGuarded('0');
    var prefix := TemplateHead + CrateMarker + TemplateMiddle;
    assert Guarded(CrateMarker, '0');
    GuardedAppend(TemplateHead, CrateMarker, '0');
    GuardedAppend(TemplateHead + CrateMarker, TemplateMiddle, '0');
    SplitAtMarker(prefix, BodyMarker, TemplateTail);
    TailGuarded('0');
    SplitGuarded(TemplateTail, BodyMarker);
  }

  lemma CrateMarkerSplit()
    ensures SplitOn(TemplateHead + CrateMarker + TemplateMiddle, CrateMarker)
      == [TemplateHead, TemplateMiddle]
  {
    HeadAvoidsBrace();
    AvoidsGuarded(TemplateHead, 'c');
    MiddleGuarded('c');
    SplitAtMarker(TemplateHead, CrateMarker, TemplateMiddle);
    SplitGuarded(TemplateMiddle, CrateMarker);
  }

  /** With the harness template the output is, in order: the template up to the
      crate name, the crate name with `-` replaced by `_`, the template up to the
      body marker, the body, and the rest of the template. */
  lemma TemplateLayout(selfTy: Option<Ty>, ident: string, inputs: seq<FnArg>, crateName: string)
    ensures Invocation(FuzzingHarnessTemplate, selfTy, ident, inputs, crateName)
      == Output(TemplateHead + Replace(crateName, "-", "_") + TemplateMiddle + Body(selfTy, ident, inputs) + TemplateTail)
  {
    TemplateSplits();
  }

  /** A template without any `{` has no body marker. */
  lemma MarkerlessTemplatePanics(template: string, selfTy: Option<Ty>, ident: string, inputs: seq<FnArg>, crateName: string)
    requires Avoids(template, '{')
    ensures Invocation(template, selfTy, ident, inputs, crateName) == Panic(MissingBodyMarker)
  {
    AvoidsGuarded(template, '0');
    SplitGuarded(template, BodyMarker);
  }

  // -------------------------------------------------------- the parameters

  /** The number a variable name carries, if it is `fuzz_arg_<digits>`. */
  function ArgIndex(s: string): Option<nat>
  {
    if |s| >= 9 && s[..9] == "fuzz_arg_" && IsDigits(s[9..]) then Some(DigitsValue(s[9..])) else None
  }

  lemma ArgNameIndex(n: nat)
    ensures ArgIndex(ArgName(n)) == Some(n)
    ensures Avoids(ArgName(n), ',')
  {
    var s := ArgName(n);
    assert s[..9] == "fuzz_arg_";
    assert s[9..] == NatToString(n);
    NatToStringRoundTrip(n);
  }

  lemma {:induction false} ArgNamesIndices(nums: seq<nat>)
    ensures forall k | 0 <= k < |nums| :: ArgNames(nums)[k] == ArgName(nums[k])
  {
    if nums != [] {
      ArgNamesIndices(nums[..|nums| - 1]);
    }
  }

  /** The call passes, separated by single commas, exactly the variables numbered by
      the typed parameters' positions in increasing order: splitting the argument list
      at its commas and reading each number back gives those positions, so no piece
      is empty and there is no leading or trailing comma. */
  lemma ArgListDecodes(inputs: seq<FnArg>)
    ensures |TypedIndices(inputs)| == CountTyped(inputs)
    ensures CountTyped(inputs) == 0 ==> ArgList(TypedIndices(inputs)) == ""
    ensures CountTyped(inputs) > 0 ==>
      var pieces := SplitOn(ArgList(TypedIndices(inputs)), ",");
      |pieces| == |TypedIndices(inputs)|
      && forall k | 0 <= k < |pieces| :: ArgIndex(pieces[k]) == Some(TypedIndices(inputs)[k])
  {
    var nums := TypedIndices(inputs);
    TypedIndicesExact(inputs);
    ArgNamesIndices(nums);
    forall k | 0 <= k < |nums|
      ensures Avoids(ArgNames(nums)[k], ',') && ArgIndex(ArgNames(nums)[k]) == Some(nums[k])
    {
      ArgNameIndex(nums[k]);
    }
    if |nums| > 0 {
      SplitJoin(ArgNames(nums), ",");
    }
  }

  /** Example: a receiver uses up a number, so the typed parameter after `&self`
      is variable 1. */
  lemma ReceiverUsesNumber(pat: Pat, ty: Ty)
    ensures ArgList(TypedIndices([Receiver(true), Typed(pat, ty)])) == "fuzz_arg_1"
  {
    var inputs := [Receiver(true), Typed(pat, ty)];
    assert TypedIndices(inputs) == [1] by {
      assert inputs[..1][..0] == [];
      assert TypedIndices(inputs[..1]) == [];
    }
    assert ArgList([1]) == "fuzz_arg_1" by {
      assert ArgNames([1]) == [ArgName(1)];
      assert NatToString(1) == "1";
    }
  }

  // ----------------------------------------------------------- the callback

  /** What the visitor's callback does for one callable: unsafe and async callables
      are skipped, any other gets the file `<ident>.rs` holding its harness. */
  method HarnessFile(selfTy: Option<Ty>, sig: Signature, crateName: string) returns (file: Option<(string, string)>)
    ensures file.Some? <==> !sig.isUnsafe && !sig.isAsync
    ensures file.Some? ==>
      file.value.0 == sig.ident + ".rs"
      && file.value.1
        == TemplateHead + Replace(crateName, "-", "_") + TemplateMiddle + Body(selfTy, sig.ident, sig.inputs) + TemplateTail
  {
    if !sig.isUnsafe && !sig.isAsync {
      var r := WriteFnInvocation(FuzzingHarnessTemplate, selfTy, sig.ident, sig.inputs, crateName);
      TemplateLayout(selfTy, sig.ident, sig.inputs, crateName);
      file := Some((sig.ident + ".rs", r.text));
    } else {
      file := None;
    }
  }
}
