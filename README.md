# auto-fuzz-test, modelled in Dafny

auto-fuzz-test turns a Rust callable's signature into fuzzing boilerplate. It
produces:

- an argument struct with one field per parameter;
- a wrapper `__fuzz_<ident>` that takes the struct and calls the callable;
- a fuzz target that links the two;
- a `[[bin]]` entry in the generated `fuzz/Cargo.toml`.

Three older renderers print whole harnesses as text: the cargo-fuzz renderer,
the AFL/QuickCheck renderer and the proptest printer. An older attribute macro
builds the struct and the wrapper in one pass.

This project models that logic over small syntax datatypes. A parameter is a
receiver or a typed binding. A pattern is a plain identifier or a destructuring
one. A type is a path, a reference or anything else. Types, patterns and paths
are opaque strings, so the token printer's spacing does not appear in the model.

Modules:

- `Syntax` (`syntax.dfy`): the signature datatypes, and the positions of the
  typed parameters. Every renderer numbers its variables by these positions.
- `Text` (`text.dfy`): Rust's `split` (leftmost, non-overlapping), `join`,
  `str::replace` and decimal formatting, with their round trips.
- `Generate` (`generate.dfy`): `fuzz_struct`, `fuzz_function`, `fuzz_harness` and
  `GenerateError`.
  - The two builders are methods with loops that push one field or argument per
    parameter. Their contracts tie each entry to a per-parameter function, and
    pin down which error wins.
  - A panic is an outcome of its own, `Panic(message)`.
- `CrateParse` (`manifest.dfy`): target-name derivation, the text of the manifest
  template, the scan of an existing manifest, and the class `FuzzManifest`.
  - `FuzzManifest` holds the file's contents.
  - Its method `WriteCargoToml` is one atomic registration.
  - Lemmas about the closed form `History` give idempotence, and show that any
    sequence of registrations declares each distinct name exactly once.
- `CargoFuzz` (`cargofuzz.dfy`): `write_fn_invocation`, its template and the
  callback's unsafe/async filter.
- `Afl` (`afl.dfy`): `generate_fuzzing_harness` as written and with its argument
  list corrected (see Findings), and the callback that prints it.
- `Proptest` (`proptest.dfy`): `print_a_test`, and the visitor that prints one
  test per free function and per impl method.
- `Macro` (`macro.dfy`): the parameter loop and the naming of `transform_stream`.

Target names are the module path and the function name; `write_cargo_toml` adds
no owner.

## Model

| member | source | states |
|---|---|---|
| Syntax.TypedIndicesExact | src/bin/gen_cargofuzz_harness.rs:171-185 | The recorded variable numbers are exactly the positions of the typed parameters in the full list, strictly increasing, one per typed parameter. |
| Text.NatToStringRoundTrip | src/bin/gen_cargofuzz_harness.rs:198 | The decimal text written for a variable number is all digits and reads back as that number. |
| Text.ReplaceChar | src/bin/gen_cargofuzz_harness.rs:141 | Replacing `-` by `_` keeps the length, changes every `-` to `_`, and leaves every other character in place. |
| Text.SplitJoin | src/crate_parse.rs:142 | Splitting a join of pieces that do not contain the separator gives back the pieces. |
| Generate.FuzzStruct | src/generate.rs:10-159 | Success iff every parameter has a field. The struct is `__fuzz_struct_<ident>`, with field j made from parameter j. Otherwise the outcome is that of the first parameter without a field, whether an error or a panic. |
| Generate.ReceiverField | src/generate.rs:108-150 | A receiver panics without an impl type and fails for a non-path impl type. Otherwise it is the field `slf`, boxed exactly when the receiver borrows. |
| Generate.FuzzFunction | src/generate.rs:161-453 | Async gives `Async`, then unsafe gives `Unsafe`, then no parameters gives `Empty`, before any parameter is inspected. Next a callee failure is reported. Otherwise success iff every forwarded parameter has an argument. Argument j comes from forwarded parameter j, and the callee takes the receiver-first, typed-first or free-function shape. |
| Generate.CalleeIgnoresGenerics | src/generate.rs:269-280 | An associated function is called through the identifier of the impl type's first segment alone: generic arguments and later segments do not reach the callee. |
| Generate.FieldFeedsArgument | src/generate.rs:374-421 | A typed parameter with a field has an argument in every branch. The argument reads that field, by reference exactly when the field is boxed, with the parameter's mutability. |
| Generate.SliceBorrowMismatch | src/generate.rs:86-101 | The wrapper accepts a parameter that the struct rejects exactly when it is a plain binding of a reference to a non-path type, such as `&[u32]`. |
| Generate.DestructuringErrors | src/generate.rs:245-250 | A destructuring pattern gives `ComplexVariable` in the struct and in a free function's wrapper, but `ComplexSelfType` in both impl branches. |
| Generate.StructAndWrapper | src/generate.rs:436-450 | When both pieces are built, the wrapper takes the struct. Outside the typed-first branch, each argument reads the struct field of the parameter it forwards, by reference exactly when that field is boxed. |
| Generate.FuzzHarness | src/generate.rs:455-485 | The struct and wrapper paths are the crate, then the module segments, then `__fuzz_struct_<ident>` and `__fuzz_<ident>` respectively. |
| Generate.HarnessTextLayout | src/generate.rs:473-482 | The emitted target declares `extern crate <crate>`, takes `<crate>::<module path>::__fuzz_struct_<ident>` as the closure's input and passes it to `<crate>::<module path>::__fuzz_<ident>` under the same path; without a module path both are `<crate>::` followed by the name. |
| Generate.HarnessInjective | src/generate.rs:455-485 | A sanity check on the generated paths: equal struct and wrapper paths come only from the same callable name under the same module path. |
| CrateParse.TargetNameSegments | src/crate_parse.rs:84-88 | For identifier segments, the target name is the module segments and the function name joined by `__`. With no module it is the function name alone. |
| CrateParse.TargetNameExample | src/crate_parse.rs:326-346 | Module `foo::bar::dog` with function `cat` gives `foo__bar__dog__cat`. |
| CrateParse.TargetNameCollision | src/crate_parse.rs:84-88 | Function `bar` in module `foo` and function `foo__bar` at the top get the same target name. |
| CrateParse.RegisterCreate | src/crate_parse.rs:90-121 | Creating the manifest writes the five-section header followed by the target's block. |
| CrateParse.HeaderSections | src/crate_parse.rs:203-226 | The manifest splits into five header sections plus one per block. The first declares the package `<crate>-fuzz`; the fourth is `[dependencies.<crate>]` with `path = ".."`. |
| CrateParse.BinPieceName | src/crate_parse.rs:228-238 | A target block's section declares, on its second line, the block's target name. |
| CrateParse.ScanCanonical | src/crate_parse.rs:140-170 | Splitting a header-plus-blocks manifest at blank lines, skipping five sections and reading each name line yields exactly the blocks' names, in order. |
| CrateParse.ManifestDeclares | src/crate_parse.rs:140-170 | The scan's fold is true iff the target name is among the names declared after the header. |
| CrateParse.RegisterCanonical | src/crate_parse.rs:137-172 | On a header-plus-blocks manifest, a registration appends the new name's block, or leaves the text unchanged when the name is already declared. |
| CrateParse.History | src/crate_parse.rs:82-179 | After registrations of `ids` in turn there is no manifest if `ids` is empty. Otherwise it is the header plus one block per distinct name, in order of first registration. |
| CrateParse.RegisterIdempotent | src/crate_parse.rs:303-346 | Registering a name twice in a row leaves the same manifest as registering it once. |
| CrateParse.RegistrationsDeclareEachNameOnce | src/crate_parse.rs:349-486 | After any sequence of registrations, the header is the one written at creation. The declared names are exactly the requested ones, each declared once. |
| CrateParse.CreateManifest | src/crate_parse.rs:90-121 | The newly created file holds the package template followed by the target's block: a header-plus-blocks manifest declaring exactly that one target. |
| CrateParse.AppendIfAbsent | src/crate_parse.rs:137-172 | The scan finds the name iff it is already declared. The block is appended iff it is not, and the manifest stays header-plus-blocks with distinct names, the name added at the end exactly then. |
| CrateParse.Update | src/crate_parse.rs:90-172 | Either branch of one registration gives the registration's text. The target list gains the name iff it was new, and the result is a header-plus-blocks manifest with distinct names. |
| CrateParse.FuzzManifest.WriteCargoToml | src/crate_parse.rs:82-179 | A creation error other than "already exists" is returned and changes nothing. Otherwise the contents become one registration of the derived name, and the declared targets grow by that name iff it was new. Distinct targets and the header-plus-blocks layout are preserved. |
| CargoFuzz.WriteFnInvocation | src/bin/gen_cargofuzz_harness.rs:124-206 | The output is the template cut at its first `{0}`, then the part before that cut at its first `{crate_name}`. A missing marker panics with the source's message. In order: the prefix, the crate name with `-` turned into `_`, the middle, the body, the rest. |
| CargoFuzz.TemplateLayout | src/bin/gen_cargofuzz_harness.rs:208-226 | The fixed template has each marker exactly where its layout puts it, so rendering never panics. The harness is head, crate name, middle, body, tail. |
| CargoFuzz.MarkerlessTemplatePanics | src/bin/gen_cargofuzz_harness.rs:132-137 | A template without any `{` panics with "need '{0}' in template". |
| CargoFuzz.WriteArgDecls | src/bin/gen_cargofuzz_harness.rs:171-185 | There is one `let fuzz_arg_<n>` line per typed parameter, `n` its position in the full list, in order. The recorded numbers are those positions. |
| CargoFuzz.ReceiverUsesNumber | src/bin/gen_cargofuzz_harness.rs:171-185 | After `&self`, the typed parameter is passed as `fuzz_arg_1`. |
| CargoFuzz.WriteArgList | src/bin/gen_cargofuzz_harness.rs:192-200 | The flag loop writes the names of the recorded numbers with a `,` before every name but the first. |
| CargoFuzz.ArgListDecodes | src/bin/gen_cargofuzz_harness.rs:192-200 | Without typed parameters, the argument list is empty. Otherwise splitting it at `,` gives one non-empty `fuzz_arg_<n>` piece per typed parameter, decoding to that parameter's position, so there is no stray comma. |
| CargoFuzz.HarnessFile | src/bin/gen_cargofuzz_harness.rs:101-113 | A file `<ident>.rs` holding the harness is produced iff the callable is neither unsafe nor async. |
| Afl.GenerateFuzzingHarness | src/bin/gen_afl_quickcheck_harness.rs:32-86 | The corrected renderer. The harness starts with the fixed prelude, ending in the input-data comment. Then come the `fuzz_self` line iff a self type is given, the numbered assignments, the call (with the `fuzz_self.` prefix iff a self type is given) and `");\n    Ok(())\n}\n"`. The argument list is the comma-separated one, which corrects the source (see Findings). |
| Afl.GenerateFuzzingHarnessAsWritten | src/bin/gen_afl_quickcheck_harness.rs:32-86 | The renderer as the source writes it: the same prelude, assignments, call head and closing text, with the argument names run together by the source's loop. |
| Afl.WriteCallHead | src/bin/gen_afl_quickcheck_harness.rs:59-77 | What follows the prelude up to the argument list is the `fuzz_self` assignment iff a self type is given, the assignments of the typed parameters in order, the call head, the `fuzz_self.` prefix iff a self type is given, and the name with `(`. The numbers of the variables to pass are the typed parameters' positions. |
| Afl.WriteAssigns | src/bin/gen_afl_quickcheck_harness.rs:64-71 | There is one `fuzz_arg_<n> = <T>::arbitrary(..)` line per typed parameter, `n` its position, in order, with those positions recorded. |
| Afl.WriteArgsAsWritten | src/bin/gen_afl_quickcheck_harness.rs:78-82 | As written, the loop emits the argument names one after another with nothing between them. |
| Afl.SingleArgumentAgrees | src/bin/gen_afl_quickcheck_harness.rs:78-82 | With at most one argument, the as-written list equals the comma-separated one. |
| Afl.ArgumentsRunTogether | src/bin/gen_afl_quickcheck_harness.rs:78-82 | Two typed parameters are written as the single token `fuzz_arg_0fuzz_arg_1`: one comma-separated piece where the corrected list has two. |
| Afl.RunTogetherOnePiece | src/bin/gen_afl_quickcheck_harness.rs:78-82 | For every list of arguments, the as-written list holds no comma, so splitting it at commas gives that one piece. |
| Afl.ListsAgree | src/bin/gen_afl_quickcheck_harness.rs:78-82 | The as-written list equals the comma-separated one iff at most one parameter is typed. |
| Afl.HarnessAsWrittenAgrees | src/bin/gen_afl_quickcheck_harness.rs:32-86 | The harness the source renders equals the corrected harness iff the callable has at most one typed parameter. |
| Afl.HarnessFor | src/bin/gen_afl_quickcheck_harness.rs:21-28 | The callback prints iff the callable is neither unsafe nor async. What it prints is the harness as the source renders it, run-together argument names included, followed by the newline of `println!`. |
| Proptest.PrintATest | src/main.rs:4-28 | The printed test is the head, the parameters each followed by `, `, then `) {`, `self_like_thing.` iff a self type is given and `<ident> (`. Then come the patterns each followed by `, `, and `)}}` with a line break. |
| Proptest.PrintParams | src/main.rs:9-15 | The parameter loop adds the pieces of the typed inputs, each followed by `, `. |
| Proptest.PrintArgs | src/main.rs:21-26 | The argument loop writes the typed inputs' patterns, each followed by `, `. |
| Proptest.ParamsAt | src/main.rs:9-15 | Parameter k binds the pattern of the k-th typed input to `Any::<its type>()`. |
| Proptest.PatsAt | src/main.rs:21-26 | Argument k is the pattern of the k-th typed input. |
| Proptest.ParamsBindPats | src/main.rs:9-26 | The test has as many parameters as the call has arguments, and parameter k starts with the name argument k passes. |
| Proptest.ParamListSplits | src/main.rs:6-16 | When nothing contains a comma, splitting the printed parameter list at `, ` recovers the self parameter and every parameter, with the trailing separator leaving one empty piece. |
| Proptest.ArgListSplits | src/main.rs:21-27 | When nothing contains a comma, splitting the printed argument list at `, ` recovers every argument, plus one empty piece. |
| Proptest.MethodsOfExact | src/main.rs:41-45 | The methods visited in an impl block are exactly its method items, each with the impl's self type. |
| Proptest.CallablesExact | src/main.rs:33-47 | Free functions are visited exactly with no self type, and impl methods exactly with their impl's self type. |
| Proptest.VisitImpl | src/main.rs:37-47 | One test is printed per method of the impl block, in item order. |
| Proptest.VisitFile | src/main.rs:33-47 | One test is printed per callable of the file, in item order. |
| Macro.TransformStream | src/lib.rs:23-208 | Async aborts, then unsafe aborts. The expansion succeeds iff every parameter is handled; otherwise it aborts with the message of the first unhandled one. On success, the struct `__fuzz_struct_<ident>` and the wrapper `__fuzz_<ident>` that takes it and calls `<ident>` have field j and argument j made from parameter j. An empty parameter list is accepted. |
| Macro.PushLockstep | src/lib.rs:86-163 | A handled parameter is a plain binding. Its argument reads its field, by reference exactly when the field is boxed, copying the borrow's mutability. |
| Macro.StepAgreesWithGenerator | src/lib.rs:81-174 | The macro handles a parameter iff the generator gives it both a field and a free function's argument. In that case they are the same field and argument. |

## Left out

- File system access is not modelled: locating the crate, reading the package
  name, creating the fuzz directories and writing harness files. Each is a
  parameter or out of scope.
- The file lock is not modelled. Each registration is one atomic step, as the
  exclusive lock serialises registrations once taken. Between the creating
  `open` and `lock_exclusive` another process can open the fresh, still empty
  file. The model does not claim that window is closed.
- The name line of a manifest section is not parsed as general TOML. The
  precondition `Scannable` assumes every section after the header has a
  `name = "<id>"` line with no escapes. The source's `unwrap` panics on a
  corrupt manifest.
- CrateParse.FuzzManifest.WriteCargoToml: only the creation error is an input.
  Errors from later reads, writes, locks and unlocks are not modelled, nor is
  the `unwrap` of the fuzz directory.
- Token spacing is not modelled. `quote!` and the `Display` of token streams are
  replaced by `TyText`, `PatText` and `JoinPath` over opaque strings.
- CargoFuzz.HarnessFile: the callback's debug print of the identifier (`println!("{:?}", ident)`) is not modelled; its text depends on the `Debug` formatting of the token library's `Ident`, which is not part of this model.
- `src/visitor.rs` is not part of this model, nor are the bins' `main` plumbing
  (argument handling, `cargo rustc`, reading the parse tree).
- The proptest visitor (Proptest.VisitFile) sees only top-level items. `syn`'s
  default visit also descends into modules and function bodies, which the model
  does not follow.
- Target names qualified by an owner type are not modelled. They come from a
  macro that is not part of this model.
- `transform_stream` after line 208 (its calls into the manifest and the
  harness writer) is not modelled: it calls those with mismatched arguments.
- Macro.TransformStream: an `assert_eq!` failure is modelled by its custom
  message only, without the left/right framing the panic prints.
- `GenerateError`'s `Display` text is the function `Generate.Message`. It has no
  contract of its own.
- Panics on shapes the fixed templates never produce are not modelled. These
  are the `Wrong ... template` panics and the `unwrap`s on template entries.

## Findings

| source | as written | input that shows it | evidently intended | confidence | as-written member | corrected member |
|---|---|---|---|---|---|---|
| src/bin/gen_afl_quickcheck_harness.rs:78-82 | `is_first_argument` is never set to false, and the comma it guards would come after the name, so no comma is ever written | a function with two typed parameters, e.g. `fn g(b: String, c: bool)`, gives the call `g(fuzz_arg_0fuzz_arg_1)` | the names separated by `,`, as the cargo-fuzz renderer writes them | high; not executed | Afl.WriteArgsAsWritten, Afl.GenerateFuzzingHarnessAsWritten, Afl.HarnessFor, Afl.ArgumentsRunTogether, Afl.HarnessAsWrittenAgrees | CargoFuzz.ArgList, CargoFuzz.ArgListDecodes, Afl.GenerateFuzzingHarness |
