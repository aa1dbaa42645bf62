/** The compile-step wrapper: from a `clang -c …` command line it derives
    the command that writes the translation unit's bitcode (debug-info and
    inlining options replaced by the ones the analysis needs, output named
    after the object file), and strips two options clang rejects from the
    real command. */
module CompilerWrapper {
  import opened Wrappers
  import opened Strings
  import opened CommandWrapper

  /** Options clang rejects or warns about; they are removed from the real
      command (and never copied into the IR command). */
  const Unsupported: set<string> := {"-fexcess-precision=standard", "-frounding-math"}

  /** The options the IR command always ends with. */
  const AnalysisFlags: seq<string> := ["-gline-tables-only", "-emit-llvm", "-fno-inline"]

  /** An option the IR command must not receive from the original command:
      debug-info options, -finline, the unsupported options and the
      assembler option that only the real command needs. */
  predicate Unwanted(t: string)
  {
    StartsWith(t, "-g") || t == "-finline" || t in Unsupported || t == "-Wa,--noexecstack"
  }

  /** The state the scan of the original command carries from argument to
      argument. `ir` holds what was appended to the IR command so far. */
  datatype ScanState = ScanState(
    ir: seq<string>,
    realCmd: seq<string>,
    inputs: seq<string>,
    output: string,
    emptyOutput: bool,
    skipNext: bool)

  /** libtool writes objects to `.libs/foo.o`; the bitcode goes one level
      higher (every ".libs/" is removed). */
  function WithoutLibsDir(name: string): string
  {
    if StartsWith(name, ".libs/") then ReplaceAll(name, ".libs/", "") else name
  }

  /** musl libc keeps x86_64 assembly beside a C stub one directory up:
      compile the stub instead (every "/x86_64/" becomes "/", every ".s"
      becomes ".c"). */
  function MuslStub(p: string): string
  {
    ReplaceAll(ReplaceAll(p, "/x86_64/", "/"), ".s", ".c")
  }

  /** What one argument of the original command does to the scan. */
  function Step(params: set<string>, orig: seq<string>, i: nat, st: ScanState, skipAssembly: bool): Result<ScanState, Error>
    requires i < |orig|
  {
    var p := orig[i];
    if st.skipNext then Ok(st.(skipNext := false))
    else if StartsWith(p, "-") then
      if StartsWith(p, "-g") || p == "-finline" then Ok(st)
      else if p in Unsupported then Ok(st.(realCmd := RemoveFirst(st.realCmd, p)))
      else if p == "-Wa,--noexecstack" then Ok(st)
      else if p in params then
        if i + 1 >= |orig| then Err(RuntimeError(p + " flag without parameter!"))
        else if p == "-o" then
          var next := CorrespondingBitcodeName(WithoutLibsDir(orig[i + 1]));
          Ok(st.(skipNext := true, output := next, ir := st.ir + [p, next]))
        else Ok(st.(skipNext := true, ir := st.ir + [p, orig[i + 1]]))
      else Ok(st.(ir := st.ir + [p]))
    else if EndsWith(p, ".s") || EndsWith(p, ".S") then
      if Contains(p, "/x86_64/") then
        var stub := MuslStub(p);
        Ok(st.(inputs := st.inputs + [stub], ir := st.ir + [stub]))
      else if skipAssembly then
        Ok(st.(emptyOutput := true, inputs := st.inputs + [p], ir := st.ir + [p]))
      else Err(RuntimeError("Attempting to compile assembly file"))
    else Ok(st.(inputs := st.inputs + [p], ir := st.ir + [p]))
  }

  /** The scan from argument `i` to the end. */
  function ScanFrom(params: set<string>, orig: seq<string>, i: nat, st: ScanState, skipAssembly: bool): Result<ScanState, Error>
    requires i <= |orig|
    decreases |orig| - i
  {
    if i == |orig| then Ok(st)
    else
      match Step(params, orig, i, st, skipAssembly)
      case Err(e) => Err(e)
      case Ok(next) => ScanFrom(params, orig, i + 1, next, skipAssembly)
  }

  lemma ScanFromUnfold(params: set<string>, orig: seq<string>, i: nat, st: ScanState, skipAssembly: bool)
    requires i < |orig|
    ensures Step(params, orig, i, st, skipAssembly).Err? ==>
      ScanFrom(params, orig, i, st, skipAssembly) == Err(Step(params, orig, i, st, skipAssembly).error)
    ensures Step(params, orig, i, st, skipAssembly).Ok? ==>
      ScanFrom(params, orig, i, st, skipAssembly) == ScanFrom(params, orig, i + 1, Step(params, orig, i, st, skipAssembly).value, skipAssembly)
  {
  }

  /** After the scan: there must be an input; without -o the only input
      names the output; the analysis options go last. */
  function Finish(st: ScanState): Result<ScanState, Error>
  {
    if |st.inputs| == 0 then Err(RuntimeError("No input files found!"))
    else if st.output == "" && |st.inputs| != 1 then Err(RuntimeError("No -o flag, but multiple input files!"))
    else
      var named :=
        if st.output == "" then
          var out := CorrespondingBitcodeName(SplitExt(st.inputs[0]).0 + ".o");
          st.(output := out, ir := st.ir + ["-o", out])
        else st;
      Ok(named.(ir := named.ir + AnalysisFlags))
  }

  function InitialState(command: seq<string>, output: string, irCompiler: string): ScanState
  {
    ScanState([irCompiler], command, [], output, false, true)
  }

  /** The whole computation for a real command `command`, the wrapper's current
      output `output` and SOAAP's compiler `irCompiler`. */
  function Compile(params: set<string>, command: seq<string>, output: string, irCompiler: string, skipAssembly: bool): Result<ScanState, Error>
  {
    if "-c" !in command then Err(AssertionFailed("'-c' in realCommand"))
    else
      match ScanFrom(params, command, 0, InitialState(command, output, irCompiler), skipAssembly)
      case Err(e) => Err(e)
      case Ok(st) => Finish(st)
  }

  lemma CompileAfterScan(params: set<string>, command: seq<string>, output: string, irCompiler: string, skipAssembly: bool, scanned: ScanState)
    requires "-c" in command
    requires ScanFrom(params, command, 0, InitialState(command, output, irCompiler), skipAssembly) == Ok(scanned)
    ensures Compile(params, command, output, irCompiler, skipAssembly) == Finish(scanned)
  {
  }

  /** CompilerWrapper.computeWrapperCommand: walks the original command
      once, appending to the IR command and removing unsupported options
      from the real command as it goes. */
  method ComputeWrapperCommand(w: CommandWrapper, cache: ParamTableCache, irCompiler: string, skipAssembly: bool)
    returns (err: Option<Error>)
    requires cache.Valid()
    modifies w`realCommand, w`generateIrCommand, w`mode, w`output, w`generateEmptyOutput, cache
    ensures cache.Valid()
    ensures var spec := Compile(ClangParamsWithArgument, old(w.realCommand), old(w.output), irCompiler, skipAssembly);
      && (spec.Err? <==> err.Some?)
      && (spec.Err? ==> err.value == spec.error)
      && (spec.Ok? ==>
            w.generateIrCommand == old(w.generateIrCommand) + spec.value.ir
            && w.realCommand == spec.value.realCmd
            && w.output == spec.value.output
            && w.generateEmptyOutput == spec.value.emptyOutput
            && w.mode == ObjectFile)
  {
    if "-c" !in w.realCommand {
      return Some(AssertionFailed("'-c' in realCommand"));
    }
    var params := cache.Get();
    err := CompileWith(w, params, irCompiler, skipAssembly);
  }

  /** computeWrapperCommand after its assertion, for the option table `params`. */
  method CompileWith(w: CommandWrapper, params: set<string>, irCompiler: string, skipAssembly: bool)
    returns (err: Option<Error>)
    requires "-c" in w.realCommand
    modifies w`realCommand, w`generateIrCommand, w`mode, w`output, w`generateEmptyOutput
    ensures var spec := Compile(params, old(w.realCommand), old(w.output), irCompiler, skipAssembly);
      && (spec.Err? <==> err.Some?)
      && (spec.Err? ==> err.value == spec.error)
      && (spec.Ok? ==>
            w.generateIrCommand == old(w.generateIrCommand) + spec.value.ir
            && w.realCommand == spec.value.realCmd
            && w.output == spec.value.output
            && w.generateEmptyOutput == spec.value.emptyOutput
            && w.mode == ObjectFile)
  {
    w.mode := ObjectFile;
    ghost var base := w.generateIrCommand;
    w.generateIrCommand := w.generateIrCommand + [irCompiler];
    var inputFiles: seq<string>;
    w.generateEmptyOutput := false;
    var orig := w.realCommand;
    var scanErr;
    ghost var scanned;
    inputFiles, scanned, scanErr := ScanArguments(w, orig, params, skipAssembly, base, irCompiler);
    if scanErr.Some? {
      return scanErr;
    }
    CompileAfterScan(params, orig, old(w.output), irCompiler, skipAssembly, scanned);
    err := FinishCommand(w, inputFiles, base, scanned);
  }

  /** The loop of computeWrapperCommand over the arguments of the
      original command `orig`, starting from the initial scan state;
      `base` is the IR command before the compiler was appended. */
  method ScanArguments(w: CommandWrapper, orig: seq<string>, params: set<string>, skipAssembly: bool,
                       ghost base: seq<string>, ghost irCompiler: string)
    returns (inputFiles: seq<string>, ghost scanned: ScanState, err: Option<Error>)
    requires w.realCommand == orig && !w.generateEmptyOutput
    requires w.generateIrCommand == base + [irCompiler]
    modifies w`realCommand, w`generateIrCommand, w`output, w`generateEmptyOutput
    ensures var scan := ScanFrom(params, orig, 0, InitialState(orig, old(w.output), irCompiler), skipAssembly);
      && (scan.Err? <==> err.Some?)
      && (scan.Err? ==> err.value == scan.error)
      && (scan.Ok? ==>
            scan.value == scanned
            && scanned == ScanState(scanned.ir, w.realCommand, inputFiles, w.output, w.generateEmptyOutput, scanned.skipNext)
            && w.generateIrCommand == base + scanned.ir)
  {
    ghost var init := InitialState(orig, w.output, irCompiler);
    ghost var added := [irCompiler];
    ghost var skipNext := true;
    inputFiles := [];
    var skip := true;
    for index := 0 to |orig|
      invariant w.generateIrCommand == base + added && skip == skipNext
      invariant ScanFrom(params, orig, 0, init, skipAssembly)
             == ScanFrom(params, orig, index, ScanState(added, w.realCommand, inputFiles, w.output, w.generateEmptyOutput, skipNext), skipAssembly)
    {
      var stepErr;
      skip, inputFiles, added, stepErr := ScanArgument(w, orig, index, params, skipAssembly, skip, inputFiles, base, added);
      skipNext := skip;
      if stepErr.Some? {
        return inputFiles, init, stepErr;
      }
    }
    scanned := ScanState(added, w.realCommand, inputFiles, w.output, w.generateEmptyOutput, skipNext);
    err := None;
  }

  /** One pass of computeWrapperCommand's loop: what argument `index` of
      the original command adds to the IR command, removes from the real
      command, or records as input or output. */
  method ScanArgument(w: CommandWrapper, orig: seq<string>, index: nat, params: set<string>, skipAssembly: bool,
                      skipNext: bool, inputFiles: seq<string>, ghost base: seq<string>, ghost added: seq<string>)
    returns (skipNextOut: bool, inputFilesOut: seq<string>, ghost addedOut: seq<string>, err: Option<Error>)
    requires index < |orig|
    requires w.generateIrCommand == base + added
    modifies w`realCommand, w`generateIrCommand, w`output, w`generateEmptyOutput
    ensures var before := ScanState(added, old(w.realCommand), inputFiles, old(w.output), old(w.generateEmptyOutput), skipNext);
      && (err.Some? ==> ScanFrom(params, orig, index, before, skipAssembly) == Err(err.value))
      && (err.None? ==>
            ScanFrom(params, orig, index, before, skipAssembly)
              == ScanFrom(params, orig, index + 1, ScanState(addedOut, w.realCommand, inputFilesOut, w.output, w.generateEmptyOutput, skipNextOut), skipAssembly)
            && w.generateIrCommand == base + addedOut)
  {
    ghost var before := ScanState(added, w.realCommand, inputFiles, w.output, w.generateEmptyOutput, skipNext);
    ScanFromUnfold(params, orig, index, before, skipAssembly);
    if skipNext {
      return false, inputFiles, added, None;
    } else if StartsWith(orig[index], "-") {
      skipNextOut, addedOut, err := ScanOption(w, orig, index, params, skipAssembly, inputFiles, base, added);
      inputFilesOut := inputFiles;
    } else {
      inputFilesOut, addedOut, err := ScanInput(w, orig, index, params, skipAssembly, inputFiles, base, added);
      skipNextOut := false;
    }
  }

  /** An argument starting with '-': dropped, removed from the real
      command, or copied to the IR command with or without its value. */
  method ScanOption(w: CommandWrapper, orig: seq<string>, index: nat, params: set<string>, skipAssembly: bool,
                    inputFiles: seq<string>, ghost base: seq<string>, ghost added: seq<string>)
    returns (skipNextOut: bool, ghost addedOut: seq<string>, err: Option<Error>)
    requires index < |orig| && StartsWith(orig[index], "-")
    requires w.generateIrCommand == base + added
    modifies w`realCommand, w`generateIrCommand, w`output
    ensures var step := Step(params, orig, index, ScanState(added, old(w.realCommand), inputFiles, old(w.output), w.generateEmptyOutput, false), skipAssembly);
      && (step.Err? <==> err.Some?)
      && (step.Err? ==> err.value == step.error)
      && (step.Ok? ==>
            step.value == ScanState(addedOut, w.realCommand, inputFiles, w.output, w.generateEmptyOutput, skipNextOut)
            && w.generateIrCommand == base + addedOut)
  {
    skipNextOut, addedOut, err := false, added, None;
    var param := orig[index];
    if StartsWith(param, "-g") {
      return;
    } else if param == "-finline" {
      return;
    } else if param in Unsupported {
      w.realCommand := RemoveFirst(w.realCommand, param);
      return;
    } else if param == "-Wa,--noexecstack" {
      return;
    } else if param in params {
      if index + 1 >= |orig| {
        return skipNextOut, addedOut, Some(RuntimeError(param + " flag without parameter!"));
      }
      skipNextOut := true;
      var next := orig[index + 1];
      if param == "-o" {
        if StartsWith(next, ".libs/") {
          next := ReplaceAll(next, ".libs/", "");
        }
        next := CorrespondingBitcodeName(next);
        w.output := next;
      }
      w.generateIrCommand := w.generateIrCommand + [param, next];
      addedOut := added + [param, next];
    } else {
      w.generateIrCommand := w.generateIrCommand + [param];
      addedOut := added + [param];
    }
    assert w.generateIrCommand == base + addedOut;
  }

  /** An input file: musl assembly is replaced by its C stub, other
      assembly gives an empty output or an error. */
  method ScanInput(w: CommandWrapper, orig: seq<string>, index: nat, params: set<string>, skipAssembly: bool,
                   inputFiles: seq<string>, ghost base: seq<string>, ghost added: seq<string>)
    returns (inputFilesOut: seq<string>, ghost addedOut: seq<string>, err: Option<Error>)
    requires index < |orig| && !StartsWith(orig[index], "-")
    requires w.generateIrCommand == base + added
    modifies w`generateIrCommand, w`generateEmptyOutput
    ensures var step := Step(params, orig, index, ScanState(added, w.realCommand, inputFiles, w.output, old(w.generateEmptyOutput), false), skipAssembly);
      && (step.Err? <==> err.Some?)
      && (step.Err? ==> err.value == step.error)
      && (step.Ok? ==>
            step.value == ScanState(addedOut, w.realCommand, inputFilesOut, w.output, w.generateEmptyOutput, false)
            && w.generateIrCommand == base + addedOut)
  {
    inputFilesOut, addedOut, err := inputFiles, added, None;
    var param := orig[index];
    if EndsWith(param, ".s") || EndsWith(param, ".S") {
      if Contains(param, "/x86_64/") {
        param := ReplaceAll(ReplaceAll(param, "/x86_64/", "/"), ".s", ".c");
      } else if skipAssembly {
        w.generateEmptyOutput := true;
      } else {
        return inputFilesOut, addedOut, Some(RuntimeError("Attempting to compile assembly file"));
      }
    }
    inputFilesOut := inputFiles + [param];
    w.generateIrCommand := w.generateIrCommand + [param];
    addedOut := added + [param];
    assert w.generateIrCommand == base + addedOut;
  }

  /** The part of computeWrapperCommand after the scan of the arguments. */
  method FinishCommand(w: CommandWrapper, inputFiles: seq<string>, ghost base: seq<string>, ghost st: ScanState)
    returns (err: Option<Error>)
    requires st.inputs == inputFiles && st.output == w.output
    requires w.generateIrCommand == base + st.ir
    modifies w`generateIrCommand, w`output
    ensures (Finish(st).Err? <==> err.Some?)
    ensures Finish(st).Err? ==> err.value == Finish(st).error
    ensures Finish(st).Ok? ==>
      w.generateIrCommand == base + Finish(st).value.ir && w.output == Finish(st).value.output
  {
    if |inputFiles| == 0 {
      return Some(RuntimeError("No input files found!"));
    }
    if w.output == "" {
      if |inputFiles| != 1 {
        return Some(RuntimeError("No -o flag, but multiple input files!"));
      }
      var root := SplitExt(inputFiles[0]).0;
      w.output := CorrespondingBitcodeName(root + ".o");
      w.generateIrCommand := w.generateIrCommand + ["-o", w.output];
    }
    w.generateIrCommand := w.generateIrCommand + ["-gline-tables-only", "-emit-llvm", "-fno-inline"];
    return None;
  }

  // ---------------------------------------------------------------------
  // Properties of the compile step

  /** Every option the IR command must not receive starts with '-'. */
  lemma UnwantedIsOption(t: string)
    requires Unwanted(t)
    ensures StartsWith(t, "-")
  {
    if t in Unsupported {
      assert t == "-fexcess-precision=standard" || t == "-frounding-math";
    }
  }

  /** A name that does not start with '-' keeps that property when it is
      turned into a bitcode name. */
  lemma BitcodeNameNotOption(f: string)
    requires !StartsWith(f, "-")
    ensures !StartsWith(CorrespondingBitcodeName(f), "-")
  {
    var r := CorrespondingBitcodeName(f);
    BitcodeNameLonger(f);
    if Contains(f, ".so.") {
      assert |f| > 0;
      ReplaceAllHead(f, ".so.", ".so.bc.");
      assert r[0] == f[0] || r[0] == '.';
      assert f[0] != '-' by { assert f[..1] == [f[0]]; }
      assert r[..1] == [r[0]];
    } else if |f| > 0 {
      assert r[0] == f[0];
      assert f[0] != '-' by { assert f[..1] == [f[0]]; }
      assert r[..1] == [r[0]];
    } else {
      assert r == ".bc" && r[..1] == ".";
    }
  }

  /** The musl stub of an assembly file name that is not an option is not
      an option either. */
  lemma MuslStubNotOption(p: string)
    requires |p| > 0 && !StartsWith(p, "-")
    ensures !StartsWith(MuslStub(p), "-")
  {
    var r1 := ReplaceAll(p, "/x86_64/", "/");
    ReplaceAllHead(p, "/x86_64/", "/");
    ReplaceAllHead(r1, ".s", ".c");
    var r2 := ReplaceAll(r1, ".s", ".c");
    assert p[0] != '-' by { assert p[..1] == [p[0]]; }
    assert r2[0] != '-';
    assert r2[..1] == [r2[0]];
  }

  /** Whether `root` followed by something starts with '-' depends only on
      `root` when the continuation does not start with '-'. */
  lemma SameHeadNotOption(root: string, rest: string, tail: string)
    requires !StartsWith(root + rest, "-") && |tail| > 0 && tail[0] != '-'
    ensures !StartsWith(root + tail, "-")
  {
    if |root| > 0 {
      assert (root + rest)[..1] == root[..1] == (root + tail)[..1];
    } else {
      assert (root + tail)[..1] == tail[..1];
      assert tail[..1] == [tail[0]];
    }
  }

  /** `value` follows the option `opt` somewhere in the IR command. */
  ghost predicate OptionValue(ir: seq<string>, opt: string, value: string)
  {
    exists k :: 0 <= k < |ir| - 1 && ir[k] == opt && ir[k + 1] == value
  }

  /** What holds of every state the scan passes through: the compiler stays
      first; an option the IR must not receive only appears as the value of
      an option from the table; inputs are not options; the output is the
      wrapper's initial one or is the value of an "-o" in the IR command; an
      empty output is only requested when assembly may be skipped. */
  ghost predicate ScanInv(params: set<string>, st: ScanState, irCompiler: string, output0: string, skipAssembly: bool)
  {
    && |st.ir| > 0 && st.ir[0] == irCompiler
    && (forall k :: 1 <= k < |st.ir| && Unwanted(st.ir[k]) ==> st.ir[k - 1] in params)
    && (forall k :: 0 <= k < |st.inputs| ==> !StartsWith(st.inputs[k], "-"))
    && (st.output == output0 || OptionValue(st.ir, "-o", st.output))
    && (st.emptyOutput ==> skipAssembly)
  }

  lemma OptionValueAppend(ir: seq<string>, extra: seq<string>, opt: string, value: string)
    requires OptionValue(ir, opt, value)
    ensures OptionValue(ir + extra, opt, value)
  {
    var k :| 0 <= k < |ir| - 1 && ir[k] == opt && ir[k + 1] == value;
    assert (ir + extra)[k] == opt && (ir + extra)[k + 1] == value;
  }

  /** Appending IR tokens none of which the IR must not receive keeps the
      invariant's condition on unwanted options. */
  lemma CleanAppend(params: set<string>, ir: seq<string>, extra: seq<string>)
    requires forall k :: 1 <= k < |ir| && Unwanted(ir[k]) ==> ir[k - 1] in params
    requires |ir| > 0 && forall k :: 0 <= k < |extra| ==> !Unwanted(extra[k])
    ensures forall k :: 1 <= k < |ir + extra| && Unwanted((ir + extra)[k]) ==> (ir + extra)[k - 1] in params
  {
    forall k | 1 <= k < |ir + extra| && Unwanted((ir + extra)[k])
      ensures (ir + extra)[k - 1] in params
    {
      if k >= |ir| {
        assert false;
      }
    }
  }

  lemma OptionStepKeepsInv(params: set<string>, orig: seq<string>, i: nat, st: ScanState, skipAssembly: bool,
                           irCompiler: string, output0: string)
    requires i < |orig| && ScanInv(params, st, irCompiler, output0, skipAssembly)
    requires !st.skipNext && StartsWith(orig[i], "-")
    requires Step(params, orig, i, st, skipAssembly).Ok?
    ensures ScanInv(params, Step(params, orig, i, st, skipAssembly).value, irCompiler, output0, skipAssembly)
  {
    var p := orig[i];
    var next := Step(params, orig, i, st, skipAssembly).value;
    if StartsWith(p, "-g") || p == "-finline" || p in Unsupported || p == "-Wa,--noexecstack" {
    } else if p in params {
      var v := next.ir[|st.ir| + 1];
      assert next.ir == st.ir + [p, v];
      CleanAppend(params, st.ir, [p]);
      assert next.ir == (st.ir + [p]) + [v];
      if p == "-o" {
        assert next.ir[|st.ir|] == "-o" && next.ir[|st.ir| + 1] == next.output;
      } else if st.output != output0 {
        OptionValueAppend(st.ir, [p, v], "-o", st.output);
      }
    } else {
      assert next.ir == st.ir + [p];
      CleanAppend(params, st.ir, [p]);
      if st.output != output0 {
        OptionValueAppend(st.ir, [p], "-o", st.output);
      }
    }
  }

  lemma InputStepKeepsInv(params: set<string>, orig: seq<string>, i: nat, st: ScanState, skipAssembly: bool,
                          irCompiler: string, output0: string)
    requires i < |orig| && ScanInv(params, st, irCompiler, output0, skipAssembly)
    requires !st.skipNext && !StartsWith(orig[i], "-")
    requires Step(params, orig, i, st, skipAssembly).Ok?
    ensures ScanInv(params, Step(params, orig, i, st, skipAssembly).value, irCompiler, output0, skipAssembly)
  {
    var p := orig[i];
    var next := Step(params, orig, i, st, skipAssembly).value;
    var q := if (EndsWith(p, ".s") || EndsWith(p, ".S")) && Contains(p, "/x86_64/") then MuslStub(p) else p;
    if q != p {
      MuslStubNotOption(p);
    }
    assert !Unwanted(q) by {
      if Unwanted(q) { UnwantedIsOption(q); }
    }
    assert next.ir == st.ir + [q] && next.inputs == st.inputs + [q];
    CleanAppend(params, st.ir, [q]);
    if st.output != output0 {
      OptionValueAppend(st.ir, [q], "-o", st.output);
    }
  }

  lemma StepKeepsInv(params: set<string>, orig: seq<string>, i: nat, st: ScanState, skipAssembly: bool,
                     irCompiler: string, output0: string)
    requires i < |orig| && ScanInv(params, st, irCompiler, output0, skipAssembly)
    requires Step(params, orig, i, st, skipAssembly).Ok?
    ensures ScanInv(params, Step(params, orig, i, st, skipAssembly).value, irCompiler, output0, skipAssembly)
  {
    if st.skipNext {
    } else if StartsWith(orig[i], "-") {
      OptionStepKeepsInv(params, orig, i, st, skipAssembly, irCompiler, output0);
    } else {
      InputStepKeepsInv(params, orig, i, st, skipAssembly, irCompiler, output0);
    }
  }

  lemma {:induction false} ScanFromKeepsInv(params: set<string>, orig: seq<string>, i: nat, st: ScanState, skipAssembly: bool,
                                            irCompiler: string, output0: string)
    requires i <= |orig| && ScanInv(params, st, irCompiler, output0, skipAssembly)
    requires ScanFrom(params, orig, i, st, skipAssembly).Ok?
    ensures ScanInv(params, ScanFrom(params, orig, i, st, skipAssembly).value, irCompiler, output0, skipAssembly)
    decreases |orig| - i
  {
    if i < |orig| {
      ScanFromUnfold(params, orig, i, st, skipAssembly);
      StepKeepsInv(params, orig, i, st, skipAssembly, irCompiler, output0);
      ScanFromKeepsInv(params, orig, i + 1, Step(params, orig, i, st, skipAssembly).value, skipAssembly, irCompiler, output0);
    }
  }

  /** What the end of the compile step adds keeps the invariant's
      properties and puts the analysis options last. */
  lemma FinishResult(params: set<string>, sc: ScanState, irCompiler: string, output0: string, skipAssembly: bool)
    requires ScanInv(params, sc, irCompiler, output0, skipAssembly) && Finish(sc).Ok?
    ensures var st := Finish(sc).value;
      && |st.ir| >= 4 && st.ir[0] == irCompiler && st.ir[|st.ir| - 3..] == AnalysisFlags
      && (forall k :: 1 <= k < |st.ir| - 3 && Unwanted(st.ir[k]) ==> st.ir[k - 1] in params)
      && |st.inputs| > 0
      && (st.output == output0 || OptionValue(st.ir, "-o", st.output))
      && (output0 == "" ==> OptionValue(st.ir, "-o", st.output))
      && (st.emptyOutput ==> skipAssembly)
  {
    var st := Finish(sc).value;
    var named := if sc.output == "" then sc.ir + ["-o", st.output] else sc.ir;
    assert st.ir == named + AnalysisFlags;
    if sc.output == "" {
      var root := SplitExt(sc.inputs[0]).0;
      assert st.output == CorrespondingBitcodeName(root + ".o");
      assert !StartsWith(sc.inputs[0], "-");
      SameHeadNotOption(root, SplitExt(sc.inputs[0]).1, ".o");
      BitcodeNameNotOption(root + ".o");
      assert !Unwanted(st.output) by {
        if Unwanted(st.output) { UnwantedIsOption(st.output); }
      }
      assert !Unwanted("-o") by { assert "-o"[1] != "-g"[1]; }
      CleanAppend(params, sc.ir, ["-o", st.output]);
      assert named[|sc.ir|] == "-o" && named[|sc.ir| + 1] == st.output;
      assert st.ir[|sc.ir|] == "-o" && st.ir[|sc.ir| + 1] == st.output;
    } else if sc.output != output0 {
      OptionValueAppend(sc.ir, AnalysisFlags, "-o", st.output);
    }
    forall k | 1 <= k < |st.ir| - 3 && Unwanted(st.ir[k])
      ensures st.ir[k - 1] in params
    {
      assert st.ir[k] == named[k] && st.ir[k - 1] == named[k - 1];
    }
  }

  /** The IR command of a successful compile step starts with SOAAP's
      compiler and ends with the analysis options; in between, an option the
      IR command must not receive (-g…, -finline, the unsupported options,
      -Wa,--noexecstack) only occurs as the value of an option from the
      table. There is at least one input, and the output is named by an
      "-o" in the IR command unless the wrapper already had an output. An
      empty output is only requested when assembly may be skipped. */
  lemma CompileResult(params: set<string>, command: seq<string>, output: string, irCompiler: string, skipAssembly: bool)
    requires Compile(params, command, output, irCompiler, skipAssembly).Ok?
    ensures var st := Compile(params, command, output, irCompiler, skipAssembly).value;
      && |st.ir| >= 4 && st.ir[0] == irCompiler && st.ir[|st.ir| - 3..] == AnalysisFlags
      && (forall k :: 1 <= k < |st.ir| - 3 && Unwanted(st.ir[k]) ==> st.ir[k - 1] in params)
      && |st.inputs| > 0
      && (st.output == output || OptionValue(st.ir, "-o", st.output))
      && (output == "" ==> OptionValue(st.ir, "-o", st.output))
      && (st.emptyOutput ==> skipAssembly)
  {
    var init := InitialState(command, output, irCompiler);
    assert ScanInv(params, init, irCompiler, output, skipAssembly);
    ScanFromKeepsInv(params, command, 0, init, skipAssembly, irCompiler, output);
    var sc := ScanFrom(params, command, 0, init, skipAssembly).value;
    CompileAfterScan(params, command, output, irCompiler, skipAssembly, sc);
    FinishResult(params, sc, irCompiler, output, skipAssembly);
  }

  /** No unsupported option of `orig` (after the executable) follows an
      option from the table, so none of them is taken as an option value. */
  ghost predicate UnsupportedNotValues(params: set<string>, orig: seq<string>)
  {
    forall i :: 1 <= i < |orig| && orig[i] in Unsupported ==> orig[i - 1] !in params
  }

  /** The real command during the scan, at argument `i` >= 1: each
      unsupported option occurs as often as in `orig` minus its occurrences
      scanned so far, every other argument as often as in `orig`; an
      argument is skipped only after an option from the table. */
  ghost predicate RemovalInv(params: set<string>, orig: seq<string>, i: nat, st: ScanState)
    requires 1 <= i <= |orig|
  {
    && (forall t :: t in Unsupported ==> multiset(st.realCmd)[t] + multiset(orig[1..i])[t] == multiset(orig)[t])
    && (forall t :: t !in Unsupported ==> multiset(st.realCmd)[t] == multiset(orig)[t])
    && (st.skipNext ==> orig[i - 1] in params)
  }

  lemma UnsupportedShape(p: string)
    requires p in Unsupported
    ensures StartsWith(p, "-") && !StartsWith(p, "-g") && p != "-finline" && p != "-Wa,--noexecstack"
  {
    assert p == "-fexcess-precision=standard" || p == "-frounding-math";
    assert p[..2] == "-f";
  }

  /** What one step does to the real command and to skipping. */
  lemma StepRealCmd(params: set<string>, orig: seq<string>, i: nat, st: ScanState, skipAssembly: bool)
    requires i < |orig| && Step(params, orig, i, st, skipAssembly).Ok?
    ensures var next := Step(params, orig, i, st, skipAssembly).value;
      && next.realCmd == (if !st.skipNext && orig[i] in Unsupported then RemoveFirst(st.realCmd, orig[i]) else st.realCmd)
      && (next.skipNext ==> !st.skipNext && orig[i] in params)
  {
    if orig[i] in Unsupported {
      UnsupportedShape(orig[i]);
    }
  }

  lemma CountInPrefix(orig: seq<string>, i: nat, x: string)
    requires 1 <= i < |orig|
    ensures multiset(orig)[x] >= multiset(orig[1..i + 1])[x]
    ensures multiset(orig[1..i + 1]) == multiset(orig[1..i]) + multiset{orig[i]}
  {
    assert orig == orig[..1] + orig[1..i + 1] + orig[i + 1..];
    assert multiset(orig) == multiset(orig[..1]) + multiset(orig[1..i + 1]) + multiset(orig[i + 1..]);
    assert orig[1..i + 1] == orig[1..i] + [orig[i]];
  }

  lemma StepKeepsRemovalInv(params: set<string>, orig: seq<string>, i: nat, st: ScanState, skipAssembly: bool)
    requires 1 <= i < |orig| && RemovalInv(params, orig, i, st) && UnsupportedNotValues(params, orig)
    requires Step(params, orig, i, st, skipAssembly).Ok?
    ensures RemovalInv(params, orig, i + 1, Step(params, orig, i, st, skipAssembly).value)
  {
    StepRealCmd(params, orig, i, st, skipAssembly);
    RemovalStep(params, orig, i, st, Step(params, orig, i, st, skipAssembly).value);
  }

  lemma RemovalStep(params: set<string>, orig: seq<string>, i: nat, st: ScanState, next: ScanState)
    requires 1 <= i < |orig| && RemovalInv(params, orig, i, st) && UnsupportedNotValues(params, orig)
    requires next.realCmd == (if !st.skipNext && orig[i] in Unsupported then RemoveFirst(st.realCmd, orig[i]) else st.realCmd)
    requires next.skipNext ==> !st.skipNext && orig[i] in params
    ensures RemovalInv(params, orig, i + 1, next)
  {
    CountInPrefix(orig, i, orig[i]);
    if orig[i] in Unsupported {
      assert orig[i - 1] !in params;
      RemovalStepRemoves(params, orig, i, st, next);
    } else {
      RemovalStepKeeps(params, orig, i, st, next);
    }
  }

  /** An unsupported option, scanned, leaves the real command. */
  lemma RemovalStepRemoves(params: set<string>, orig: seq<string>, i: nat, st: ScanState, next: ScanState)
    requires 1 <= i < |orig| && RemovalInv(params, orig, i, st) && orig[i] in Unsupported && !st.skipNext
    requires multiset(orig)[orig[i]] >= multiset(orig[1..i + 1])[orig[i]]
    requires multiset(orig[1..i + 1]) == multiset(orig[1..i]) + multiset{orig[i]}
    requires next.realCmd == RemoveFirst(st.realCmd, orig[i])
    requires next.skipNext ==> orig[i] in params
    ensures RemovalInv(params, orig, i + 1, next)
  {
    var p := orig[i];
    assert multiset(st.realCmd)[p] >= 1;
    assert multiset(next.realCmd) == multiset(st.realCmd) - multiset{p};
  }

  /** Any other argument leaves the real command as it is. */
  lemma RemovalStepKeeps(params: set<string>, orig: seq<string>, i: nat, st: ScanState, next: ScanState)
    requires 1 <= i < |orig| && RemovalInv(params, orig, i, st) && orig[i] !in Unsupported
    requires multiset(orig[1..i + 1]) == multiset(orig[1..i]) + multiset{orig[i]}
    requires next.realCmd == st.realCmd
    requires next.skipNext ==> !st.skipNext && orig[i] in params
    ensures RemovalInv(params, orig, i + 1, next)
  {
  }

  lemma {:induction false} ScanFromKeepsRemovalInv(params: set<string>, orig: seq<string>, i: nat, st: ScanState, skipAssembly: bool)
    requires 1 <= i <= |orig| && RemovalInv(params, orig, i, st) && UnsupportedNotValues(params, orig)
    requires ScanFrom(params, orig, i, st, skipAssembly).Ok?
    ensures RemovalInv(params, orig, |orig|, ScanFrom(params, orig, i, st, skipAssembly).value)
    decreases |orig| - i
  {
    if i < |orig| {
      ScanFromUnfold(params, orig, i, st, skipAssembly);
      StepKeepsRemovalInv(params, orig, i, st, skipAssembly);
      ScanFromKeepsRemovalInv(params, orig, i + 1, Step(params, orig, i, st, skipAssembly).value, skipAssembly);
    }
  }

  /** The unsupported options are removed from the real command, and every
      other argument stays there as often as it occurred, provided none of
      them is the executable or the value of an option from the table. */
  lemma UnsupportedRemoved(params: set<string>, command: seq<string>, output: string, irCompiler: string, skipAssembly: bool)
    requires Compile(params, command, output, irCompiler, skipAssembly).Ok?
    requires |command| > 0 && command[0] !in Unsupported && UnsupportedNotValues(params, command)
    ensures var st := Compile(params, command, output, irCompiler, skipAssembly).value;
      && (forall t :: t in Unsupported ==> t !in st.realCmd)
      && (forall t :: t !in Unsupported ==> multiset(st.realCmd)[t] == multiset(command)[t])
  {
    var init := InitialState(command, output, irCompiler);
    var sc := ScanFrom(params, command, 0, init, skipAssembly).value;
    ScanRemoves(params, command, init, skipAssembly);
    CompileAfterScan(params, command, output, irCompiler, skipAssembly, sc);
  }

  lemma ScanRemoves(params: set<string>, command: seq<string>, init: ScanState, skipAssembly: bool)
    requires |command| > 0 && command[0] !in Unsupported && UnsupportedNotValues(params, command)
    requires init.skipNext && init.realCmd == command
    requires ScanFrom(params, command, 0, init, skipAssembly).Ok?
    ensures var sc := ScanFrom(params, command, 0, init, skipAssembly).value;
      && (forall t :: t in Unsupported ==> t !in sc.realCmd)
      && (forall t :: t !in Unsupported ==> multiset(sc.realCmd)[t] == multiset(command)[t])
  {
    var st1 := SkipExecutable(params, command, init, skipAssembly);
    ScanFromKeepsRemovalInv(params, command, 1, st1, skipAssembly);
    RemovalComplete(params, command, ScanFrom(params, command, 1, st1, skipAssembly).value);
  }

  lemma RemovalComplete(params: set<string>, command: seq<string>, sc: ScanState)
    requires |command| > 0 && command[0] !in Unsupported && RemovalInv(params, command, |command|, sc)
    ensures forall t :: t in Unsupported ==> t !in sc.realCmd
    ensures forall t :: t !in Unsupported ==> multiset(sc.realCmd)[t] == multiset(command)[t]
  {
    assert command == [command[0]] + command[1..|command|];
    forall t | t in Unsupported
      ensures t !in sc.realCmd
    {
      assert multiset(command)[t] == multiset(command[1..|command|])[t];
    }
  }

  /** The first step of the scan skips the executable. */
  lemma SkipExecutable(params: set<string>, command: seq<string>, init: ScanState, skipAssembly: bool)
    returns (st1: ScanState)
    requires |command| > 0 && init.skipNext && init.realCmd == command
    ensures ScanFrom(params, command, 0, init, skipAssembly) == ScanFrom(params, command, 1, st1, skipAssembly)
    ensures RemovalInv(params, command, 1, st1)
  {
    ScanFromUnfold(params, command, 0, init, skipAssembly);
    st1 := init.(skipNext := false);
    assert command[1..1] == [];
  }

  lemma ExampleOptionStep(params: set<string>, cmd: seq<string>, st1: ScanState, skipAssembly: bool)
    requires "-c" !in params && |cmd| == 3 && cmd[1] == "-c" && !st1.skipNext
    ensures Step(params, cmd, 1, st1, skipAssembly) == Ok(st1.(ir := st1.ir + ["-c"]))
  {
    assert !StartsWith("-c", "-g") by { assert "-c"[1] != "-g"[1]; }
    assert StartsWith("-c", "-") by { assert "-c"[..1] == "-"; }
    assert "-c" !in Unsupported;
  }
  lemma ExampleInputStep(params: set<string>, cmd: seq<string>, st2: ScanState, skipAssembly: bool)
    requires |cmd| == 3 && cmd[2] == "foo.c" && !st2.skipNext
    ensures Step(params, cmd, 2, st2, skipAssembly) == Ok(st2.(inputs := st2.inputs + ["foo.c"], ir := st2.ir + ["foo.c"]))
  {
    assert !StartsWith("foo.c", "-") by { assert "foo.c"[0] != '-'; }
    assert !EndsWith("foo.c", ".s") by { assert "foo.c"[4] != 's'; }
    assert !EndsWith("foo.c", ".S") by { assert "foo.c"[4] != 'S'; }
  }
  lemma ExampleFinish(st: ScanState)
    requires st.inputs == ["foo.c"] && st.output == ""
    ensures Finish(st) == Ok(st.(output := "foo.o.bc", ir := st.ir + ["-o", "foo.o.bc"] + AnalysisFlags))
  {
    var p := "foo.c";
    assert p[3] == '.' && RFind(p, '.') == 3 && RFind(p, '/') == -1 && p[0] != '.';
    assert SplitExt(p).0 == "foo";
    BitcodeNameOfObject();
    assert "foo" + ".o" == "foo.o";
  }
  lemma ExampleScan(params: set<string>, skipAssembly: bool)
    requires "-c" !in params
    ensures ScanFrom(params, ["clang++", "-c", "foo.c"], 0, InitialState(["clang++", "-c", "foo.c"], "", "clang++"), skipAssembly)
         == Ok(ScanState(["clang++", "-c", "foo.c"], ["clang++", "-c", "foo.c"], ["foo.c"], "", false, false))
  {
    var cmd := ["clang++", "-c", "foo.c"];
    assert cmd[1] == "-c" && cmd[2] == "foo.c";
    var st0 := InitialState(cmd, "", "clang++");
    var st1 := st0.(skipNext := false);
    ScanFromUnfold(params, cmd, 0, st0, skipAssembly);
    var st2 := st1.(ir := st1.ir + ["-c"]);
    ScanFromUnfold(params, cmd, 1, st1, skipAssembly);
    ExampleOptionStep(params, cmd, st1, skipAssembly);
    var st3 := st2.(inputs := st2.inputs + ["foo.c"], ir := st2.ir + ["foo.c"]);
    ScanFromUnfold(params, cmd, 2, st2, skipAssembly);
    ExampleInputStep(params, cmd, st2, skipAssembly);
    assert ScanFrom(params, cmd, 3, st3, skipAssembly) == Ok(st3);
    assert st3.ir == ["clang++", "-c", "foo.c"] && st3.inputs == ["foo.c"];
  }

  /** `clang++ -c foo.c` gives the IR command
      `clang++ -c foo.c -o foo.o.bc -gline-tables-only -emit-llvm -fno-inline`
      and the output foo.o.bc, whatever the table holds besides "-c". */
  lemma CompileExample(params: set<string>, skipAssembly: bool)
    requires "-c" !in params
    ensures Compile(params, ["clang++", "-c", "foo.c"], "", "clang++", skipAssembly)
         == Ok(ScanState(["clang++", "-c", "foo.c", "-o", "foo.o.bc", "-gline-tables-only", "-emit-llvm", "-fno-inline"],
                         ["clang++", "-c", "foo.c"], ["foo.c"], "foo.o.bc", false, false))
  {
    var cmd := ["clang++", "-c", "foo.c"];
    var st3 := ScanState(["clang++", "-c", "foo.c"], cmd, ["foo.c"], "", false, false);
    ExampleScan(params, skipAssembly);
    assert "-c" in cmd by { assert cmd[1] == "-c"; }
    CompileAfterScan(params, cmd, "", "clang++", skipAssembly, st3);
    ExampleFinish(st3);
    assert st3.ir + ["-o", "foo.o.bc"] + AnalysisFlags
        == ["clang++", "-c", "foo.c", "-o", "foo.o.bc", "-gline-tables-only", "-emit-llvm", "-fno-inline"];
  }
}
