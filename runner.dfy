/** How a wrapper runs once it has been built: the IR command, or its
    role-specific replacement, before the real command, with every
    subprocess answered by an oracle. */
module Runner {
  import opened Wrappers
  import opened CommandWrapper
  import CompilerWrapper
  import LinkerWrapper
  import CoreutilsWrapper

  /** What the wrapper asks of the operating system: replacing the process
      (`execv`) or running a command to completion (`check_call`). */
  datatype Action = Exec(argv: seq<string>) | Call(argv: seq<string>)

  /** The answers of everything outside the wrapper: environment flags,
      SOAAP's binaries, the file system, `file`, the library test, the
      name of the temporary file, and whether a command exits with 0. */
  datatype Environment = Environment(
    noEmit: bool,
    skipAssembly: bool,
    irCompiler: string,
    clang: string,
    llvmLink: string,
    present: set<string>,
    fileType: string -> string,
    isLibrary: string -> bool,
    tmpName: string,
    succeeds: seq<string> -> bool)

  /** The actions taken and the exception that ended the run, if any. */
  datatype Outcome = Outcome(trace: seq<Action>, err: Option<Error>)

  /** The fields of a wrapper that running it depends on. */
  datatype Computed = Computed(
    kind: Kind,
    realCommand: seq<string>,
    generateIrCommand: seq<string>,
    nothingToDo: bool,
    generateEmptyOutput: bool,
    emptyOutputFile: bool,
    output: string)

  /** `check_call` on each command in turn, stopping at the first that fails. */
  function RunCalls(cmds: seq<seq<string>>, succeeds: seq<string> -> bool): (o: Outcome)
    ensures |o.trace| <= |cmds|
    decreases |cmds|
  {
    if cmds == [] then Outcome([], None)
    else if !succeeds(cmds[0]) then Outcome([Call(cmds[0])], Some(CalledProcessError(cmds[0])))
    else
      var rest := RunCalls(cmds[1..], succeeds);
      Outcome([Call(cmds[0])] + rest.trace, rest.err)
  }

  /** The commands run are a prefix of `cmds`; the run ends without error
      exactly when every command succeeds, and otherwise with the error of
      the last command run, the first one that failed. */
  lemma {:induction false} RunCallsFacts(cmds: seq<seq<string>>, succeeds: seq<string> -> bool)
    ensures var o := RunCalls(cmds, succeeds);
      && (forall i :: 0 <= i < |o.trace| ==> o.trace[i] == Call(cmds[i]))
      && (o.err.None? <==> |o.trace| == |cmds| && forall c :: c in cmds ==> succeeds(c))
      && (o.err.Some? ==>
            |o.trace| > 0 && !succeeds(cmds[|o.trace| - 1])
            && o.err.value == CalledProcessError(cmds[|o.trace| - 1])
            && forall i :: 0 <= i < |o.trace| - 1 ==> succeeds(cmds[i]))
    decreases |cmds|
  {
    if cmds != [] && succeeds(cmds[0]) {
      RunCallsFacts(cmds[1..], succeeds);
      assert forall c :: c in cmds ==> c == cmds[0] || c in cmds[1..];
    }
  }

  /** The commands runGenerateIrCommand runs: an empty bitcode file for a
      compile of a skipped assembly file; an empty bitcode file linked into
      an archive without members; otherwise the IR command itself. */
  function IrCommands(c: Computed, env: Environment): (cmds: seq<seq<string>>)
    ensures |cmds| > 0
  {
    if c.kind == Compiler && c.generateEmptyOutput then
      [EmptyBitcodeCommand(env.clang, c.output)]
    else if c.kind == Archiver && c.emptyOutputFile then
      [EmptyBitcodeCommand(env.clang, env.tmpName), c.generateIrCommand + [env.tmpName]]
    else
      [c.generateIrCommand]
  }

  /** The part of CommandWrapper.run after computeWrapperCommand. */
  function Execute(c: Computed, env: Environment): Outcome
  {
    if |c.generateIrCommand| == 0 && !c.nothingToDo then
      Outcome([], Some(RuntimeError("Could not determine IR command line from")))
    else if c.nothingToDo then
      RunCalls([c.realCommand], env.succeeds)
    else
      RunCalls(IrCommands(c, env) + [c.realCommand], env.succeeds)
  }

  /** The commands of `cmds` as check_call actions. */
  function Calls(cmds: seq<seq<string>>): (r: seq<Action>)
    ensures |r| == |cmds| && forall i :: 0 <= i < |cmds| ==> r[i] == Call(cmds[i])
  {
    seq(|cmds|, i requires 0 <= i < |cmds| => Call(cmds[i]))
  }

  /** An empty IR command is rejected, before anything runs, exactly when
      there is something to do. */
  lemma EmptyIrRejected(c: Computed, env: Environment)
    ensures var o := Execute(c, env);
      (o.trace == [] <==> |c.generateIrCommand| == 0 && !c.nothingToDo)
      && (o.trace == [] ==> o.err == Some(RuntimeError("Could not determine IR command line from")))
  {
    var o := Execute(c, env);
    if !(|c.generateIrCommand| == 0 && !c.nothingToDo) {
      var cmds := if c.nothingToDo then [c.realCommand] else IrCommands(c, env) + [c.realCommand];
      assert o == RunCalls(cmds, env.succeeds);
    RunCallsFacts(cmds, env.succeeds);
      assert |o.trace| > 0 by {
        if o.err.None? {
          assert |o.trace| == |cmds|;
        }
      }
    }
  }

  /** With nothing to do only the real command runs, and the run succeeds
      exactly when it does. */
  lemma NothingToDoRunsOnlyReal(c: Computed, env: Environment)
    requires c.nothingToDo
    ensures Execute(c, env).trace == [Call(c.realCommand)]
    ensures Execute(c, env).err.None? <==> env.succeeds(c.realCommand)
  {
    assert [c.realCommand][1..] == [];
    assert RunCalls([c.realCommand][1..], env.succeeds) == Outcome([], None);
  }

  /** A run that finishes has run every IR command and then the real
      command, in that order, and all of them exited with 0. */
  lemma CompletedRunOrder(c: Computed, env: Environment)
    requires Execute(c, env).err.None?
    ensures !c.nothingToDo ==>
              Execute(c, env).trace == Calls(IrCommands(c, env)) + [Call(c.realCommand)]
              && forall cmd :: cmd in IrCommands(c, env) ==> env.succeeds(cmd)
    ensures env.succeeds(c.realCommand)
  {
    var o := Execute(c, env);
    if !c.nothingToDo {
      var cmds := IrCommands(c, env) + [c.realCommand];
      assert o == RunCalls(cmds, env.succeeds);
    RunCallsFacts(cmds, env.succeeds);
      assert o.trace == Calls(IrCommands(c, env)) + [Call(c.realCommand)];
      assert c.realCommand in cmds;
      forall cmd | cmd in IrCommands(c, env)
        ensures env.succeeds(cmd)
      {
        assert cmd in cmds;
      }
    }
  }

  /** When an IR command fails, the run stops there with that command's
      error and the real command is never reached. */
  lemma IrFailureSkipsReal(c: Computed, env: Environment, k: nat)
    requires !c.nothingToDo && |c.generateIrCommand| > 0
    requires k < |IrCommands(c, env)| && !env.succeeds(IrCommands(c, env)[k])
    ensures var o := Execute(c, env);
      && o.err.Some? && o.err.value.CalledProcessError?
      && 0 < |o.trace| <= k + 1
      && o.trace == Calls(IrCommands(c, env)[..|o.trace|])
  {
    var irs := IrCommands(c, env);
    var cmds := irs + [c.realCommand];
    var o := Execute(c, env);
    assert o == RunCalls(cmds, env.succeeds);
    RunCallsFacts(cmds, env.succeeds);
    assert cmds[k] == irs[k];
    assert irs[k] in cmds;
    assert o.err.Some?;
    assert !(k < |o.trace| - 1);
    assert o.trace == Calls(irs[..|o.trace|]);
  }

  /** A compile whose only input was a skipped assembly file runs the
      empty-bitcode command for its output in place of its IR command. */
  lemma SkippedAssemblyWritesEmptyBitcode(c: Computed, env: Environment)
    requires c.kind == Compiler && c.generateEmptyOutput && !c.nothingToDo && |c.generateIrCommand| > 0
    ensures var o := Execute(c, env);
      && 0 < |o.trace| <= 2
      && o.trace[0] == Call(EmptyBitcodeCommand(env.clang, c.output))
      && (o.err.None? ==> o.trace == [Call(EmptyBitcodeCommand(env.clang, c.output)), Call(c.realCommand)])
  {
    var o := Execute(c, env);
    var cmds := [EmptyBitcodeCommand(env.clang, c.output), c.realCommand];
    assert o == RunCalls(cmds, env.succeeds);
    RunCallsFacts(cmds, env.succeeds);
    assert |o.trace| > 0 by {
      if o.err.None? {
        assert |o.trace| == 2;
      }
    }
  }

  /** An archive without members first compiles /dev/null to the temporary
      file, then links the members' bitcode together with that file. */
  lemma EmptyArchiveLinksTemporary(c: Computed, env: Environment)
    requires c.kind == Archiver && c.emptyOutputFile && !c.nothingToDo && |c.generateIrCommand| > 0
    requires Execute(c, env).err.None?
    ensures Execute(c, env).trace
            == [Call(EmptyBitcodeCommand(env.clang, env.tmpName)),
                Call(c.generateIrCommand + [env.tmpName]),
                Call(c.realCommand)]
  {
    CompletedRunOrder(c, env);
  }

  /** The wrapper's fields as running depends on them. */
  function Snapshot(w: CommandWrapper): Computed
    reads w
  {
    Computed(w.kind, w.realCommand, w.generateIrCommand, w.nothingToDo,
             w.generateEmptyOutput, w.emptyOutputFile, w.output)
  }

  /** runCommand: check_call of one command, appended to the trace. */
  method RunCommand(trace: seq<Action>, cmd: seq<string>, succeeds: seq<string> -> bool)
    returns (trace': seq<Action>, err: Option<Error>)
    ensures trace' == trace + [Call(cmd)]
    ensures err.None? <==> succeeds(cmd)
    ensures err.Some? ==> err.value == CalledProcessError(cmd)
  {
    trace' := trace + [Call(cmd)];
    if !succeeds(cmd) {
      err := Some(CalledProcessError(cmd));
    } else {
      err := None;
    }
  }

  /** runGenerateIrCommand and its compiler and archiver overrides; the
      archiver appends the temporary file to its IR command once the empty
      bitcode file exists. */
  method RunGenerateIr(w: CommandWrapper, env: Environment) returns (o: Outcome)
    modifies w`generateIrCommand
    ensures o == RunCalls(IrCommands(old(Snapshot(w)), env), env.succeeds)
    ensures w.generateIrCommand
            == if w.kind == Archiver && w.emptyOutputFile
                  && env.succeeds(EmptyBitcodeCommand(env.clang, env.tmpName))
               then old(w.generateIrCommand) + [env.tmpName]
               else old(w.generateIrCommand)
  {
    ghost var c := Snapshot(w);
    var trace, err;
    if w.kind == Compiler && w.generateEmptyOutput {
      trace, err := RunCommand([], EmptyBitcodeCommand(env.clang, w.output), env.succeeds);
      return Outcome(trace, err);
    }
    if w.kind == Archiver && w.emptyOutputFile {
      trace, err := RunCommand([], EmptyBitcodeCommand(env.clang, env.tmpName), env.succeeds);
      if err.Some? {
        return Outcome(trace, err);
      }
      w.generateIrCommand := w.generateIrCommand + [env.tmpName];
      trace, err := RunCommand(trace, w.generateIrCommand, env.succeeds);
      ghost var cmds := IrCommands(c, env);
      assert cmds == [EmptyBitcodeCommand(env.clang, env.tmpName), w.generateIrCommand];
      assert cmds[1..] == [w.generateIrCommand] && cmds[1..][1..] == [];
      assert RunCalls(cmds[1..][1..], env.succeeds) == Outcome([], None);
      assert RunCalls(cmds[1..], env.succeeds) == Outcome([Call(w.generateIrCommand)], err);
      return Outcome(trace, err);
    }
    trace, err := RunCommand([], w.generateIrCommand, env.succeeds);
    o := Outcome(trace, err);
  }

  /** run after computeWrapperCommand: reject an empty IR command, run the
      IR command unless there is nothing to do, then the real command. */
  method RunComputed(w: CommandWrapper, env: Environment) returns (o: Outcome)
    modifies w`generateIrCommand
    ensures o == Execute(old(Snapshot(w)), env)
  {
    ghost var c := Snapshot(w);
    if |w.generateIrCommand| == 0 && !w.nothingToDo {
      return Outcome([], Some(RuntimeError("Could not determine IR command line from")));
    }
    var trace: seq<Action> := [];
    if !w.nothingToDo {
      var ir := RunGenerateIr(w, env);
      RunCallsAppend(IrCommands(c, env), [c.realCommand], env.succeeds);
      if ir.err.Some? {
        return ir;
      }
      trace := ir.trace;
    }
    var err;
    trace, err := RunCommand(trace, w.realCommand, env.succeeds);
    o := Outcome(trace, err);
  }

  /** Running `a` then `b` is running `a + b`, as long as `a` succeeds. */
  lemma {:induction false} RunCallsAppend(a: seq<seq<string>>, b: seq<seq<string>>, succeeds: seq<string> -> bool)
    ensures var ra := RunCalls(a, succeeds);
      && (ra.err.Some? ==> RunCalls(a + b, succeeds) == ra)
      && (ra.err.None? ==> RunCalls(a + b, succeeds)
                           == Outcome(ra.trace + RunCalls(b, succeeds).trace, RunCalls(b, succeeds).err))
    decreases |a|
  {
    if a == [] {
      assert a + b == b;
    } else {
      var ab := a + b;
      assert ab[0] == a[0];
      assert ab[1..] == a[1..] + b;
      if succeeds(a[0]) {
        RunCallsAppend(a[1..], b, succeeds);
        var r1 := RunCalls(a[1..], succeeds);
        var rb := RunCalls(b, succeeds);
        assert RunCalls(a, succeeds) == Outcome([Call(a[0])] + r1.trace, r1.err);
        assert RunCalls(ab, succeeds) == Outcome([Call(a[0])] + RunCalls(a[1..] + b, succeeds).trace, RunCalls(a[1..] + b, succeeds).err);
        if r1.err.None? {
          assert [Call(a[0])] + (r1.trace + rb.trace) == ([Call(a[0])] + r1.trace) + rb.trace;
        }
      }
    }
  }

  /** What computeWrapperCommand of each role does to the fields running
      depends on, from their values before it: the error it raises, or the
      fields it leaves. It also reads the tool name as invoked, the mode and
      whether -f is to be injected. */
  ghost function Compute(c: Computed, executable: string, mode: Mode, needForce: bool, env: Environment)
    : Result<Computed, Error>
  {
    match c.kind
    case Compiler => ComputeCompile(c, env)
    case Linker => ComputeLink(c, executable, mode, env)
    case Archiver => ComputeArchive(c, env)
    case RanlibTool => ComputeRanlib(c)
    case _ => ComputeFileOperation(c, needForce && c.kind in {UnixMv, UnixLn, UnixCp}, env)
  }

  /** CompilerWrapper.computeWrapperCommand on the fields running depends on. */
  ghost function ComputeCompile(c: Computed, env: Environment): Result<Computed, Error>
  {
    var spec := CompilerWrapper.Compile(ClangParamsWithArgument, c.realCommand, c.output,
                                        env.irCompiler, env.skipAssembly);
    if spec.Err? then Err(spec.error)
    else Ok(c.(generateIrCommand := c.generateIrCommand + spec.value.ir, realCommand := spec.value.realCmd,
               output := spec.value.output, generateEmptyOutput := spec.value.emptyOutput))
  }

  /** LinkerWrapper.computeWrapperCommand on the fields running depends on. */
  ghost function ComputeLink(c: Computed, executable: string, mode: Mode, env: Environment): Result<Computed, Error>
  {
    var spec := LinkerWrapper.Link(ClangParamsWithArgument, executable, c.realCommand, c.output, mode,
                                   env.present, env.fileType, env.llvmLink);
    if spec.Err? then Err(spec.error)
    else Ok(c.(realCommand := spec.value.realCmd, generateIrCommand := spec.value.ir,
               output := spec.value.st.output))
  }

  /** The archiver's computeWrapperCommand on the fields running depends on. */
  ghost function ComputeArchive(c: Computed, env: Environment): Result<Computed, Error>
  {
    var spec := LinkerWrapper.Archive(c.realCommand, env.llvmLink, env.present, env.fileType);
    if spec.Err? then Err(spec.error)
    else Ok(c.(output := spec.value.output, generateIrCommand := spec.value.ir,
               emptyOutputFile := spec.value.emptyOutput))
  }

  /** The ranlib wrapper's computeWrapperCommand: nothing to generate. */
  ghost function ComputeRanlib(c: Computed): Result<Computed, Error>
  {
    var spec := LinkerWrapper.RanlibOutput(c.realCommand);
    if spec.Err? then Err(spec.error) else Ok(c.(output := spec.value, nothingToDo := true))
  }

  /** CoreUtilsWrapper.computeWrapperCommand; `force` says whether -f is injected. */
  ghost function ComputeFileOperation(c: Computed, force: bool, env: Environment): Result<Computed, Error>
  {
    if |c.realCommand| == 0 then Err(IndexError)
    else
      Ok(c.(generateIrCommand := CoreutilsWrapper.Generate(c.realCommand, force, env.isLibrary),
            nothingToDo := c.nothingToDo || !CoreutilsWrapper.AnyLibrary(c.realCommand[1..], env.isLibrary)))
  }

  /** `err` is the error `r` raises, and `after` the fields it leaves. */
  ghost predicate Agrees(r: Result<Computed, Error>, err: Option<Error>, after: Computed)
  {
    && (r.Err? <==> err.Some?)
    && (r.Err? ==> err == Some(r.error))
    && (r.Ok? ==> after == r.value)
  }

  /** ComputeFor of a compiler wrapper. */
  method ComputeCompileFor(w: CommandWrapper, cache: ParamTableCache, env: Environment) returns (err: Option<Error>)
    requires cache.Valid()
    modifies w, cache
    ensures cache.Valid()
    ensures Agrees(ComputeCompile(old(Snapshot(w)), env), err, Snapshot(w))
  {
    err := CompilerWrapper.ComputeWrapperCommand(w, cache, env.irCompiler, env.skipAssembly);
  }

  /** ComputeFor of a link-step wrapper. */
  method ComputeLinkFor(w: CommandWrapper, cache: ParamTableCache, env: Environment) returns (err: Option<Error>)
    requires cache.Valid()
    modifies w, cache
    ensures cache.Valid()
    ensures Agrees(ComputeLink(old(Snapshot(w)), w.executable, old(w.mode), env), err, Snapshot(w))
  {
    err := LinkerWrapper.ComputeLinkCommand(w, cache, env.llvmLink, env.present, env.fileType);
  }

  /** ComputeFor of an archive wrapper. */
  method ComputeArchiveFor(w: CommandWrapper, env: Environment) returns (err: Option<Error>)
    modifies w
    ensures Agrees(ComputeArchive(old(Snapshot(w)), env), err, Snapshot(w))
  {
    err := LinkerWrapper.ComputeArCommand(w, env.llvmLink, env.present, env.fileType);
  }

  /** ComputeFor of a ranlib wrapper. */
  method ComputeRanlibFor(w: CommandWrapper) returns (err: Option<Error>)
    modifies w
    ensures Agrees(ComputeRanlib(old(Snapshot(w))), err, Snapshot(w))
  {
    err := LinkerWrapper.ComputeRanlibCommand(w);
  }

  /** ComputeFor of a cp, mv or ln wrapper of either version. */
  method ComputeFileOperationFor(w: CommandWrapper, env: Environment) returns (err: Option<Error>)
    requires w.generateIrCommand == [] && IsFileOperation(w.kind)
    modifies w
    ensures Agrees(ComputeFileOperation(old(Snapshot(w)), old(w.needForce) && w.kind in {UnixMv, UnixLn, UnixCp}, env),
                   err, Snapshot(w))
  {
    if w.kind in {UnixMv, UnixLn, UnixCp} {
      err := CoreutilsWrapper.ComputeUnixCommand(w, env.isLibrary);
    } else {
      err := CoreutilsWrapper.ComputeCoreutilsCommand(w, env.isLibrary);
    }
  }

  /** computeWrapperCommand of the wrapper's role: it raises exactly the
      error of its role's specification, and otherwise leaves the fields
      that specification computes. */
  method ComputeFor(w: CommandWrapper, cache: ParamTableCache, env: Environment) returns (err: Option<Error>)
    requires cache.Valid() && w.generateIrCommand == []
    modifies w, cache
    ensures cache.Valid()
    ensures Agrees(Compute(old(Snapshot(w)), w.executable, old(w.mode), old(w.needForce), env), err, Snapshot(w))
  {
    match w.kind
    case Compiler =>
      err := ComputeCompileFor(w, cache, env);
    case Linker =>
      err := ComputeLinkFor(w, cache, env);
    case Archiver =>
      err := ComputeArchiveFor(w, env);
    case RanlibTool =>
      err := ComputeRanlibFor(w);
    case _ =>
      err := ComputeFileOperationFor(w, env);
  }

  /** What run leaves once computeWrapperCommand has run: its error, or the
      execution of the commands it computed. */
  ghost function RunAfterCompute(c: Computed, executable: string, mode: Mode, needForce: bool, env: Environment)
    : (o: Outcome)
  {
    var r := Compute(c, executable, mode, needForce, env);
    if r.Err? then Outcome([], Some(r.error)) else Execute(r.value, env)
  }

  /** CommandWrapper.run: with NO_EMIT_LLVM_IR the real command replaces the
      process unchanged; otherwise the wrapper computes its commands and
      runs them in order, stopping at the first error. */
  method Run(w: CommandWrapper, cache: ParamTableCache, env: Environment) returns (o: Outcome)
    requires cache.Valid() && w.generateIrCommand == []
    modifies w, cache
    ensures env.noEmit ==> o == Outcome([Exec(old(w.realCommand))], None) && unchanged(w)
    ensures !env.noEmit ==> o == RunAfterCompute(old(Snapshot(w)), w.executable, old(w.mode), old(w.needForce), env)
    ensures Exec(old(w.realCommand)) in o.trace <==> env.noEmit
  {
    if env.noEmit {
      return Outcome([Exec(w.realCommand)], None);
    }
    var err := ComputeFor(w, cache, env);
    if err.Some? {
      return Outcome([], err);
    }
    ghost var computed := Snapshot(w);
    o := RunComputed(w, env);
    assert forall i :: 0 <= i < |o.trace| ==> o.trace[i].Call? by {
      if o.trace != [] {
        var cmds := if computed.nothingToDo then [computed.realCommand]
                    else IrCommands(computed, env) + [computed.realCommand];
        assert o == RunCalls(cmds, env.succeeds);
        RunCallsFacts(cmds, env.succeeds);
      }
    }
  }

  /** A cp, mv or ln that moves no library, and a ranlib with an argument,
      have nothing to generate: running them runs only the real command. */
  lemma NothingToGenerateRunsOnlyReal(c: Computed, executable: string, mode: Mode, needForce: bool, env: Environment)
    requires |c.realCommand| > 0
    requires (IsFileOperation(c.kind) && !CoreutilsWrapper.AnyLibrary(c.realCommand[1..], env.isLibrary))
             || (c.kind == RanlibTool && |c.realCommand| >= 2)
    ensures RunAfterCompute(c, executable, mode, needForce, env).trace == [Call(c.realCommand)]
    ensures RunAfterCompute(c, executable, mode, needForce, env).err.None? <==> env.succeeds(c.realCommand)
  {
    var r := Compute(c, executable, mode, needForce, env);
    if c.kind == RanlibTool {
      assert r == ComputeRanlib(c);
    } else {
      assert r == ComputeFileOperation(c, needForce && c.kind in {UnixMv, UnixLn, UnixCp}, env);
    }
    assert r.Ok? && r.value.nothingToDo && r.value.realCommand == c.realCommand;
    NothingToDoRunsOnlyReal(r.value, env);
  }
}
