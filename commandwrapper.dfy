/** The state every generate-ir wrapper shares: the real command line, the
    IR-generation command line computed from it, the output file, the
    wrapper's mode, and the naming rule that maps a native build product to
    the bitcode file written next to it. */
module CommandWrapper {
  import opened Wrappers
  import opened Strings

  /** What a wrapper raises; each becomes the process's failure.
      `NameError` is Python's error for a class that no module defines;
      `WrapperError` stands for CommandWrapperError, which the dispatch
      script for file operations raises but which is not part of this model;
      `AttributeError` is Python's error for reading an enumeration member
      that the enumeration does not declare. */
  datatype Error =
    | AssertionFailed(what: string)
    | RuntimeError(message: string)
    | NotImplemented(message: string)
    | IndexError
    | CalledProcessError(command: seq<string>)
    | NameError(name: string)
    | WrapperError(message: string)
    | AttributeError(name: string)

  /** The kind of product a wrapper invocation builds. `Coreutils` is the
      mode the file-operation wrappers assign; the Mode enumeration as
      written does not declare it (see InitialModeAsWritten), and this
      model adds it as the evidently intended member. */
  datatype Mode = Unknown | SharedLib | StaticLib | ObjectFile | Executable | Ranlib | Coreutils

  /** Which wrapper class an object stands for. The `Unix…` kinds are the
      wrappers of unixcommandswrapper.py, the `Coreutils…` kinds those of
      coreutilswrapper.py. */
  datatype Kind = Compiler | Linker | Archiver | RanlibTool
                | UnixMv | UnixLn | UnixCp | CoreutilsMv | CoreutilsLn

  /** The bitcode file produced beside a native build product: a versioned
      shared library keeps its version after the inserted "bc", anything
      else gets ".bc" appended. */
  function CorrespondingBitcodeName(fname: string): (r: string)
  {
    if Contains(fname, ".so.") then ReplaceAll(fname, ".so.", ".so.bc.") else fname + ".bc"
  }

  /** A name without a version part gets ".bc" appended. */
  lemma BitcodeNameUnversioned(fname: string)
    requires !Contains(fname, ".so.")
    ensures CorrespondingBitcodeName(fname) == fname + ".bc"
    ensures EndsWith(CorrespondingBitcodeName(fname), ".bc")
  {
  }

  /** `libfoo.so.1.2.3` becomes `libfoo.so.bc.1.2.3`: "bc." goes right after
      the first ".so.", and the version text is kept. */
  lemma BitcodeNameVersioned(stem: string, version: string)
    requires !Contains(stem + ".so", ".so.") && !Contains(version, ".so.")
    ensures CorrespondingBitcodeName(stem + ".so." + version) == stem + ".so.bc." + version
  {
    var f := stem + ".so." + version;
    assert f == stem + (".so." + version);
    assert OccursAt(f, ".so.", |stem|);
    assert Contains(f, ".so.");
    forall i | 0 <= i < |stem| ensures !OccursAt(f, ".so.", i) {
      if OccursAt(f, ".so.", i) {
        assert f[i..i + 4] == (stem + ".so")[i..i + 4];
        assert OccursAt(stem + ".so", ".so.", i);
      }
    }
    ReplaceAllSkip(stem, ".so." + version, ".so.", ".so.bc.");
    assert (".so." + version)[..4] == ".so.";
    assert (".so." + version)[4..] == version;
    ReplaceAllAbsent(version, ".so.", ".so.bc.");
    assert f == stem + (".so." + version);
  }

  lemma BitcodeNameOfLibrary()
    ensures CorrespondingBitcodeName("libfoo.so.1.2.3") == "libfoo.so.bc.1.2.3"
  {
    var s, t := "libfoo.so", "1.2.3";
    forall i | 0 <= i <= |s| - 4 ensures !OccursAt(s, ".so.", i) {
      assert s[i..i + 4][1] == s[i + 1];
    }
    forall i | 0 <= i <= |t| - 4 ensures !OccursAt(t, ".so.", i) {
      assert t[i..i + 4][1] == t[i + 1];
    }
    assert "libfoo" + ".so" == s;
    BitcodeNameVersioned("libfoo", "1.2.3");
    assert "libfoo" + ".so." + "1.2.3" == "libfoo.so.1.2.3";
  }

  lemma BitcodeNameOfObject()
    ensures CorrespondingBitcodeName("foo.o") == "foo.o.bc"
  {
    var u := "foo.o";
    forall i | 0 <= i <= |u| - 4 ensures !OccursAt(u, ".so.", i) {
      assert u[i..i + 4][1] == u[i + 1];
    }
  }

  /** The bitcode file is never the native file itself: its name is longer. */
  lemma BitcodeNameLonger(fname: string)
    ensures |CorrespondingBitcodeName(fname)| > |fname|
  {
    if Contains(fname, ".so.") {
      ReplaceAllLength(fname, ".so.", ".so.bc.");
    }
  }

  /** The bitcode name contains ".so.bc" exactly when the native name is a
      shared library, plain (`.so` at the end) or versioned (`.so.` inside). */
  lemma BitcodeNameSharedLib(fname: string)
    ensures Contains(CorrespondingBitcodeName(fname), ".so.bc")
        <==> Contains(fname, ".so.") || EndsWith(fname, ".so")
  {
    var r := CorrespondingBitcodeName(fname);
    if Contains(fname, ".so.") {
      ReplaceAllPresent(fname, ".so.", ".so.bc.");
      var i :| OccursAt(r, ".so.bc.", i);
      assert OccursAt(r, ".so.bc.", i);
      assert r[i..i + 6] == r[i..i + 7][..6];
      assert OccursAt(r, ".so.bc", i);
    } else {
      assert r == fname + ".bc";
      var n := |fname|;
      if EndsWith(fname, ".so") {
        assert fname[n - 3..] == ".so";
        assert r[n - 3..n + 3] == fname[n - 3..] + ".bc";
        assert OccursAt(r, ".so.bc", n - 3);
      }
      if Contains(r, ".so.bc") {
        var i :| OccursAt(r, ".so.bc", i);
        assert OccursAt(r, ".so.bc", i);
        if i + 4 <= n {
          assert r[i..i + 4] == r[i..i + 6][..4];
          assert fname[i..i + 4] == r[i..i + 4];
          assert OccursAt(fname, ".so.", i);
        } else if i == n - 3 {
          assert r[n - 3..n] == r[i..i + 6][..3];
          assert fname[n - 3..] == r[n - 3..n];
        }
      }
    }
  }

  /** Every clang and gcc option that takes its value as the next argument;
      the table is a set, so options listed by both compilers occur once.
      "-c" is not among them. The table is kept as the union of a few
      smaller groups in the order the options are listed. */
  const ClangParamsWithArgument: set<string> :=
    ClangOptionsA + ClangOptionsB + ClangOptionsC + GccOptionsA + GccOptionsB

  const ClangOptionsA: set<string> := {
    "-L", "-arcmt-migrate-report-output", "-ccc-arcmt-migrate", "-ccc-gcc-name",
    "-ccc-install-dir", "-ccc-objcmt-migrate", "-cxx-isystem", "-dependency-dot",
    "-dependency-file", "-fmodules-user-build-path", "-F", "-idirafter", "-iframework"
  }

  const ClangOptionsB: set<string> := {
    "-imacros", "-include", "-include-pch", "-iprefix", "-iquote", "-isysroot", "-isystem",
    "-I", "-ivfsoverlay", "-iwithprefixbefore", "-iwithprefix", "-iwithsysroot", "-MF",
    "-mllvm"
  }

  const ClangOptionsC: set<string> := {
    "-module-dependency-dir", "-MQ", "-MT", "-o", "-resource-dir", "-serialize-diagnostics",
    "-working-directory", "-Xanalyzer", "-Xassembler", "-Xclang", "-x", "-Xlinker",
    "-Xpreprocessor", "-z"
  }

  const GccOptionsA: set<string> := {
    "-aux-info", "--base_file", "-B", "-dumpbase", "-dumpdir", "--file-alignment", "--heap",
    "--image-base", "-imultiarch", "-imultilib", "--major-image-version", "--major-os-version"
  }

  const GccOptionsB: set<string> := {
    "--major-subsystem-version", "--minor-image-version", "--minor-os-version",
    "--minor-subsystem-version", "--out-implib", "--output-def", "--param",
    "--section-alignment", "--stack", "--subsystem"
  }

  /** Facts about the table the rewriters rely on: every entry is an
      option, none is a debug-info ("-g…") or library ("-l…") option, and
      the compile flag "-c" and the options the compiler wrapper drops are
      not in it. */
  lemma ParamTableShape(p: string)
    requires p in ClangParamsWithArgument
    ensures |p| >= 2 && p[0] == '-' && p[1] != 'g' && p[1] != 'l'
    ensures p !in {"-c", "-finline", "-Wa,--noexecstack", "-fexcess-precision=standard"}
    ensures p !in {"-frounding-math", "-shared", "-ffreestanding", "-pthread"}
  {
    if p in ClangOptionsA {
      ClangOptionsAShape(p);
    } else if p in ClangOptionsB {
      ClangOptionsBShape(p);
    } else if p in ClangOptionsC {
      ClangOptionsCShape(p);
    } else if p in GccOptionsA {
      GccOptionsAShape(p);
    } else {
      GccOptionsBShape(p);
    }
  }

  /** The shape every entry of the table has. */
  ghost predicate EntryShape(p: string)
  {
    && |p| >= 2 && p[0] == '-' && p[1] != 'g' && p[1] != 'l'
    && p !in {"-c", "-finline", "-Wa,--noexecstack", "-fexcess-precision=standard"}
    && p !in {"-frounding-math", "-shared", "-ffreestanding", "-pthread"}
  }

  lemma ClangOptionsAShape(p: string)
    requires p in ClangOptionsA
    ensures EntryShape(p)
  {
  }

  lemma ClangOptionsBShape(p: string)
    requires p in ClangOptionsB
    ensures EntryShape(p)
  {
  }

  lemma ClangOptionsCShape(p: string)
    requires p in ClangOptionsC
    ensures EntryShape(p)
  {
  }

  lemma GccOptionsAShape(p: string)
    requires p in GccOptionsA
    ensures EntryShape(p)
  {
  }

  lemma GccOptionsBShape(p: string)
    requires p in GccOptionsB
    ensures EntryShape(p)
  {
  }

  /** The table is built on first use and the same table is handed out on
      every later use. */
  class ParamTableCache {
    var table: Option<set<string>>

    ghost predicate Valid() reads this
    {
      table == None || table == Some(ClangParamsWithArgument)
    }

    constructor ()
      ensures Valid() && table == None
    {
      table := None;
    }

    method Get() returns (r: set<string>)
      requires Valid()
      modifies this
      ensures Valid() && table == Some(ClangParamsWithArgument)
      ensures r == ClangParamsWithArgument
      ensures old(table).Some? ==> r == old(table).value
    {
      if table.Some? && table.value != {} {
        return table.value;
      }
      table := Some(ClangParamsWithArgument);
      r := ClangParamsWithArgument;
    }
  }

  /** The real executable a wrapper runs: the one on $PATH when delegating to
      the system compiler, otherwise SOAAP's own build of the tool, falling
      back to $PATH; `soaapBinary` and `onPath` are the answers of the two
      file-system lookups. */
  function ResolveExecutable(delegate: bool, soaapBinary: Option<string>, onPath: Option<string>): (r: Option<string>)
    ensures delegate ==> r == onPath
    ensures !delegate && soaapBinary.Some? && soaapBinary.value != "" ==> r == soaapBinary
    ensures !delegate && (soaapBinary.None? || soaapBinary.value == "") ==> r == onPath
  {
    if delegate then onPath
    else if soaapBinary.Some? && soaapBinary.value != "" then soaapBinary
    else onPath
  }

  /** Every argument with surrounding whitespace removed. */
  function StripAll(cmd: seq<string>): (r: seq<string>)
    ensures |r| == |cmd| && forall i :: 0 <= i < |cmd| ==> r[i] == Strip(cmd[i])
  {
    seq(|cmd|, i requires 0 <= i < |cmd| => Strip(cmd[i]))
  }

  /** The compile command that writes an empty bitcode file to `output`. */
  function EmptyBitcodeCommand(clang: string, output: string): seq<string>
  {
    [clang, "-c", "-emit-llvm", "-o", output, "-x", "c", "/dev/null"]
  }

  class CommandWrapper {
    const kind: Kind
    /** The command that is really run, argument by argument. */
    var realCommand: seq<string>
    /** The command that writes the bitcode beside the real product. */
    var generateIrCommand: seq<string>
    var nothingToDo: bool
    /** The tool name as invoked, before the real executable was looked up. */
    const executable: string
    var mode: Mode
    var output: string
    /** Compiler: an assembly input was skipped, write an empty bitcode file. */
    var generateEmptyOutput: bool
    /** Linker: the non-library inputs and the libraries to link against. */
    var linkCandidates: seq<string>
    var sharedLibs: seq<string>
    var noDefaultLibs: bool
    /** Archiver: `ar` was given no members. */
    var emptyOutputFile: bool
    /** File operations: inject "-f" so the bitcode copy overwrites. */
    var needForce: bool

    /** The state right after construction; `real0` is the resolved
        executable standing in for the first argument. */
    ghost predicate Initial(k: Kind, cmd: seq<string>, real0: string)
      reads this
      requires |cmd| > 0
    {
      kind == k && realCommand == [real0] + StripAll(cmd)[1..]
      && generateIrCommand == [] && !nothingToDo && executable == Strip(cmd[0])
      && mode == InitialMode(k) && output == ""
      && !generateEmptyOutput && linkCandidates == [] && sharedLibs == [] && !noDefaultLibs
      && !emptyOutputFile && needForce == (k == UnixMv || k == UnixLn)
    }

    constructor (k: Kind, cmd: seq<string>, real0: string)
      requires |cmd| > 0
      ensures Initial(k, cmd, real0)
    {
      kind := k;
      var stripped := StripAll(cmd);
      realCommand := [real0] + stripped[1..];
      generateIrCommand := [];
      nothingToDo := false;
      executable := stripped[0];
      mode := InitialMode(k);
      output := "";
      generateEmptyOutput := false;
      linkCandidates := [];
      sharedLibs := [];
      noDefaultLibs := false;
      emptyOutputFile := false;
      needForce := k == UnixMv || k == UnixLn;
    }
  }

  /** The mode a wrapper's constructor sets before anything is parsed. */
  function InitialMode(k: Kind): (m: Mode)
    ensures k == Linker ==> m == Unknown
    ensures k == Compiler ==> m == ObjectFile
  {
    match k
    case Compiler => ObjectFile
    case Linker => Unknown
    case Archiver => StaticLib
    case RanlibTool => Ranlib
    case _ => Coreutils
  }

  /** The wrappers of cp, mv and ln, which set the coreutils mode. */
  predicate IsFileOperation(k: Kind)
  {
    k in {UnixMv, UnixLn, UnixCp, CoreutilsMv, CoreutilsLn}
  }

  /** The mode assignment as written: the file-operation wrappers read
      `Mode.coreutils`, which the enumeration does not declare, so the
      lookup raises AttributeError after the base constructor has run. */
  function InitialModeAsWritten(k: Kind): (r: Result<Mode, Error>)
  {
    if IsFileOperation(k) then Err(AttributeError("coreutils")) else Ok(InitialMode(k))
  }

  /** As written, exactly the file-operation wrappers fail to construct,
      and exactly they are the ones whose intended mode is the member the
      enumeration lacks; every other wrapper gets the intended mode. */
  lemma CoreutilsModeUndeclared(k: Kind)
    ensures InitialModeAsWritten(k).Err? <==> InitialMode(k) == Coreutils
    ensures InitialModeAsWritten(k).Err? ==> InitialModeAsWritten(k).error == AttributeError("coreutils")
    ensures InitialModeAsWritten(k).Ok? ==> InitialModeAsWritten(k).value == InitialMode(k)
  {
  }

  /** Building an mv wrapper raises as written, although the intended mode
      of that wrapper is the coreutils one. */
  lemma MvWrapperRaisesAsWritten()
    ensures InitialModeAsWritten(UnixMv) == Err(AttributeError("coreutils"))
    ensures InitialModeAsWritten(CoreutilsMv) == Err(AttributeError("coreutils"))
    ensures InitialMode(UnixMv) == Coreutils
  {
  }

  /** Create as the constructors are written: the base constructor's
      IndexError and assertion come first, then every file-operation
      wrapper raises AttributeError on the undeclared mode; the rest of the
      model uses Create, which gives those wrappers the coreutils mode. */
  method CreateAsWritten(k: Kind, cmd: seq<string>, delegate: bool, soaapBinary: Option<string>, onPath: Option<string>)
    returns (r: Result<CommandWrapper, Error>)
    ensures |cmd| == 0 ==> r == Err(IndexError)
    ensures |cmd| > 0 && ResolveExecutable(delegate, soaapBinary, onPath) in {None, Some("")}
            ==> r == Err(AssertionFailed("realCommand[0]"))
    ensures |cmd| > 0 && ResolveExecutable(delegate, soaapBinary, onPath) !in {None, Some("")}
            ==> (r.Ok? <==> !IsFileOperation(k))
    ensures |cmd| > 0 && ResolveExecutable(delegate, soaapBinary, onPath) !in {None, Some("")} && IsFileOperation(k)
            ==> r == Err(AttributeError("coreutils"))
    ensures r.Ok? ==>
              fresh(r.value) && |cmd| > 0
              && r.value.Initial(k, cmd, ResolveExecutable(delegate, soaapBinary, onPath).value)
  {
    r := Create(k, cmd, delegate, soaapBinary, onPath);
    if r.Ok? && InitialModeAsWritten(k).Err? {
      r := Err(InitialModeAsWritten(k).error);
    }
  }

  /** Builds a wrapper for a command line: the command's arguments are
      stripped, and its first argument is replaced by the resolved
      executable; an empty command line or an executable found nowhere
      fails. */
  method Create(k: Kind, cmd: seq<string>, delegate: bool, soaapBinary: Option<string>, onPath: Option<string>)
    returns (r: Result<CommandWrapper, Error>)
    ensures |cmd| == 0 ==> r == Err(IndexError)
    ensures |cmd| > 0 && ResolveExecutable(delegate, soaapBinary, onPath) in {None, Some("")}
            ==> r == Err(AssertionFailed("realCommand[0]"))
    ensures |cmd| > 0 && ResolveExecutable(delegate, soaapBinary, onPath) !in {None, Some("")} ==> r.Ok?
    ensures r.Ok? ==>
              fresh(r.value) && |cmd| > 0
              && ResolveExecutable(delegate, soaapBinary, onPath).Some?
              && r.value.Initial(k, cmd, ResolveExecutable(delegate, soaapBinary, onPath).value)
              && r.value.realCommand[0] != ""
  {
    if |cmd| == 0 {
      return Err(IndexError);
    }
    var real0 := ResolveExecutable(delegate, soaapBinary, onPath);
    var w := new CommandWrapper(k, cmd, if real0.Some? then real0.value else "");
    if real0.None? || real0.value == "" {
      return Err(AssertionFailed("realCommand[0]"));
    }
    return Ok(w);
  }
}
