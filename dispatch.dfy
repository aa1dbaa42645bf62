/** The entry scripts of generate-ir: each takes the name it was invoked
    under, decides which wrapper handles the command line, puts the tool
    name in place of the program name, and runs the wrapper.
    llvm-ir-wrapper.py serves every tool; clang-and-emit-llvm-ir.py and
    mv-and-emit-llvm-ir.py are the older per-family scripts, invoked as
    "<tool>-and-emit-llvm-ir.py". */
module Dispatch {
  import opened Wrappers
  import opened Strings
  import opened CommandWrapper
  import Runner

  /** The wrapper chosen for a command line and the arguments it is built
      from: the original ones with the tool name first. */
  datatype Dispatched = Dispatched(kind: Kind, argv: seq<string>)

  /** strip_end: `text` without `suffix` when it ends with it, unchanged
      otherwise. */
  function StripEnd(text: string, suffix: string): (r: string)
    ensures EndsWith(text, suffix) ==> r + suffix == text
    ensures !EndsWith(text, suffix) ==> r == text
  {
    if !EndsWith(text, suffix) then text else text[..|text| - |suffix|]
  }

  /** Appending a suffix and stripping it again gives the text back. */
  lemma StripEndAppended(text: string, suffix: string)
    ensures StripEnd(text + suffix, suffix) == text
  {
    assert (text + suffix)[|text + suffix| - |suffix|..] == suffix;
    assert (text + suffix)[..|text|] == text;
  }

  /** The suffix of the per-family script names. */
  const ScriptSuffix := "-and-emit-llvm-ir.py"

  /** The tool a per-family script stands for: its file name without the
      script suffix. */
  function ScriptTool(argv0: string): (r: string)
    ensures forall i :: 0 <= i < |r| ==> r[i] != '/'
  {
    StripEnd(Basename(argv0), ScriptSuffix)
  }

  /** A script installed as "<dir>/<tool>-and-emit-llvm-ir.py" stands for
      <tool>. */
  lemma ScriptToolOfInstalledName(dir: string, tool: string)
    requires forall i :: 0 <= i < |tool| ==> tool[i] != '/'
    ensures ScriptTool(dir + "/" + tool + ScriptSuffix) == tool
  {
    var p := dir + "/" + tool + ScriptSuffix;
    BasenameAfterSlash(dir, tool + ScriptSuffix);
    assert p == dir + "/" + (tool + ScriptSuffix);
    StripEndAppended(tool, ScriptSuffix);
  }

  /** The base name of a path ending in "/" + `name` is `name`, when `name`
      has no '/'. */
  lemma BasenameAfterSlash(dir: string, name: string)
    requires forall i :: 0 <= i < |name| ==> name[i] != '/'
    ensures Basename(dir + "/" + name) == name
  {
    var p := dir + "/" + name;
    assert p[|dir|] == '/';
    RFindLast(p, '/', |dir|);
    assert p[|dir| + 1..] == name;
  }

  /** RFind finds the last occurrence when nothing after `k` matches. */
  lemma RFindLast(s: string, c: char, k: nat)
    requires k < |s| && s[k] == c
    requires forall i :: k < i < |s| ==> s[i] != c
    ensures RFind(s, c) == k
  {
  }

  // ---------------------------------------------------------------------
  // llvm-ir-wrapper.py

  /** The program-name aliasing of llvm-ir-wrapper.py as written: "gcc" and
      "cc" become "clang"; the test meant to turn "g++" and "c++" into
      "clang++" compares the name with a tuple of names, which never holds. */
  function AliasAsWritten(name: string): (r: string)
    ensures name in {"gcc", "cc"} ==> r == "clang"
    ensures name !in {"gcc", "cc"} ==> r == name
  {
    if name in {"gcc", "cc"} then "clang" else name
  }

  /** The aliasing llvm-ir-wrapper.py evidently intends: "g++" and "c++"
      become "clang++" as well. */
  function Alias(name: string): (r: string)
    ensures name in {"gcc", "cc"} ==> r == "clang"
    ensures name in {"g++", "c++"} ==> r == "clang++"
    ensures name !in {"gcc", "cc", "g++", "c++"} ==> r == name
  {
    if name in {"gcc", "cc"} then "clang"
    else if name in {"g++", "c++"} then "clang++"
    else name
  }

  /** The wrapper llvm-ir-wrapper.py picks for tool `exe`; `argv` is the
      whole command line. InstallWrapper is defined by no module, so
      "install" fails with a NameError. */
  function ChooseWrapper(exe: string, argv: seq<string>): Result<Kind, Error>
  {
    if exe in {"clang", "clang++"} then
      if "-c" in argv || "-S" in argv || "-E" in argv then Ok(Compiler) else Ok(Linker)
    else if exe == "ar" then Ok(Archiver)
    else if exe == "ranlib" then Ok(RanlibTool)
    else if exe in {"ld", "lld", "gold"} then Ok(Linker)
    else if exe == "mv" then Ok(UnixMv)
    else if exe == "ln" then Ok(UnixLn)
    else if exe == "cp" then Ok(UnixCp)
    else if exe == "install" then Err(NameError("InstallWrapper"))
    else Err(RuntimeError("Could not parse command line to determine what's happening: "))
  }

  /** The wrapper for the tool `exe`, which replaces the program name in
      front of the arguments `rest`. */
  function DispatchAs(exe: string, rest: seq<string>): (r: Result<Dispatched, Error>)
    ensures r.Ok? ==> r.value.argv == [exe] + rest
  {
    var args := [exe] + rest;
    match ChooseWrapper(exe, args)
    case Ok(k) => Ok(Dispatched(k, args))
    case Err(e) => Err(e)
  }

  /** llvm-ir-wrapper.py as written. */
  function SelectAsWritten(argv: seq<string>): Result<Dispatched, Error>
    requires |argv| > 0
  {
    DispatchAs(AliasAsWritten(Basename(argv[0])), argv[1..])
  }

  /** llvm-ir-wrapper.py with the aliasing it intends. */
  function Select(argv: seq<string>): Result<Dispatched, Error>
    requires |argv| > 0
  {
    DispatchAs(Alias(Basename(argv[0])), argv[1..])
  }

  /** Two command lines naming the same tool after aliasing, with the same
      arguments, are dispatched alike. */
  lemma SameToolSameDispatch(a1: seq<string>, a2: seq<string>)
    requires |a1| > 0 && |a2| > 0
    requires Alias(Basename(a1[0])) == Alias(Basename(a2[0])) && a1[1..] == a2[1..]
    ensures Select(a1) == Select(a2)
  {
  }

  /** A C or C++ compiler driver goes to the compiler wrapper exactly when
      one of -c, -S and -E is among its arguments, and to the linker
      wrapper otherwise; the program name becomes the aliased tool. */
  lemma SelectCompilerDriver(argv: seq<string>)
    requires |argv| > 0
    requires Alias(Basename(argv[0])) in {"clang", "clang++"}
    ensures var r := Select(argv);
      && r.Ok?
      && r.value.argv[0] == Alias(Basename(argv[0]))
      && (r.value.kind == Compiler <==> "-c" in argv[1..] || "-S" in argv[1..] || "-E" in argv[1..])
      && (r.value.kind != Compiler ==> r.value.kind == Linker)
  {
    var exe := Alias(Basename(argv[0]));
    var args := [exe] + argv[1..];
    forall o | o in {"-c", "-S", "-E"}
      ensures o in args <==> o in argv[1..]
    {
      assert exe != o;
    }
  }

  /** The other tools each have their own wrapper; the program name is
      kept. */
  lemma SelectTools(argv: seq<string>)
    requires |argv| > 0
    ensures var exe := Basename(argv[0]);
      && (exe == "ar" ==> Select(argv).Ok? && Select(argv).value.kind == Archiver)
      && (exe == "ranlib" ==> Select(argv).Ok? && Select(argv).value.kind == RanlibTool)
      && (exe in {"ld", "lld", "gold"} ==> Select(argv).Ok? && Select(argv).value.kind == Linker)
      && (exe == "mv" ==> Select(argv).Ok? && Select(argv).value.kind == UnixMv)
      && (exe == "ln" ==> Select(argv).Ok? && Select(argv).value.kind == UnixLn)
      && (exe == "cp" ==> Select(argv).Ok? && Select(argv).value.kind == UnixCp)
      && (exe == "install" ==> Select(argv) == Err(NameError("InstallWrapper")))
  {
  }

  /** The names llvm-ir-wrapper.py knows, after aliasing. */
  const KnownTools: set<string> :=
    {"clang", "clang++", "ar", "ranlib", "ld", "lld", "gold", "mv", "ln", "cp", "install"}

  /** Every other name is rejected with a RuntimeError (the known names
      are dispatched as SelectCompilerDriver and SelectTools state). */
  lemma SelectRejectsUnknown(argv: seq<string>)
    requires |argv| > 0
    ensures Alias(Basename(argv[0])) !in KnownTools ==> Select(argv).Err? && Select(argv).error.RuntimeError?
  {
    var exe := Alias(Basename(argv[0]));
    ChooseRejectsUnknown(exe, [exe] + argv[1..]);
  }

  /** ChooseWrapper fails with a RuntimeError exactly on unknown names. */
  lemma ChooseRejectsUnknown(exe: string, argv: seq<string>)
    ensures exe !in KnownTools ==> ChooseWrapper(exe, argv).Err? && ChooseWrapper(exe, argv).error.RuntimeError?
  {
  }

  /** gcc and cc are treated exactly as clang. */
  lemma GccIsClang(argv: seq<string>)
    requires |argv| > 0 && Basename(argv[0]) in {"gcc", "cc"}
    ensures Select(argv) == Select(["clang"] + argv[1..])
  {
    AliasedName(argv, "clang");
  }

  /** A command line whose program name is aliased to `tool` is dispatched
      as if invoked as `tool`. */
  lemma AliasedName(argv: seq<string>, tool: string)
    requires |argv| > 0
    requires forall i :: 0 <= i < |tool| ==> tool[i] != '/'
    requires Alias(Basename(argv[0])) == tool && Alias(tool) == tool
    ensures Select(argv) == Select([tool] + argv[1..])
  {
    BasenameOfName(tool);
    var a2 := [tool] + argv[1..];
    assert a2[0] == tool && a2[1..] == argv[1..];
    SameToolSameDispatch(argv, a2);
  }

  /** A name without '/' is its own base name. */
  lemma BasenameOfName(name: string)
    requires forall i :: 0 <= i < |name| ==> name[i] != '/'
    ensures Basename(name) == name
  {
  }

  /** As written, g++ and c++ are not aliased and reach the error branch,
      whatever the arguments, even on a command line that compiles. */
  lemma GxxRejectedAsWritten(argv: seq<string>)
    requires |argv| > 0 && Basename(argv[0]) in {"g++", "c++"}
    ensures SelectAsWritten(argv).Err? && SelectAsWritten(argv).error.RuntimeError?
  {
    var name := Basename(argv[0]);
    assert AliasAsWritten(name) == name;
    assert |name| == 3 && name[0] != 'l';
    ChooseRejectsUnknown(name, [name] + argv[1..]);
  }

  /** With the intended aliasing, g++ and c++ with -c compile as clang++. */
  lemma GxxCompiles(argv: seq<string>)
    requires |argv| > 0 && Basename(argv[0]) in {"g++", "c++"} && "-c" in argv[1..]
    ensures Select(argv) == Ok(Dispatched(Compiler, ["clang++"] + argv[1..]))
  {
    assert "-c" in ["clang++"] + argv[1..];
  }

  /** With the intended aliasing, g++ and c++ are treated exactly as clang++. */
  lemma GxxIsClangxx(argv: seq<string>)
    requires |argv| > 0 && Basename(argv[0]) in {"g++", "c++"}
    ensures Select(argv) == Select(["clang++"] + argv[1..])
  {
    AliasedName(argv, "clang++");
  }

  // ---------------------------------------------------------------------
  // clang-and-emit-llvm-ir.py

  /** The wrapper clang-and-emit-llvm-ir.py picks for tool `exe`: it only
      compiles with -c, rejects -S, and links otherwise. */
  function ChooseClangScript(exe: string, argv: seq<string>): Result<Kind, Error>
  {
    if exe == "ar" then Ok(Archiver)
    else if exe == "ranlib" then Ok(RanlibTool)
    else if exe in {"ld", "lld", "gold"} then Ok(Linker)
    else if exe in {"clang", "clang++"} then
      if "-c" in argv then Ok(Compiler)
      else if "-S" in argv then Err(RuntimeError("assembly generation not supported!"))
      else Ok(Linker)
    else Err(RuntimeError("Could not parse command line to determine what's happening: "))
  }

  /** clang-and-emit-llvm-ir.py. */
  function SelectClangScript(argv: seq<string>): (r: Result<Dispatched, Error>)
    requires |argv| > 0
    ensures r.Ok? ==> r.value.argv == [ScriptTool(argv[0])] + argv[1..]
  {
    var exe := ScriptTool(argv[0]);
    var args := [exe] + argv[1..];
    match ChooseClangScript(exe, args)
    case Ok(k) => Ok(Dispatched(k, args))
    case Err(e) => Err(e)
  }

  /** The per-family script compiles exactly when llvm-ir-wrapper.py would
      and -c is given; it agrees with it on ar, ranlib and the linkers, and
      a -S without -c, which llvm-ir-wrapper.py sends to the compiler
      wrapper, is an error here. */
  lemma ClangScriptAgrees(exe: string, argv: seq<string>)
    requires exe in {"clang", "clang++", "ar", "ranlib", "ld", "lld", "gold"}
    ensures ChooseClangScript(exe, argv) == Ok(Compiler) <==> exe in {"clang", "clang++"} && "-c" in argv
    ensures ChooseClangScript(exe, argv) == Ok(Compiler) ==> ChooseWrapper(exe, argv) == Ok(Compiler)
    ensures exe !in {"clang", "clang++"} ==> ChooseClangScript(exe, argv) == ChooseWrapper(exe, argv)
    ensures exe in {"clang", "clang++"} && "-S" in argv && "-c" !in argv ==>
              ChooseClangScript(exe, argv).Err? && ChooseWrapper(exe, argv) == Ok(Compiler)
  {
  }

  /** A name the per-family script does not know is an error. */
  lemma ClangScriptRejectsUnknown(exe: string, argv: seq<string>)
    ensures ChooseClangScript(exe, argv).Ok? <==> exe in {"clang", "clang++", "ar", "ranlib", "ld", "lld", "gold"}
                                                   && !(exe in {"clang", "clang++"} && "-c" !in argv && "-S" in argv)
  {
  }

  // ---------------------------------------------------------------------
  // mv-and-emit-llvm-ir.py

  /** The wrapper mv-and-emit-llvm-ir.py picks: the wrappers of
      coreutilswrapper.py, which defines no CpWrapper. */
  function ChooseMvScript(exe: string): (r: Result<Kind, Error>)
    ensures r.Ok? <==> exe in {"mv", "ln"}
  {
    if exe == "mv" then Ok(CoreutilsMv)
    else if exe == "ln" then Ok(CoreutilsLn)
    else if exe == "cp" then Err(NameError("CpWrapper"))
    else Err(WrapperError("Could not parse command line to determine what's happening: "))
  }

  /** mv-and-emit-llvm-ir.py. */
  function SelectMvScript(argv: seq<string>): (r: Result<Dispatched, Error>)
    requires |argv| > 0
    ensures r.Ok? ==> r.value.argv == [ScriptTool(argv[0])] + argv[1..]
  {
    var exe := ScriptTool(argv[0]);
    match ChooseMvScript(exe)
    case Ok(k) => Ok(Dispatched(k, [exe] + argv[1..]))
    case Err(e) => Err(e)
  }

  /** The mv and ln scripts pick the wrappers of coreutilswrapper.py,
      which never inject "-f", while llvm-ir-wrapper.py picks those of
      unixcommandswrapper.py, which do. */
  lemma MvScriptWrappers(argv: seq<string>)
    requires |argv| > 0
    ensures ScriptTool(argv[0]) == "mv" ==> SelectMvScript(argv) == Ok(Dispatched(CoreutilsMv, ["mv"] + argv[1..]))
    ensures ScriptTool(argv[0]) == "ln" ==> SelectMvScript(argv) == Ok(Dispatched(CoreutilsLn, ["ln"] + argv[1..]))
    ensures Alias(Basename(argv[0])) == "mv" ==> Select(argv) == Ok(Dispatched(UnixMv, ["mv"] + argv[1..]))
  {
  }

  // ---------------------------------------------------------------------
  // Running the chosen wrapper

  /** The end of every entry script: build the chosen wrapper and run it.
      `delegate`, `soaapBinary` and `onPath` are the answers the wrapper's
      constructor needs to find the real executable. */
  method Launch(d: Result<Dispatched, Error>, env: Runner.Environment, cache: ParamTableCache,
                delegate: bool, soaapBinary: Option<string>, onPath: Option<string>)
    returns (o: Runner.Outcome)
    requires cache.Valid()
    modifies cache
    ensures d.Err? ==> o == Runner.Outcome([], Some(d.error))
    ensures d.Ok? && |d.value.argv| == 0 ==> o == Runner.Outcome([], Some(IndexError))
    ensures d.Ok? && |d.value.argv| > 0 && ResolveExecutable(delegate, soaapBinary, onPath) in {None, Some("")}
            ==> o == Runner.Outcome([], Some(AssertionFailed("realCommand[0]")))
    ensures d.Ok? && |d.value.argv| > 0 && env.noEmit
            && ResolveExecutable(delegate, soaapBinary, onPath) !in {None, Some("")} ==>
              o == Runner.Outcome(
                     [Runner.Exec([ResolveExecutable(delegate, soaapBinary, onPath).value]
                                  + StripAll(d.value.argv)[1..])],
                     None)
    ensures d.Ok? && |d.value.argv| > 0 && !env.noEmit
            && ResolveExecutable(delegate, soaapBinary, onPath) !in {None, Some("")} ==>
              o == Runner.RunAfterCompute(
                     Runner.Computed(d.value.kind,
                                     [ResolveExecutable(delegate, soaapBinary, onPath).value]
                                     + StripAll(d.value.argv)[1..],
                                     [], false, false, false, ""),
                     Strip(d.value.argv[0]), InitialMode(d.value.kind),
                     d.value.kind == UnixMv || d.value.kind == UnixLn, env)
  {
    if d.Err? {
      return Runner.Outcome([], Some(d.error));
    }
    var created := Create(d.value.kind, d.value.argv, delegate, soaapBinary, onPath);
    if created.Err? {
      return Runner.Outcome([], Some(created.error));
    }
    var w := created.value;
    ghost var real0 := ResolveExecutable(delegate, soaapBinary, onPath).value;
    assert w.Initial(d.value.kind, d.value.argv, real0);
    ghost var realCommand := w.realCommand;
    assert realCommand == [real0] + StripAll(d.value.argv)[1..];
    o := Runner.Run(w, cache, env);
    assert env.noEmit ==> o == Runner.Outcome([Runner.Exec(realCommand)], None);
  }
}
