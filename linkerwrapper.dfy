/** The link-step, archive and ranlib wrappers: from a link command they
    derive the llvm-link command that joins the bitcode of the inputs, and
    they find the bitcode belonging to each input. */
module LinkerWrapper {
  import opened Wrappers
  import opened Strings
  import opened CommandWrapper

  // ---------------------------------------------------------------------
  // findBitcodeFiles

  /** The bitcode sibling of `f` that exists, with the libtool workaround:
      a sibling under ".libs/" is looked for one level higher. `present` is
      the set of paths that exist. */
  function Resolve(f: string, present: set<string>): (r: Option<string>)
    ensures r.Some? ==> r.value in present
    ensures CorrespondingBitcodeName(f) in present ==> r == Some(CorrespondingBitcodeName(f))
  {
    var b := CorrespondingBitcodeName(f);
    if b in present then Some(b)
    else if StartsWith(b, ".libs/") && b[6..] in present then Some(b[6..])
    else None
  }

  /** What `file` says about `t`, with the leading "t:" removed, names LLVM
      bitcode; `fileType` gives the line `file` prints for a path. */
  predicate IsBitcode(t: string, fileType: string -> string)
  {
    var line := fileType(t);
    var rest := if StartsWith(line, t) then (if |t| + 1 <= |line| then line[|t| + 1..] else "") else line;
    Contains(rest, "LLVM IR bitcode")
  }

  /** The siblings found for `files`, in order. */
  function Siblings(files: seq<string>, present: set<string>): (r: seq<string>)
  {
    if |files| == 0 then []
    else
      var last := files[|files| - 1];
      Siblings(files[..|files| - 1], present) + (if Resolve(last, present).Some? then [Resolve(last, present).value] else [])
  }

  /** The files without a sibling, in order; `file` is asked about them. */
  function Unresolved(files: seq<string>, present: set<string>): (r: seq<string>)
  {
    if |files| == 0 then []
    else
      var last := files[|files| - 1];
      Unresolved(files[..|files| - 1], present) + (if Resolve(last, present).None? then [last] else [])
  }

  /** The files `file` identifies as bitcode, in order. */
  function BitcodeOnly(files: seq<string>, fileType: string -> string): (r: seq<string>)
  {
    if |files| == 0 then []
    else
      var last := files[|files| - 1];
      BitcodeOnly(files[..|files| - 1], fileType) + (if IsBitcode(last, fileType) then [last] else [])
  }

  /** The bitcode files for `files`: the siblings found first, then the
      files themselves that are bitcode. */
  function FindBitcode(files: seq<string>, present: set<string>, fileType: string -> string): seq<string>
  {
    Siblings(files, present) + BitcodeOnly(Unresolved(files, present), fileType)
  }

  /** findBitcodeFiles: the siblings are looked up first, `file` is asked
      about the rest. */
  method FindBitcodeFiles(files: seq<string>, present: set<string>, fileType: string -> string)
    returns (found: seq<string>)
    ensures found == FindBitcode(files, present, fileType)
  {
    var toTest;
    found, toTest := LookUpSiblings(files, present);
    var tested := KeepBitcode(toTest, fileType);
    found := found + tested;
  }

  /** The first pass of findBitcodeFiles. */
  method LookUpSiblings(files: seq<string>, present: set<string>) returns (found: seq<string>, toTest: seq<string>)
    ensures found == Siblings(files, present) && toTest == Unresolved(files, present)
  {
    found, toTest := [], [];
    for i := 0 to |files|
      invariant found == Siblings(files[..i], present)
      invariant toTest == Unresolved(files[..i], present)
    {
      assert files[..i + 1][..i] == files[..i];
      var f := files[i];
      var bitcodeName := CorrespondingBitcodeName(f);
      if bitcodeName in present {
        found := found + [bitcodeName];
      } else if StartsWith(bitcodeName, ".libs/") {
        bitcodeName := bitcodeName[6..];
        if bitcodeName in present {
          found := found + [bitcodeName];
        } else {
          toTest := toTest + [f];
        }
      } else {
        toTest := toTest + [f];
      }
    }
    assert files[..|files|] == files;
  }

  /** The second pass of findBitcodeFiles: one line of `file` output per
      tested file. */
  method KeepBitcode(toTest: seq<string>, fileType: string -> string) returns (found: seq<string>)
    ensures found == BitcodeOnly(toTest, fileType)
  {
    found := [];
    for index := 0 to |toTest|
      invariant found == BitcodeOnly(toTest[..index], fileType)
    {
      assert toTest[..index + 1][..index] == toTest[..index];
      var testedFile := toTest[index];
      var line := fileType(testedFile);
      if StartsWith(line, testedFile) {
        line := if |testedFile| + 1 <= |line| then line[|testedFile| + 1..] else "";
      }
      if Contains(line, "LLVM IR bitcode") {
        found := found + [testedFile];
      }
    }
    assert toTest[..|toTest|] == toTest;
  }

  lemma {:induction false} SiblingsMember(files: seq<string>, present: set<string>, x: string)
    ensures x in Siblings(files, present) <==> exists f :: f in files && Resolve(f, present) == Some(x)
    decreases |files|
  {
    if |files| > 0 {
      var init, last := files[..|files| - 1], files[|files| - 1];
      assert files == init + [last];
      SiblingsMember(init, present, x);
      if x in Siblings(files, present) && x !in Siblings(init, present) {
        assert Resolve(last, present) == Some(x);
      }
      if exists f :: f in files && Resolve(f, present) == Some(x) {
        var f :| f in files && Resolve(f, present) == Some(x);
        if f != last {
          assert f in init;
        }
      }
    }
  }

  lemma {:induction false} UnresolvedMember(files: seq<string>, present: set<string>, x: string)
    ensures x in Unresolved(files, present) <==> x in files && Resolve(x, present).None?
    decreases |files|
  {
    if |files| > 0 {
      var init, last := files[..|files| - 1], files[|files| - 1];
      assert files == init + [last];
      UnresolvedMember(init, present, x);
    }
  }

  lemma {:induction false} BitcodeOnlyMember(files: seq<string>, fileType: string -> string, x: string)
    ensures x in BitcodeOnly(files, fileType) <==> x in files && IsBitcode(x, fileType)
    decreases |files|
  {
    if |files| > 0 {
      var init, last := files[..|files| - 1], files[|files| - 1];
      assert files == init + [last];
      BitcodeOnlyMember(init, fileType, x);
    }
  }

  /** A path is found iff it is the existing sibling of an input, or it is
      an input without a sibling that `file` identifies as bitcode; inputs
      that stay unresolved are dropped. */
  lemma FindBitcodeMember(files: seq<string>, present: set<string>, fileType: string -> string, x: string)
    ensures x in FindBitcode(files, present, fileType) <==>
              (exists f :: f in files && Resolve(f, present) == Some(x))
              || (x in files && Resolve(x, present).None? && IsBitcode(x, fileType))
  {
    SiblingsMember(files, present, x);
    UnresolvedMember(files, present, x);
    BitcodeOnlyMember(Unresolved(files, present), fileType, x);
  }

  lemma {:induction false} SiblingsPlusUnresolved(files: seq<string>, present: set<string>)
    ensures |Siblings(files, present)| + |Unresolved(files, present)| == |files|
    decreases |files|
  {
    if |files| > 0 {
      SiblingsPlusUnresolved(files[..|files| - 1], present);
    }
  }

  lemma {:induction false} BitcodeOnlyShorter(files: seq<string>, fileType: string -> string)
    ensures |BitcodeOnly(files, fileType)| <= |files|
    decreases |files|
  {
    if |files| > 0 {
      BitcodeOnlyShorter(files[..|files| - 1], fileType);
    }
  }

  /** At most one bitcode file is found per input. */
  lemma FindBitcodeLength(files: seq<string>, present: set<string>, fileType: string -> string)
    ensures |FindBitcode(files, present, fileType)| <= |files|
  {
    SiblingsPlusUnresolved(files, present);
    BitcodeOnlyShorter(Unresolved(files, present), fileType);
  }

  /** The bitcode names of `files`, one per file and in order. */
  function BitcodeNames(files: seq<string>): (r: seq<string>)
    ensures |r| == |files|
    ensures forall i :: 0 <= i < |files| ==> r[i] == CorrespondingBitcodeName(files[i])
  {
    seq(|files|, i requires 0 <= i < |files| => CorrespondingBitcodeName(files[i]))
  }

  lemma {:induction false} AllSiblings(files: seq<string>, present: set<string>)
    requires forall i :: 0 <= i < |files| ==> CorrespondingBitcodeName(files[i]) in present
    ensures Siblings(files, present) == BitcodeNames(files)
    ensures Unresolved(files, present) == []
    decreases |files|
  {
    if |files| > 0 {
      var init := files[..|files| - 1];
      AllSiblings(init, present);
      assert BitcodeNames(files) == BitcodeNames(init) + [CorrespondingBitcodeName(files[|files| - 1])];
    }
  }

  /** When every input has its sibling, the result is the siblings, one per
      input and in order, duplicates included. */
  lemma FindBitcodeAllSiblings(files: seq<string>, present: set<string>, fileType: string -> string)
    requires forall i :: 0 <= i < |files| ==> CorrespondingBitcodeName(files[i]) in present
    ensures FindBitcode(files, present, fileType) == BitcodeNames(files)
  {
    AllSiblings(files, present);
    assert BitcodeOnly([], fileType) == [];
  }

  // ---------------------------------------------------------------------
  // LinkerWrapper.parseCommandLine

  /** The state of the scan of a link command. */
  datatype LinkState = LinkState(
    candidates: seq<string>,
    sharedLibs: seq<string>,
    noDefaultLibs: bool,
    output: string,
    mode: Mode,
    skipNext: bool)

  /** A positional argument that names a shared library. */
  predicate IsSharedObject(p: string)
  {
    EndsWith(p, ".so") || Contains(p, ".so.")
  }

  /** What argument `i` of the link command does to the scan. */
  function LinkStep(params: set<string>, cmd: seq<string>, i: nat, st: LinkState): Result<LinkState, Error>
    requires i < |cmd|
  {
    var p := cmd[i];
    if st.skipNext then Ok(st.(skipNext := false))
    else if StartsWith(p, "-") then
      if p == "-o" then
        if i + 1 >= |cmd| then Err(RuntimeError("-o flag without parameter!"))
        else
          var out := CorrespondingBitcodeName(cmd[i + 1]);
          Ok(st.(skipNext := true, output := out, mode := if Contains(out, ".so.bc") then SharedLib else st.mode))
      else if p == "-shared" then Ok(st.(mode := SharedLib))
      else if p == "-ffreestanding" then Ok(st.(noDefaultLibs := true))
      else if StartsWith(p, "-l") then Ok(st.(sharedLibs := st.sharedLibs + [p]))
      else if p == "-pthread" then Ok(st.(sharedLibs := st.sharedLibs + ["-lpthread"]))
      else if p in params then Ok(st.(skipNext := true))
      else Ok(st)
    else if IsSharedObject(p) then Ok(st.(sharedLibs := st.sharedLibs + [p]))
    else Ok(st.(candidates := st.candidates + [p]))
  }

  function LinkScanFrom(params: set<string>, cmd: seq<string>, i: nat, st: LinkState): Result<LinkState, Error>
    requires i <= |cmd|
    decreases |cmd| - i
  {
    if i == |cmd| then Ok(st)
    else
      match LinkStep(params, cmd, i, st)
      case Err(e) => Err(e)
      case Ok(next) => LinkScanFrom(params, cmd, i + 1, next)
  }

  lemma LinkScanFromUnfold(params: set<string>, cmd: seq<string>, i: nat, st: LinkState)
    requires i < |cmd|
    ensures LinkStep(params, cmd, i, st).Err? ==>
      LinkScanFrom(params, cmd, i, st) == Err(LinkStep(params, cmd, i, st).error)
    ensures LinkStep(params, cmd, i, st).Ok? ==>
      LinkScanFrom(params, cmd, i, st) == LinkScanFrom(params, cmd, i + 1, LinkStep(params, cmd, i, st).value)
  {
  }

  /** The scan starts by skipping the executable, with empty lists; the
      output and mode are the wrapper's. */
  function LinkInit(output: string, mode: Mode): LinkState
  {
    LinkState([], [], false, output, mode, true)
  }

  /** After the scan: the output defaults to a.out.bc, an unknown mode
      becomes executable. */
  function LinkDefaults(st: LinkState): LinkState
  {
    st.(output := if st.output == "" then "a.out.bc" else st.output,
        mode := if st.mode == Unknown then Executable else st.mode)
  }

  /** parseCommandLine as a whole; the real command loses its first
      -fexcess-precision=standard. */
  function Parse(params: set<string>, cmd: seq<string>, output: string, mode: Mode): Result<LinkState, Error>
  {
    match LinkScanFrom(params, cmd, 0, LinkInit(output, mode))
    case Err(e) => Err(e)
    case Ok(st) => Ok(LinkDefaults(st))
  }

  /** parseCommandLine. */
  method ParseCommandLine(w: CommandWrapper, params: set<string>) returns (err: Option<Error>)
    modifies w`linkCandidates, w`sharedLibs, w`noDefaultLibs, w`output, w`mode, w`realCommand
    ensures var spec := Parse(params, old(w.realCommand), old(w.output), old(w.mode));
      && (spec.Err? <==> err.Some?)
      && (spec.Err? ==> err.value == spec.error)
      && (spec.Ok? ==>
            && w.linkCandidates == spec.value.candidates && w.sharedLibs == spec.value.sharedLibs
            && w.noDefaultLibs == spec.value.noDefaultLibs && w.output == spec.value.output
            && w.mode == spec.value.mode
            && w.realCommand == RemoveFirst(old(w.realCommand), "-fexcess-precision=standard"))
  {
    var cmd := w.realCommand;
    var skipNextParam := true;
    w.linkCandidates, w.sharedLibs, w.noDefaultLibs := [], [], false;
    ghost var init := LinkInit(w.output, w.mode);
    for index := 0 to |cmd|
      invariant w.realCommand == cmd
      invariant LinkScanFrom(params, cmd, 0, init)
             == LinkScanFrom(params, cmd, index, LinkState(w.linkCandidates, w.sharedLibs, w.noDefaultLibs, w.output, w.mode, skipNextParam))
    {
      LinkScanFromUnfold(params, cmd, index, LinkState(w.linkCandidates, w.sharedLibs, w.noDefaultLibs, w.output, w.mode, skipNextParam));
      err := LinkArgument(w, params, cmd, index, skipNextParam);
      if err.Some? {
        return;
      }
      skipNextParam := !skipNextParam && (cmd[index] == "-o" || (StartsWith(cmd[index], "-") && !(cmd[index] in {"-shared", "-ffreestanding", "-pthread"}) && !StartsWith(cmd[index], "-l") && cmd[index] in params));
    }
    if w.output == "" {
      w.output := "a.out.bc";
    }
    if w.mode == Unknown {
      w.mode := Executable;
    }
    w.realCommand := RemoveFirst(w.realCommand, "-fexcess-precision=standard");
    err := None;
  }

  /** One argument of parseCommandLine's loop (the skip flag is kept by
      the caller). */
  method LinkArgument(w: CommandWrapper, params: set<string>, cmd: seq<string>, index: nat, skipNextParam: bool)
    returns (err: Option<Error>)
    requires index < |cmd|
    modifies w`linkCandidates, w`sharedLibs, w`noDefaultLibs, w`output, w`mode
    ensures var step := LinkStep(params, cmd, index, LinkState(old(w.linkCandidates), old(w.sharedLibs), old(w.noDefaultLibs), old(w.output), old(w.mode), skipNextParam));
      && (step.Err? <==> err.Some?)
      && (step.Err? ==> err.value == step.error)
      && (step.Ok? ==>
            step.value.candidates == w.linkCandidates && step.value.sharedLibs == w.sharedLibs
            && step.value.noDefaultLibs == w.noDefaultLibs && step.value.output == w.output
            && step.value.mode == w.mode
            && step.value.skipNext == (!skipNextParam && (cmd[index] == "-o" || (StartsWith(cmd[index], "-") && !(cmd[index] in {"-shared", "-ffreestanding", "-pthread"}) && !StartsWith(cmd[index], "-l") && cmd[index] in params))))
  {
    err := None;
    if skipNextParam {
      return;
    }
    var param := cmd[index];
    if StartsWith(param, "-") {
      if param == "-o" {
        if index + 1 >= |cmd| {
          return Some(RuntimeError("-o flag without parameter!"));
        }
        w.output := CorrespondingBitcodeName(cmd[index + 1]);
        if Contains(w.output, ".so.bc") {
          w.mode := SharedLib;
        }
      } else if param == "-shared" {
        w.mode := SharedLib;
      } else if param == "-ffreestanding" {
        w.noDefaultLibs := true;
      } else if StartsWith(param, "-l") {
        w.sharedLibs := w.sharedLibs + [param];
      } else if param == "-pthread" {
        w.sharedLibs := w.sharedLibs + ["-lpthread"];
      }
    } else if EndsWith(param, ".so") || Contains(param, ".so.") {
      w.sharedLibs := w.sharedLibs + [param];
    } else {
      w.linkCandidates := w.linkCandidates + [param];
    }
  }

  // ---------------------------------------------------------------------
  // What parseCommandLine promises

  /** Argument `j` is not the value of the argument before it: the one
      before is the executable, or is neither -o nor an option that takes
      a value. Such an argument is always looked at by the scan. */
  predicate NotAValue(params: set<string>, cmd: seq<string>, j: nat)
    requires 1 <= j < |cmd|
  {
    j == 1 || (cmd[j - 1] != "-o" && cmd[j - 1] !in params)
  }

  /** The arguments after the executable. */
  function Args(cmd: seq<string>): (r: seq<string>)
    ensures forall k :: 1 <= k < |cmd| ==> cmd[k] in r
  {
    if |cmd| == 0 then [] else cmd[1..]
  }

  /** The default output is not a shared library's bitcode. */
  lemma DefaultOutputNotShared()
    ensures !Contains("a.out.bc", ".so.bc")
  {
    var s, p := "a.out.bc", ".so.bc";
    forall i | 0 <= i <= |s| - |p| ensures !OccursAt(s, p, i) {
      assert s[i..i + |p|][0] == s[i];
      assert s[i..i + |p|][1] == s[i + 1];
    }
  }

  /** What looking at argument `p` leaves behind in the scan state. */
  predicate Classified(p: string, st: LinkState)
  {
    && (!StartsWith(p, "-") && !IsSharedObject(p) ==> p in st.candidates)
    && (!StartsWith(p, "-") && IsSharedObject(p) ==> p in st.sharedLibs)
    && (StartsWith(p, "-l") ==> p in st.sharedLibs)
    && (p == "-pthread" ==> "-lpthread" in st.sharedLibs)
    && (p == "-ffreestanding" ==> st.noDefaultLibs)
    && (p == "-shared" ==> st.mode == SharedLib)
  }

  /** Everything in the lists comes from the command line. */
  predicate Sound(cmd: seq<string>, st: LinkState)
  {
    && (forall x :: x in st.candidates ==> x in Args(cmd) && !StartsWith(x, "-") && !IsSharedObject(x))
    && (forall x :: x in st.sharedLibs ==>
          x == "-lpthread" || (x in Args(cmd) && (StartsWith(x, "-l") || (!StartsWith(x, "-") && IsSharedObject(x)))))
    && (st.noDefaultLibs ==> "-ffreestanding" in Args(cmd))
  }

  /** Some -o names an output whose bitcode name is `o`. */
  predicate OutputFlag(cmd: seq<string>, o: string)
  {
    exists k :: 1 <= k < |cmd| - 1 && cmd[k] == "-o" && CorrespondingBitcodeName(cmd[k + 1]) == o
  }

  /** Some -o names a shared library. */
  predicate SharedOutputFlag(cmd: seq<string>)
  {
    exists k :: 1 <= k < |cmd| - 1 && cmd[k] == "-o" && Contains(CorrespondingBitcodeName(cmd[k + 1]), ".so.bc")
  }

  /** The mode only ever becomes shared-lib, and only for a reason. */
  predicate ModeOutput(cmd: seq<string>, st: LinkState, output0: string, mode0: Mode)
  {
    && (st.mode == mode0 || st.mode == SharedLib)
    && (st.mode == SharedLib ==> mode0 == SharedLib || "-shared" in Args(cmd) || SharedOutputFlag(cmd))
    && (st.output != output0 && Contains(st.output, ".so.bc") ==> st.mode == SharedLib)
    && (st.output == output0 || OutputFlag(cmd, st.output))
  }

  predicate LinkInv(params: set<string>, cmd: seq<string>, i: nat, st: LinkState, output0: string, mode0: Mode)
    requires 1 <= i <= |cmd|
  {
    && (st.skipNext ==> i >= 2 && (cmd[i - 1] == "-o" || cmd[i - 1] in params))
    && Sound(cmd, st)
    && (forall j :: 1 <= j < i && NotAValue(params, cmd, j) ==> Classified(cmd[j], st))
    && ModeOutput(cmd, st, output0, mode0)
  }

  /** A step only adds to the lists and only sets flags. */
  lemma StepGrows(params: set<string>, cmd: seq<string>, i: nat, st: LinkState, next: LinkState)
    requires i < |cmd| && LinkStep(params, cmd, i, st) == Ok(next)
    ensures forall x :: x in st.candidates ==> x in next.candidates
    ensures forall x :: x in st.sharedLibs ==> x in next.sharedLibs
    ensures st.noDefaultLibs ==> next.noDefaultLibs
    ensures st.mode == SharedLib ==> next.mode == SharedLib
  {
  }

  lemma ClassifiedKept(p: string, st: LinkState, next: LinkState)
    requires Classified(p, st)
    requires forall x :: x in st.candidates ==> x in next.candidates
    requires forall x :: x in st.sharedLibs ==> x in next.sharedLibs
    requires st.noDefaultLibs ==> next.noDefaultLibs
    requires st.mode == SharedLib ==> next.mode == SharedLib
    ensures Classified(p, next)
  {
  }

  /** Looking at an argument classifies it. */
  lemma StepClassifies(params: set<string>, cmd: seq<string>, i: nat, st: LinkState, next: LinkState)
    requires i < |cmd| && !st.skipNext && LinkStep(params, cmd, i, st) == Ok(next)
    ensures Classified(cmd[i], next)
  {
    var p := cmd[i];
    if StartsWith(p, "-l") {
      assert p != "-o" && p != "-shared" && p != "-ffreestanding" by {
        assert p[1] == 'l';
        assert "-o"[1] == 'o' && "-shared"[1] == 's' && "-ffreestanding"[1] == 'f';
      }
    }
    if p == "-pthread" {
      assert !StartsWith(p, "-l") by { assert p[1] == 'p'; }
    }
    if !StartsWith(p, "-") {
      assert p != "-pthread" && p != "-ffreestanding" && p != "-shared" && !StartsWith(p, "-l");
    }
  }

  /** What a step can add: the argument it looks at, or -lpthread. */
  lemma StepAdds(params: set<string>, cmd: seq<string>, i: nat, st: LinkState, next: LinkState)
    requires i < |cmd| && LinkStep(params, cmd, i, st) == Ok(next)
    ensures forall x :: x in next.candidates ==>
              x in st.candidates || (x == cmd[i] && !StartsWith(x, "-") && !IsSharedObject(x))
    ensures forall x :: x in next.sharedLibs ==>
              x in st.sharedLibs || x == "-lpthread"
              || (x == cmd[i] && (StartsWith(x, "-l") || (!StartsWith(x, "-") && IsSharedObject(x))))
    ensures next.noDefaultLibs ==> st.noDefaultLibs || cmd[i] == "-ffreestanding"
    ensures next.skipNext ==> !st.skipNext && (cmd[i] == "-o" || cmd[i] in params)
  {
  }

  lemma SoundKept(cmd: seq<string>, i: nat, st: LinkState, next: LinkState)
    requires 1 <= i < |cmd| && Sound(cmd, st)
    requires forall x :: x in next.candidates ==>
              x in st.candidates || (x == cmd[i] && !StartsWith(x, "-") && !IsSharedObject(x))
    requires forall x :: x in next.sharedLibs ==>
              x in st.sharedLibs || x == "-lpthread"
              || (x == cmd[i] && (StartsWith(x, "-l") || (!StartsWith(x, "-") && IsSharedObject(x))))
    requires next.noDefaultLibs ==> st.noDefaultLibs || cmd[i] == "-ffreestanding"
    ensures Sound(cmd, next)
  {
    assert cmd[i] in Args(cmd);
  }

  /** What a step does to the output and the mode. */
  lemma StepOutputFacts(params: set<string>, cmd: seq<string>, i: nat, st: LinkState, next: LinkState)
    requires i < |cmd| && LinkStep(params, cmd, i, st) == Ok(next)
    ensures st.skipNext || cmd[i] != "-o" ==>
              next.output == st.output
              && (next.mode == st.mode || (!st.skipNext && cmd[i] == "-shared" && next.mode == SharedLib))
    ensures !st.skipNext && cmd[i] == "-o" ==>
              i + 1 < |cmd| && next.output == CorrespondingBitcodeName(cmd[i + 1])
              && next.mode == (if Contains(next.output, ".so.bc") then SharedLib else st.mode)
  {
  }

  lemma ModeOutputKept(cmd: seq<string>, i: nat, st: LinkState, next: LinkState, output0: string, mode0: Mode, flag: bool)
    requires 1 <= i < |cmd| && ModeOutput(cmd, st, output0, mode0)
    requires !flag ==>
              next.output == st.output
              && (next.mode == st.mode || (cmd[i] == "-shared" && next.mode == SharedLib))
    requires flag ==>
              cmd[i] == "-o" && i + 1 < |cmd| && next.output == CorrespondingBitcodeName(cmd[i + 1])
              && next.mode == (if Contains(next.output, ".so.bc") then SharedLib else st.mode)
    ensures ModeOutput(cmd, next, output0, mode0)
  {
    assert cmd[i] in Args(cmd);
    if flag {
      assert OutputFlag(cmd, next.output);
      if Contains(next.output, ".so.bc") {
        assert SharedOutputFlag(cmd);
      }
    }
  }

  lemma CompleteKept(params: set<string>, cmd: seq<string>, i: nat, st: LinkState, next: LinkState)
    requires 1 <= i < |cmd|
    requires st.skipNext ==> i >= 2 && (cmd[i - 1] == "-o" || cmd[i - 1] in params)
    requires forall j :: 1 <= j < i && NotAValue(params, cmd, j) ==> Classified(cmd[j], st)
    requires forall x :: x in st.candidates ==> x in next.candidates
    requires forall x :: x in st.sharedLibs ==> x in next.sharedLibs
    requires st.noDefaultLibs ==> next.noDefaultLibs
    requires st.mode == SharedLib ==> next.mode == SharedLib
    requires !st.skipNext ==> Classified(cmd[i], next)
    ensures forall j :: 1 <= j < i + 1 && NotAValue(params, cmd, j) ==> Classified(cmd[j], next)
  {
    forall j | 1 <= j < i + 1 && NotAValue(params, cmd, j)
      ensures Classified(cmd[j], next)
    {
      if j < i {
        ClassifiedKept(cmd[j], st, next);
      }
    }
  }

  lemma StepKeepsLinkInv(params: set<string>, cmd: seq<string>, i: nat, st: LinkState, next: LinkState, output0: string, mode0: Mode)
    requires 1 <= i < |cmd| && LinkInv(params, cmd, i, st, output0, mode0) && LinkStep(params, cmd, i, st) == Ok(next)
    ensures LinkInv(params, cmd, i + 1, next, output0, mode0)
  {
    StepAdds(params, cmd, i, st, next);
    StepGrows(params, cmd, i, st, next);
    StepOutputFacts(params, cmd, i, st, next);
    if !st.skipNext {
      StepClassifies(params, cmd, i, st, next);
    }
    SoundKept(cmd, i, st, next);
    CompleteKept(params, cmd, i, st, next);
    ModeOutputKept(cmd, i, st, next, output0, mode0, !st.skipNext && cmd[i] == "-o");
  }

  lemma {:induction false} LinkScanKeepsInv(params: set<string>, cmd: seq<string>, i: nat, st: LinkState, fin: LinkState, output0: string, mode0: Mode)
    requires 1 <= i <= |cmd| && LinkInv(params, cmd, i, st, output0, mode0)
    requires LinkScanFrom(params, cmd, i, st) == Ok(fin)
    ensures LinkInv(params, cmd, |cmd|, fin, output0, mode0)
    decreases |cmd| - i
  {
    if i < |cmd| {
      LinkScanFromUnfold(params, cmd, i, st);
      var next := LinkStep(params, cmd, i, st).value;
      StepKeepsLinkInv(params, cmd, i, st, next, output0, mode0);
      LinkScanKeepsInv(params, cmd, i + 1, next, fin, output0, mode0);
    }
  }

  /** The scan proper starts at the first argument after the executable. */
  lemma LinkScanStart(params: set<string>, cmd: seq<string>, output0: string, mode0: Mode)
    requires |cmd| > 0
    ensures LinkScanFrom(params, cmd, 0, LinkInit(output0, mode0))
         == LinkScanFrom(params, cmd, 1, LinkInit(output0, mode0).(skipNext := false))
    ensures LinkInv(params, cmd, 1, LinkInit(output0, mode0).(skipNext := false), output0, mode0)
  {
  }

  /** The scan's final state satisfies the invariant. */
  lemma ParseInv(params: set<string>, cmd: seq<string>, output0: string, mode0: Mode, st: LinkState)
    requires |cmd| > 0 && LinkScanFrom(params, cmd, 0, LinkInit(output0, mode0)) == Ok(st)
    ensures LinkInv(params, cmd, |cmd|, st, output0, mode0)
  {
    LinkScanStart(params, cmd, output0, mode0);
    LinkScanKeepsInv(params, cmd, 1, LinkInit(output0, mode0).(skipNext := false), st, output0, mode0);
  }

  /** The link inputs are the command's positional arguments that are not
      shared objects; the libraries are its -l options, its shared objects
      and -lpthread; -ffreestanding alone turns default libraries off. */
  lemma ParseSound(params: set<string>, cmd: seq<string>, output0: string, mode0: Mode, st: LinkState)
    requires Parse(params, cmd, output0, mode0) == Ok(st)
    ensures forall x :: x in st.candidates ==> x in Args(cmd) && !StartsWith(x, "-") && !IsSharedObject(x)
    ensures forall x :: x in st.sharedLibs ==>
              x == "-lpthread" || (x in Args(cmd) && (StartsWith(x, "-l") || (!StartsWith(x, "-") && IsSharedObject(x))))
    ensures st.noDefaultLibs ==> "-ffreestanding" in Args(cmd)
  {
    if |cmd| > 0 {
      var raw := LinkScanFrom(params, cmd, 0, LinkInit(output0, mode0)).value;
      ParseInv(params, cmd, output0, mode0, raw);
    }
  }

  /** Every argument that is not an option's value lands where it belongs:
      positional inputs among the link inputs, -l options and shared
      objects among the libraries, -pthread as -lpthread, and
      -ffreestanding and -shared set their flags. */
  lemma ParseComplete(params: set<string>, cmd: seq<string>, output0: string, mode0: Mode, st: LinkState, j: nat)
    requires Parse(params, cmd, output0, mode0) == Ok(st)
    requires 1 <= j < |cmd| && NotAValue(params, cmd, j)
    ensures Classified(cmd[j], st)
  {
    var raw := LinkScanFrom(params, cmd, 0, LinkInit(output0, mode0)).value;
    ParseInv(params, cmd, output0, mode0, raw);
    assert Classified(cmd[j], raw);
  }

  /** The mode is never left unknown; it is shared-lib exactly when it was
      already, or -shared was given, or the last -o names a shared
      library, and otherwise what it was (executable for a fresh wrapper). */
  lemma ParseMode(params: set<string>, cmd: seq<string>, output0: string, mode0: Mode, st: LinkState)
    requires Parse(params, cmd, output0, mode0) == Ok(st)
    ensures st.mode != Unknown
    ensures st.mode == (if mode0 == Unknown then Executable else mode0) || st.mode == SharedLib
    ensures mode0 == SharedLib ==> st.mode == SharedLib
    ensures st.mode == SharedLib ==> mode0 == SharedLib || "-shared" in Args(cmd) || SharedOutputFlag(cmd)
    ensures st.output != output0 && Contains(st.output, ".so.bc") ==> st.mode == SharedLib
  {
    DefaultOutputNotShared();
    if |cmd| > 0 {
      var raw := LinkScanFrom(params, cmd, 0, LinkInit(output0, mode0)).value;
      ParseInv(params, cmd, output0, mode0, raw);
    }
  }

  /** The output is never empty: it is the one the wrapper had, the bitcode
      name of an -o argument, or a.out.bc when neither gives one. */
  lemma ParseOutput(params: set<string>, cmd: seq<string>, output0: string, mode0: Mode, st: LinkState)
    requires Parse(params, cmd, output0, mode0) == Ok(st)
    ensures st.output != ""
    ensures st.output == output0 || OutputFlag(cmd, st.output) || (st.output == "a.out.bc" && output0 == "")
    ensures "-o" !in cmd ==> st.output == (if output0 == "" then "a.out.bc" else output0)
  {
    if |cmd| > 0 {
      var raw := LinkScanFrom(params, cmd, 0, LinkInit(output0, mode0)).value;
      ParseInv(params, cmd, output0, mode0, raw);
    }
  }

  lemma {:induction false} LinkScanError(params: set<string>, cmd: seq<string>, i: nat, st: LinkState)
    requires i <= |cmd| && LinkScanFrom(params, cmd, i, st).Err?
    ensures LinkScanFrom(params, cmd, i, st).error == RuntimeError("-o flag without parameter!")
    ensures |cmd| > 0 && cmd[|cmd| - 1] == "-o"
    decreases |cmd| - i
  {
    LinkScanFromUnfold(params, cmd, i, st);
    if LinkStep(params, cmd, i, st).Ok? {
      LinkScanError(params, cmd, i + 1, LinkStep(params, cmd, i, st).value);
    }
  }

  lemma {:induction false} LinkScanReachesEnd(params: set<string>, cmd: seq<string>, i: nat, st: LinkState, output0: string, mode0: Mode)
    requires 2 <= |cmd| && cmd[|cmd| - 1] == "-o" && NotAValue(params, cmd, |cmd| - 1)
    requires 1 <= i <= |cmd| - 1 && LinkInv(params, cmd, i, st, output0, mode0)
    ensures LinkScanFrom(params, cmd, i, st).Err?
    decreases |cmd| - i
  {
    LinkScanFromUnfold(params, cmd, i, st);
    if i < |cmd| - 1 {
      if LinkStep(params, cmd, i, st).Ok? {
        var next := LinkStep(params, cmd, i, st).value;
        StepKeepsLinkInv(params, cmd, i, st, next, output0, mode0);
        LinkScanReachesEnd(params, cmd, i + 1, next, output0, mode0);
      }
    }
  }

  /** parseCommandLine fails only on an -o at the very end, and fails on
      every -o at the end that is not itself an option's value. */
  lemma ParseError(params: set<string>, cmd: seq<string>, output0: string, mode0: Mode)
    ensures Parse(params, cmd, output0, mode0).Err? ==>
              Parse(params, cmd, output0, mode0).error == RuntimeError("-o flag without parameter!")
              && |cmd| > 0 && cmd[|cmd| - 1] == "-o"
    ensures (2 <= |cmd| && cmd[|cmd| - 1] == "-o" && NotAValue(params, cmd, |cmd| - 1))
              ==> Parse(params, cmd, output0, mode0).Err?
  {
    if LinkScanFrom(params, cmd, 0, LinkInit(output0, mode0)).Err? {
      LinkScanError(params, cmd, 0, LinkInit(output0, mode0));
    }
    if 2 <= |cmd| && cmd[|cmd| - 1] == "-o" && NotAValue(params, cmd, |cmd| - 1) {
      LinkScanStart(params, cmd, output0, mode0);
      LinkScanReachesEnd(params, cmd, 1, LinkInit(output0, mode0).(skipNext := false), output0, mode0);
    }
  }

  // ---------------------------------------------------------------------
  // LinkerWrapper.computeWrapperCommand

  /** The linker itself rather than a compiler driver. */
  predicate DirectLd(executable: string)
  {
    executable in {"ld", "gold", "lld"} || StartsWith(executable, "ld.")
  }

  /** The C (and C++) library linked by default, unless -ffreestanding. */
  function DefaultLibs(executable: string, noDefaultLibs: bool): Result<seq<string>, Error>
  {
    if noDefaultLibs then Ok([])
    else if executable == "clang" then Ok(["-lc"])
    else if executable == "clang++" then Ok(["-lc", "-lc++"])
    else Err(RuntimeError("Unsupported linker command: " + executable))
  }

  /** The parsed command, the real command and the llvm-link command. */
  datatype Linked = Linked(st: LinkState, realCmd: seq<string>, ir: seq<string>)

  /** computeWrapperCommand of the link step; `llvmLink` is SOAAP's
      llvm-link. */
  function Link(params: set<string>, executable: string, cmd: seq<string>, output: string, mode: Mode,
                present: set<string>, fileType: string -> string, llvmLink: string): Result<Linked, Error>
  {
    if DirectLd(executable) then Err(NotImplemented("Wrapping direct ld calls not supported yet!"))
    else if !StartsWith(executable, "clang") then Err(AssertionFailed("executable.startswith('clang')"))
    else
      match Parse(params, cmd, output, mode)
      case Err(e) => Err(e)
      case Ok(st) =>
        match LinkInputs(executable, st.candidates, st.sharedLibs, st.noDefaultLibs, st.output, present, fileType, llvmLink)
        case Err(e) => Err(e)
        case Ok(ir) => Ok(Linked(st, RemoveFirst(cmd, "-fexcess-precision=standard"), ir))
  }

  /** The llvm-link command for a parsed link command: the output, the
      bitcode of the inputs, the libraries and the default libraries. */
  function LinkInputs(executable: string, candidates: seq<string>, sharedLibs: seq<string>, noDefaultLibs: bool,
                      output: string, present: set<string>, fileType: string -> string,
                      llvmLink: string): Result<seq<string>, Error>
  {
    if |candidates| == 0 then Err(RuntimeError("NO LINK CANDIDATES FOUND IN CMDLINE"))
    else
      var inputs := FindBitcode(candidates, present, fileType);
      if |inputs| == 0 then Err(RuntimeError("NO FILES FOUND FOR LINKING!"))
      else
        match DefaultLibs(executable, noDefaultLibs)
        case Err(e) => Err(e)
        case Ok(libs) => Ok([llvmLink, "-o", output] + inputs + sharedLibs + libs)
  }

  /** The wrapper holds the outcome of a successful link computation. */
  ghost predicate HoldsLinked(w: CommandWrapper, l: Linked)
    reads w
  {
    && w.linkCandidates == l.st.candidates && w.sharedLibs == l.st.sharedLibs
    && w.noDefaultLibs == l.st.noDefaultLibs && w.output == l.st.output && w.mode == l.st.mode
    && w.realCommand == l.realCmd && w.generateIrCommand == l.ir
  }

  /** LinkerWrapper.computeWrapperCommand. */
  method ComputeLinkCommand(w: CommandWrapper, cache: ParamTableCache, llvmLink: string,
                            present: set<string>, fileType: string -> string)
    returns (err: Option<Error>)
    requires cache.Valid()
    modifies w`linkCandidates, w`sharedLibs, w`noDefaultLibs, w`output, w`mode, w`realCommand, w`generateIrCommand, cache
    ensures cache.Valid()
    ensures var spec := Link(ClangParamsWithArgument, w.executable, old(w.realCommand), old(w.output), old(w.mode),
                             present, fileType, llvmLink);
      && (spec.Err? <==> err.Some?)
      && (spec.Err? ==> err.value == spec.error)
      && (spec.Ok? ==> HoldsLinked(w, spec.value))
  {
    if w.executable in {"ld", "gold", "lld"} || StartsWith(w.executable, "ld.") {
      return Some(NotImplemented("Wrapping direct ld calls not supported yet!"));
    }
    if !StartsWith(w.executable, "clang") {
      return Some(AssertionFailed("executable.startswith('clang')"));
    }
    var params := cache.Get();
    err := LinkWith(w, params, llvmLink, present, fileType);
  }

  /** The part of computeWrapperCommand after the executable checks. */
  method LinkWith(w: CommandWrapper, params: set<string>, llvmLink: string,
                  present: set<string>, fileType: string -> string)
    returns (err: Option<Error>)
    requires !DirectLd(w.executable) && StartsWith(w.executable, "clang")
    modifies w`linkCandidates, w`sharedLibs, w`noDefaultLibs, w`output, w`mode, w`realCommand, w`generateIrCommand
    ensures var spec := Link(params, w.executable, old(w.realCommand), old(w.output), old(w.mode),
                             present, fileType, llvmLink);
      && (spec.Err? <==> err.Some?)
      && (spec.Err? ==> err.value == spec.error)
      && (spec.Ok? ==> HoldsLinked(w, spec.value))
  {
    err := ParseCommandLine(w, params);
    if err.Some? {
      return;
    }
    err := BuildLinkCommand(w, llvmLink, present, fileType);
  }

  /** The part of computeWrapperCommand after parseCommandLine. */
  method BuildLinkCommand(w: CommandWrapper, llvmLink: string, present: set<string>, fileType: string -> string)
    returns (err: Option<Error>)
    modifies w`generateIrCommand
    ensures var spec := LinkInputs(w.executable, w.linkCandidates, w.sharedLibs, w.noDefaultLibs, w.output,
                                   present, fileType, llvmLink);
      && (spec.Err? <==> err.Some?)
      && (spec.Err? ==> err.value == spec.error)
      && (spec.Ok? ==> w.generateIrCommand == spec.value)
  {
    if |w.linkCandidates| == 0 {
      return Some(RuntimeError("NO LINK CANDIDATES FOUND IN CMDLINE"));
    }
    w.generateIrCommand := [llvmLink, "-o", w.output];
    var inputFiles := FindBitcodeFiles(w.linkCandidates, present, fileType);
    if |inputFiles| == 0 {
      return Some(RuntimeError("NO FILES FOUND FOR LINKING!"));
    }
    w.generateIrCommand := w.generateIrCommand + inputFiles;
    w.generateIrCommand := w.generateIrCommand + w.sharedLibs;
    if !w.noDefaultLibs {
      if w.executable == "clang" {
        w.generateIrCommand := w.generateIrCommand + ["-lc"];
      } else if w.executable == "clang++" {
        w.generateIrCommand := w.generateIrCommand + ["-lc"];
        w.generateIrCommand := w.generateIrCommand + ["-lc++"];
      } else {
        return Some(RuntimeError("Unsupported linker command: " + w.executable));
      }
    }
    return None;
  }

  /** Which executables the link wrapper accepts: direct linker calls are
      not supported, only clang drivers are, and a driver other than clang
      and clang++ only with -ffreestanding. */
  lemma LinkExecutable(params: set<string>, executable: string, cmd: seq<string>, output: string, mode: Mode,
                       present: set<string>, fileType: string -> string, llvmLink: string)
    ensures DirectLd(executable) ==>
              Link(params, executable, cmd, output, mode, present, fileType, llvmLink).Err?
              && Link(params, executable, cmd, output, mode, present, fileType, llvmLink).error.NotImplemented?
    ensures !DirectLd(executable) && !StartsWith(executable, "clang") ==>
              Link(params, executable, cmd, output, mode, present, fileType, llvmLink).Err?
              && Link(params, executable, cmd, output, mode, present, fileType, llvmLink).error.AssertionFailed?
    ensures Link(params, executable, cmd, output, mode, present, fileType, llvmLink).Ok? ==>
              var l := Link(params, executable, cmd, output, mode, present, fileType, llvmLink).value;
              (executable == "clang" || executable == "clang++" || l.st.noDefaultLibs)
  {
  }

  /** `x` is the bitcode found for a positional argument of `cmd`. */
  predicate InputBitcode(cmd: seq<string>, x: string, present: set<string>, fileType: string -> string)
  {
    exists f :: f in Args(cmd) && !StartsWith(f, "-") && (Resolve(f, present) == Some(x) || (x == f && IsBitcode(x, fileType)))
  }

  /** `x` is a library the command line names, -lpthread, or a default
      library. */
  predicate LibraryArg(cmd: seq<string>, x: string)
  {
    x in {"-lpthread", "-lc", "-lc++"} || (x in Args(cmd) && (StartsWith(x, "-l") || (!StartsWith(x, "-") && IsSharedObject(x))))
  }

  lemma InputsFromCommand(cmd: seq<string>, cands: seq<string>, present: set<string>, fileType: string -> string)
    requires forall x :: x in cands ==> x in Args(cmd) && !StartsWith(x, "-")
    ensures forall x :: x in FindBitcode(cands, present, fileType) ==> InputBitcode(cmd, x, present, fileType)
  {
    forall x | x in FindBitcode(cands, present, fileType)
      ensures InputBitcode(cmd, x, present, fileType)
    {
      FindBitcodeMember(cands, present, fileType, x);
      if exists f :: f in cands && Resolve(f, present) == Some(x) {
        var f :| f in cands && Resolve(f, present) == Some(x);
        assert f in Args(cmd);
      } else {
        assert x in cands;
      }
    }
  }

  /** The llvm-link command: it writes the output, ends with the default
      libraries of the driver, and everything between the output and the
      default libraries is the bitcode of an input of the command line or
      a library the command line names. */
  lemma LinkCommandShape(params: set<string>, executable: string, cmd: seq<string>, output: string, mode: Mode,
                         present: set<string>, fileType: string -> string, llvmLink: string, l: Linked)
    requires Link(params, executable, cmd, output, mode, present, fileType, llvmLink) == Ok(l)
    ensures |l.ir| >= 4 && l.ir[..3] == [llvmLink, "-o", l.st.output] && l.st.output != ""
    ensures !l.st.noDefaultLibs && executable == "clang" ==> l.ir[|l.ir| - 1] == "-lc"
    ensures !l.st.noDefaultLibs && executable == "clang++" ==> l.ir[|l.ir| - 2..] == ["-lc", "-lc++"]
    ensures forall x :: x in l.ir[3..] ==> InputBitcode(cmd, x, present, fileType) || LibraryArg(cmd, x)
  {
    var st := Parse(params, cmd, output, mode).value;
    assert l.st == st;
    ParseSound(params, cmd, output, mode, st);
    ParseOutput(params, cmd, output, mode, st);
    var inputs := FindBitcode(st.candidates, present, fileType);
    var libs := DefaultLibs(executable, st.noDefaultLibs).value;
    assert l.ir == [llvmLink, "-o", st.output] + inputs + st.sharedLibs + libs && |inputs| > 0;
    LinkedEnds(l.ir, [llvmLink, "-o", st.output], inputs, st.sharedLibs, executable, st.noDefaultLibs);
    InputsFromCommand(cmd, st.candidates, present, fileType);
    LinkedArgs(l.ir, [llvmLink, "-o", st.output], inputs, st.sharedLibs, libs, cmd, present, fileType);
  }

  lemma LinkedEnds(ir: seq<string>, head: seq<string>, inputs: seq<string>, shared: seq<string>,
                   executable: string, noDefaultLibs: bool)
    requires DefaultLibs(executable, noDefaultLibs).Ok? && |head| == 3 && |inputs| > 0
    requires ir == head + inputs + shared + DefaultLibs(executable, noDefaultLibs).value
    ensures |ir| >= 4 && ir[..3] == head
    ensures !noDefaultLibs && executable == "clang" ==> ir[|ir| - 1] == "-lc"
    ensures !noDefaultLibs && executable == "clang++" ==> ir[|ir| - 2..] == ["-lc", "-lc++"]
  {
    assert ir[..3] == head;
  }

  lemma LinkedArgs(ir: seq<string>, head: seq<string>, inputs: seq<string>, shared: seq<string>, libs: seq<string>,
                   cmd: seq<string>, present: set<string>, fileType: string -> string)
    requires ir == head + inputs + shared + libs && |head| == 3
    requires forall x :: x in inputs ==> InputBitcode(cmd, x, present, fileType)
    requires forall x :: x in shared ==> LibraryArg(cmd, x)
    requires libs == [] || libs == ["-lc"] || libs == ["-lc", "-lc++"]
    ensures forall x :: x in ir[3..] ==> InputBitcode(cmd, x, present, fileType) || LibraryArg(cmd, x)
  {
    assert ir[3..] == inputs + shared + libs;
  }

  /** Every input of the command line that is not an option's value and
      whose bitcode sibling exists is linked, and so is every library it
      names. */
  lemma LinkIncludes(params: set<string>, executable: string, cmd: seq<string>, output: string, mode: Mode,
                     present: set<string>, fileType: string -> string, llvmLink: string, j: nat)
    requires Link(params, executable, cmd, output, mode, present, fileType, llvmLink).Ok?
    requires 1 <= j < |cmd| && NotAValue(params, cmd, j)
    ensures var l := Link(params, executable, cmd, output, mode, present, fileType, llvmLink).value;
      && ((!StartsWith(cmd[j], "-") && !IsSharedObject(cmd[j]) && Resolve(cmd[j], present).Some?)
            ==> Resolve(cmd[j], present).value in l.ir)
      && (StartsWith(cmd[j], "-l") || (!StartsWith(cmd[j], "-") && IsSharedObject(cmd[j])) ==> cmd[j] in l.ir)
  {
    var st := Parse(params, cmd, output, mode).value;
    ParseComplete(params, cmd, output, mode, st, j);
    var inputs := FindBitcode(st.candidates, present, fileType);
    var libs := DefaultLibs(executable, st.noDefaultLibs).value;
    var l := Link(params, executable, cmd, output, mode, present, fileType, llvmLink).value;
    assert l.ir == [llvmLink, "-o", st.output] + inputs + st.sharedLibs + libs;
    if !StartsWith(cmd[j], "-") && !IsSharedObject(cmd[j]) && Resolve(cmd[j], present).Some? {
      FindBitcodeMember(st.candidates, present, fileType, Resolve(cmd[j], present).value);
    }
  }

  // ---------------------------------------------------------------------
  // ArWrapper and RanlibWrapper

  /** The archive's bitcode, the llvm-link command that builds it, and
      whether the archive has no members. */
  datatype Archived = Archived(output: string, ir: seq<string>, emptyOutput: bool)

  /** The operations the archive wrapper understands: replace, or quick
      append together with create. */
  predicate ArOperationSupported(op: string)
  {
    'r' in op || ('q' in op && 'c' in op)
  }

  /** ArWrapper.computeWrapperCommand. */
  function Archive(cmd: seq<string>, llvmLink: string, present: set<string>, fileType: string -> string): Result<Archived, Error>
  {
    if |cmd| < 2 then Err(RuntimeError("Cannot parse AR invocation: "))
    else if !ArOperationSupported(cmd[1]) then Err(RuntimeError("ar wrapper: 'cq' or 'r' mode is currently supported: "))
    else if |cmd| < 3 then Err(IndexError)
    else
      var out := CorrespondingBitcodeName(cmd[2]);
      Ok(Archived(out, [llvmLink, "-o", out] + FindBitcode(cmd[3..], present, fileType), |cmd| == 3))
  }

  method ComputeArCommand(w: CommandWrapper, llvmLink: string, present: set<string>, fileType: string -> string)
    returns (err: Option<Error>)
    modifies w`emptyOutputFile, w`output, w`generateIrCommand
    ensures var spec := Archive(w.realCommand, llvmLink, present, fileType);
      && (spec.Err? <==> err.Some?)
      && (spec.Err? ==> err.value == spec.error)
      && (spec.Ok? ==> w.output == spec.value.output && w.generateIrCommand == spec.value.ir
                       && w.emptyOutputFile == spec.value.emptyOutput)
  {
    if |w.realCommand| < 2 {
      return Some(RuntimeError("Cannot parse AR invocation: "));
    }
    w.emptyOutputFile := |w.realCommand| == 3;
    var operation := w.realCommand[1];
    if 'r' in operation {
    } else if !('q' in operation && 'c' in operation) {
      return Some(RuntimeError("ar wrapper: 'cq' or 'r' mode is currently supported: "));
    }
    if |w.realCommand| < 3 {
      return Some(IndexError);
    }
    w.output := CorrespondingBitcodeName(w.realCommand[2]);
    w.generateIrCommand := [llvmLink, "-o", w.output];
    var members := FindBitcodeFiles(w.realCommand[3..], present, fileType);
    w.generateIrCommand := w.generateIrCommand + members;
    err := None;
  }

  /** The archive wrapper accepts exactly a supported operation followed by
      the archive; the llvm-link command writes the archive's bitcode and
      links one bitcode file per member at most, exactly the members'
      siblings when they all exist; with no member it links nothing and
      asks for an empty bitcode file. */
  lemma ArchiveResult(cmd: seq<string>, llvmLink: string, present: set<string>, fileType: string -> string)
    ensures Archive(cmd, llvmLink, present, fileType).Ok? <==> |cmd| >= 3 && ArOperationSupported(cmd[1])
    ensures |cmd| == 2 && ArOperationSupported(cmd[1]) ==> Archive(cmd, llvmLink, present, fileType) == Err(IndexError)
    ensures Archive(cmd, llvmLink, present, fileType).Ok? ==>
              var a := Archive(cmd, llvmLink, present, fileType).value;
              && a.output == CorrespondingBitcodeName(cmd[2])
              && a.ir[..3] == [llvmLink, "-o", a.output]
              && |a.ir| <= |cmd|
              && (a.emptyOutput <==> |a.ir| == 3 && |cmd| == 3)
              && ((forall i :: 3 <= i < |cmd| ==> CorrespondingBitcodeName(cmd[i]) in present)
                    ==> a.ir[3..] == BitcodeNames(cmd[3..]))
  {
    if |cmd| >= 3 && ArOperationSupported(cmd[1]) {
      var a := Archive(cmd, llvmLink, present, fileType).value;
      FindBitcodeLength(cmd[3..], present, fileType);
      if |cmd| == 3 {
        assert cmd[3..] == [];
        assert Siblings([], present) == [] && Unresolved([], present) == [] && BitcodeOnly([], fileType) == [];
      }
      if forall i :: 3 <= i < |cmd| ==> CorrespondingBitcodeName(cmd[i]) in present {
        assert forall i :: 0 <= i < |cmd[3..]| ==> cmd[3..][i] == cmd[i + 3];
        FindBitcodeAllSiblings(cmd[3..], present, fileType);
        assert a.ir[3..] == FindBitcode(cmd[3..], present, fileType);
      }
    }
  }

  /** RanlibWrapper.computeWrapperCommand: the output is the archive's
      bitcode; there is no IR step. */
  function RanlibOutput(cmd: seq<string>): (r: Result<string, Error>)
    ensures |cmd| < 2 <==> r == Err(IndexError)
    ensures r.Ok? ==> r.value == CorrespondingBitcodeName(cmd[1])
    ensures r.Ok? && !Contains(cmd[1], ".so.") ==> r.value == cmd[1] + ".bc"
  {
    if |cmd| < 2 then Err(IndexError)
    else
      var name := cmd[1];
      if Contains(name, ".so.") then Ok(CorrespondingBitcodeName(name))
      else (BitcodeNameUnversioned(name); Ok(CorrespondingBitcodeName(name)))
  }

  method ComputeRanlibCommand(w: CommandWrapper) returns (err: Option<Error>)
    modifies w`output, w`nothingToDo
    ensures var spec := RanlibOutput(w.realCommand);
      && (spec.Err? <==> err.Some?)
      && (spec.Err? ==> err.value == spec.error)
      && (spec.Ok? ==> w.output == spec.value && w.nothingToDo)
  {
    if |w.realCommand| < 2 {
      return Some(IndexError);
    }
    w.output := CorrespondingBitcodeName(w.realCommand[1]);
    w.nothingToDo := true;
    err := None;
  }
}
