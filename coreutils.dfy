/** The wrappers of mv, ln and cp: when a library is moved, linked or
    copied, the same command is repeated on the library's bitcode. Whether
    an argument names a library is decided by `isLibrary`, which is not
    part of this model and is a parameter here. */
module CoreutilsWrapper {
  import opened Wrappers
  import opened Strings
  import opened CommandWrapper

  /** A library argument replaced by its bitcode name. */
  function ArgBitcode(a: string, isLibrary: string -> bool): string
  {
    if isLibrary(a) then CorrespondingBitcodeName(a) else a
  }

  /** The arguments with each library replaced by its bitcode name. */
  function Translate(args: seq<string>, isLibrary: string -> bool): (r: seq<string>)
    ensures |r| == |args|
    ensures forall k :: 0 <= k < |args| ==> r[k] == ArgBitcode(args[k], isLibrary)
  {
    seq(|args|, k requires 0 <= k < |args| => ArgBitcode(args[k], isLibrary))
  }

  predicate AnyLibrary(args: seq<string>, isLibrary: string -> bool)
  {
    exists k :: 0 <= k < |args| && isLibrary(args[k])
  }

  /** An option token that includes f, such as -f or -sf. */
  predicate IsForceFlag(a: string)
  {
    StartsWith(a, "-") && 'f' in a
  }

  /** Some non-library argument is a force flag. */
  predicate HasForce(args: seq<string>, isLibrary: string -> bool)
  {
    exists k :: 0 <= k < |args| && !isLibrary(args[k]) && IsForceFlag(args[k])
  }

  /** The IR command a file-operation wrapper computes: the command name,
      -f when force is needed and no force flag was given, and the
      arguments with each library replaced by its bitcode; nothing at all
      when no argument is a library. */
  function Generate(cmd: seq<string>, needForce: bool, isLibrary: string -> bool): seq<string>
    requires |cmd| > 0
  {
    var args := cmd[1..];
    if !AnyLibrary(args, isLibrary) then []
    else if needForce && !HasForce(args, isLibrary) then [cmd[0], "-f"] + Translate(args, isLibrary)
    else [cmd[0]] + Translate(args, isLibrary)
  }

  /** Extending the arguments by one extends what is known about them. */
  lemma ArgumentsSnoc(args: seq<string>, i: nat, isLibrary: string -> bool)
    requires i < |args|
    ensures AnyLibrary(args[..i + 1], isLibrary) == (AnyLibrary(args[..i], isLibrary) || isLibrary(args[i]))
    ensures HasForce(args[..i + 1], isLibrary) == (HasForce(args[..i], isLibrary) || (!isLibrary(args[i]) && IsForceFlag(args[i])))
    ensures Translate(args[..i + 1], isLibrary) == Translate(args[..i], isLibrary) + [ArgBitcode(args[i], isLibrary)]
  {
    AnyLibrarySnoc(args, i, isLibrary);
    HasForceSnoc(args, i, isLibrary);
    assert Translate(args[..i + 1], isLibrary)[..i] == Translate(args[..i], isLibrary);
  }

  lemma AnyLibrarySnoc(args: seq<string>, i: nat, isLibrary: string -> bool)
    requires i < |args|
    ensures AnyLibrary(args[..i + 1], isLibrary) == (AnyLibrary(args[..i], isLibrary) || isLibrary(args[i]))
  {
    var pre, ext := args[..i], args[..i + 1];
    assert ext[i] == args[i];
    if AnyLibrary(ext, isLibrary) && !isLibrary(args[i]) {
      var k :| 0 <= k < |ext| && isLibrary(ext[k]);
      assert pre[k] == ext[k];
    }
    if AnyLibrary(pre, isLibrary) {
      var k :| 0 <= k < |pre| && isLibrary(pre[k]);
      assert pre[k] == ext[k];
    }
  }

  lemma HasForceSnoc(args: seq<string>, i: nat, isLibrary: string -> bool)
    requires i < |args|
    ensures HasForce(args[..i + 1], isLibrary) == (HasForce(args[..i], isLibrary) || (!isLibrary(args[i]) && IsForceFlag(args[i])))
  {
    var pre, ext := args[..i], args[..i + 1];
    assert ext[i] == args[i];
    if HasForce(ext, isLibrary) && !(!isLibrary(args[i]) && IsForceFlag(args[i])) {
      var k :| 0 <= k < |ext| && !isLibrary(ext[k]) && IsForceFlag(ext[k]);
      assert pre[k] == ext[k];
    }
    if HasForce(pre, isLibrary) {
      var k :| 0 <= k < |pre| && !isLibrary(pre[k]) && IsForceFlag(pre[k]);
      assert pre[k] == ext[k];
    }
  }

  /** CoreUtilsWrapper.computeWrapperCommand of unixcommandswrapper.py. */
  method ComputeUnixCommand(w: CommandWrapper, isLibrary: string -> bool) returns (err: Option<Error>)
    requires w.generateIrCommand == []
    modifies w`generateIrCommand, w`nothingToDo
    ensures |old(w.realCommand)| == 0 <==> err == Some(IndexError)
    ensures err.Some? ==> err == Some(IndexError)
    ensures err.None? ==>
              && w.generateIrCommand == Generate(w.realCommand, w.needForce, isLibrary)
              && w.nothingToDo == (old(w.nothingToDo) || !AnyLibrary(w.realCommand[1..], isLibrary))
  {
    if |w.realCommand| == 0 {
      return Some(IndexError);
    }
    var name := w.realCommand[0];
    ghost var translated := Translate(w.realCommand[1..], isLibrary);
    w.generateIrCommand := w.generateIrCommand + [name];
    var haveLibs, hasForceFlag := AppendArguments(w, w.realCommand[1..], isLibrary);
    assert w.generateIrCommand == [name] + translated;
    if !hasForceFlag && w.needForce {
      assert w.generateIrCommand[..1] == [name];
      assert w.generateIrCommand[1..] == translated;
      w.generateIrCommand := w.generateIrCommand[..1] + ["-f"] + w.generateIrCommand[1..];
    }
    if !haveLibs {
      w.nothingToDo := true;
      w.generateIrCommand := [];
    }
    err := None;
  }

  /** The loop of unixcommandswrapper.py: libraries become their bitcode,
      force flags among the other arguments are noted. */
  method AppendArguments(w: CommandWrapper, args: seq<string>, isLibrary: string -> bool)
    returns (haveLibs: bool, hasForceFlag: bool)
    modifies w`generateIrCommand
    ensures w.generateIrCommand == old(w.generateIrCommand) + Translate(args, isLibrary)
    ensures haveLibs == AnyLibrary(args, isLibrary) && hasForceFlag == HasForce(args, isLibrary)
  {
    haveLibs, hasForceFlag := false, false;
    ghost var base := w.generateIrCommand;
    for i := 0 to |args|
      invariant w.generateIrCommand == base + Translate(args[..i], isLibrary)
      invariant haveLibs == AnyLibrary(args[..i], isLibrary)
      invariant hasForceFlag == HasForce(args[..i], isLibrary)
    {
      ArgumentsSnoc(args, i, isLibrary);
      var a := args[i];
      if isLibrary(a) {
        w.generateIrCommand := w.generateIrCommand + [CorrespondingBitcodeName(a)];
        haveLibs := true;
        continue;
      }
      if StartsWith(a, "-") && 'f' in a {
        hasForceFlag := true;
      }
      w.generateIrCommand := w.generateIrCommand + [a];
    }
    assert args[..|args|] == args;
  }

  /** CoreUtilsWrapper.computeWrapperCommand of coreutilswrapper.py, the
      older version that never injects -f. */
  method ComputeCoreutilsCommand(w: CommandWrapper, isLibrary: string -> bool) returns (err: Option<Error>)
    requires w.generateIrCommand == []
    modifies w`generateIrCommand, w`nothingToDo
    ensures |old(w.realCommand)| == 0 <==> err == Some(IndexError)
    ensures err.Some? ==> err == Some(IndexError)
    ensures err.None? ==>
              && w.generateIrCommand == Generate(w.realCommand, false, isLibrary)
              && w.nothingToDo == (old(w.nothingToDo) || !AnyLibrary(w.realCommand[1..], isLibrary))
  {
    if |w.realCommand| == 0 {
      return Some(IndexError);
    }
    w.generateIrCommand := w.generateIrCommand + [w.realCommand[0]];
    var haveLibs := CopyArguments(w, w.realCommand[1..], isLibrary);
    if !haveLibs {
      w.nothingToDo := true;
      w.generateIrCommand := [];
    }
    err := None;
  }

  /** The loop of coreutilswrapper.py: libraries become their bitcode,
      everything else is copied. */
  method CopyArguments(w: CommandWrapper, args: seq<string>, isLibrary: string -> bool) returns (haveLibs: bool)
    modifies w`generateIrCommand
    ensures w.generateIrCommand == old(w.generateIrCommand) + Translate(args, isLibrary)
    ensures haveLibs == AnyLibrary(args, isLibrary)
  {
    haveLibs := false;
    ghost var base := w.generateIrCommand;
    for i := 0 to |args|
      invariant w.generateIrCommand == base + Translate(args[..i], isLibrary)
      invariant haveLibs == AnyLibrary(args[..i], isLibrary)
    {
      ArgumentsSnoc(args, i, isLibrary);
      var a := args[i];
      if isLibrary(a) {
        w.generateIrCommand := w.generateIrCommand + [CorrespondingBitcodeName(a)];
        haveLibs := true;
      } else {
        w.generateIrCommand := w.generateIrCommand + [a];
      }
    }
    assert args[..|args|] == args;
  }

  /** Starting from an empty IR command: with a library among the
      arguments, the command is the same command name followed by the same
      arguments, position by position, each library replaced by its
      bitcode, with -f right after the name exactly when force is needed
      and the arguments have no force flag of their own. */
  lemma GenerateElementwise(cmd: seq<string>, needForce: bool, isLibrary: string -> bool)
    requires |cmd| > 0 && AnyLibrary(cmd[1..], isLibrary)
    ensures var r := Generate(cmd, needForce, isLibrary);
      var inject := needForce && !HasForce(cmd[1..], isLibrary);
      var off := if inject then 2 else 1;
      && |r| == |cmd| + off - 1
      && r[0] == cmd[0]
      && (inject ==> r[1] == "-f")
      && forall k :: 1 <= k < |cmd| ==> r[k + off - 1] == ArgBitcode(cmd[k], isLibrary)
  {
    var args := cmd[1..];
    var t := Translate(args, isLibrary);
    var r := Generate(cmd, needForce, isLibrary);
    var inject := needForce && !HasForce(args, isLibrary);
    var head := if inject then [cmd[0], "-f"] else [cmd[0]];
    assert r == head + t;
    ShiftedTranslate(cmd, head, t, isLibrary);
  }

  lemma ShiftedTranslate(cmd: seq<string>, head: seq<string>, t: seq<string>, isLibrary: string -> bool)
    requires |cmd| > 0 && t == Translate(cmd[1..], isLibrary)
    ensures forall k :: 1 <= k < |cmd| ==> (head + t)[k + |head| - 1] == ArgBitcode(cmd[k], isLibrary)
  {
    forall k | 1 <= k < |cmd| ensures (head + t)[k + |head| - 1] == ArgBitcode(cmd[k], isLibrary) {
      assert (head + t)[k + |head| - 1] == t[k - 1];
      assert cmd[1..][k - 1] == cmd[k];
    }
  }

  /** Nothing is left to do, and the IR command is empty, exactly when no
      argument is a library. */
  lemma GenerateEmpty(cmd: seq<string>, needForce: bool, isLibrary: string -> bool)
    requires |cmd| > 0
    ensures Generate(cmd, needForce, isLibrary) == [] <==> !AnyLibrary(cmd[1..], isLibrary)
  {
  }

  /** When force is needed, the IR command of a move or link always carries
      a force flag after the command name, so the bitcode copy overwrites. */
  lemma ForceGuaranteed(cmd: seq<string>, isLibrary: string -> bool)
    requires |cmd| > 0 && AnyLibrary(cmd[1..], isLibrary)
    ensures var r := Generate(cmd, true, isLibrary);
      exists k :: 1 <= k < |r| && IsForceFlag(r[k])
  {
    var args := cmd[1..];
    if HasForce(args, isLibrary) {
      var k :| 0 <= k < |args| && !isLibrary(args[k]) && IsForceFlag(args[k]);
      ForceKept(cmd, isLibrary, k);
    } else {
      ForceInjected(cmd, isLibrary);
      assert IsForceFlag("-f") by { assert "-f"[..1] == "-" && 'f' == "-f"[1]; }
    }
  }

  /** Without a force flag of its own, a move or link gets -f right after
      the command name. */
  lemma ForceInjected(cmd: seq<string>, isLibrary: string -> bool)
    requires |cmd| > 0 && AnyLibrary(cmd[1..], isLibrary) && !HasForce(cmd[1..], isLibrary)
    ensures var r := Generate(cmd, true, isLibrary); 1 < |r| && r[1] == "-f"
  {
  }

  /** A force flag given among the arguments keeps its place. */
  lemma ForceKept(cmd: seq<string>, isLibrary: string -> bool, k: nat)
    requires |cmd| > 0 && AnyLibrary(cmd[1..], isLibrary)
    requires k < |cmd| - 1 && !isLibrary(cmd[1..][k]) && IsForceFlag(cmd[1..][k])
    ensures var r := Generate(cmd, true, isLibrary); k + 1 < |r| && r[k + 1] == cmd[1..][k]
  {
    var args := cmd[1..];
    var t := Translate(args, isLibrary);
    assert HasForce(args, isLibrary);
    assert Generate(cmd, true, isLibrary) == [cmd[0]] + t;
  }

  /** `mv -f foo.so bar.so` becomes `mv -f foo.so.bc bar.so.bc`. */
  lemma MoveExample(isLibrary: string -> bool)
    requires isLibrary("foo.so") && isLibrary("bar.so") && !isLibrary("-f")
    ensures Generate(["mv", "-f", "foo.so", "bar.so"], true, isLibrary) == ["mv", "-f", "foo.so.bc", "bar.so.bc"]
  {
    var cmd := ["mv", "-f", "foo.so", "bar.so"];
    var args := cmd[1..];
    assert args == ["-f", "foo.so", "bar.so"];
    NoSoDot("foo.so");
    NoSoDot("bar.so");
    assert IsForceFlag("-f") by { assert "-f"[..1] == "-" && "-f"[1] == 'f'; }
    assert HasForce(args, isLibrary) by { assert !isLibrary(args[0]) && IsForceFlag(args[0]); }
    assert AnyLibrary(args, isLibrary) by { assert isLibrary(args[1]); }
    var t := Translate(args, isLibrary);
    assert t[0] == "-f" && t[1] == "foo.so.bc" && t[2] == "bar.so.bc";
    assert t == ["-f", "foo.so.bc", "bar.so.bc"];
    assert Generate(cmd, true, isLibrary) == ["mv"] + t;
  }

  /** `ln -s -f foo.so bar.so` becomes `ln -s -f foo.so.bc bar.so.bc`. */
  lemma LinkExample(isLibrary: string -> bool)
    requires isLibrary("foo.so") && isLibrary("bar.so") && !isLibrary("-s") && !isLibrary("-f")
    ensures Generate(["ln", "-s", "-f", "foo.so", "bar.so"], true, isLibrary) == ["ln", "-s", "-f", "foo.so.bc", "bar.so.bc"]
  {
    var cmd := ["ln", "-s", "-f", "foo.so", "bar.so"];
    var args := cmd[1..];
    assert args == ["-s", "-f", "foo.so", "bar.so"];
    NoSoDot("foo.so");
    NoSoDot("bar.so");
    assert IsForceFlag("-f") by { assert "-f"[..1] == "-" && "-f"[1] == 'f'; }
    assert HasForce(args, isLibrary) by { assert !isLibrary(args[1]) && IsForceFlag(args[1]); }
    assert AnyLibrary(args, isLibrary) by { assert isLibrary(args[2]); }
    var t := Translate(args, isLibrary);
    assert t[0] == "-s" && t[1] == "-f" && t[2] == "foo.so.bc" && t[3] == "bar.so.bc";
    assert t == ["-s", "-f", "foo.so.bc", "bar.so.bc"];
    assert Generate(cmd, true, isLibrary) == ["ln"] + t;
  }

  /** `mv foo.so bar.so` gets -f injected: `mv -f foo.so.bc bar.so.bc`. */
  lemma InjectExample(isLibrary: string -> bool)
    requires isLibrary("foo.so") && isLibrary("bar.so")
    ensures Generate(["mv", "foo.so", "bar.so"], true, isLibrary) == ["mv", "-f", "foo.so.bc", "bar.so.bc"]
  {
    var cmd := ["mv", "foo.so", "bar.so"];
    var args := cmd[1..];
    assert args == ["foo.so", "bar.so"];
    NoSoDot("foo.so");
    NoSoDot("bar.so");
    assert AnyLibrary(args, isLibrary) by { assert isLibrary(args[0]); }
    assert !HasForce(args, isLibrary);
    var t := Translate(args, isLibrary);
    assert t[0] == "foo.so.bc" && t[1] == "bar.so.bc";
  }

  /** A copy of the same files gets no -f: `cp foo.so.bc bar.so.bc`. */
  lemma CopyExample(isLibrary: string -> bool)
    requires isLibrary("foo.so") && isLibrary("bar.so")
    ensures Generate(["cp", "foo.so", "bar.so"], false, isLibrary) == ["cp", "foo.so.bc", "bar.so.bc"]
  {
    var cmd := ["cp", "foo.so", "bar.so"];
    var args := cmd[1..];
    assert args == ["foo.so", "bar.so"];
    NoSoDot("foo.so");
    NoSoDot("bar.so");
    assert AnyLibrary(args, isLibrary) by { assert isLibrary(args[0]); }
    var t := Translate(args, isLibrary);
    assert t[0] == "foo.so.bc" && t[1] == "bar.so.bc";
  }

  /** `mv -f foo.o bar.o` moves no library: nothing to do. */
  lemma NoLibraryExample(isLibrary: string -> bool)
    requires !isLibrary("-f") && !isLibrary("foo.o") && !isLibrary("bar.o")
    ensures Generate(["mv", "-f", "foo.o", "bar.o"], true, isLibrary) == []
  {
    var cmd := ["mv", "-f", "foo.o", "bar.o"];
    assert cmd[1..] == ["-f", "foo.o", "bar.o"];
  }

  /** A six-letter name ending in ".so" and not starting with '.' has no
      ".so." in it, so its bitcode name is the name with ".bc" appended. */
  lemma NoSoDot(name: string)
    requires |name| == 6 && name[3..] == ".so" && name[0] != '.'
    ensures CorrespondingBitcodeName(name) == name + ".bc"
  {
    assert name[3] == '.' && name[4] == 's' && name[5] == 'o' by {
      assert name[3..][0] == name[3] && name[3..][1] == name[4] && name[3..][2] == name[5];
    }
    forall i | 0 <= i <= |name| - 4 ensures !OccursAt(name, ".so.", i) {
      assert name[i..i + 4][0] == name[i] && name[i..i + 4][1] == name[i + 1];
    }
    BitcodeNameUnversioned(name);
  }
}
