// A sandbox as the analyses see it: its name and bit index, its entry point
// or code region, and what its annotations grant it (shared global
// variables, callgates, file-descriptor capabilities, creation points and
// system-call limits). The LLVM module is reduced to the annotation data
// these passes read from it.
module Sandboxes {
  import opened Wrappers
  import opened Strings

  // Annotation vocabulary of include/soaap.h.
  const VarRead := "VAR_READ"
  const VarWrite := "VAR_WRITE"
  const VarReadMask: bv32 := 0x1
  const VarWriteMask: bv32 := 0x2
  /** Every bit but the read and write bits. */
  const OtherBits: bv32 := 0xFFFF_FFFC
  const SoaapFd := "SOAAP_FD"
  const SoaapSysCalls := "SOAAP_SYSCALLS"
  const NoSysCallsAllowed := "SOAAP_NO_SYSCALLS_ALLOWED"
  const PersistentCreate := "SOAAP_PERSISTENT_SANDBOX_CREATE"
  const EphemeralCreate := "SOAAP_EPHEMERAL_SANDBOX_CREATE"
  const CallgatesHelper := "__soaap_declare_callgates_helper"

  /** An instruction (a call) of the module, by identity. */
  type CallId = nat

  /** What an entry of llvm.global.annotations annotates. */
  datatype Annotated = GlobalVar(gv: string) | OtherValue

  datatype GlobalAnnotation = GlobalAnnotation(target: Annotated, text: string)

  /** A function of the module: its name and, for every call of it, the
      argument operands (the functions passed). */
  datatype ModuleFunction = ModuleFunction(name: string, calls: seq<seq<string>>)

  /** A call of llvm.annotation.i32: the call, its string, and the function
      the call sits in. */
  datatype AnnotationCall = AnnotationCall(call: CallId, text: string, enclosing: string)

  /** An annotation intrinsic in an entry point's body: a parameter
      annotation (the debug name of the annotated variable, if the debugger
      declaration is found) or a struct-member annotation. */
  datatype EntryIntrinsic =
    | VarAnnotation(declared: Option<string>, text: string)
    | PtrAnnotation(call: CallId, text: string)

  /** The module, as far as the sandbox passes read it. */
  datatype Module = Module(
    globalAnnotations: seq<GlobalAnnotation>,
    functions: seq<ModuleFunction>,
    annotationCalls: seq<AnnotationCall>,
    entryBodies: map<string, seq<EntryIntrinsic>>,
    entryParams: map<string, seq<string>>)

  /** The names Module::getFunction finds. */
  function Known(m: Module): set<string>
  {
    set f | f in m.functions :: f.name
  }

  function Body(m: Module, f: string): seq<EntryIntrinsic>
  {
    if f in m.entryBodies then m.entryBodies[f] else []
  }

  function Params(m: Module, f: string): seq<string>
  {
    if f in m.entryParams then m.entryParams[f] else []
  }

  /** What a capability list is attached to: an annotated parameter or an
      annotated struct-member access. */
  datatype CapKey = Param(param: string) | Member(call: CallId)

  /** std::string::substr(npos) on a list entry made only of blanks throws
      std::out_of_range. */
  datatype ParseError = BlankListEntry

  /** The name after `prefix` and its "_": StringRef::substr, which clamps. */
  function After(text: string, prefix: string): (r: string)
    ensures StartsWith(text, prefix + "_") ==> text == prefix + "_" + r
  {
    if |prefix| + 1 <= |text| then text[|prefix| + 1..] else ""
  }

  // ---------------------------------------------------------------------
  // System-call lists: the text after a prefix, split with getline on ','
  // and each entry trimmed of spaces.

  function Entry(token: string): Option<string>
  {
    TrimChars(token, {' '})
  }

  /**
   * A parameter or SOAAP_SYSCALLS list from entry `i` on: a blank entry
   * throws, SOAAP_NO_SYSCALLS_ALLOWED empties the set and stops, and an
   * entry is kept only if the module has a function of that name.
   */
  function StrictFrom(tokens: seq<string>, i: nat, acc: set<string>, known: set<string>): Result<set<string>, ParseError>
    requires i <= |tokens|
    decreases |tokens| - i
  {
    if i == |tokens| then Ok(acc)
    else match Entry(tokens[i])
      case None => Err(BlankListEntry)
      case Some(t) =>
        if t == NoSysCallsAllowed then Ok({})
        else StrictFrom(tokens, i + 1, if t in known then acc + {t} else acc, known)
  }

  function StrictList(csv: string, known: set<string>): Result<set<string>, ParseError>
  {
    StrictFrom(GetlineSplit(csv, ','), 0, {}, known)
  }

  /** A struct-member list from entry `i` on: blank entries are skipped and
      there is no SOAAP_NO_SYSCALLS_ALLOWED case. */
  function LenientFrom(tokens: seq<string>, i: nat, acc: set<string>, known: set<string>): set<string>
    requires i <= |tokens|
    decreases |tokens| - i
  {
    if i == |tokens| then acc
    else match Entry(tokens[i])
      case None => LenientFrom(tokens, i + 1, acc, known)
      case Some(t) => LenientFrom(tokens, i + 1, if t in known then acc + {t} else acc, known)
  }

  function LenientList(csv: string, known: set<string>): set<string>
  {
    LenientFrom(GetlineSplit(csv, ','), 0, {}, known)
  }

  /** An accepted list only names functions of the module. */
  lemma {:induction false} StrictKnown(tokens: seq<string>, i: nat, acc: set<string>, known: set<string>)
    requires i <= |tokens| && acc <= known
    ensures StrictFrom(tokens, i, acc, known).Ok? ==> StrictFrom(tokens, i, acc, known).value <= known
    decreases |tokens| - i
  {
    if i < |tokens| && Entry(tokens[i]).Some? && Entry(tokens[i]).value != NoSysCallsAllowed {
      var t := Entry(tokens[i]).value;
      StrictKnown(tokens, i + 1, if t in known then acc + {t} else acc, known);
    }
  }

  /** A list in which every entry is non-blank and none is
      SOAAP_NO_SYSCALLS_ALLOWED grants exactly its entries that name
      functions of the module. */
  lemma {:induction false} StrictClean(tokens: seq<string>, i: nat, acc: set<string>, known: set<string>)
    requires i <= |tokens|
    requires forall j :: i <= j < |tokens| ==> Entry(tokens[j]).Some? && Entry(tokens[j]).value != NoSysCallsAllowed
    ensures StrictFrom(tokens, i, acc, known).Ok?
    ensures forall t :: t in StrictFrom(tokens, i, acc, known).value <==>
      t in acc || (t in known && exists j :: i <= j < |tokens| && Entry(tokens[j]) == Some(t))
    decreases |tokens| - i
  {
    if i < |tokens| {
      var t := Entry(tokens[i]).value;
      StrictClean(tokens, i + 1, if t in known then acc + {t} else acc, known);
    }
  }

  /** SOAAP_NO_SYSCALLS_ALLOWED, reached before any blank entry, grants
      nothing, whatever the entries around it. */
  lemma {:induction false} StrictNoneAllowed(tokens: seq<string>, i: nat, acc: set<string>, known: set<string>, k: nat)
    requires i <= k < |tokens| && Entry(tokens[k]) == Some(NoSysCallsAllowed)
    requires forall j :: i <= j < k ==> Entry(tokens[j]).Some?
    ensures StrictFrom(tokens, i, acc, known) == Ok({})
    decreases |tokens| - i
  {
    if i < k && Entry(tokens[i]).value != NoSysCallsAllowed {
      var t := Entry(tokens[i]).value;
      StrictNoneAllowed(tokens, i + 1, if t in known then acc + {t} else acc, known, k);
    }
  }

  /** A blank entry reached before SOAAP_NO_SYSCALLS_ALLOWED makes the parse
      throw. */
  lemma {:induction false} StrictBlankThrows(tokens: seq<string>, i: nat, acc: set<string>, known: set<string>, k: nat)
    requires i <= k < |tokens| && Entry(tokens[k]).None?
    requires forall j :: i <= j < k ==> Entry(tokens[j]).Some? && Entry(tokens[j]).value != NoSysCallsAllowed
    ensures StrictFrom(tokens, i, acc, known).Err?
    decreases |tokens| - i
  {
    if i < k {
      var t := Entry(tokens[i]).value;
      StrictBlankThrows(tokens, i + 1, if t in known then acc + {t} else acc, known, k);
    }
  }

  /** A struct-member list grants exactly its non-blank entries that name
      functions of the module. */
  lemma {:induction false} LenientGrants(tokens: seq<string>, i: nat, acc: set<string>, known: set<string>)
    requires i <= |tokens|
    ensures forall t :: t in LenientFrom(tokens, i, acc, known) <==>
      t in acc || (t in known && exists j :: i <= j < |tokens| && Entry(tokens[j]) == Some(t))
    decreases |tokens| - i
  {
    if i < |tokens| {
      match Entry(tokens[i])
      case None => LenientGrants(tokens, i + 1, acc, known);
      case Some(t) => LenientGrants(tokens, i + 1, if t in known then acc + {t} else acc, known);
    }
  }

  /** The list after the quoted sandbox name of a struct-member annotation,
      when the name between the first two '"' is `name`. */
  function MemberList(rest: string, name: string): (r: Option<string>)
  {
    var q1 := Find(rest, '"');
    if q1 < 0 then None
    else
      var tail := rest[q1 + 1..];
      var q2 := Find(tail, '"');
      if q2 < 0 || tail[..q2] != name then None
      else Some(tail[q2 + 1..])
  }

  /** A struct-member annotation written as `p"name"list`, where neither
      `p` nor `name` holds a '"', reads back as `list` for that sandbox and
      for no other. */
  lemma MemberListQuoted(p: string, name: string, list: string, other: string)
    requires forall i :: 0 <= i < |p| ==> p[i] != '"'
    requires forall i :: 0 <= i < |name| ==> name[i] != '"'
    ensures MemberList(p + "\"" + name + "\"" + list, name) == Some(list)
    ensures other != name ==> MemberList(p + "\"" + name + "\"" + list, other).None?
  {
    var rest := p + "\"" + name + "\"" + list;
    assert rest[|p|] == '"';
    assert Find(rest, '"') == |p|;
    var tail := rest[|p| + 1..];
    assert tail == name + "\"" + list;
    assert tail[|name|] == '"';
    assert Find(tail, '"') == |name|;
    assert tail[..|name|] == name;
    assert tail[|name| + 1..] == list;
  }

  // ---------------------------------------------------------------------
  // Shared global variables.

  function Perm(perms: map<string, bv32>, g: string): bv32
  {
    if g in perms then perms[g] else 0
  }

  /** The permission bit a global annotation grants to sandbox `name`:
      VAR_READ_<name> the read bit, VAR_WRITE_<name> the write bit. */
  function GrantedBit(a: GlobalAnnotation, name: string): (r: bv32)
    ensures r == 0 || r == VarReadMask || r == VarWriteMask
  {
    if a.target.OtherValue? then 0
    else if StartsWith(a.text, VarRead) then (if After(a.text, VarRead) == name then VarReadMask else 0)
    else if StartsWith(a.text, VarWrite) then (if After(a.text, VarWrite) == name then VarWriteMask else 0)
    else 0
  }

  /** One annotation processed: its bit, if any, ORed into the entry of its
      global (an absent entry counts as 0). */
  function PermStep(perms: map<string, bv32>, a: GlobalAnnotation, name: string): map<string, bv32>
  {
    var bit := GrantedBit(a, name);
    if bit == 0 then perms else perms[a.target.gv := Perm(perms, a.target.gv) | bit]
  }

  /** sharedVarToPerms after the first |anns| annotations, from `init`. */
  function SharedVarPerms(anns: seq<GlobalAnnotation>, name: string, init: map<string, bv32>): map<string, bv32>
  {
    if anns == [] then init
    else PermStep(SharedVarPerms(anns[..|anns| - 1], name, init), anns[|anns| - 1], name)
  }

  /** The bit `a` grants to global `g` (0 when it targets something else). */
  function BitFor(a: GlobalAnnotation, name: string, g: string): bv32
  {
    if a.target == GlobalVar(g) then GrantedBit(a, name) else 0
  }

  /** Reference definition: the OR of all the bits granted to `g`. */
  function BitsFor(anns: seq<GlobalAnnotation>, name: string, g: string): bv32
  {
    if anns == [] then 0 else BitsFor(anns[..|anns| - 1], name, g) | BitFor(anns[|anns| - 1], name, g)
  }

  /** Granting `bit` to `g`. */
  predicate Grants(a: GlobalAnnotation, name: string, g: string, bit: bv32)
  {
    a.target == GlobalVar(g) && GrantedBit(a, name) == bit
  }

  lemma PermStepAt(perms: map<string, bv32>, a: GlobalAnnotation, name: string, g: string)
    ensures Perm(PermStep(perms, a, name), g) == Perm(perms, g) | BitFor(a, name, g)
    ensures g in PermStep(perms, a, name) <==> g in perms || BitFor(a, name, g) != 0
  {
    var bit := GrantedBit(a, name);
    if bit == 0 || a.target != GlobalVar(g) {
      assert BitFor(a, name, g) == 0 || bit == 0;
      assert Perm(perms, g) | 0 == Perm(perms, g);
    }
  }

  /** The permissions of a global are the OR of the bits the annotations
      grant it. */
  lemma {:induction false} PermsAreGrantedBits(anns: seq<GlobalAnnotation>, name: string, g: string)
    ensures Perm(SharedVarPerms(anns, name, map[]), g) == BitsFor(anns, name, g)
  {
    if anns != [] {
      var init := anns[..|anns| - 1];
      PermsAreGrantedBits(init, name, g);
      PermStepAt(SharedVarPerms(init, name, map[]), anns[|anns| - 1], name, g);
    }
  }

  /** A global has an entry only when some annotation grants it a bit. */
  lemma {:induction false} PermsEntryIff(anns: seq<GlobalAnnotation>, name: string, g: string)
    ensures g in SharedVarPerms(anns, name, map[]) <==>
      exists k :: 0 <= k < |anns| && BitFor(anns[k], name, g) != 0
  {
    if anns != [] {
      var init := anns[..|anns| - 1];
      PermsEntryIff(init, name, g);
      assert forall k :: 0 <= k < |init| ==> anns[k] == init[k];
      var last := anns[|anns| - 1];
      PermStepAt(SharedVarPerms(init, name, map[]), last, name, g);
      if BitFor(last, name, g) != 0 {
        assert BitFor(anns[|anns| - 1], name, g) != 0;
      }
    }
  }

  lemma OrMask(x: bv32, b: bv32, mask: bv32)
    requires b == 0 || b == VarReadMask || b == VarWriteMask
    requires mask == VarReadMask || mask == VarWriteMask
    ensures (x | b) & mask != 0 <==> x & mask != 0 || b == mask
    ensures (x | b) & OtherBits == x & OtherBits
  {
  }

  /** `mask` (the read or the write bit) is in the OR exactly when some
      annotation grants it to `g`; no other bit ever is. */
  lemma {:induction false} GrantedBitsIff(anns: seq<GlobalAnnotation>, name: string, g: string, mask: bv32)
    requires mask == VarReadMask || mask == VarWriteMask
    ensures BitsFor(anns, name, g) & mask != 0 <==> exists k :: 0 <= k < |anns| && Grants(anns[k], name, g, mask)
    ensures BitsFor(anns, name, g) & OtherBits == 0
  {
    if anns != [] {
      var init := anns[..|anns| - 1];
      GrantedBitsIff(init, name, g, mask);
      assert forall k :: 0 <= k < |init| ==> anns[k] == init[k];
      var last := anns[|anns| - 1];
      OrMask(BitsFor(init, name, g), BitFor(last, name, g), mask);
      assert BitsFor(anns, name, g) == BitsFor(init, name, g) | BitFor(last, name, g);
      if Grants(last, name, g, mask) {
        assert Grants(anns[|anns| - 1], name, g, mask);
      }
    }
  }

  /** isAllowedToReadGlobalVar after the annotations are read: exactly the
      globals some VAR_READ_<name> annotation of this sandbox targets. */
  lemma ReadAllowedIff(anns: seq<GlobalAnnotation>, name: string, g: string)
    ensures var perms := SharedVarPerms(anns, name, map[]);
      (g in perms && perms[g] & VarReadMask != 0) <==>
      exists k :: 0 <= k < |anns| && Grants(anns[k], name, g, VarReadMask)
  {
    PermsAreGrantedBits(anns, name, g);
    GrantedBitsIff(anns, name, g, VarReadMask);
  }

  // ---------------------------------------------------------------------
  // Callgates: the functions passed (after the first, unused argument) to
  // every call of __soaap_declare_callgates_helper_<name>.

  predicate IsHelperFor(f: ModuleFunction, name: string)
  {
    StartsWith(f.name, CallgatesHelper + "_") && After(f.name, CallgatesHelper) == name
  }

  function Passed(args: seq<string>): seq<string>
  {
    if |args| <= 1 then [] else args[1..]
  }

  function CallsPassed(calls: seq<seq<string>>): seq<string>
  {
    if calls == [] then [] else CallsPassed(calls[..|calls| - 1]) + Passed(calls[|calls| - 1])
  }

  /** The callgates one function of the module contributes. */
  function FnCallgates(f: ModuleFunction, name: string): seq<string>
  {
    if IsHelperFor(f, name) then CallsPassed(f.calls) else []
  }

  function CallgatesOf(fns: seq<ModuleFunction>, name: string): seq<string>
  {
    if fns == [] then [] else CallgatesOf(fns[..|fns| - 1], name) + FnCallgates(fns[|fns| - 1], name)
  }

  lemma {:induction false} CallsPassedMembers(calls: seq<seq<string>>, c: string)
    ensures c in CallsPassed(calls) <==> exists j, k :: 0 <= j < |calls| && 1 <= k < |calls[j]| && calls[j][k] == c
  {
    if calls != [] {
      var init := calls[..|calls| - 1];
      CallsPassedMembers(init, c);
      assert forall j :: 0 <= j < |init| ==> calls[j] == init[j];
      var last := calls[|calls| - 1];
      if c in Passed(last) {
        var k :| 0 <= k < |Passed(last)| && Passed(last)[k] == c;
        assert last[k + 1] == c;
      }
      if exists k :: 1 <= k < |last| && last[k] == c {
        var k :| 1 <= k < |last| && last[k] == c;
        assert Passed(last)[k - 1] == c;
      }
    }
  }

  /** A function contributes callgates only if it is this sandbox's helper,
      and then exactly what its calls pass after the first argument. */
  lemma FnCallgatesMembers(f: ModuleFunction, name: string, c: string)
    ensures c in FnCallgates(f, name) <==>
      IsHelperFor(f, name) && exists j, k :: 0 <= j < |f.calls| && 1 <= k < |f.calls[j]| && f.calls[j][k] == c
  {
    CallsPassedMembers(f.calls, c);
  }

  /** `c` is a callgate of sandbox `name` exactly when some function of the
      module contributes it. */
  lemma {:induction false} CallgateMembers(fns: seq<ModuleFunction>, name: string, c: string)
    ensures c in CallgatesOf(fns, name) <==> exists i :: 0 <= i < |fns| && c in FnCallgates(fns[i], name)
  {
    if fns != [] {
      var init := fns[..|fns| - 1];
      CallgateMembers(init, name, c);
      assert forall i :: 0 <= i < |init| ==> fns[i] == init[i];
      if c in FnCallgates(fns[|fns| - 1], name) {
        assert 0 <= |fns| - 1 < |fns|;
      }
    }
  }

  // ---------------------------------------------------------------------
  // Capabilities of an entry point's annotated parameters and struct
  // members.

  function CapStep(caps: map<CapKey, set<string>>, item: EntryIntrinsic, name: string, params: seq<string>, known: set<string>): Result<map<CapKey, set<string>>, ParseError>
  {
    match item
    case VarAnnotation(declared, text) =>
      if declared.Some? && declared.value in params && StartsWith(text, SoaapFd) then
        match StrictList(After(text, SoaapFd), known)
        case Err(e) => Err(e)
        case Ok(s) => Ok(caps[Param(declared.value) := s])
      else Ok(caps)
    case PtrAnnotation(call, text) =>
      if StartsWith(text, SoaapFd) then
        match MemberList(After(text, SoaapFd), name)
        case None => Ok(caps)
        case Some(list) => Ok(caps[Member(call) := LenientList(list, known)])
      else Ok(caps)
  }

  /** caps after the first |items| intrinsics of the entry point. */
  function Capabilities(items: seq<EntryIntrinsic>, name: string, params: seq<string>, known: set<string>, init: map<CapKey, set<string>>): Result<map<CapKey, set<string>>, ParseError>
  {
    if items == [] then Ok(init)
    else match Capabilities(items[..|items| - 1], name, params, known, init)
      case Err(e) => Err(e)
      case Ok(caps) => CapStep(caps, items[|items| - 1], name, params, known)
  }

  /** Every capability recorded belongs to an annotated parameter of the
      entry point or to an annotated struct member, and lists only
      functions of the module. */
  ghost predicate CapsShaped(caps: map<CapKey, set<string>>, items: seq<EntryIntrinsic>, params: seq<string>, known: set<string>)
  {
    forall key :: key in caps ==>
      caps[key] <= known &&
      (key.Param? ==> key.param in params) &&
      (key.Member? ==> exists k :: 0 <= k < |items| && items[k].PtrAnnotation? && items[k].call == key.call)
  }

  lemma {:induction false} CapabilitiesShape(items: seq<EntryIntrinsic>, name: string, params: seq<string>, known: set<string>)
    ensures var r := Capabilities(items, name, params, known, map[]);
      r.Ok? ==> CapsShaped(r.value, items, params, known)
  {
    if items != [] {
      var init := items[..|items| - 1];
      CapabilitiesShape(init, name, params, known);
      var r := Capabilities(init, name, params, known, map[]);
      if r.Ok? {
        CapStepShaped(r.value, items, name, params, known);
      }
    }
  }

  /** One intrinsic keeps the capabilities shaped. */
  lemma CapStepShaped(caps: map<CapKey, set<string>>, items: seq<EntryIntrinsic>, name: string, params: seq<string>, known: set<string>)
    requires items != [] && CapsShaped(caps, items[..|items| - 1], params, known)
    ensures var r := CapStep(caps, items[|items| - 1], name, params, known);
      r.Ok? ==> CapsShaped(r.value, items, params, known)
  {
    var init := items[..|items| - 1];
    assert forall k :: 0 <= k < |init| ==> items[k] == init[k];
    assert CapsShaped(caps, items, params, known);
    var item := items[|items| - 1];
    match item
    case VarAnnotation(declared, text) =>
      if declared.Some? && declared.value in params && StartsWith(text, SoaapFd) {
        var csv := After(text, SoaapFd);
        StrictKnown(GetlineSplit(csv, ','), 0, {}, known);
      }
    case PtrAnnotation(call, text) =>
      if StartsWith(text, SoaapFd) && MemberList(After(text, SoaapFd), name).Some? {
        var list := MemberList(After(text, SoaapFd), name).value;
        LenientGrants(GetlineSplit(list, ','), 0, {}, known);
      }
  }

  // ---------------------------------------------------------------------
  // Creation points.

  /** The kind of creation a llvm.annotation.i32 call marks for sandbox
      `name`: Some(true) persistent, Some(false) ephemeral. */
  function CreationKind(c: AnnotationCall, name: string): Option<bool>
  {
    if StartsWith(c.text, PersistentCreate) then (if After(c.text, PersistentCreate) == name then Some(true) else None)
    else if StartsWith(c.text, EphemeralCreate) then (if After(c.text, EphemeralCreate) == name then Some(false) else None)
    else None
  }

  datatype Creation = Creation(points: seq<CallId>, persistent: bool)

  function Creations(calls: seq<AnnotationCall>, name: string, init: Creation): Creation
  {
    if calls == [] then init
    else
      var c := Creations(calls[..|calls| - 1], name, init);
      var last := calls[|calls| - 1];
      match CreationKind(last, name)
      case None => c
      case Some(p) => Creation(c.points + [last.call], p)
  }

  /** Call `k` is the last one marking a creation of sandbox `name`. */
  predicate LastCreationAt(calls: seq<AnnotationCall>, name: string, k: int)
  {
    && 0 <= k < |calls| && CreationKind(calls[k], name).Some?
    && forall j :: k < j < |calls| ==> CreationKind(calls[j], name).None?
  }

  /** The creation points are the calls marking a creation of this
      sandbox. */
  lemma {:induction false} CreationPointsMarked(calls: seq<AnnotationCall>, name: string, p0: bool)
    ensures forall x :: x in Creations(calls, name, Creation([], p0)).points <==>
      exists k :: 0 <= k < |calls| && calls[k].call == x && CreationKind(calls[k], name).Some?
  {
    if calls != [] {
      var init := calls[..|calls| - 1];
      CreationPointsMarked(init, name, p0);
      assert forall k :: 0 <= k < |init| ==> calls[k] == init[k];
    }
  }

  /** Without a creation point the sandbox keeps its earlier setting. */
  lemma {:induction false} CreationNoneKeeps(calls: seq<AnnotationCall>, name: string, p0: bool)
    requires forall k :: 0 <= k < |calls| ==> CreationKind(calls[k], name).None?
    ensures Creations(calls, name, Creation([], p0)).persistent == p0
  {
    if calls != [] {
      var init := calls[..|calls| - 1];
      CreationNoneKeeps(init, name, p0);
    }
  }

  /** The last creation point decides whether the sandbox is persistent. */
  lemma {:induction false} CreationLastWins(calls: seq<AnnotationCall>, name: string, p0: bool, k: int)
    requires LastCreationAt(calls, name, k)
    ensures Creations(calls, name, Creation([], p0)).persistent == CreationKind(calls[k], name).value
  {
    var init := calls[..|calls| - 1];
    if k < |calls| - 1 {
      assert LastCreationAt(init, name, k);
      CreationLastWins(init, name, p0, k);
    }
  }

  // ---------------------------------------------------------------------
  // System-call limit points.

  /** Whether an annotation call lies in this sandbox: in its region (a
      sandbox without an entry point) or in one of its functions. */
  predicate InSandbox(c: AnnotationCall, entryPoint: Option<string>, region: seq<CallId>, inside: set<string>)
  {
    (entryPoint.None? && c.call in region) || c.enclosing in inside
  }

  datatype Limits = Limits(points: seq<CallId>, allowed: map<CallId, set<string>>)

  function LimitStep(l: Limits, c: AnnotationCall, entryPoint: Option<string>, region: seq<CallId>, inside: set<string>, known: set<string>): Result<Limits, ParseError>
  {
    if StartsWith(c.text, SoaapSysCalls) && InSandbox(c, entryPoint, region, inside) then
      match StrictList(After(c.text, SoaapSysCalls), known)
      case Err(e) => Err(e)
      case Ok(s) => Ok(Limits(l.points + [c.call], l.allowed[c.call := s]))
    else Ok(l)
  }

  function LimitsOf(calls: seq<AnnotationCall>, entryPoint: Option<string>, region: seq<CallId>, inside: set<string>, known: set<string>, init: Limits): Result<Limits, ParseError>
  {
    if calls == [] then Ok(init)
    else match LimitsOf(calls[..|calls| - 1], entryPoint, region, inside, known, init)
      case Err(e) => Err(e)
      case Ok(l) => LimitStep(l, calls[|calls| - 1], entryPoint, region, inside, known)
  }

  predicate LimitCall(c: AnnotationCall, entryPoint: Option<string>, region: seq<CallId>, inside: set<string>)
  {
    StartsWith(c.text, SoaapSysCalls) && InSandbox(c, entryPoint, region, inside)
  }

  /** The SOAAP_SYSCALLS annotation calls inside the sandbox. */
  ghost function LimitPoints(calls: seq<AnnotationCall>, entryPoint: Option<string>, region: seq<CallId>, inside: set<string>): set<CallId>
  {
    set k | 0 <= k < |calls| && LimitCall(calls[k], entryPoint, region, inside) :: calls[k].call
  }

  /** The limit points are the SOAAP_SYSCALLS annotation calls inside the
      sandbox, each with an allowed set of functions of the module. */
  ghost predicate LimitsCover(calls: seq<AnnotationCall>, l: Limits, entryPoint: Option<string>, region: seq<CallId>, inside: set<string>, known: set<string>)
  {
    && (forall x :: x in l.points <==> x in LimitPoints(calls, entryPoint, region, inside))
    && (forall x :: x in l.allowed <==> x in l.points)
    && (forall x :: x in l.allowed ==> l.allowed[x] <= known)
  }

  /** The limit points are the SOAAP_SYSCALLS annotation calls inside this
      sandbox, each with the system calls its list allows. */
  lemma {:induction false} LimitsInside(calls: seq<AnnotationCall>, entryPoint: Option<string>, region: seq<CallId>, inside: set<string>, known: set<string>)
    ensures var r := LimitsOf(calls, entryPoint, region, inside, known, Limits([], map[]));
      r.Ok? ==> LimitsCover(calls, r.value, entryPoint, region, inside, known)
  {
    if calls != [] {
      var init := calls[..|calls| - 1];
      LimitsInside(init, entryPoint, region, inside, known);
      var r0 := LimitsOf(init, entryPoint, region, inside, known, Limits([], map[]));
      if r0.Ok? {
        LimitStepCovers(calls, r0.value, entryPoint, region, inside, known);
      }
    }
  }

  /** The limit points of the calls are those of all but the last, and
      the last when it is one. */
  lemma LimitPointsSnoc(calls: seq<AnnotationCall>, entryPoint: Option<string>, region: seq<CallId>, inside: set<string>)
    requires calls != []
    ensures var init, last := calls[..|calls| - 1], calls[|calls| - 1];
      LimitPoints(calls, entryPoint, region, inside)
      == LimitPoints(init, entryPoint, region, inside)
         + (if LimitCall(last, entryPoint, region, inside) then {last.call} else {})
  {
    var init := calls[..|calls| - 1];
    assert forall k :: 0 <= k < |init| ==> init[k] == calls[k];
  }

  /** One more annotation call keeps the limit points covered. */
  lemma LimitStepCovers(calls: seq<AnnotationCall>, l: Limits, entryPoint: Option<string>, region: seq<CallId>, inside: set<string>, known: set<string>)
    requires calls != [] && LimitsCover(calls[..|calls| - 1], l, entryPoint, region, inside, known)
    ensures var r := LimitStep(l, calls[|calls| - 1], entryPoint, region, inside, known);
      r.Ok? ==> LimitsCover(calls, r.value, entryPoint, region, inside, known)
  {
    var last := calls[|calls| - 1];
    LimitPointsSnoc(calls, entryPoint, region, inside);
    if LimitCall(last, entryPoint, region, inside) {
      var csv := After(last.text, SoaapSysCalls);
      StrictKnown(GetlineSplit(csv, ','), 0, {}, known);
    }
  }

  // ---------------------------------------------------------------------
  // The state init() computes.

  datatype Derived = Derived(
    functions: seq<string>,
    callgates: seq<string>,
    perms: map<string, bv32>,
    caps: map<CapKey, set<string>>,
    creation: Creation,
    limits: Limits)

  /**
   * What reinit leaves in a sandbox: everything is recomputed from the
   * module and the functions reached from the sandbox, except that
   * `persistent` starts from its previous value. The first list entry that
   * throws ends the computation.
   */
  function InitState(m: Module, reached: seq<string>, name: string, entryPoint: Option<string>, region: seq<CallId>, persistent: bool): Result<Derived, ParseError>
  {
    var callgates := CallgatesOf(m.functions, name);
    var perms := SharedVarPerms(m.globalAnnotations, name, map[]);
    var caps :=
      if entryPoint.Some? then Capabilities(Body(m, entryPoint.value), name, Params(m, entryPoint.value), Known(m), map[])
      else Ok(map[]);
    match caps
    case Err(e) => Err(e)
    case Ok(caps) =>
      var creation := Creations(m.annotationCalls, name, Creation([], persistent));
      match LimitsOf(m.annotationCalls, entryPoint, region, (set f | f in reached), Known(m), Limits([], map[]))
      case Err(e) => Err(e)
      case Ok(limits) => Ok(Derived(reached, callgates, perms, caps, creation, limits))
  }

  class Sandbox {
    const name: string
    const nameIdx: int
    const entryPoint: Option<string>
    const region: seq<CallId>
    const overhead: int
    const clearances: int
    var persistent: bool
    var functions: seq<string>
    var functionSet: set<string>
    var callgates: seq<string>
    var sharedVarToPerms: map<string, bv32>
    var caps: map<CapKey, set<string>>
    var creationPoints: seq<CallId>
    var sysCallLimitPoints: seq<CallId>
    var allowedSysCalls: map<CallId, set<string>>

    /** Nothing derived from the module yet. */
    ghost predicate Blank()
      reads this
    {
      functions == [] && functionSet == {} && callgates == [] && sharedVarToPerms == map[] &&
      caps == map[] && creationPoints == [] && sysCallLimitPoints == [] && allowedSysCalls == map[]
    }

    /** A sandbox with an entry point. */
    constructor WithEntry(n: string, i: int, entry: string, p: bool, o: int, c: int)
      ensures name == n && nameIdx == i && entryPoint == Some(entry) && region == []
      ensures persistent == p && overhead == o && clearances == c
      ensures Blank()
    {
      name, nameIdx, entryPoint, region, persistent, overhead, clearances := n, i, Some(entry), [], p, o, c;
      functions, functionSet, callgates, sharedVarToPerms := [], {}, [], map[];
      caps, creationPoints, sysCallLimitPoints, allowedSysCalls := map[], [], [], map[];
    }

    /** A sandboxed code region: no entry point, no overhead or clearances. */
    constructor WithRegion(n: string, i: int, r: seq<CallId>, p: bool)
      ensures name == n && nameIdx == i && entryPoint == None && region == r
      ensures persistent == p && overhead == 0 && clearances == 0
      ensures Blank()
    {
      name, nameIdx, entryPoint, region, persistent, overhead, clearances := n, i, None, r, p, 0, 0;
      functions, functionSet, callgates, sharedVarToPerms := [], {}, [], map[];
      caps, creationPoints, sysCallLimitPoints, allowedSysCalls := map[], [], [], map[];
    }

    /** The read bit of the global's permissions; no entry means no access. */
    predicate IsAllowedToReadGlobalVar(g: string)
      reads this
    {
      g in sharedVarToPerms && sharedVarToPerms[g] & VarReadMask != 0
    }

    predicate IsCallgate(f: string)
      reads this
    {
      f in callgates
    }

    /** The same membership test as `IsCallgate`, under its second name. */
    function HasCallgate(f: string): (r: bool)
      reads this
      ensures r == IsCallgate(f)
    {
      exists k :: 0 <= k < |callgates| && callgates[k] == f
    }

    /** One global annotation: VAR_READ_<name> / VAR_WRITE_<name> on a global
        ORs the read / write bit into its permissions. */
    method AddPermission(a: GlobalAnnotation)
      modifies this`sharedVarToPerms
      ensures sharedVarToPerms == PermStep(old(sharedVarToPerms), a, name)
    {
      if a.target.GlobalVar? {
        var g := a.target.gv;
        if StartsWith(a.text, VarRead) {
          if After(a.text, VarRead) == name {
            sharedVarToPerms := sharedVarToPerms[g := Perm(sharedVarToPerms, g) | VarReadMask];
          }
        } else if StartsWith(a.text, VarWrite) {
          if After(a.text, VarWrite) == name {
            sharedVarToPerms := sharedVarToPerms[g := Perm(sharedVarToPerms, g) | VarWriteMask];
          }
        }
      }
    }

    /** Adds the permission bits of the global annotations naming this sandbox. */
    method FindSharedGlobalVariables(anns: seq<GlobalAnnotation>)
      modifies this`sharedVarToPerms
      ensures sharedVarToPerms == SharedVarPerms(anns, name, old(sharedVarToPerms))
    {
      for i := 0 to |anns|
        invariant sharedVarToPerms == SharedVarPerms(anns[..i], name, old(sharedVarToPerms))
      {
        assert anns[..i + 1][..i] == anns[..i];
        AddPermission(anns[i]);
      }
      assert anns[..|anns|] == anns;
    }

    /** Appends the functions one helper call passes after its first argument. */
    method AppendPassed(args: seq<string>)
      modifies this`callgates
      ensures callgates == old(callgates) + Passed(args)
    {
      var i := 1;
      while i < |args|
        invariant 1 <= i <= |args| || (|args| <= 1 && i == 1)
        invariant callgates == old(callgates) + (if i <= |args| then args[1..i] else [])
      {
        callgates := callgates + [args[i]];
        assert args[1..i + 1] == args[1..i] + [args[i]];
        i := i + 1;
      }
      if |args| > 1 {
        assert args[1..|args|] == args[1..];
      }
    }

    /** One function of the module: if it is this sandbox's callgates
        helper, the functions each of its calls passes are callgates. */
    method AddCallgates(f: ModuleFunction)
      modifies this`callgates
      ensures callgates == old(callgates) + FnCallgates(f, name)
    {
      if StartsWith(f.name, CallgatesHelper + "_") && After(f.name, CallgatesHelper) == name {
        for j := 0 to |f.calls|
          invariant callgates == old(callgates) + CallsPassed(f.calls[..j])
        {
          assert f.calls[..j + 1][..j] == f.calls[..j];
          AppendPassed(f.calls[j]);
        }
        assert f.calls[..|f.calls|] == f.calls;
      }
    }

    method FindCallgates(fns: seq<ModuleFunction>)
      modifies this`callgates
      ensures callgates == old(callgates) + CallgatesOf(fns, name)
    {
      for i := 0 to |fns|
        invariant callgates == old(callgates) + CallgatesOf(fns[..i], name)
      {
        assert fns[..i + 1][..i] == fns[..i];
        AddCallgates(fns[i]);
      }
      assert fns[..|fns|] == fns;
    }

    /** Reads one capability list: strict for a parameter, lenient for a
        struct member. */
    method ParseStrict(csv: string, known: set<string>) returns (r: Result<set<string>, ParseError>)
      ensures r == StrictList(csv, known)
    {
      var tokens := GetlineSplit(csv, ',');
      var acc := {};
      for i := 0 to |tokens|
        invariant StrictList(csv, known) == StrictFrom(tokens, i, acc, known)
      {
        var t := Entry(tokens[i]);
        if t.None? {
          return Err(BlankListEntry);
        }
        if t.value == NoSysCallsAllowed {
          return Ok({});
        }
        if t.value in known {
          acc := acc + {t.value};
        }
      }
      r := Ok(acc);
    }

    method ParseLenient(csv: string, known: set<string>) returns (s: set<string>)
      ensures s == LenientList(csv, known)
    {
      var tokens := GetlineSplit(csv, ',');
      s := {};
      for i := 0 to |tokens|
        invariant LenientList(csv, known) == LenientFrom(tokens, i, s, known)
      {
        var t := Entry(tokens[i]);
        if t.Some? && t.value in known {
          s := s + {t.value};
        }
      }
    }

    /** One annotation intrinsic of the entry point: a SOAAP_FD parameter
        annotation or a SOAAP_FD struct-member annotation naming this
        sandbox records its list. */
    method AddCapability(item: EntryIntrinsic, params: seq<string>, known: set<string>) returns (err: Option<ParseError>)
      modifies this`caps
      ensures var r := CapStep(old(caps), item, name, params, known);
        (err.None? <==> r.Ok?) && (r.Ok? ==> caps == r.value)
    {
      err := None;
      match item
      case VarAnnotation(declared, text) =>
        if declared.Some? && declared.value in params && StartsWith(text, SoaapFd) {
          var r := ParseStrict(After(text, SoaapFd), known);
          if r.Err? {
            return Some(r.error);
          }
          caps := caps[Param(declared.value) := r.value];
        }
      case PtrAnnotation(call, text) =>
        if StartsWith(text, SoaapFd) {
          var list := MemberList(After(text, SoaapFd), name);
          if list.Some? {
            var s := ParseLenient(list.value, known);
            caps := caps[Member(call) := s];
          }
        }
    }

    /** Records the capability lists annotated in the entry point. */
    method FindCapabilities(items: seq<EntryIntrinsic>, params: seq<string>, known: set<string>) returns (err: Option<ParseError>)
      modifies this`caps
      ensures var r := Capabilities(items, name, params, known, old(caps));
        (err.None? <==> r.Ok?) && (r.Ok? ==> caps == r.value)
    {
      for i := 0 to |items|
        invariant Capabilities(items[..i], name, params, known, old(caps)) == Ok(caps)
      {
        assert items[..i + 1][..i] == items[..i];
        err := AddCapability(items[i], params, known);
        if err.Some? {
          CapabilitiesErrStays(items, i + 1, name, params, known, old(caps));
          return;
        }
      }
      assert items[..|items|] == items;
      err := None;
    }

    /** Marks the creation points of this sandbox. */
    method FindCreationPoints(calls: seq<AnnotationCall>)
      modifies this`creationPoints, this`persistent
      ensures Creation(creationPoints, persistent) == Creations(calls, name, Creation(old(creationPoints), old(persistent)))
    {
      for i := 0 to |calls|
        invariant Creation(creationPoints, persistent) == Creations(calls[..i], name, Creation(old(creationPoints), old(persistent)))
      {
        assert calls[..i + 1][..i] == calls[..i];
        var c := calls[i];
        if StartsWith(c.text, PersistentCreate) {
          if After(c.text, PersistentCreate) == name {
            creationPoints := creationPoints + [c.call];
            persistent := true;
          }
        } else if StartsWith(c.text, EphemeralCreate) {
          if After(c.text, EphemeralCreate) == name {
            creationPoints := creationPoints + [c.call];
            persistent := false;
          }
        }
      }
      assert calls[..|calls|] == calls;
    }

    /** Whether the call is one of this sandbox's region instructions. */
    method InRegion(call: CallId) returns (b: bool)
      ensures b <==> call in region
    {
      b := false;
      for k := 0 to |region|
        invariant !b <==> call !in region[..k]
      {
        if region[k] == call {
          return true;
        }
      }
      assert region[..|region|] == region;
    }

    /** Records the system-call limit points inside this sandbox. */
    method FindAllowedSysCalls(calls: seq<AnnotationCall>, known: set<string>) returns (err: Option<ParseError>)
      modifies this`sysCallLimitPoints, this`allowedSysCalls
      ensures var r := LimitsOf(calls, entryPoint, region, functionSet, known, Limits(old(sysCallLimitPoints), old(allowedSysCalls)));
        (err.None? <==> r.Ok?) && (r.Ok? ==> Limits(sysCallLimitPoints, allowedSysCalls) == r.value)
    {
      ghost var init := Limits(sysCallLimitPoints, allowedSysCalls);
      for i := 0 to |calls|
        invariant LimitsOf(calls[..i], entryPoint, region, functionSet, known, init) == Ok(Limits(sysCallLimitPoints, allowedSysCalls))
      {
        assert calls[..i + 1][..i] == calls[..i];
        var c := calls[i];
        if StartsWith(c.text, SoaapSysCalls) {
          var inside := false;
          if entryPoint.None? {
            inside := InRegion(c.call);
          }
          if !inside {
            inside := c.enclosing in functionSet;
          }
          if inside {
            var r := ParseStrict(After(c.text, SoaapSysCalls), known);
            if r.Err? {
              LimitsErrStays(calls, i + 1, entryPoint, region, functionSet, known, init);
              assert calls[..|calls|] == calls;
              return Some(r.error);
            }
            sysCallLimitPoints := sysCallLimitPoints + [c.call];
            allowedSysCalls := allowedSysCalls[c.call := r.value];
          }
        }
      }
      assert calls[..|calls|] == calls;
      err := None;
    }

    /** The sandbox's functions and what the global annotations and the
        callgates helpers give it: the part of init that cannot throw. */
    method FindDeclared(m: Module, reached: seq<string>)
      requires functions == [] && functionSet == {} && callgates == [] && sharedVarToPerms == map[]
      modifies this`functions, this`functionSet, this`callgates, this`sharedVarToPerms
      ensures functions == reached && functionSet == (set f | f in reached)
      ensures callgates == CallgatesOf(m.functions, name)
      ensures sharedVarToPerms == SharedVarPerms(m.globalAnnotations, name, map[])
    {
      functions := reached;
      functionSet := set f | f in reached;
      FindSharedGlobalVariables(m.globalAnnotations);
      FindCallgates(m.functions);
    }

    /**
     * init on a blank sandbox; `reached` is the result of the call-graph walk
     * from the sandbox's entry point or region. A list entry that throws
     * ends the computation with an error.
     */
    method Init(m: Module, reached: seq<string>) returns (err: Option<ParseError>)
      requires Blank()
      modifies this
      ensures var r := InitState(m, reached, name, entryPoint, region, old(persistent));
        && (err.None? <==> r.Ok?)
        && (r.Ok? ==>
              && functions == r.value.functions && functionSet == (set f | f in reached)
              && callgates == r.value.callgates && sharedVarToPerms == r.value.perms
              && caps == r.value.caps
              && Creation(creationPoints, persistent) == r.value.creation
              && Limits(sysCallLimitPoints, allowedSysCalls) == r.value.limits)
    {
      FindDeclared(m, reached);
      if entryPoint.Some? {
        err := FindCapabilities(Body(m, entryPoint.value), Params(m, entryPoint.value), Known(m));
        if err.Some? {
          return;
        }
      }
      FindCreationPoints(m.annotationCalls);
      err := FindAllowedSysCalls(m.annotationCalls, Known(m));
    }

    /** reinit: every derived collection is emptied, then computed again from
        the module; only `persistent` carries over. */
    method Reinit(m: Module, reached: seq<string>) returns (err: Option<ParseError>)
      modifies this
      ensures var r := InitState(m, reached, name, entryPoint, region, old(persistent));
        && (err.None? <==> r.Ok?)
        && (r.Ok? ==>
              && functions == r.value.functions && functionSet == (set f | f in reached)
              && callgates == r.value.callgates && sharedVarToPerms == r.value.perms
              && caps == r.value.caps
              && Creation(creationPoints, persistent) == r.value.creation
              && Limits(sysCallLimitPoints, allowedSysCalls) == r.value.limits)
    {
      callgates, functions, functionSet, creationPoints := [], [], {}, [];
      sysCallLimitPoints, allowedSysCalls, sharedVarToPerms, caps := [], map[], map[], map[];
      err := Init(m, reached);
    }
  }

  /** Once an intrinsic throws, the rest of the body does not matter. */
  lemma {:induction false} CapabilitiesErrStays(items: seq<EntryIntrinsic>, i: nat, name: string, params: seq<string>, known: set<string>, init: map<CapKey, set<string>>)
    requires i <= |items| && Capabilities(items[..i], name, params, known, init).Err?
    ensures Capabilities(items, name, params, known, init).Err?
    decreases |items| - i
  {
    if i < |items| {
      assert items[..i + 1][..i] == items[..i];
      CapabilitiesErrStays(items, i + 1, name, params, known, init);
    } else {
      assert items[..i] == items;
    }
  }

  lemma {:induction false} LimitsErrStays(calls: seq<AnnotationCall>, i: nat, entryPoint: Option<string>, region: seq<CallId>, inside: set<string>, known: set<string>, init: Limits)
    requires i <= |calls| && LimitsOf(calls[..i], entryPoint, region, inside, known, init).Err?
    ensures LimitsOf(calls, entryPoint, region, inside, known, init).Err?
    decreases |calls| - i
  {
    if i < |calls| {
      assert calls[..i + 1][..i] == calls[..i];
      LimitsErrStays(calls, i + 1, entryPoint, region, inside, known, init);
    } else {
      assert calls[..i] == calls;
    }
  }
}
