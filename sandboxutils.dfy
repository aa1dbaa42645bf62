// The sandbox-vector utilities: looking a sandbox up by name or entry point,
// creating an empty sandbox for a name referenced before any scope declares
// it, the SOAAP_SANDBOXED list of sandbox names, turning a mask of sandbox
// bits back into sandboxes, and the entry-point annotations of the oldest
// generation. The name registry is the `NameRegistry` of module Registry.
module SandboxUtils {
  import opened Wrappers
  import opened Strings
  import opened Registry
  import opened Sandboxes

  const SandboxPersistent := "SANDBOX_PERSISTENT"
  const SandboxEphemeral := "SANDBOX_EPHEMERAL"

  /** The characters trimmed from each entry of a SOAAP_SANDBOXED list. */
  const ListTrim: set<char> := {' ', '"'}

  // ---------------------------------------------------------------------
  // Lookups

  /** The names of the sandboxes, in vector order. */
  function SandboxNames(sandboxes: seq<Sandbox>): (r: seq<string>)
    ensures |r| == |sandboxes|
    ensures forall k :: 0 <= k < |r| ==> r[k] == sandboxes[k].name
  {
    if sandboxes == [] then []
    else SandboxNames(sandboxes[..|sandboxes| - 1]) + [sandboxes[|sandboxes| - 1].name]
  }

  /** The first sandbox called `name`; None when no sandbox has that name. */
  function FirstNamed(sandboxes: seq<Sandbox>, name: string): (r: Option<Sandbox>)
    ensures r.None? <==> forall k :: 0 <= k < |sandboxes| ==> sandboxes[k].name != name
    ensures r.Some? ==> r.value in sandboxes && r.value.name == name
  {
    if sandboxes == [] then None
    else if sandboxes[0].name == name then Some(sandboxes[0])
    else FirstNamed(sandboxes[1..], name)
  }

  /** The first sandbox whose entry point is `f`; None when there is none. */
  function FirstWithEntry(sandboxes: seq<Sandbox>, f: string): (r: Option<Sandbox>)
    ensures r.None? <==> forall k :: 0 <= k < |sandboxes| ==> sandboxes[k].entryPoint != Some(f)
    ensures r.Some? ==> r.value in sandboxes && r.value.entryPoint == Some(f)
  {
    if sandboxes == [] then None
    else if sandboxes[0].entryPoint == Some(f) then Some(sandboxes[0])
    else FirstWithEntry(sandboxes[1..], f)
  }

  /** Of several sandboxes with the same name, the one found is the first. */
  lemma {:induction false} FirstNamedIsFirst(sandboxes: seq<Sandbox>, name: string, k: int)
    requires 0 <= k < |sandboxes| && sandboxes[k].name == name
    requires forall j :: 0 <= j < k ==> sandboxes[j].name != name
    ensures FirstNamed(sandboxes, name) == Some(sandboxes[k])
  {
    if k > 0 {
      FirstNamedIsFirst(sandboxes[1..], name, k - 1);
    }
  }

  /** Of several sandboxes with the same entry point, the one found is the first. */
  lemma {:induction false} FirstWithEntryIsFirst(sandboxes: seq<Sandbox>, f: string, k: int)
    requires 0 <= k < |sandboxes| && sandboxes[k].entryPoint == Some(f)
    requires forall j :: 0 <= j < k ==> sandboxes[j].entryPoint != Some(f)
    ensures FirstWithEntry(sandboxes, f) == Some(sandboxes[k])
  {
    if k > 0 {
      FirstWithEntryIsFirst(sandboxes[1..], f, k - 1);
    }
  }

  /** A sandbox is found by name exactly when its name is among the names. */
  lemma FirstNamedFinds(sandboxes: seq<Sandbox>, name: string)
    ensures FirstNamed(sandboxes, name).Some? <==> name in SandboxNames(sandboxes)
  {
    if name in SandboxNames(sandboxes) {
      var k :| 0 <= k < |sandboxes| && SandboxNames(sandboxes)[k] == name;
      assert sandboxes[k].name == name;
    }
  }

  /**
   * getSandboxWithName: the first sandbox of the vector with that name, or
   * null.
   */
  method GetSandboxWithName(name: string, sandboxes: seq<Sandbox>) returns (r: Option<Sandbox>)
    ensures r == FirstNamed(sandboxes, name)
  {
    assert sandboxes[0..] == sandboxes;
    for i := 0 to |sandboxes|
      invariant FirstNamed(sandboxes[i..], name) == FirstNamed(sandboxes, name)
    {
      if sandboxes[i].name == name {
        return Some(sandboxes[i]);
      }
      assert sandboxes[i..][1..] == sandboxes[i + 1..];
    }
    return None;
  }

  /**
   * getSandboxForEntryPoint: the first sandbox of the vector whose entry
   * point is `f`, or null. A region sandbox has no entry point and never
   * matches.
   */
  method GetSandboxForEntryPoint(f: string, sandboxes: seq<Sandbox>) returns (r: Option<Sandbox>)
    ensures r == FirstWithEntry(sandboxes, f)
  {
    assert sandboxes[0..] == sandboxes;
    for i := 0 to |sandboxes|
      invariant FirstWithEntry(sandboxes[i..], f) == FirstWithEntry(sandboxes, f)
    {
      if sandboxes[i].entryPoint == Some(f) {
        return Some(sandboxes[i]);
      }
      assert sandboxes[i..][1..] == sandboxes[i + 1..];
    }
    return None;
  }

  // ---------------------------------------------------------------------
  // Creating sandboxes for referenced names

  /**
   * The registry and the vector agree: the registered names are exactly the
   * sandbox names, and each sandbox carries its name's index.
   */
  ghost predicate Consistent(sandboxes: seq<Sandbox>, reg: NameRegistry)
    reads reg
  {
    && reg.Valid()
    && (forall n :: n in reg.nameToIdx <==> n in SandboxNames(sandboxes))
    && (forall k :: 0 <= k < |sandboxes| ==>
          sandboxes[k].name in reg.nameToIdx && reg.nameToIdx[sandboxes[k].name] == sandboxes[k].nameIdx)
  }

  /** The names of the vector after each of `names` has been created if new. */
  function Registered(present: seq<string>, names: seq<string>): seq<string>
  {
    if names == [] then present
    else
      var p := Registered(present, names[..|names| - 1]);
      if names[|names| - 1] in p then p else p + [names[|names| - 1]]
  }

  /**
   * Creating names one by one keeps the sandboxes already there, in front,
   * makes every listed name present, adds nothing else and never a name
   * twice.
   */
  lemma {:induction false} RegisteredSpec(present: seq<string>, names: seq<string>)
    ensures |Registered(present, names)| >= |present|
    ensures Registered(present, names)[..|present|] == present
    ensures forall n :: n in names ==> n in Registered(present, names)
    ensures forall n :: n in Registered(present, names) ==> n in present || n in names
    ensures Distinct(present) ==> Distinct(Registered(present, names))
  {
    if names != [] {
      var init := names[..|names| - 1];
      RegisteredSpec(present, init);
      forall n | n in names
        ensures n in Registered(present, names)
      {
        if n != names[|names| - 1] {
          var k :| 0 <= k < |names| && names[k] == n;
          assert n == init[k];
        }
      }
    }
  }

  /** No name occurs twice. */
  ghost predicate Distinct(names: seq<string>)
  {
    forall i, j :: 0 <= i < j < |names| ==> names[i] != names[j]
  }

  /**
   * createEmptySandboxIfNew: when no sandbox has the name, one new region
   * sandbox with no region, persistent, is appended, with the index the
   * registry assigns to the name; otherwise nothing changes.
   */
  method CreateEmptySandboxIfNew(name: string, sandboxes: seq<Sandbox>, reg: NameRegistry) returns (out: seq<Sandbox>)
    modifies reg
    ensures name in SandboxNames(sandboxes) ==> out == sandboxes && unchanged(reg)
    ensures name !in SandboxNames(sandboxes) ==>
      && |out| == |sandboxes| + 1 && out[..|sandboxes|] == sandboxes
      && fresh(out[|sandboxes|])
      && out[|sandboxes|].name == name
      && out[|sandboxes|].nameIdx == (if name in old(reg.nameToIdx) then -1 else old(reg.next))
      && out[|sandboxes|].entryPoint == None && out[|sandboxes|].region == []
      && out[|sandboxes|].persistent && out[|sandboxes|].Blank()
    ensures SandboxNames(out) ==
      if name in SandboxNames(sandboxes) then SandboxNames(sandboxes) else SandboxNames(sandboxes) + [name]
    ensures old(Consistent(sandboxes, reg)) ==> Consistent(out, reg)
  {
    var found := GetSandboxWithName(name, sandboxes);
    FirstNamedFinds(sandboxes, name);
    if found.None? {
      ghost var wasConsistent := Consistent(sandboxes, reg);
      var idx := reg.Assign(name);
      var s := new Sandbox.WithRegion(name, idx, [], true);
      out := sandboxes + [s];
      assert out[..|sandboxes|] == sandboxes;
      if wasConsistent {
        forall k | 0 <= k < |out|
          ensures out[k].name in reg.nameToIdx && reg.nameToIdx[out[k].name] == out[k].nameIdx
        {
          if k < |sandboxes| {
            assert out[k].name == SandboxNames(sandboxes)[k];
          }
        }
      }
    } else {
      out := sandboxes;
    }
  }

  /**
   * The trimmed entries of a SOAAP_SANDBOXED list. An entry made only of
   * spaces and quotes leaves find_first_not_of at npos, and the substr that
   * follows throws std::out_of_range.
   */
  function ListEntries(tokens: seq<string>): (r: Result<seq<string>, ParseError>)
    ensures r.Ok? <==> forall k :: 0 <= k < |tokens| ==> TrimChars(tokens[k], ListTrim).Some?
    ensures r.Ok? ==> |r.value| == |tokens|
    ensures r.Ok? ==> forall k :: 0 <= k < |tokens| ==> TrimChars(tokens[k], ListTrim) == Some(r.value[k])
  {
    if tokens == [] then Ok([])
    else
      match ListEntries(tokens[..|tokens| - 1])
      case Err(e) => Err(e)
      case Ok(init) =>
        match TrimChars(tokens[|tokens| - 1], ListTrim)
        case None => Err(BlankListEntry)
        case Some(entry) => Ok(init + [entry])
  }

  /** Every entry of a list that parses starts and ends with a character
      other than a space or a quote. */
  lemma ListEntriesTrimmed(csv: string)
    requires ListEntries(GetlineSplit(csv, ',')).Ok?
    ensures forall e :: e in ListEntries(GetlineSplit(csv, ',')).value ==>
      |e| > 0 && e[0] !in ListTrim && e[|e| - 1] !in ListTrim && ',' !in e
  {
    var tokens := GetlineSplit(csv, ',');
    var entries := ListEntries(tokens).value;
    forall e | e in entries
      ensures |e| > 0 && e[0] !in ListTrim && e[|e| - 1] !in ListTrim && ',' !in e
    {
      var k :| 0 <= k < |entries| && entries[k] == e;
      assert TrimChars(tokens[k], ListTrim) == Some(e);
      TrimmedWithin(tokens[k], ListTrim);
    }
  }

  /** What TrimChars keeps is a piece of its input. */
  lemma TrimmedWithin(s: string, chars: set<char>)
    requires TrimChars(s, chars).Some?
    ensures forall i :: 0 <= i < |TrimChars(s, chars).value| ==> TrimChars(s, chars).value[i] in s
  {
  }

  /** One entry of a SOAAP_SANDBOXED list, after the entries `names`. */
  method CreateListedEntry(entry: string, sandboxes: seq<Sandbox>, out: seq<Sandbox>, reg: NameRegistry,
                           ghost names: seq<string>, ghost wasConsistent: bool)
    returns (next: seq<Sandbox>)
    requires |out| >= |sandboxes| && out[..|sandboxes|] == sandboxes
    requires SandboxNames(out) == Registered(SandboxNames(sandboxes), names)
    requires wasConsistent ==> Consistent(out, reg)
    modifies reg
    ensures |next| >= |sandboxes| && next[..|sandboxes|] == sandboxes
    ensures SandboxNames(next) == Registered(SandboxNames(sandboxes), names + [entry])
    ensures wasConsistent ==> Consistent(next, reg)
  {
    assert (names + [entry])[..|names|] == names;
    next := CreateEmptySandboxIfNew(entry, out, reg);
    assert next[..|out|] == out;
    assert next[..|sandboxes|] == out[..|sandboxes|];
  }

  /**
   * The SOAAP_SANDBOXED list of a function annotation: each entry, trimmed
   * of spaces and quotes, names a sandbox that is created if new. A blank
   * entry throws.
   */
  method CreateListedSandboxes(csv: string, sandboxes: seq<Sandbox>, reg: NameRegistry)
    returns (r: Result<seq<Sandbox>, ParseError>)
    modifies reg
    ensures r.Ok? <==> ListEntries(GetlineSplit(csv, ',')).Ok?
    ensures r.Ok? ==>
      && |r.value| >= |sandboxes| && r.value[..|sandboxes|] == sandboxes
      && SandboxNames(r.value) == Registered(SandboxNames(sandboxes), ListEntries(GetlineSplit(csv, ',')).value)
    ensures old(Consistent(sandboxes, reg)) && r.Ok? ==> Consistent(r.value, reg)
  {
    var tokens := GetlineSplit(csv, ',');
    var out := sandboxes;
    ghost var wasConsistent := Consistent(sandboxes, reg);
    for i := 0 to |tokens|
      invariant ListEntries(tokens[..i]).Ok?
      invariant |out| >= |sandboxes| && out[..|sandboxes|] == sandboxes
      invariant SandboxNames(out) == Registered(SandboxNames(sandboxes), ListEntries(tokens[..i]).value)
      invariant wasConsistent ==> Consistent(out, reg)
    {
      assert tokens[..i + 1][..i] == tokens[..i];
      var entry := TrimChars(tokens[i], ListTrim);
      if entry.None? {
        return Err(BlankListEntry);
      }
      ghost var names := ListEntries(tokens[..i]).value;
      assert ListEntries(tokens[..i + 1]) == Ok(names + [entry.value]);
      out := CreateListedEntry(entry.value, sandboxes, out, reg, names, wasConsistent);
    }
    assert tokens[..|tokens|] == tokens;
    return Ok(out);
  }

  // ---------------------------------------------------------------------
  // From sandbox bits back to sandboxes

  /** The sandbox found for each name, in order. */
  function Lookup(names: seq<string>, sandboxes: seq<Sandbox>): (r: seq<Option<Sandbox>>)
    ensures |r| == |names|
    ensures forall k :: 0 <= k < |r| ==> r[k] == FirstNamed(sandboxes, names[k])
  {
    if names == [] then []
    else Lookup(names[..|names| - 1], sandboxes) + [FirstNamed(sandboxes, names[|names| - 1])]
  }

  /**
   * convertNamesToVector: for each set bit in ascending order, the sandbox
   * with that bit's name (null when there is none). The name lookup goes
   * through operator[], which inserts "" for an index with no name.
   */
  method ConvertNamesToVector(mask: bv32, sandboxes: seq<Sandbox>, reg: NameRegistry)
    returns (vec: seq<Option<Sandbox>>)
    modifies reg`idxToName
    ensures vec == Lookup(NamesBelow(mask, old(reg.idxToName), 32), sandboxes)
    ensures reg.idxToName == FilledBelow(old(reg.idxToName), mask, 32)
  {
    ghost var m0 := reg.idxToName;
    vec := [];
    for i := 0 to 32
      invariant reg.idxToName == FilledBelow(m0, mask, i)
      invariant vec == Lookup(NamesBelow(mask, m0, i), sandboxes)
    {
      FilledStep(m0, mask, i);
      LookupSnoc(NamesBelow(mask, m0, i), NameAt(m0, i), sandboxes);
      if Bit(mask, i) {
        if i !in reg.idxToName {
          reg.idxToName := reg.idxToName[i := ""];
        }
        var s := GetSandboxWithName(reg.idxToName[i], sandboxes);
        vec := vec + [s];
      }
    }
  }

  lemma LookupSnoc(names: seq<string>, name: string, sandboxes: seq<Sandbox>)
    ensures Lookup(names + [name], sandboxes) == Lookup(names, sandboxes) + [FirstNamed(sandboxes, name)]
  {
    assert (names + [name])[..|names|] == names;
  }

  /**
   * When the registry and the vector agree and every set bit has been
   * handed out, each set bit yields the sandbox that holds it, in ascending
   * bit order.
   */
  lemma ConvertedCarryBits(sandboxes: seq<Sandbox>, reg: NameRegistry, mask: bv32)
    requires Consistent(sandboxes, reg)
    requires forall i :: 0 <= i < 32 && Bit(mask, i) ==> i < reg.next
    ensures |Lookup(NamesBelow(mask, reg.idxToName, 32), sandboxes)| == |SetBitsBelow(mask, 32)|
    ensures forall k :: 0 <= k < |SetBitsBelow(mask, 32)| ==>
      && Lookup(NamesBelow(mask, reg.idxToName, 32), sandboxes)[k].Some?
      && Lookup(NamesBelow(mask, reg.idxToName, 32), sandboxes)[k].value.nameIdx == SetBitsBelow(mask, 32)[k]
      && Lookup(NamesBelow(mask, reg.idxToName, 32), sandboxes)[k].value.name == NamesBelow(mask, reg.idxToName, 32)[k]
  {
    var names := NamesBelow(mask, reg.idxToName, 32);
    NamesRoundTrip(reg, mask);
    forall k | 0 <= k < |SetBitsBelow(mask, 32)|
      ensures Lookup(names, sandboxes)[k].Some?
      ensures Lookup(names, sandboxes)[k].value.nameIdx == SetBitsBelow(mask, 32)[k]
      ensures Lookup(names, sandboxes)[k].value.name == names[k]
    {
      FirstNamedFinds(sandboxes, names[k]);
      var s := FirstNamed(sandboxes, names[k]).value;
      var j :| 0 <= j < |sandboxes| && sandboxes[j] == s;
    }
  }

  /** The sandboxes of a vector with no null entry. */
  function Present(vec: seq<Option<Sandbox>>): (r: seq<Sandbox>)
    requires forall k :: 0 <= k < |vec| ==> vec[k].Some?
    ensures |r| == |vec|
    ensures forall k :: 0 <= k < |r| ==> vec[k] == Some(r[k])
  {
    if vec == [] then [] else Present(vec[..|vec| - 1]) + [vec[|vec| - 1].value]
  }

  /**
   * stringifySandboxVector: the sandbox names in vector order,
   * comma-separated inside brackets.
   */
  method StringifySandboxVector(sandboxes: seq<Sandbox>) returns (s: string)
    ensures s == Bracketed(SandboxNames(sandboxes))
  {
    s := "[";
    var first := true;
    for i := 0 to |sandboxes|
      invariant s == "[" + Join(SandboxNames(sandboxes[..i]), ",")
      invariant first <==> i == 0
    {
      assert sandboxes[..i + 1][..i] == sandboxes[..i];
      JoinSnoc(SandboxNames(sandboxes[..i]), sandboxes[i].name, ",");
      if !first {
        s := s + ",";
      }
      s := s + sandboxes[i].name;
      first := false;
    }
    assert sandboxes[..|sandboxes|] == sandboxes;
    s := s + "]";
  }

  /**
   * When the registry and the vector agree, printing the sandboxes a mask
   * converts to gives the same text as printing the mask's names.
   */
  lemma ConvertedPrintsAsNames(sandboxes: seq<Sandbox>, reg: NameRegistry, mask: bv32)
    requires Consistent(sandboxes, reg)
    requires forall i :: 0 <= i < 32 && Bit(mask, i) ==> i < reg.next
    ensures forall k :: 0 <= k < |Lookup(NamesBelow(mask, reg.idxToName, 32), sandboxes)| ==>
      Lookup(NamesBelow(mask, reg.idxToName, 32), sandboxes)[k].Some?
    ensures Bracketed(SandboxNames(Present(Lookup(NamesBelow(mask, reg.idxToName, 32), sandboxes))))
      == Bracketed(NamesBelow(mask, reg.idxToName, 32))
  {
    ConvertedCarryBits(sandboxes, reg, mask);
    var names := NamesBelow(mask, reg.idxToName, 32);
    assert SandboxNames(Present(Lookup(names, sandboxes))) == names;
  }

  // ---------------------------------------------------------------------
  // Entry-point annotations of the oldest generation

  /** What a function annotation declares about its function. */
  datatype EntryKind =
    | Named(name: string)   // SANDBOX_PERSISTENT_<name>
    | Unnamed               // SANDBOX_PERSISTENT alone
    | Ephemeral             // SANDBOX_EPHEMERAL...
    | NotEntry

  /** No annotation is both persistent and ephemeral. */
  lemma PrefixesExclusive(text: string)
    ensures !(StartsWith(text, SandboxPersistent) && StartsWith(text, SandboxEphemeral))
  {
    if StartsWith(text, SandboxPersistent) {
      assert text[8] == SandboxPersistent[8];
    }
  }

  /** A persistent annotation longer than its prefix names its sandbox
      after the separator; an ephemeral one never does. */
  function ClassifyEntry(text: string): (r: EntryKind)
    ensures r.Named? ==>
      && StartsWith(text, SandboxPersistent) && |text| > |SandboxPersistent|
      && text == SandboxPersistent + [text[|SandboxPersistent|]] + r.name
    ensures r.Unnamed? <==> text == SandboxPersistent
    ensures r.Ephemeral? <==> StartsWith(text, SandboxEphemeral)
    ensures r.NotEntry? <==> !StartsWith(text, SandboxPersistent) && !StartsWith(text, SandboxEphemeral)
  {
    PrefixesExclusive(text);
    if StartsWith(text, SandboxPersistent) then
      if |text| > |SandboxPersistent| then Named(After(text, SandboxPersistent)) else Unnamed
    else if StartsWith(text, SandboxEphemeral) then Ephemeral
    else NotEntry
  }

  /**
   * A function annotation on `fn`: a named persistent sandbox is registered
   * and appended; an ephemeral one is appended with the empty name and
   * index -1, leaving the registry alone; anything else adds nothing.
   */
  method AddEntrySandbox(text: string, fn: string, sandboxes: seq<Sandbox>, reg: NameRegistry)
    returns (out: seq<Sandbox>)
    modifies reg
    ensures ClassifyEntry(text).Named? ==>
      var name := ClassifyEntry(text).name;
      && |out| == |sandboxes| + 1 && out[..|sandboxes|] == sandboxes
      && fresh(out[|sandboxes|])
      && out[|sandboxes|].name == name && out[|sandboxes|].entryPoint == Some(fn)
      && out[|sandboxes|].nameIdx == (if name in old(reg.nameToIdx) then -1 else old(reg.next))
      && out[|sandboxes|].persistent && out[|sandboxes|].Blank()
      && (name !in old(reg.nameToIdx) ==> reg.nameToIdx == old(reg.nameToIdx)[name := old(reg.next)])
    ensures ClassifyEntry(text).Ephemeral? ==>
      && |out| == |sandboxes| + 1 && out[..|sandboxes|] == sandboxes
      && fresh(out[|sandboxes|])
      && out[|sandboxes|].name == "" && out[|sandboxes|].nameIdx == -1
      && out[|sandboxes|].entryPoint == Some(fn)
      && !out[|sandboxes|].persistent && out[|sandboxes|].Blank()
    ensures !ClassifyEntry(text).Named? ==> unchanged(reg)
    ensures ClassifyEntry(text).Unnamed? || ClassifyEntry(text).NotEntry? ==> out == sandboxes
  {
    var kind := ClassifyEntry(text);
    if kind.Named? {
      var idx := reg.Assign(kind.name);
      var s := new Sandbox.WithEntry(kind.name, idx, fn, true, 0, 0);
      out := sandboxes + [s];
      assert out[..|sandboxes|] == sandboxes;
    } else if kind.Ephemeral? {
      var s := new Sandbox.WithEntry("", -1, fn, false, 0, 0);
      out := sandboxes + [s];
      assert out[..|sandboxes|] == sandboxes;
    } else {
      out := sandboxes;
    }
  }
}
