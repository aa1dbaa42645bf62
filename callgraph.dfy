// A node of the call graphs drawn from SOAAP's reports: a function, its
// C++ name taken apart into parameters, namespace and short name, the
// sandbox it runs in, where it is defined, and the vulnerability (CVE) or
// private-data owner the report attached to it.
module CallGraph {
  import opened Wrappers
  import opened Strings
  import opened JsonValues

  datatype Function = Function(
    parameters: string,
    namespace: string,
    fn: string,
    sandbox: Json,
    location: Json,
    cve: Json,
    owner: Json)

  // ---------------------------------------------------------------------
  // Taking a C++ function name apart

  /**
   * `fn[fn.find('(') + 1 : fn.find(')') + 1][:-1]`: with `find` giving -1
   * for a missing character, the slice starts after the first '(' (or at 0)
   * and ends before the first ')' (or is empty when there is none).
   */
  function Parameters(fn: string): (r: string)
    ensures ')' !in r
  {
    var a := Find(fn, '(') + 1;
    var b := Find(fn, ')') + 1;
    if a < b then fn[a..b - 1] else ""
  }

  /** The text between the first '(' and the first ')' when '(' comes first. */
  lemma ParametersBetween(fn: string, i: int, j: int)
    requires 0 <= i < j < |fn| && fn[i] == '(' && fn[j] == ')'
    requires forall k :: 0 <= k < i ==> fn[k] != '('
    requires forall k :: 0 <= k < j ==> fn[k] != ')'
    ensures Parameters(fn) == fn[i + 1..j]
  {
    assert Find(fn, '(') == i;
    assert Find(fn, ')') == j;
  }

  /** A name without ')' has no parameter text. */
  lemma ParametersNeedClose(fn: string)
    requires ')' !in fn
    ensures Parameters(fn) == ""
  {
    assert Find(fn, ')') == -1;
  }

  /** `fn.split('(')[0]`: the text before the first '('. */
  function BeforeParen(fn: string): (r: string)
    ensures StartsWith(fn, r)
    ensures '(' !in r
    ensures |r| < |fn| ==> fn[|r|] == '('
  {
    var i := Find(fn, '(');
    if i < 0 then fn else fn[..i]
  }

  /** The length of the first line of `s`. */
  function LineLength(s: string): (r: int)
    ensures 0 <= r <= |s|
    ensures forall k :: 0 <= k < r ==> s[k] != '\n'
    ensures r < |s| ==> s[r] == '\n'
  {
    var n := Find(s, '\n');
    if n < 0 then |s| else n
  }

  /**
   * `re.sub(r'<.*>', '', s)`: scanning left to right, a '<' with a '>'
   * after it on the same line starts a match, which greedily runs to the
   * last '>' of that line and is deleted; scanning resumes after it.
   */
  function DropTemplates(s: string): (r: string)
    ensures |r| <= |s|
    decreases |s|
  {
    if s == [] then []
    else
      var j := RFind(s[..LineLength(s)], '>');
      if s[0] == '<' && j > 0 then DropTemplates(s[j + 1..])
      else [s[0]] + DropTemplates(s[1..])
  }

  /** Text with no '>' is left as it is. */
  lemma {:induction false} DropTemplatesNoClose(s: string)
    requires '>' !in s
    ensures DropTemplates(s) == s
    decreases |s|
  {
    if s != [] {
      assert RFind(s[..LineLength(s)], '>') == -1;
      DropTemplatesNoClose(s[1..]);
    }
  }

  /** Text in which no '<' has a '>' after it is left as it is. */
  lemma {:induction false} DropTemplatesNoPair(s: string)
    requires forall i, j :: 0 <= i < j < |s| && s[i] == '<' ==> s[j] != '>'
    ensures DropTemplates(s) == s
    decreases |s|
  {
    if s != [] {
      var line := s[..LineLength(s)];
      if s[0] == '<' {
        assert forall k :: 0 < k < |line| ==> line[k] != '>';
      }
      var rest := s[1..];
      forall i, j | 0 <= i < j < |rest| && rest[i] == '<'
        ensures rest[j] != '>'
      {
        assert s[i + 1] == '<';
      }
      DropTemplatesNoPair(rest);
      assert s == [s[0]] + rest;
    }
  }

  /** A line starting with '<' loses everything up to its last '>'. */
  lemma DropTemplatesFromStart(s: string, j: int)
    requires '\n' !in s
    requires 0 < j < |s| && s[0] == '<' && s[j] == '>'
    requires forall k :: j < k < |s| ==> s[k] != '>'
    ensures DropTemplates(s) == s[j + 1..]
  {
    assert s[..LineLength(s)] == s;
    assert RFind(s, '>') == j;
    DropTemplatesNoClose(s[j + 1..]);
  }

  /**
   * On one line, everything from the first '<' to the last '>' goes, when
   * that '>' comes after that '<'.
   */
  lemma {:induction false} DropTemplatesSpan(s: string, i: int, j: int)
    requires '\n' !in s
    requires 0 <= i < j < |s| && s[i] == '<' && s[j] == '>'
    requires forall k :: 0 <= k < i ==> s[k] != '<'
    requires forall k :: j < k < |s| ==> s[k] != '>'
    ensures DropTemplates(s) == s[..i] + s[j + 1..]
    decreases |s|
  {
    if i == 0 {
      DropTemplatesFromStart(s, j);
    } else {
      DropTemplatesSpan(s[1..], i - 1, j - 1);
      assert s[..i] == [s[0]] + s[1..][..i - 1];
      assert s[1..][j..] == s[j + 1..];
    }
  }

  /** The first line of `a`, a line break, then `b`, is `a`. */
  lemma FirstLine(a: string, b: string)
    requires '\n' !in a
    ensures LineLength(a + "\n" + b) == |a|
    ensures (a + "\n" + b)[..|a|] == a
  {
    var s := a + "\n" + b;
    assert s[|a|] == '\n';
    assert forall k :: 0 <= k < |a| ==> s[k] == a[k];
  }

  /** A match never crosses a line break: lines are rewritten one by one. */
  lemma {:induction false} DropTemplatesByLine(a: string, b: string)
    requires '\n' !in a
    ensures DropTemplates(a + "\n" + b) == DropTemplates(a) + "\n" + DropTemplates(b)
    decreases |a|, 1
  {
    if a == [] {
      assert a + "\n" + b == ['\n'] + b;
      assert (a + "\n" + b)[1..] == b;
    } else if a[0] == '<' && RFind(a, '>') > 0 {
      ByLineMatch(a, b);
    } else {
      ByLineKeep(a, b);
    }
  }

  /** The first line starts with a match: it is deleted from both sides. */
  lemma {:induction false} ByLineMatch(a: string, b: string)
    requires '\n' !in a && a != [] && a[0] == '<' && RFind(a, '>') > 0
    ensures DropTemplates(a + "\n" + b) == DropTemplates(a) + "\n" + DropTemplates(b)
    decreases |a|, 0
  {
    var s := a + "\n" + b;
    var j := RFind(a, '>');
    assert 0 < j < |a|;
    FirstLine(a, b);
    assert a[..LineLength(a)] == a;
    assert DropTemplates(a) == DropTemplates(a[j + 1..]);
    var rest := a[j + 1..];
    assert s[j + 1..] == rest + "\n" + b;
    assert DropTemplates(s) == DropTemplates(rest + "\n" + b);
    DropTemplatesByLine(rest, b);
  }

  /** The first character is kept on both sides. */
  lemma {:induction false} ByLineKeep(a: string, b: string)
    requires '\n' !in a && a != [] && !(a[0] == '<' && RFind(a, '>') > 0)
    ensures DropTemplates(a + "\n" + b) == DropTemplates(a) + "\n" + DropTemplates(b)
    decreases |a|, 0
  {
    var s := a + "\n" + b;
    FirstLine(a, b);
    assert a[..LineLength(a)] == a;
    assert DropTemplates(a) == [a[0]] + DropTemplates(a[1..]);
    var rest := a[1..];
    assert s[1..] == rest + "\n" + b;
    assert DropTemplates(s) == [a[0]] + DropTemplates(rest + "\n" + b);
    DropTemplatesByLine(rest, b);
    Regroup([a[0]], DropTemplates(rest), DropTemplates(b));
  }

  lemma Regroup(x: string, y: string, z: string)
    ensures x + (y + "\n" + z) == (x + y) + "\n" + z
  {
  }

  /** The components of a name split at "::" (Python's str.split). */
  function Components(name: string): (r: seq<string>)
    ensures |r| > 0
  {
    Split(name, "::")
  }

  /** Where the last two components begin (`[:-2]` and `[-2:]`). */
  function TailStart(c: seq<string>): (r: int)
    ensures 0 <= r <= |c|
    ensures |c| - r == if |c| < 2 then |c| else 2
  {
    if |c| < 2 then 0 else |c| - 2
  }

  /** The namespace: all components but the last two, joined by "::". */
  function Namespace(name: string): string
  {
    var c := Components(name);
    Join(c[..TailStart(c)], "::")
  }

  /** The short name: the last two components (class and method). */
  function ShortName(name: string): string
  {
    var c := Components(name);
    Join(c[TailStart(c)..], "::")
  }

  /** fqname: the namespace and the short name joined by "::". */
  function FqName(f: Function): string
  {
    f.namespace + "::" + f.fn
  }

  /** Joining two non-empty lists is joining the joins. */
  lemma {:induction false} JoinAppend(a: seq<string>, b: seq<string>, sep: string)
    requires |a| > 0 && |b| > 0
    ensures Join(a + b, sep) == Join(a, sep) + sep + Join(b, sep)
  {
    if |a| > 1 {
      assert (a + b)[1..] == a[1..] + b;
      JoinAppend(a[1..], b, sep);
    } else {
      assert (a + b)[1..] == b;
    }
  }

  /**
   * The namespace and short name of a name with more than two components
   * rebuild it; a name of one or two components is all short name, and its
   * fully-qualified name starts with an empty namespace.
   */
  lemma NameRebuilt(name: string)
    ensures |Components(name)| > 2 ==> Namespace(name) + "::" + ShortName(name) == name
    ensures |Components(name)| <= 2 ==> Namespace(name) == "" && ShortName(name) == name
  {
    var c := Components(name);
    JoinSplit(name, "::");
    if |c| > 2 {
      assert c == c[..TailStart(c)] + c[TailStart(c)..];
      JoinAppend(c[..TailStart(c)], c[TailStart(c)..], "::");
    } else {
      assert c[TailStart(c)..] == c;
    }
  }

  /** The name the node is known by: before the parameters, templates dropped. */
  function BareName(fn: string): string
  {
    DropTemplates(BeforeParen(fn))
  }

  // ---------------------------------------------------------------------
  // Building a node

  /**
   * Function.__init__: the location must have a file and a line (an
   * assertion); then the name, which must be a string, is taken apart;
   * the rest is kept as given.
   */
  function MakeFunction(fn: Json, sandbox: Json, location: Json, cve: Json, owner: Json)
    : (r: Result<Function, PyError>)
    ensures location.Obj? && fn.Str? ==>
      (r.Ok? <==> "file" in location.fields && "line" in location.fields)
    ensures !(location.Obj? || location.Str? || location.Arr?) ==> r == Err(TypeError)
    ensures r.Ok? <==> fn.Str? && HasField(location, "file") == Ok(true)
                       && HasField(location, "line") == Ok(true)
    ensures r.Ok? ==>
      && r.value.parameters == Parameters(fn.s)
      && r.value.namespace == Namespace(BareName(fn.s))
      && r.value.fn == ShortName(BareName(fn.s))
      && r.value.sandbox == sandbox && r.value.location == location
      && r.value.cve == cve && r.value.owner == owner
  {
    match HasField(location, "file")
    case Err(e) => Err(e)
    case Ok(hasFile) =>
      if !hasFile then Err(AssertionError)
      else if !HasField(location, "line").value then Err(AssertionError)
      else if !fn.Str? then Err(AttributeError)
      else
        var name := BareName(fn.s);
        Ok(Function(Parameters(fn.s), Namespace(name), ShortName(name), sandbox, location, cve, owner))
  }

  /** filename(): "" for a false location, otherwise `location['file']`. */
  function Filename(f: Function): (r: Result<Json, PyError>)
  {
    if Falsy(f.location) then Ok(Str("")) else Field(f.location, "file")
  }

  /**
   * A node built from a dictionary location names that location's file;
   * the "" branch is never taken. One built from a string location passes
   * the assertion when the words occur in it, and then filename() fails.
   */
  lemma FilenameOfBuilt(fn: Json, sandbox: Json, location: Json, cve: Json, owner: Json)
    requires MakeFunction(fn, sandbox, location, cve, owner).Ok?
    ensures location.Obj? ==>
      Filename(MakeFunction(fn, sandbox, location, cve, owner).value) == Ok(location.fields["file"])
    ensures location.Str? ==>
      Filename(MakeFunction(fn, sandbox, location, cve, owner).value) == Err(TypeError)
  {
    if location.Str? {
      assert Contains(location.s, "file");
      assert location.s != [];
    }
  }

  /**
   * The fully-qualified name of a built node is its bare name when that
   * has a namespace, and "::" before the bare name when it has none.
   */
  lemma FqNameOfBuilt(fn: string, sandbox: Json, location: Json, cve: Json, owner: Json)
    requires MakeFunction(Str(fn), sandbox, location, cve, owner).Ok?
    ensures var f := MakeFunction(Str(fn), sandbox, location, cve, owner).value;
      if |Components(BareName(fn))| > 2 then FqName(f) == BareName(fn)
      else FqName(f) == "::" + BareName(fn)
  {
    NameRebuilt(BareName(fn));
  }
}
