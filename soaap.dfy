// Reading a SOAAP JSON report into a call graph: the warnings of one
// analysis, each with the trace of calls that led to it, become nodes keyed
// by (function, sandbox) and counted caller -> callee edges. Function
// objects are identified by their key (one object is made per key), so the
// graph is a map from keys to nodes holding their caller and callee keys.
module SoaapReport {
  import opened Wrappers
  import opened JsonValues
  import opened CallGraph
  import ChainSimplify

  /** The value `get` skips by default: the string "none", quotes included. */
  const NoneQuoted: Json := Str("\"none\"")

  // ---------------------------------------------------------------------
  // get(key, containers, default, exclude)

  /** A container from which `get` takes its answer: a dictionary holding
      the key with a value that is not excluded. */
  predicate Yields(c: Json, key: string, exclude: seq<Json>)
  {
    c.Obj? && key in c.fields && c.fields[key] !in exclude
  }

  /**
   * What `get` returns: the key's value in the first container that has it
   * and whose value is not excluded, or `default`. Searching a container
   * that cannot be searched, or indexing a string or list that contains
   * the key, fails.
   */
  function FirstAcceptable(key: string, containers: seq<Json>, default: Json, exclude: seq<Json>)
    : (r: Result<Json, PyError>)
    ensures r.Ok? && r.value != default ==>
      r.value !in exclude && exists c | c in containers :: c.Obj? && key in c.fields && c.fields[key] == r.value
    decreases |containers|
  {
    if containers == [] then Ok(default)
    else
      match HasField(containers[0], key)
      case Err(e) => Err(e)
      case Ok(has) =>
        if !has then FirstAcceptable(key, containers[1..], default, exclude)
        else
          match Field(containers[0], key)
          case Err(e) => Err(e)
          case Ok(v) =>
            if v !in exclude then Ok(v)
            else FirstAcceptable(key, containers[1..], default, exclude)
  }

  /** The first dictionary that yields gives the answer. */
  lemma {:induction false} GetFirst(key: string, containers: seq<Json>, default: Json,
                                    exclude: seq<Json>, i: int)
    requires 0 <= i < |containers| && Yields(containers[i], key, exclude)
    requires forall j | 0 <= j < i :: containers[j].Obj? && !Yields(containers[j], key, exclude)
    ensures FirstAcceptable(key, containers, default, exclude) == Ok(containers[i].fields[key])
    decreases i
  {
    if i > 0 {
      GetFirst(key, containers[1..], default, exclude, i - 1);
    }
  }

  /** Dictionaries none of which yields give the default. */
  lemma {:induction false} GetDefault(key: string, containers: seq<Json>, default: Json, exclude: seq<Json>)
    requires forall c | c in containers :: c.Obj? && !Yields(c, key, exclude)
    ensures FirstAcceptable(key, containers, default, exclude) == Ok(default)
    decreases |containers|
  {
    if containers != [] {
      assert containers[0] in containers;
      GetDefault(key, containers[1..], default, exclude);
    }
  }

  /** `get` over one dictionary. */
  lemma GetOne(key: string, x: Json, default: Json, exclude: seq<Json>)
    requires x.Obj?
    ensures FirstAcceptable(key, [x], default, exclude)
         == Ok(if Yields(x, key, exclude) then x.fields[key] else default)
  {
    assert [x][1..] == [];
  }

  /** `get` over two dictionaries. */
  lemma GetTwo(key: string, x: Json, y: Json, default: Json, exclude: seq<Json>)
    requires x.Obj? && y.Obj?
    ensures FirstAcceptable(key, [x, y], default, exclude)
         == Ok(if Yields(x, key, exclude) then x.fields[key]
               else if Yields(y, key, exclude) then y.fields[key]
               else default)
  {
    assert [x, y][1..] == [y];
    GetOne(key, y, default, exclude);
  }

  /** get(key, containers, default, exclude): a search loop over the containers. */
  method Get(key: string, containers: seq<Json>, default: Json, exclude: seq<Json>)
    returns (r: Result<Json, PyError>)
    ensures r == FirstAcceptable(key, containers, default, exclude)
  {
    for i := 0 to |containers|
      invariant FirstAcceptable(key, containers, default, exclude)
             == FirstAcceptable(key, containers[i..], default, exclude)
    {
      assert containers[i..][1..] == containers[i + 1..];
      var has := HasField(containers[i], key);
      if has.Err? {
        return Err(has.error);
      }
      if has.value {
        var value := Field(containers[i], key);
        if value.Err? {
          return Err(value.error);
        }
        if value.value !in exclude {
          return Ok(value.value);
        }
      }
    }
    assert containers[|containers|..] == [];
    return Ok(default);
  }

  // ---------------------------------------------------------------------
  // The two analyses: how a warning or trace element is described, and
  // how its node is keyed

  datatype Analysis = PrivateAccess | VulnerabilityWarning

  /** analyses[name]: only the two analyses are known. */
  function AnalysisNamed(name: string): (r: Result<Analysis, PyError>)
    ensures r.Ok? <==> name == "private_access" || name == "vulnerability_warning"
    ensures r.Err? ==> r.error == KeyError
  {
    if name == "private_access" then Ok(PrivateAccess)
    else if name == "vulnerability_warning" then Ok(VulnerabilityWarning)
    else Err(KeyError)
  }

  /** The dictionary get_details returns, as its fields. */
  datatype Details =
    | Private(owner: seq<Json>, sandbox: Json)
    | Vulnerable(cve: Json, sandbox: Json)

  /** The dictionary itself, as the next trace element's `prev` sees it. */
  function AsDict(d: Details): (r: Json)
    ensures r.Obj? && "sandbox" in r.fields && r.fields["sandbox"] == d.sandbox
  {
    match d
    case Private(owner, sandbox) => Obj(map["owner" := Arr(owner), "sandbox" := sandbox])
    case Vulnerable(cve, sandbox) => Obj(map["cve" := cve, "sandbox" := sandbox])
  }

  /** `prev`: the previous details, or the empty dictionary for a warning. */
  function Prev(prev: Option<Details>): Json
  {
    match prev
    case None => Obj(map[])
    case Some(d) => AsDict(d)
  }

  /** `[s['name'] for s in xs]`. */
  function NamesOf(xs: seq<Json>): (r: Result<seq<Json>, PyError>)
    ensures r.Ok? <==> forall i | 0 <= i < |xs| :: xs[i].Obj? && "name" in xs[i].fields
    ensures r.Ok? ==> |r.value| == |xs| && forall i | 0 <= i < |xs| :: r.value[i] == xs[i].fields["name"]
    decreases |xs|
  {
    if xs == [] then Ok([])
    else
      match Field(xs[0], "name")
      case Err(e) => Err(e)
      case Ok(n) =>
        match NamesOf(xs[1..])
        case Err(e) => Err(e)
        case Ok(rest) => Ok([n] + rest)
  }

  /** The names of the entries of a list (`for s in v`, then `s['name']`). */
  function Names(v: Json): (r: Result<seq<Json>, PyError>)
    ensures v.Arr? ==> r == NamesOf(v.items)
  {
    match Items(v)
    case Err(e) => Err(e)
    case Ok(xs) => NamesOf(xs)
  }

  /**
   * The private-access details: the owners are the names listed under
   * sandbox_private; the sandbox is the first name listed under
   * sandbox_access, otherwise the previous element's sandbox.
   */
  function PrivateDetails(x: Json, prev: Option<Details>): (r: Result<Details, PyError>)
    ensures r.Ok? ==> r.value.Private?
    ensures x.Obj? && prev.None? && Yields(x, "sandbox_private", [NoneQuoted]) && r.Ok? ==>
      Names(x.fields["sandbox_private"]) == Ok(r.value.owner)
    ensures x.Obj? && Yields(x, "sandbox_access", [NoneQuoted]) && r.Ok?
            && Names(x.fields["sandbox_access"]).Ok? && Names(x.fields["sandbox_access"]).value != [] ==>
      r.value.sandbox == Names(x.fields["sandbox_access"]).value[0]
    ensures x.Obj? && !Yields(x, "sandbox_access", [NoneQuoted]) && prev.Some? && r.Ok? ==>
      r.value.sandbox == (if prev.value.sandbox != NoneQuoted then prev.value.sandbox else Null)
  {
    match FirstAcceptable("sandbox_private", [x, Prev(prev)], Arr([]), [NoneQuoted])
    case Err(e) => Err(e)
    case Ok(privates) =>
      match Names(privates)
      case Err(e) => Err(e)
      case Ok(owner) =>
        match FirstAcceptable("sandbox_access", [x], Arr([]), [NoneQuoted])
        case Err(e) => Err(e)
        case Ok(accessed) =>
          match Names(accessed)
          case Err(e) => Err(e)
          case Ok(access) =>
            if access != [] then Ok(Private(owner, access[0]))
            else
              match FirstAcceptable("sandbox", [Prev(prev)], Null, [NoneQuoted])
              case Err(e) => Err(e)
              case Ok(sandbox) => Ok(Private(owner, sandbox))
  }

  /**
   * The vulnerability details: the element's cve, if it has one, and the
   * sandbox of the element, otherwise of the previous element.
   */
  function VulnerabilityDetails(x: Json, prev: Option<Details>): (r: Result<Details, PyError>)
    ensures r.Ok? ==> r.value.Vulnerable?
  {
    match HasField(x, "cve")
    case Err(e) => Err(e)
    case Ok(hasCve) =>
      match (if hasCve then Field(x, "cve") else Ok(Null))
      case Err(e) => Err(e)
      case Ok(cve) =>
        match FirstAcceptable("sandbox", [x, Prev(prev)], Null, [NoneQuoted])
        case Err(e) => Err(e)
        case Ok(sandbox) => Ok(Vulnerable(cve, sandbox))
  }

  /**
   * For a dictionary element the vulnerability details exist: the cve is
   * the element's, or None; the sandbox is the element's, otherwise the
   * previous element's, otherwise None ("none" counting as missing).
   */
  lemma VulnerabilityOfDict(x: Json, prev: Option<Details>)
    requires x.Obj?
    ensures var r := VulnerabilityDetails(x, prev);
      && r.Ok?
      && r.value.cve == (if "cve" in x.fields then x.fields["cve"] else Null)
      && r.value.sandbox ==
           if Yields(x, "sandbox", [NoneQuoted]) then x.fields["sandbox"]
           else if prev.Some? && prev.value.sandbox != NoneQuoted then prev.value.sandbox
           else Null
  {
    GetTwo("sandbox", x, Prev(prev), Null, [NoneQuoted]);
  }

  /** get_details(x, prev) of the analysis. */
  function DetailsOf(a: Analysis, x: Json, prev: Option<Details>): (r: Result<Details, PyError>)
    ensures r.Ok? ==> (r.value.Private? <==> a.PrivateAccess?)
  {
    match a
    case PrivateAccess => PrivateDetails(x, prev)
    case VulnerabilityWarning => VulnerabilityDetails(x, prev)
  }

  /** A node's key: the function as reported, and its sandbox. */
  type Key = (Json, Json)

  /** Lists and dictionaries cannot be hashed. */
  predicate Hashable(j: Json)
  {
    !(j.Arr? || j.Obj?)
  }

  /**
   * key_fn(fn, details), and the hashing that `key in functions` does: the
   * private-access analysis reads the sandbox back through `get`, so a
   * "none" sandbox becomes None.
   */
  function KeyOf(a: Analysis, fn: Json, d: Details): (r: Result<Key, PyError>)
    ensures r.Ok? <==> Hashable(fn) && Hashable(d.sandbox)
    ensures r.Ok? ==> r.value.0 == fn
    ensures r.Ok? && a.VulnerabilityWarning? ==> r.value.1 == d.sandbox
    ensures r.Ok? && a.PrivateAccess? ==> r.value.1 == (if d.sandbox == NoneQuoted then Null else d.sandbox)
  {
    GetOne("sandbox", AsDict(d), Null, [NoneQuoted]);
    var sandbox :=
      match a
      case VulnerabilityWarning => Ok(d.sandbox)
      case PrivateAccess => FirstAcceptable("sandbox", [AsDict(d)], Null, [NoneQuoted]);
    match sandbox
    case Err(e) => Err(e)
    case Ok(s) => if Hashable(fn) && Hashable(s) then Ok((fn, s)) else Err(TypeError)
  }

  /** callgraph.Function(fn, location = ..., **details). */
  function NewRecord(fn: Json, location: Json, d: Details): (r: Result<Function, PyError>)
    ensures r.Ok? ==> r.value.sandbox == d.sandbox && r.value.location == location
    ensures r.Ok? && d.Vulnerable? ==> r.value.cve == d.cve && r.value.owner == Null
    ensures r.Ok? && d.Private? ==> r.value.cve == Null && r.value.owner == Arr(d.owner)
  {
    match d
    case Private(owner, sandbox) => MakeFunction(fn, sandbox, location, Null, Arr(owner))
    case Vulnerable(cve, sandbox) => MakeFunction(fn, sandbox, location, cve, Null)
  }

  // ---------------------------------------------------------------------
  // The graph parse builds

  datatype Node = Node(record: Function, callers: set<Key>, callees: set<Key>)

  /** The `functions` dictionary and the `calls` counter. */
  datatype Graph = Graph(functions: map<Key, Node>, calls: multiset<(Key, Key)>)

  /** Callers and callees are nodes, each edge is seen from both ends, and
      the edges are exactly the pairs counted in `calls`. */
  ghost predicate WellLinked(g: Graph)
  {
    EdgesClosed(g) && EdgesMirrored(g) && CallsAreEdges(g) && EdgesAreCalls(g)
  }

  ghost predicate EdgesClosed(g: Graph)
  {
    forall k | k in g.functions ::
      g.functions[k].callers <= g.functions.Keys && g.functions[k].callees <= g.functions.Keys
  }

  ghost predicate EdgesMirrored(g: Graph)
  {
    forall a, b | a in g.functions && b in g.functions ::
      b in g.functions[a].callees <==> a in g.functions[b].callers
  }

  ghost predicate CallsAreEdges(g: Graph)
  {
    forall e | e in g.calls :: e.0 in g.functions && e.1 in g.functions[e.0].callees
  }

  ghost predicate EdgesAreCalls(g: Graph)
  {
    forall a, b | a in g.functions && b in g.functions[a].callees :: (a, b) in g.calls
  }

  /** A later graph keeps every node with the record it was made with, and
      every counted call. */
  ghost predicate Extends(g: Graph, g': Graph)
  {
    && g.functions.Keys <= g'.functions.Keys
    && (forall k | k in g.functions :: g'.functions[k].record == g.functions[k].record)
    && g.calls <= g'.calls
  }

  lemma ExtendsTrans(g0: Graph, g1: Graph, g2: Graph)
    requires Extends(g0, g1) && Extends(g1, g2)
    ensures Extends(g0, g2)
  {
  }

  /** A node with no edges yet. */
  function AddNode(g: Graph, k: Key, f: Function): (r: Graph)
    requires k !in g.functions
    ensures r.functions.Keys == g.functions.Keys + {k} && r.calls == g.calls
    ensures r.functions[k] == Node(f, {}, {})
    ensures forall j | j in g.functions :: r.functions[j] == g.functions[j]
  {
    g.(functions := g.functions[k := Node(f, {}, {})])
  }

  /** callee.callers.add(caller); caller.callees.add(callee);
      calls[(caller, callee)] += 1 */
  function Link(g: Graph, caller: Key, callee: Key): (r: Graph)
    requires caller in g.functions && callee in g.functions
    ensures r.functions.Keys == g.functions.Keys
    ensures forall k | k in g.functions :: r.functions[k].record == g.functions[k].record
    ensures r.calls == g.calls + multiset{(caller, callee)}
    ensures forall k | k in g.functions ::
      r.functions[k].callers == g.functions[k].callers + (if k == callee then {caller} else {})
    ensures forall k | k in g.functions ::
      r.functions[k].callees == g.functions[k].callees + (if k == caller then {callee} else {})
  {
    var fs := g.functions[callee := g.functions[callee].(callers := g.functions[callee].callers + {caller})];
    var fs' := fs[caller := fs[caller].(callees := fs[caller].callees + {callee})];
    Graph(fs', g.calls + multiset{(caller, callee)})
  }

  lemma AddNodeLinked(g: Graph, k: Key, f: Function)
    requires WellLinked(g) && k !in g.functions
    ensures WellLinked(AddNode(g, k, f))
  {
    var r := AddNode(g, k, f);
    forall a, b | a in r.functions && b in r.functions
      ensures b in r.functions[a].callees <==> a in r.functions[b].callers
    {
      if a != k && b != k {
        assert b in g.functions[a].callees <==> a in g.functions[b].callers;
      }
    }
  }

  lemma LinkLinked(g: Graph, caller: Key, callee: Key)
    requires WellLinked(g) && caller in g.functions && callee in g.functions
    ensures WellLinked(Link(g, caller, callee))
  {
    LinkClosed(g, caller, callee);
    LinkMirrored(g, caller, callee);
    LinkCounted(g, caller, callee);
  }

  lemma LinkClosed(g: Graph, caller: Key, callee: Key)
    requires EdgesClosed(g) && caller in g.functions && callee in g.functions
    ensures EdgesClosed(Link(g, caller, callee))
  {
  }

  lemma LinkMirrored(g: Graph, caller: Key, callee: Key)
    requires EdgesMirrored(g) && caller in g.functions && callee in g.functions
    ensures EdgesMirrored(Link(g, caller, callee))
  {
    var r := Link(g, caller, callee);
    forall a, b | a in r.functions && b in r.functions
      ensures b in r.functions[a].callees <==> a in r.functions[b].callers
    {
      assert b in g.functions[a].callees <==> a in g.functions[b].callers;
    }
  }

  lemma LinkCounted(g: Graph, caller: Key, callee: Key)
    requires CallsAreEdges(g) && EdgesAreCalls(g) && caller in g.functions && callee in g.functions
    ensures CallsAreEdges(Link(g, caller, callee)) && EdgesAreCalls(Link(g, caller, callee))
  {
    var r := Link(g, caller, callee);
    forall e | e in r.calls
      ensures e.0 in r.functions && e.1 in r.functions[e.0].callees
    {
      if e != (caller, callee) {
        assert e in g.calls;
      }
    }
  }

  // ---------------------------------------------------------------------
  // parse, as functions over the report

  /**
   * One element `t` of a trace whose previous element (or warning) is
   * `callee`: its node, made if its key is new, becomes the caller of
   * `callee`, and is the callee for the next element.
   */
  function Step(a: Analysis, g: Graph, callee: Key, t: Json, prev: Details)
    : (r: Result<(Graph, Key, Details), PyError>)
    requires callee in g.functions
    ensures r.Ok? ==>
      var (g', caller, _) := r.value;
      && caller in g'.functions
      && g'.functions.Keys == g.functions.Keys + {caller}
      && Extends(g, g')
      && g'.calls == g.calls + multiset{(caller, callee)}
      && caller in g'.functions[callee].callers && callee in g'.functions[caller].callees
    ensures r.Ok? ==>
      && DetailsOf(a, t, Some(prev)) == Ok(r.value.2)
      && Field(t, "function").Ok?
      && KeyOf(a, Field(t, "function").value, r.value.2) == Ok(r.value.1)
  {
    match DetailsOf(a, t, Some(prev))
    case Err(e) => Err(e)
    case Ok(d) =>
      match Field(t, "function")
      case Err(e) => Err(e)
      case Ok(fn) =>
        match KeyOf(a, fn, d)
        case Err(e) => Err(e)
        case Ok(caller) =>
          if caller in g.functions then Ok((Link(g, caller, callee), caller, d))
          else
            var location := if "location" in t.fields then t.fields["location"] else t;
            match NewRecord(fn, location, d)
            case Err(e) => Err(e)
            case Ok(f) => Ok((Link(AddNode(g, caller, f), caller, callee), caller, d))
  }

  /** The rest of a trace, from the node `callee` and its details. */
  function Trace(a: Analysis, g: Graph, callee: Key, ts: seq<Json>, prev: Details)
    : (r: Result<Graph, PyError>)
    requires callee in g.functions
    decreases |ts|
  {
    if ts == [] then Ok(g)
    else
      match Step(a, g, callee, ts[0], prev)
      case Err(e) => Err(e)
      case Ok((g', caller, d)) => Trace(a, g', caller, ts[1..], d)
  }

  /** One warning: its node, made if its key is new, then its trace. */
  function Warning(a: Analysis, g: Graph, w: Json): (r: Result<Graph, PyError>)
  {
    match Field(w, "function")
    case Err(e) => Err(e)
    case Ok(fn) =>
      match DetailsOf(a, w, None)
      case Err(e) => Err(e)
      case Ok(d) =>
        match KeyOf(a, fn, d)
        case Err(e) => Err(e)
        case Ok(k) =>
          match (if k in g.functions then Ok(g) else WarningNode(g, k, fn, w, d))
          case Err(e) => Err(e)
          case Ok(g1) =>
            match Field(w, "trace")
            case Err(e) => Err(e)
            case Ok(trace) =>
              match Items(trace)
              case Err(e) => Err(e)
              case Ok(ts) => Trace(a, g1, k, ts, d)
  }

  /** The node of a warning with a new key, at the warning's location. */
  function WarningNode(g: Graph, k: Key, fn: Json, w: Json, d: Details): (r: Result<Graph, PyError>)
    requires k !in g.functions
    ensures r.Ok? ==> k in r.value.functions
  {
    match Field(w, "location")
    case Err(e) => Err(e)
    case Ok(location) =>
      match NewRecord(fn, location, d)
      case Err(e) => Err(e)
      case Ok(f) => Ok(AddNode(g, k, f))
  }

  /** The remaining warnings, in order. */
  function Warnings(a: Analysis, g: Graph, ws: seq<Json>): (r: Result<Graph, PyError>)
    decreases |ws|
  {
    if ws == [] then Ok(g)
    else
      match Warning(a, g, ws[0])
      case Err(e) => Err(e)
      case Ok(g') => Warnings(a, g', ws[1..])
  }

  /** parse(soaap, analysis): the warnings listed under the analysis's
      name, into an empty graph. */
  function Parse(soaap: Json, analysis: string): (r: Result<Graph, PyError>)
  {
    match AnalysisNamed(analysis)
    case Err(e) => Err(e)
    case Ok(a) =>
      match Field(soaap, analysis)
      case Err(e) => Err(e)
      case Ok(warnings) =>
        match Items(warnings)
        case Err(e) => Err(e)
        case Ok(ws) => Warnings(a, Graph(map[], multiset{}), ws)
  }

  // ---------------------------------------------------------------------
  // parse, as the loops the script runs

  /** The loop over one warning's trace. */
  method AddTrace(a: Analysis, g: Graph, warned: Key, ts: seq<Json>, d: Details)
    returns (r: Result<Graph, PyError>)
    requires warned in g.functions
    ensures r == Trace(a, g, warned, ts, d)
  {
    var graph := g;
    var callee := warned;
    var details := d;
    for i := 0 to |ts|
      invariant callee in graph.functions
      invariant Trace(a, g, warned, ts, d) == Trace(a, graph, callee, ts[i..], details)
    {
      assert ts[i..][1..] == ts[i + 1..];
      var t := ts[i];
      var next := DetailsOf(a, t, Some(details));
      if next.Err? {
        return Err(next.error);
      }
      var fn := Field(t, "function");
      if fn.Err? {
        return Err(fn.error);
      }
      var key := KeyOf(a, fn.value, next.value);
      if key.Err? {
        return Err(key.error);
      }
      var caller := key.value;
      if caller !in graph.functions {
        var location := if "location" in t.fields then t.fields["location"] else t;
        var f := NewRecord(fn.value, location, next.value);
        if f.Err? {
          return Err(f.error);
        }
        graph := AddNode(graph, caller, f.value);
      }
      graph := Link(graph, caller, callee);
      callee := caller;
      details := next.value;
    }
    assert ts[|ts|..] == [];
    r := Ok(graph);
  }

  /** parse(soaap, analysis): the loop over the warnings. */
  method ParseReport(soaap: Json, analysis: string) returns (r: Result<Graph, PyError>)
    ensures r == Parse(soaap, analysis)
  {
    var a := AnalysisNamed(analysis);
    if a.Err? {
      return Err(a.error);
    }
    var warnings := Field(soaap, analysis);
    if warnings.Err? {
      return Err(warnings.error);
    }
    var ws := Items(warnings.value);
    if ws.Err? {
      return Err(ws.error);
    }
    var graph := Graph(map[], multiset{});
    for i := 0 to |ws.value|
      invariant Warnings(a.value, Graph(map[], multiset{}), ws.value)
             == Warnings(a.value, graph, ws.value[i..])
    {
      assert ws.value[i..][1..] == ws.value[i + 1..];
      var next := Warning(a.value, graph, ws.value[i]);
      if next.Err? {
        return Err(next.error);
      }
      graph := next.value;
    }
    assert ws.value[|ws.value|..] == [];
    r := Ok(graph);
  }

  // ---------------------------------------------------------------------
  // What parse builds

  /** The keys of a trace's elements, in order. */
  function TraceKeys(a: Analysis, ts: seq<Json>, prev: Details): (r: Result<seq<Key>, PyError>)
    ensures r.Ok? ==> |r.value| == |ts|
    decreases |ts|
  {
    if ts == [] then Ok([])
    else
      match DetailsOf(a, ts[0], Some(prev))
      case Err(e) => Err(e)
      case Ok(d) =>
        match Field(ts[0], "function")
        case Err(e) => Err(e)
        case Ok(fn) =>
          match KeyOf(a, fn, d)
          case Err(e) => Err(e)
          case Ok(k) =>
            match TraceKeys(a, ts[1..], d)
            case Err(e) => Err(e)
            case Ok(rest) => Ok([k] + rest)
  }

  /** The calls along a chain of keys: each key is called by the next. */
  function Pairs(ks: seq<Key>): (r: multiset<(Key, Key)>)
    ensures |r| == if |ks| < 2 then 0 else |ks| - 1
    decreases |ks|
  {
    if |ks| < 2 then multiset{} else multiset{(ks[1], ks[0])} + Pairs(ks[1..])
  }

  /** The keys occurring in a sequence of keys. */
  function KeySet(ks: seq<Key>): (r: set<Key>)
    ensures forall k :: k in r <==> k in ks
  {
    set k | k in ks
  }

  lemma KeySetCons(k: Key, ks: seq<Key>)
    ensures KeySet([k] + ks) == {k} + KeySet(ks)
  {
  }

  /**
   * A trace adds one call per element, from each element to the one
   * before it (the warning's node for the first).
   */
  lemma {:induction false} TraceCalls(a: Analysis, g: Graph, callee: Key, ts: seq<Json>, prev: Details)
    requires callee in g.functions && Trace(a, g, callee, ts, prev).Ok?
    ensures TraceKeys(a, ts, prev).Ok?
    ensures Trace(a, g, callee, ts, prev).value.calls == g.calls + Pairs([callee] + TraceKeys(a, ts, prev).value)
    decreases |ts|
  {
    if ts != [] {
      var (g1, caller, d) := Step(a, g, callee, ts[0], prev).value;
      TraceCalls(a, g1, caller, ts[1..], d);
      var rest := TraceKeys(a, ts[1..], d).value;
      var ks := TraceKeys(a, ts, prev).value;
      assert ks == [caller] + rest;
      assert ([callee] + ks)[1..] == [caller] + rest;
      assert Pairs([callee] + ks) == multiset{(caller, callee)} + Pairs([caller] + rest);
    } else {
      assert [callee][1..] == [];
    }
  }

  /** A trace adds one node per new key among its elements. */
  lemma {:induction false} TraceNodes(a: Analysis, g: Graph, callee: Key, ts: seq<Json>, prev: Details)
    requires callee in g.functions && Trace(a, g, callee, ts, prev).Ok?
    ensures TraceKeys(a, ts, prev).Ok?
    ensures Trace(a, g, callee, ts, prev).value.functions.Keys
         == g.functions.Keys + KeySet(TraceKeys(a, ts, prev).value)
    decreases |ts|
  {
    if ts != [] {
      var (g1, caller, d) := Step(a, g, callee, ts[0], prev).value;
      TraceNodes(a, g1, caller, ts[1..], d);
      var rest := TraceKeys(a, ts[1..], d).value;
      assert TraceKeys(a, ts, prev).value == [caller] + rest;
      KeySetCons(caller, rest);
    }
  }

  /** The nodes already there keep their records through a trace. */
  lemma {:induction false} TraceExtends(a: Analysis, g: Graph, callee: Key, ts: seq<Json>, prev: Details)
    requires callee in g.functions && Trace(a, g, callee, ts, prev).Ok?
    ensures Extends(g, Trace(a, g, callee, ts, prev).value)
    decreases |ts|
  {
    if ts != [] {
      var (g1, caller, d) := Step(a, g, callee, ts[0], prev).value;
      TraceExtends(a, g1, caller, ts[1..], d);
      ExtendsTrans(g, g1, Trace(a, g, callee, ts, prev).value);
    }
  }

  /** A trace keeps the graph well linked. */
  lemma {:induction false} TraceLinked(a: Analysis, g: Graph, callee: Key, ts: seq<Json>, prev: Details)
    requires callee in g.functions && WellLinked(g) && Trace(a, g, callee, ts, prev).Ok?
    ensures WellLinked(Trace(a, g, callee, ts, prev).value)
    decreases |ts|
  {
    if ts != [] {
      var t := ts[0];
      var d := DetailsOf(a, t, Some(prev)).value;
      var fn := Field(t, "function").value;
      var caller := KeyOf(a, fn, d).value;
      if caller in g.functions {
        LinkLinked(g, caller, callee);
      } else {
        var location := if "location" in t.fields then t.fields["location"] else t;
        var f := NewRecord(fn, location, d).value;
        AddNodeLinked(g, caller, f);
        LinkLinked(AddNode(g, caller, f), caller, callee);
      }
      var (g1, _, _) := Step(a, g, callee, t, prev).value;
      TraceLinked(a, g1, caller, ts[1..], d);
    }
  }

  /** A warning keeps the graph well linked. */
  lemma WarningLinked(a: Analysis, g: Graph, w: Json)
    requires WellLinked(g) && Warning(a, g, w).Ok?
    ensures WellLinked(Warning(a, g, w).value)
  {
    var fn := Field(w, "function").value;
    var d := DetailsOf(a, w, None).value;
    var k := KeyOf(a, fn, d).value;
    if k !in g.functions {
      var f := NewRecord(fn, Field(w, "location").value, d).value;
      AddNodeLinked(g, k, f);
    }
    var g1 := if k in g.functions then g else WarningNode(g, k, fn, w, d).value;
    TraceLinked(a, g1, k, Items(Field(w, "trace").value).value, d);
  }

  /** A warning keeps the nodes already there with their records. */
  lemma WarningExtends(a: Analysis, g: Graph, w: Json)
    requires Warning(a, g, w).Ok?
    ensures Extends(g, Warning(a, g, w).value)
  {
    var fn := Field(w, "function").value;
    var d := DetailsOf(a, w, None).value;
    var k := KeyOf(a, fn, d).value;
    var g1 := if k in g.functions then g else WarningNode(g, k, fn, w, d).value;
    TraceExtends(a, g1, k, Items(Field(w, "trace").value).value, d);
    ExtendsTrans(g, g1, Warning(a, g, w).value);
  }

  /** The warnings keep the graph well linked and extend it. */
  lemma {:induction false} WarningsLinked(a: Analysis, g: Graph, ws: seq<Json>)
    requires WellLinked(g) && Warnings(a, g, ws).Ok?
    ensures WellLinked(Warnings(a, g, ws).value) && Extends(g, Warnings(a, g, ws).value)
    decreases |ws|
  {
    if ws != [] {
      WarningLinked(a, g, ws[0]);
      WarningExtends(a, g, ws[0]);
      var g1 := Warning(a, g, ws[0]).value;
      WarningsLinked(a, g1, ws[1..]);
      ExtendsTrans(g, g1, Warnings(a, g, ws).value);
    }
  }

  /** The call graph the simplifier sees: each node's edges and cve. */
  ghost function AsCallGraph(g: Graph): (r: ChainSimplify.Graph<Key>)
    ensures r.Keys == g.functions.Keys
  {
    map k | k in g.functions ::
      ChainSimplify.Info(g.functions[k].callers, g.functions[k].callees, g.functions[k].record.cve)
  }

  /** The call counts as the weights the simplifier sees. */
  ghost function Weights(g: Graph): (r: map<(Key, Key), int>)
    ensures forall e | e in r :: r[e] == g.calls[e] > 0
  {
    map e | e in g.calls :: g.calls[e]
  }

  /**
   * What parse returns is a graph the simplifier accepts: every caller and
   * callee is a node, every edge is seen from both ends, and the weighted
   * pairs are exactly the edges, each counted at least once.
   */
  lemma ParsedSimplifiable(soaap: Json, analysis: string)
    requires Parse(soaap, analysis).Ok?
    ensures var g := Parse(soaap, analysis).value;
      && ChainSimplify.Closed(AsCallGraph(g))
      && ChainSimplify.Symmetric(AsCallGraph(g))
      && forall a, b :: (a, b) in Weights(g) <==> a in g.functions && b in g.functions[a].callees
  {
    var a := AnalysisNamed(analysis).value;
    var ws := Items(Field(soaap, analysis).value).value;
    WarningsLinked(a, Graph(map[], multiset{}), ws);
  }

  // ---------------------------------------------------------------------
  // The default analysis

  /** parse's default analysis, as written: not one of the two analyses. */
  const DefaultAnalysisAsWritten: string := "vulnerabilities"

  /** The analysis the default evidently means. */
  const DefaultAnalysis: string := "vulnerability_warning"

  /** With the default as written, every report is rejected, even one that
      lists warnings under that very name. */
  lemma DefaultAnalysisRejected(soaap: Json)
    ensures Parse(soaap, DefaultAnalysisAsWritten) == Err(KeyError)
    ensures Parse(Obj(map[DefaultAnalysisAsWritten := Arr([])]), DefaultAnalysisAsWritten).Err?
  {
    assert DefaultAnalysisAsWritten[0] != "private_access"[0];
    assert DefaultAnalysisAsWritten[12] != "vulnerability_warning"[12];
  }

  /** With the intended default, the vulnerability warnings are read: a
      report with none gives the empty graph. */
  lemma DefaultAnalysisAccepted(soaap: Json)
    ensures AnalysisNamed(DefaultAnalysis) == Ok(VulnerabilityWarning)
    ensures Parse(Obj(map[DefaultAnalysis := Arr([])]), DefaultAnalysis) == Ok(Graph(map[], multiset{}))
  {
  }

  /** parse(soaap) with the intended default analysis. */
  method ParseDefault(soaap: Json) returns (r: Result<Graph, PyError>)
    ensures r == Parse(soaap, DefaultAnalysis)
  {
    r := ParseReport(soaap, DefaultAnalysis);
  }
}
