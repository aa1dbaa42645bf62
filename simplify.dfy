// The call-graph simplifier: starting from the functions nobody calls, it
// walks the graph and collapses every chain of functions that each have a
// single caller and a single callee, and share the CVE and the cluster of
// the function the chain starts from, into one edge that keeps the weight
// of the chain's first edge. Nodes are compared by identity, so any type
// with equality stands for them; the cluster key is any function of a node.
module ChainSimplify {
  import opened Wrappers
  import opened JsonValues

  /** What the simplifier reads of a node. */
  datatype Info<N> = Info(callers: set<N>, callees: set<N>, cve: Json)

  type Graph<N(==)> = map<N, Info<N>>

  /** Every caller and callee is a node of the graph. */
  ghost predicate Closed<N>(g: Graph<N>)
  {
    forall n | n in g :: g[n].callers <= g.Keys && g[n].callees <= g.Keys
  }

  /** Callers and callees are kept in step, as the report parser keeps them. */
  ghost predicate Symmetric<N>(g: Graph<N>)
  {
    forall a, b | a in g && b in g :: b in g[a].callees <==> a in g[b].callers
  }

  lemma OnlyOne<N>(s: set<N>, x: N)
    requires |s| == 1 && x in s
    ensures s == {x}
  {
    assert |s - {x}| == 0;
  }

  /** The element of a one-element set: `(x,) = s`. */
  ghost function Only<N>(s: set<N>): (r: N)
    requires |s| == 1
    ensures s == {r}
  {
    assert s != {};
    var x :| x in s;
    OnlyOne(s, x);
    x
  }

  /**
   * A node a chain from `root` runs through: one caller, one callee, and
   * the CVE and cluster of `root`.
   */
  predicate Passes<N(==), K(==)>(g: Graph<N>, key: N -> K, root: N, c: N)
    requires root in g && c in g
  {
    |g[c].callers| == 1 && |g[c].callees| == 1 && g[root].cve == g[c].cve && key(root) == key(c)
  }

  /** The nodes a chain passes, the node it was left from, the node it
      stops at, and the edge weights once its edges are popped. */
  datatype Chain<N(==)> = Chain(interior: seq<N>, last: N, end: N, calls: map<(N, N), int>)

  /**
   * The inner while loop: from the edge `caller -> callee`, while the
   * callee passes, pop that edge (KeyError when it is gone) and step to the
   * callee's only callee. A chain that runs back into itself meets an
   * edge it has already popped.
   */
  ghost function Follow<N, K>(g: Graph<N>, key: N -> K, root: N, caller: N, callee: N,
                                      calls: map<(N, N), int>): Result<Chain<N>, PyError>
    requires Closed(g) && root in g && caller in g && callee in g
    decreases |calls.Keys|
  {
    if !Passes(g, key, root, callee) then Ok(Chain([], caller, callee, calls))
    else if (caller, callee) !in calls then Err(KeyError)
    else
      var rest := calls - {(caller, callee)};
      assert rest.Keys == calls.Keys - {(caller, callee)};
      match Follow(g, key, root, callee, Only(g[callee].callees), rest)
      case Err(e) => Err(e)
      case Ok(c) => Ok(c.(interior := [callee] + c.interior))
  }

  /**
   * One chain step of walk(root), for a root with one callee: the weight of
   * root's edge is read (KeyError when missing), the chain is followed, and
   * when it passed any node its last edge is popped and root gets an edge
   * to the chain's end with that weight.
   */
  ghost function Collapsed<N, K>(g: Graph<N>, key: N -> K, root: N, calls: map<(N, N), int>)
    : Result<(N, map<(N, N), int>), PyError>
    requires Closed(g) && root in g && |g[root].callees| == 1
  {
    var first := Only(g[root].callees);
    if (root, first) !in calls then Err(KeyError)
    else match Follow(g, key, root, root, first, calls)
      case Err(e) => Err(e)
      case Ok(c) =>
        if c.last == root then Ok((c.end, c.calls))
        else if (c.last, c.end) !in c.calls then Err(KeyError)
        else Ok((c.end, (c.calls - {(c.last, c.end)})[(root, c.end) := calls[(root, first)]]))
  }

  /** The nodes a successful chain step from `root` passed. */
  ghost function Interior<N, K>(g: Graph<N>, key: N -> K, root: N, calls: map<(N, N), int>)
    : seq<N>
    requires Closed(g) && root in g && |g[root].callees| == 1
    requires Collapsed(g, key, root, calls).Ok?
  {
    Follow(g, key, root, root, Only(g[root].callees), calls).value.interior
  }

  /** The edge from the i-th node of a path to the next. */
  ghost function EdgeAt<N>(p: seq<N>, i: int): (N, N)
    requires 0 <= i < |p| - 1
  {
    (p[i], p[i + 1])
  }

  /** The edges along a path of nodes. */
  ghost function PathEdges<N>(p: seq<N>): set<(N, N)>
  {
    set i | 0 <= i < |p| - 1 :: EdgeAt(p, i)
  }

  lemma PathEdgesCons<N>(x: N, p: seq<N>)
    requires |p| > 0
    ensures PathEdges([x] + p) == {(x, p[0])} + PathEdges(p)
  {
    var q := [x] + p;
    forall e | e in PathEdges(q)
      ensures e in {(x, p[0])} + PathEdges(p)
    {
      var i :| 0 <= i < |q| - 1 && e == EdgeAt(q, i);
      if i > 0 {
        assert e == EdgeAt(p, i - 1);
      }
    }
    forall e | e in PathEdges(p)
      ensures e in PathEdges(q)
    {
      var i :| 0 <= i < |p| - 1 && e == EdgeAt(p, i);
      assert e == EdgeAt(q, i + 1);
    }
    assert (x, p[0]) == EdgeAt(q, 0);
  }

  lemma PrefixedTwice<N>(done: seq<N>, x: N, r: Result<Chain<N>, PyError>)
    ensures Prefixed(done, Prefixed([x], r)) == Prefixed(done + [x], r)
  {
    if r.Ok? {
      assert done + ([x] + r.value.interior) == (done + [x]) + r.value.interior;
    }
  }

  lemma PrefixedNone<N>(r: Result<Chain<N>, PyError>)
    ensures Prefixed([], r) == r
  {
    if r.Ok? {
      assert [] + r.value.interior == r.value.interior;
    }
  }

  /** A chain result with `done` in front of its interior. */
  ghost function Prefixed<N>(done: seq<N>, r: Result<Chain<N>, PyError>): Result<Chain<N>, PyError>
  {
    match r
    case Err(e) => Err(e)
    case Ok(c) => Ok(c.(interior := done + c.interior))
  }

  /**
   * A followed chain runs along call edges from `callee` on, through
   * passing nodes, and stops at the first node that does not pass; it is
   * left from its last passed node (or from `caller`).
   */
  lemma {:induction false} FollowPath<N, K>(g: Graph<N>, key: N -> K, root: N, caller: N,
                                                   callee: N, calls: map<(N, N), int>)
    requires Closed(g) && root in g && caller in g && callee in g
    requires Follow(g, key, root, caller, callee, calls).Ok?
    ensures var c := Follow(g, key, root, caller, callee, calls).value;
      var full := [caller] + c.interior + [c.end];
      && full[1] == callee
      && c.last == full[|full| - 2]
      && c.end in g && !Passes(g, key, root, c.end)
      && (forall x | x in c.interior :: x in g && Passes(g, key, root, x))
      && (forall k | 1 <= k < |full| - 1 :: full[k + 1] in g[full[k]].callees)
    decreases |calls.Keys|
  {
    if Passes(g, key, root, callee) {
      var next := Only(g[callee].callees);
      var rest := calls - {(caller, callee)};
      assert rest.Keys == calls.Keys - {(caller, callee)};
      FollowPath(g, key, root, callee, next, rest);
      var c' := Follow(g, key, root, callee, next, rest).value;
      var full' := [callee] + c'.interior + [c'.end];
      var c := Follow(g, key, root, caller, callee, calls).value;
      assert c.interior == [callee] + c'.interior;
      assert [caller] + c.interior + [c.end] == [caller] + full';
    }
  }

  /**
   * Following a chain pops exactly the edges along it, from `caller` to
   * its last passed node, all of which were present.
   */
  lemma {:induction false} FollowEdges<N, K>(g: Graph<N>, key: N -> K, root: N, caller: N,
                                                    callee: N, calls: map<(N, N), int>)
    requires Closed(g) && root in g && caller in g && callee in g
    requires Follow(g, key, root, caller, callee, calls).Ok?
    ensures var c := Follow(g, key, root, caller, callee, calls).value;
      && PathEdges([caller] + c.interior) <= calls.Keys
      && c.calls == calls - PathEdges([caller] + c.interior)
    decreases |calls.Keys|
  {
    var c := Follow(g, key, root, caller, callee, calls).value;
    if Passes(g, key, root, callee) {
      var next := Only(g[callee].callees);
      var rest := calls - {(caller, callee)};
      assert rest.Keys == calls.Keys - {(caller, callee)};
      FollowEdges(g, key, root, callee, next, rest);
      var c' := Follow(g, key, root, callee, next, rest).value;
      assert [caller] + c.interior == [caller] + ([callee] + c'.interior);
      PathEdgesCons(caller, [callee] + c'.interior);
      assert c.calls == c'.calls;
    } else {
      assert PathEdges([caller]) == {};
    }
  }

  /**
   * A chain that would pass `a` again after the edge from `a` to its only
   * callee `b` (a passing node) has been popped fails: it cannot pop it twice.
   */
  lemma {:induction false} FollowAvoids<N, K>(g: Graph<N>, key: N -> K, root: N, caller: N,
                                                     callee: N, calls: map<(N, N), int>, a: N, b: N)
    requires Closed(g) && root in g && caller in g && callee in g && a in g && b in g
    requires |g[a].callees| == 1 && b in g[a].callees && Passes(g, key, root, b)
    requires (a, b) !in calls
    requires Follow(g, key, root, caller, callee, calls).Ok?
    ensures a !in Follow(g, key, root, caller, callee, calls).value.interior
    decreases |calls.Keys|
  {
    if Passes(g, key, root, callee) {
      var next := Only(g[callee].callees);
      var rest := calls - {(caller, callee)};
      assert rest.Keys == calls.Keys - {(caller, callee)};
      FollowAvoids(g, key, root, callee, next, rest, a, b);
      if callee == a {
        OnlyOne(g[a].callees, b);
      }
    }
  }

  /** A successful chain step never passes its own root. */
  lemma RootNotPassed<N, K>(g: Graph<N>, key: N -> K, root: N, calls: map<(N, N), int>)
    requires Closed(g) && root in g && |g[root].callees| == 1
    requires Collapsed(g, key, root, calls).Ok?
    ensures root !in Interior(g, key, root, calls)
  {
    var first := Only(g[root].callees);
    if Passes(g, key, root, first) {
      var next := Only(g[first].callees);
      var rest := calls - {(root, first)};
      assert rest.Keys == calls.Keys - {(root, first)};
      FollowAvoids(g, key, root, first, next, rest, root, first);
    }
  }

  /**
   * The chain step in the walk's own terms. `full` is the chain from root
   * through the passed nodes to the end: it follows call edges, every node
   * on it but the end has one callee and root's CVE and cluster, and the
   * end does not pass.
   */
  lemma CollapsedPath<N, K>(g: Graph<N>, key: N -> K, root: N, calls: map<(N, N), int>)
    requires Closed(g) && root in g && |g[root].callees| == 1
    requires Collapsed(g, key, root, calls).Ok?
    ensures var end := Collapsed(g, key, root, calls).value.0;
      var full := [root] + Interior(g, key, root, calls) + [end];
      && end in g && !Passes(g, key, root, end)
      && (forall x | x in Interior(g, key, root, calls) :: x in g && Passes(g, key, root, x))
      && (forall k | 0 <= k < |full| - 1 :: full[k + 1] in g[full[k]].callees)
      && (forall k | 0 <= k < |full| - 1 ::
            full[k] in g && |g[full[k]].callees| == 1 && g[full[k]].cve == g[root].cve && key(full[k]) == key(root))
  {
    var first := Only(g[root].callees);
    FollowPath(g, key, root, root, first, calls);
    var c := Follow(g, key, root, root, first, calls).value;
    var full := [root] + c.interior + [c.end];
    forall k | 0 <= k < |full| - 1
      ensures full[k] in g && |g[full[k]].callees| == 1 && g[full[k]].cve == g[root].cve && key(full[k]) == key(root)
    {
      if k > 0 {
        assert full[k] == c.interior[k - 1];
      }
    }
  }

  /**
   * The chain step's effect on the weights: root's edge to the chain's end
   * carries the weight root's first edge had; every other edge along the
   * chain was present and is gone; every edge off the chain keeps its
   * weight; nothing else appears.
   */
  lemma CollapsedEdges<N, K>(g: Graph<N>, key: N -> K, root: N, calls: map<(N, N), int>)
    requires Closed(g) && root in g && |g[root].callees| == 1
    requires Collapsed(g, key, root, calls).Ok?
    ensures var (end, out) := Collapsed(g, key, root, calls).value;
      var full := [root] + Interior(g, key, root, calls) + [end];
      && (root, end) in out && out[(root, end)] == calls[(root, Only(g[root].callees))]
      && PathEdges(full) <= calls.Keys
      && (forall e | e in PathEdges(full) && e != (root, end) :: e !in out)
      && (forall e | e in calls && e !in PathEdges(full) && e != (root, end) :: e in out && out[e] == calls[e])
      && (forall e | e in out :: e in calls || e == (root, end))
  {
    var first := Only(g[root].callees);
    FollowPath(g, key, root, root, first, calls);
    FollowEdges(g, key, root, root, first, calls);
    var c := Follow(g, key, root, root, first, calls).value;
    var path := [root] + c.interior;
    var full := path + [c.end];
    assert [root] + c.interior + [c.end] == full;
    assert PathEdges(full) == PathEdges(path) + {(c.last, c.end)} by {
      forall e | e in PathEdges(full)
        ensures e in PathEdges(path) + {(c.last, c.end)}
      {
        var i :| 0 <= i < |full| - 1 && e == EdgeAt(full, i);
        if i < |path| - 1 {
          assert e == EdgeAt(path, i);
        }
      }
      forall e | e in PathEdges(path)
        ensures e in PathEdges(full)
      {
        var i :| 0 <= i < |path| - 1 && e == EdgeAt(path, i);
        assert e == EdgeAt(full, i);
      }
      assert (c.last, c.end) == EdgeAt(full, |full| - 2);
    }
    RootNotPassed(g, key, root, calls);
    if c.interior == [] {
      assert PathEdges(path) == {};
    } else {
      assert c.last in c.interior;
    }
  }

  /**
   * Whether a chain passes through `c` is decided locally: `c` has one
   * caller and one callee, and that caller has one callee and `c`'s CVE
   * and cluster.
   */
  ghost predicate Absorbed<N, K>(g: Graph<N>, key: N -> K, c: N)
    requires Closed(g)
  {
    && c in g && |g[c].callers| == 1 && |g[c].callees| == 1
    && exists p | p in g[c].callers ::
         p in g && |g[p].callees| == 1 && g[p].cve == g[c].cve && key(p) == key(c)
  }

  /**
   * Every node a chain step passes is absorbed, and the node it stops at
   * is not.
   */
  lemma ChainAbsorbs<N, K>(g: Graph<N>, key: N -> K, root: N, calls: map<(N, N), int>)
    requires Closed(g) && Symmetric(g) && root in g && |g[root].callees| == 1
    requires Collapsed(g, key, root, calls).Ok?
    ensures forall x | x in Interior(g, key, root, calls) :: Absorbed(g, key, x)
    ensures !Absorbed(g, key, Collapsed(g, key, root, calls).value.0)
  {
    CollapsedPath(g, key, root, calls);
    var end := Collapsed(g, key, root, calls).value.0;
    var inner := Interior(g, key, root, calls);
    var full := [root] + inner + [end];
    forall x | x in inner
      ensures Absorbed(g, key, x)
    {
      var k :| 0 <= k < |inner| && inner[k] == x;
      assert full[k + 1] == x;
      var p := full[k];
      assert x in g[p].callees;
      assert p in g[x].callers;
    }
    var last := full[|full| - 2];
    assert end == full[|full| - 1];
    assert last in g[end].callers;
    if Absorbed(g, key, end) {
      var p :| p in g[end].callers && p in g && |g[p].callees| == 1
        && g[p].cve == g[end].cve && key(p) == key(end);
      OnlyOne(g[end].callers, p);
      assert Passes(g, key, root, end);
    }
  }

  /** A callee of a node with other than one callee is not absorbed. */
  lemma BranchNotAbsorbed<N, K>(g: Graph<N>, key: N -> K, q: N, c: N)
    requires Closed(g) && Symmetric(g) && q in g && c in g[q].callees
    requires |g[q].callees| != 1
    ensures !Absorbed(g, key, c)
  {
    assert q in g[c].callers;
    if Absorbed(g, key, c) {
      var p :| p in g[c].callers && p in g && |g[p].callees| == 1
        && g[p].cve == g[c].cve && key(p) == key(c);
      OnlyOne(g[c].callers, p);
    }
  }

  /**
   * What a walk may do: mark nodes visited, none of them absorbed; give
   * new weights only to edges out of nodes it visited; drop edges; and
   * leave the edges out of nodes with other than one callee alone.
   */
  ghost predicate Walked<N, K>(g: Graph<N>, key: N -> K,
                                      visited: set<N>, calls: map<(N, N), int>,
                                      visited': set<N>, calls': map<(N, N), int>)
    requires Closed(g)
  {
    && visited <= visited' <= g.Keys
    && (forall v | v in visited' && v !in visited :: !Absorbed(g, key, v))
    && (forall e | e in calls' :: e in calls || e.0 in visited')
    && (forall e | e in calls' && e.0 !in visited' :: calls'[e] == calls[e])
    && (forall e | e in calls && e.0 in g && |g[e.0].callees| != 1 :: e in calls' && calls'[e] == calls[e])
  }

  lemma WalkedTrans<N, K>(g: Graph<N>, key: N -> K,
                                  v0: set<N>, c0: map<(N, N), int>,
                                  v1: set<N>, c1: map<(N, N), int>,
                                  v2: set<N>, c2: map<(N, N), int>)
    requires Closed(g)
    requires Walked(g, key, v0, c0, v1, c1) && Walked(g, key, v1, c1, v2, c2)
    ensures Walked(g, key, v0, c0, v2, c2)
  {
  }

  /** A chain step from an unvisited, unabsorbed root is a walk step. */
  lemma CollapsedWalks<N, K>(g: Graph<N>, key: N -> K, root: N,
                                     visited: set<N>, calls: map<(N, N), int>)
    requires Closed(g) && root in g && |g[root].callees| == 1 && visited <= g.Keys
    requires !Absorbed(g, key, root)
    requires Collapsed(g, key, root, calls).Ok?
    ensures Walked(g, key, visited, calls, visited + {root}, Collapsed(g, key, root, calls).value.1)
  {
    CollapsedPath(g, key, root, calls);
    CollapsedEdges(g, key, root, calls);
    var (end, out) := Collapsed(g, key, root, calls).value;
    var full := [root] + Interior(g, key, root, calls) + [end];
  }

  /**
   * walk(root): a visited root is left alone; otherwise root is marked;
   * with one callee, the chain from it is collapsed and the walk goes on
   * from the chain's end; with any other number, from each callee in turn.
   */
  method Walk<N(==), K(==)>(g: Graph<N>, key: N -> K, root: N, visited: set<N>, calls: map<(N, N), int>)
    returns (r: Result<(set<N>, map<(N, N), int>), PyError>)
    requires Closed(g) && Symmetric(g) && root in g && visited <= g.Keys
    requires root !in visited ==> !Absorbed(g, key, root)
    ensures r.Ok? ==> root in r.value.0 && Walked(g, key, visited, calls, r.value.0, r.value.1)
    decreases g.Keys - visited
  {
    if root in visited {
      return Ok((visited, calls));
    }
    var seen := visited + {root};
    if |g[root].callees| == 1 {
      var step := CollapseChain(g, key, root, calls);
      if step.Err? {
        return Err(step.error);
      }
      var (end, out) := step.value;
      CollapsedWalks(g, key, root, visited, calls);
      ChainAbsorbs(g, key, root, calls);
      CollapsedPath(g, key, root, calls);
      r := Walk(g, key, end, seen, out);
      if r.Ok? {
        WalkedTrans(g, key, visited, calls, seen, out, r.value.0, r.value.1);
      }
    } else {
      var rest := g[root].callees;
      var cur := calls;
      while rest != {}
        invariant rest <= g[root].callees
        invariant root in seen && visited <= seen <= g.Keys
        invariant Walked(g, key, visited, calls, seen, cur)
        decreases rest
      {
        var callee :| callee in rest;
        rest := rest - {callee};
        BranchNotAbsorbed(g, key, root, callee);
        var w := Walk(g, key, callee, seen, cur);
        if w.Err? {
          return Err(w.error);
        }
        WalkedTrans(g, key, visited, calls, seen, cur, w.value.0, w.value.1);
        seen, cur := w.value.0, w.value.1;
      }
      r := Ok((seen, cur));
    }
  }

  /** The chain step of walk(root) as the source runs it, with its loop. */
  method CollapseChain<N(==), K(==)>(g: Graph<N>, key: N -> K, root: N, calls: map<(N, N), int>)
    returns (r: Result<(N, map<(N, N), int>), PyError>)
    requires Closed(g) && root in g && |g[root].callees| == 1
    ensures r == Collapsed(g, key, root, calls)
  {
    var callee :| callee in g[root].callees;
    OnlyOne(g[root].callees, callee);
    assert Only(g[root].callees) in {callee};
    PrefixedNone(Follow(g, key, root, root, callee, calls));
    if (root, callee) !in calls {
      return Err(KeyError);
    }
    var weight := calls[(root, callee)];
    var caller := root;
    var cur := calls;
    ghost var done: seq<N> := [];
    while Passes(g, key, root, callee)
      invariant caller in g && callee in g
      invariant Follow(g, key, root, root, Only(g[root].callees), calls)
             == Prefixed(done, Follow(g, key, root, caller, callee, cur))
      decreases |cur.Keys|
    {
      if (caller, callee) !in cur {
        return Err(KeyError);
      }
      var rest := cur - {(caller, callee)};
      assert rest.Keys == cur.Keys - {(caller, callee)};
      var next :| next in g[callee].callees;
      OnlyOne(g[callee].callees, next);
      PrefixedTwice(done, callee, Follow(g, key, root, callee, next, rest));
      cur := rest;
      caller := callee;
      done := done + [callee];
      callee := next;
    }
    if caller != root {
      if (caller, callee) !in cur {
        return Err(KeyError);
      }
      cur := (cur - {(caller, callee)})[(root, callee) := weight];
    }
    r := Ok((callee, cur));
  }

  /**
   * simplify(functions, calls, cluster_key): a walk from every function
   * nobody calls, over a copy of the weights. Every such function ends up
   * visited, no absorbed function does, and the weights change only as
   * walks may change them.
   */
  method Simplify<N(==), K(==)>(g: Graph<N>, calls: map<(N, N), int>, key: N -> K)
    returns (r: Result<(set<N>, map<(N, N), int>), PyError>)
    requires Closed(g) && Symmetric(g)
    ensures r.Ok? ==> Walked(g, key, {}, calls, r.value.0, r.value.1)
    ensures r.Ok? ==> forall n | n in g && g[n].callers == {} :: n in r.value.0
  {
    var visited: set<N> := {};
    var cur := calls;
    var rest := g.Keys;
    while rest != {}
      invariant rest <= g.Keys
      invariant Walked(g, key, {}, calls, visited, cur)
      invariant forall n | n in g && n !in rest && g[n].callers == {} :: n in visited
      decreases rest
    {
      var fn :| fn in rest;
      rest := rest - {fn};
      if |g[fn].callers| == 0 {
        var w := Walk(g, key, fn, visited, cur);
        if w.Err? {
          return Err(w.error);
        }
        WalkedTrans(g, key, {}, calls, visited, cur, w.value.0, w.value.1);
        visited, cur := w.value.0, w.value.1;
      }
    }
    r := Ok((visited, cur));
  }
}
