// The function-pointer target analysis' representation of a set of
// functions as a bit vector: each address-taken function defined in the
// module gets an index, a set of functions is the vector with those bits
// set, and the meet of two facts is their union. Functions are named by
// their (unique) names; the null Function* is None.
module FPTargets {
  import opened Wrappers

  /** A function of the module, as the index table sees it. */
  datatype DefinedFunction = DefinedFunction(name: string, isDeclaration: bool, hasAddressTaken: bool)

  /** No function name occurs twice in the module. */
  ghost predicate UniqueNames(fns: seq<DefinedFunction>)
  {
    forall i, j :: 0 <= i < j < |fns| ==> fns[i].name != fns[j].name
  }

  /** The functions that can be pointer targets: defined here and address-taken. */
  predicate IsTarget(f: DefinedFunction)
  {
    !f.isDeclaration && f.hasAddressTaken
  }

  /** The names of the possible targets, in module order. */
  function Targets(fns: seq<DefinedFunction>): (r: seq<string>)
    ensures |r| <= |fns|
  {
    if fns == [] then []
    else if IsTarget(fns[|fns| - 1]) then Targets(fns[..|fns| - 1]) + [fns[|fns| - 1].name]
    else Targets(fns[..|fns| - 1])
  }

  /** A name is listed exactly when some target function has it. */
  lemma {:induction false} TargetsMembers(fns: seq<DefinedFunction>, n: string)
    ensures n in Targets(fns) <==> exists k :: 0 <= k < |fns| && fns[k].name == n && IsTarget(fns[k])
  {
    if fns != [] {
      var init := fns[..|fns| - 1];
      TargetsMembers(init, n);
      if n in Targets(init) {
        var k :| 0 <= k < |init| && init[k].name == n && IsTarget(init[k]);
        assert fns[k] == init[k];
      }
      if exists k :: 0 <= k < |fns| && fns[k].name == n && IsTarget(fns[k]) {
        var k :| 0 <= k < |fns| && fns[k].name == n && IsTarget(fns[k]);
        if k < |init| {
          assert init[k] == fns[k];
        }
      }
    }
  }

  /** Targets of a module with unique names are listed once each. */
  lemma {:induction false} TargetsDistinct(fns: seq<DefinedFunction>)
    requires UniqueNames(fns)
    ensures forall i, j :: 0 <= i < j < |Targets(fns)| ==> Targets(fns)[i] != Targets(fns)[j]
  {
    if fns != [] {
      var init := fns[..|fns| - 1];
      TargetsDistinct(init);
      if IsTarget(fns[|fns| - 1]) {
        TargetsMembers(init, fns[|fns| - 1].name);
      }
    }
  }

  /** Index to function: position k of the list gets index k. */
  function Positions(t: seq<string>): (r: map<int, string>)
    ensures forall i :: i in r <==> 0 <= i < |t|
    ensures forall i :: 0 <= i < |t| ==> r[i] == t[i]
  {
    if t == [] then map[] else Positions(t[..|t| - 1])[|t| - 1 := t[|t| - 1]]
  }

  /** Function to index, as the loop writes it. */
  function Indices(t: seq<string>): (r: map<string, int>)
    ensures forall f :: f in r <==> f in t
  {
    if t == [] then map[] else Indices(t[..|t| - 1])[t[|t| - 1] := |t| - 1]
  }

  /** With no name listed twice, each listed name's index is its position. */
  lemma {:induction false} IndicesArePositions(t: seq<string>)
    requires forall i, j :: 0 <= i < j < |t| ==> t[i] != t[j]
    ensures forall k :: 0 <= k < |t| ==> Indices(t)[t[k]] == k
  {
    if t != [] {
      var init := t[..|t| - 1];
      IndicesArePositions(init);
      forall k | 0 <= k < |t|
        ensures Indices(t)[t[k]] == k
      {
        if k < |t| - 1 {
          assert t[k] == init[k];
        }
      }
    }
  }

  /** One more function of the module adds its name when it is a target. */
  lemma TargetsStep(fns: seq<DefinedFunction>, i: int)
    requires 0 <= i < |fns|
    ensures Targets(fns[..i + 1]) ==
      if IsTarget(fns[i]) then Targets(fns[..i]) + [fns[i].name] else Targets(fns[..i])
  {
    assert fns[..i + 1][..i] == fns[..i];
  }

  /** Appending a name gives it the next index, in both tables. */
  lemma TablesStep(t: seq<string>, n: string)
    ensures Indices(t + [n]) == Indices(t)[n := |t|]
    ensures Positions(t + [n]) == Positions(t)[|t| := n]
  {
    assert (t + [n])[..|t|] == t;
  }

  /** An entry written after a union is an entry of its right operand. */
  lemma UnionUpdate(base: map<int, string>, m: map<int, string>, k: int, n: string)
    ensures (base + m)[k := n] == base + m[k := n]
  {
  }

  // ---------------------------------------------------------------------
  // Bit vectors (llvm::BitVector: a size and a bit per position)

  /** The positions whose bit is set. */
  function Bits(v: seq<bool>): set<int>
  {
    set i | 0 <= i < |v| && v[i]
  }

  /** `to |= from`: `to` grows to the longer size, and a bit is set when it
      is set in either vector. */
  function Or(from: seq<bool>, to: seq<bool>): (r: seq<bool>)
    ensures |r| == if |from| < |to| then |to| else |from|
    ensures Bits(r) == Bits(from) + Bits(to)
  {
    seq(if |from| < |to| then |to| else |from|,
        i requires 0 <= i => (i < |from| && from[i]) || (i < |to| && to[i]))
  }

  /**
   * The loop of initialise: walking the module in order, each target gets
   * the next index, entered in both directions on top of `base`.
   */
  method BuildTables(fns: seq<DefinedFunction>, base: map<int, string>)
    returns (toIdx: map<string, int>, toFunc: map<int, string>)
    ensures toIdx == Indices(Targets(fns))
    ensures toFunc == base + Positions(Targets(fns))
  {
    toIdx, toFunc := map[], base;
    var nextIdx := 0;
    for i := 0 to |fns|
      invariant nextIdx == |Targets(fns[..i])|
      invariant toIdx == Indices(Targets(fns[..i]))
      invariant toFunc == base + Positions(Targets(fns[..i]))
    {
      TargetsStep(fns, i);
      if !fns[i].isDeclaration && fns[i].hasAddressTaken {
        TablesStep(Targets(fns[..i]), fns[i].name);
        UnionUpdate(base, Positions(Targets(fns[..i])), nextIdx, fns[i].name);
        toIdx := toIdx[fns[i].name := nextIdx];
        toFunc := toFunc[nextIdx := fns[i].name];
        nextIdx := nextIdx + 1;
      }
    }
    assert fns[..|fns|] == fns;
  }

  class FunctionIndex {
    var funcToIdx: map<string, int>
    var idxToFunc: map<int, string>

    /** The two tables are inverse to each other. */
    ghost predicate Valid()
      reads this
    {
      && (forall f :: f in funcToIdx ==>
            0 <= funcToIdx[f] && funcToIdx[f] in idxToFunc && idxToFunc[funcToIdx[f]] == f)
      && (forall i :: i in idxToFunc ==> idxToFunc[i] in funcToIdx && funcToIdx[idxToFunc[i]] == i)
    }

    /** No index below 0: what every operator[] lookup can rely on. */
    ghost predicate NonNegative()
      reads this
    {
      forall f :: f in funcToIdx ==> 0 <= funcToIdx[f]
    }

    constructor ()
      ensures Valid() && NonNegative()
      ensures funcToIdx == map[] && idxToFunc == map[]
    {
      funcToIdx, idxToFunc := map[], map[];
    }

    /**
     * initialise: filled once, while the function table is empty: the
     * address-taken functions defined in the module get the indices 0, 1,
     * ... in module order.
     */
    method Initialise(fns: seq<DefinedFunction>)
      requires UniqueNames(fns)
      modifies this
      ensures old(funcToIdx) != map[] ==> funcToIdx == old(funcToIdx) && idxToFunc == old(idxToFunc)
      ensures old(funcToIdx) == map[] ==>
        && funcToIdx == Indices(Targets(fns))
        && idxToFunc == old(idxToFunc) + Positions(Targets(fns))
    {
      if funcToIdx == map[] {
        funcToIdx, idxToFunc := BuildTables(fns, idxToFunc);
      }
    }

    /**
     * setBitVector: the function's index, read through operator[] (an
     * unknown function is inserted with index 0), is set in the vector,
     * which first grows to index + 1 when it is too short.
     */
    method SetBitVector(v: seq<bool>, f: string) returns (r: seq<bool>)
      requires NonNegative()
      modifies this`funcToIdx
      ensures f in old(funcToIdx) ==> funcToIdx == old(funcToIdx)
      ensures f !in old(funcToIdx) ==> funcToIdx == old(funcToIdx)[f := 0]
      ensures NonNegative()
      ensures |r| == if |v| <= funcToIdx[f] then funcToIdx[f] + 1 else |v|
      ensures Bits(r) == Bits(v) + {funcToIdx[f]}
      ensures forall i :: 0 <= i < |v| && i != funcToIdx[f] ==> r[i] == v[i]
    {
      if f !in funcToIdx {
        funcToIdx := funcToIdx[f := 0];
      }
      var idx := funcToIdx[f];
      r := v;
      if |r| <= idx {
        r := r + seq(idx + 1 - |r|, _ => false);
      }
      r := r[idx := true];
    }

    /**
     * convertFunctionSetToBitVector: the vector whose set bits are exactly
     * the indices of the given functions; it is no longer than it needs to
     * be, so its last bit (if any) is set.
     */
    method ConvertFunctionSetToBitVector(funcs: set<string>) returns (v: seq<bool>)
      requires NonNegative()
      modifies this`funcToIdx
      ensures funcToIdx.Keys == old(funcToIdx).Keys + funcs
      ensures forall f :: f in old(funcToIdx) ==> funcToIdx[f] == old(funcToIdx)[f]
      ensures forall f :: f in funcs && f !in old(funcToIdx) ==> funcToIdx[f] == 0
      ensures NonNegative()
      ensures Bits(v) == set f | f in funcs :: funcToIdx[f]
      ensures |v| > 0 ==> v[|v| - 1]
    {
      v := [];
      var rest := funcs;
      while rest != {}
        invariant rest <= funcs
        invariant NonNegative()
        invariant funcToIdx.Keys == old(funcToIdx).Keys + (funcs - rest)
        invariant forall f :: f in old(funcToIdx) ==> funcToIdx[f] == old(funcToIdx)[f]
        invariant forall f :: f in funcs - rest && f !in old(funcToIdx) ==> funcToIdx[f] == 0
        invariant Bits(v) == set f | f in funcs - rest :: funcToIdx[f]
        invariant |v| > 0 ==> v[|v| - 1]
        decreases rest
      {
        var f :| f in rest;
        v := SetBitVector(v, f);
        rest := rest - {f};
      }
    }

    /** The function at an index: idxToFunc through operator[], which yields
        the null function for an index with none. */
    function FuncAt(i: int): (r: Option<string>)
      reads this
      ensures Valid() && r.Some? ==> r.value in funcToIdx && funcToIdx[r.value] == i
    {
      if i in idxToFunc then Some(idxToFunc[i]) else None
    }

    /**
     * convertBitVectorToFunctionSet: the function at each set bit, visited
     * from the first set bit to the last.
     */
    method ConvertBitVectorToFunctionSet(v: seq<bool>) returns (fs: set<Option<string>>)
      ensures fs == set i | i in Bits(v) :: FuncAt(i)
    {
      fs := {};
      for idx := 0 to |v|
        invariant fs == set i | i in Bits(v[..idx]) :: FuncAt(i)
      {
        assert Bits(v[..idx + 1]) == Bits(v[..idx]) + (if v[idx] then {idx} else {});
        if v[idx] {
          fs := fs + {FuncAt(idx)};
        }
      }
      assert v[..|v|] == v;
    }
  }

  /** The tables `Initialise` fills from empty are inverse to each other,
      and the k-th target gets index k. */
  lemma TablesValid(fns: seq<DefinedFunction>)
    requires UniqueNames(fns)
    ensures forall k :: 0 <= k < |Targets(fns)| ==> Indices(Targets(fns))[Targets(fns)[k]] == k
    ensures forall f :: f in Indices(Targets(fns)) ==>
      && 0 <= Indices(Targets(fns))[f]
      && Indices(Targets(fns))[f] in Positions(Targets(fns))
      && Positions(Targets(fns))[Indices(Targets(fns))[f]] == f
    ensures forall i :: i in Positions(Targets(fns)) ==>
      Positions(Targets(fns))[i] in Indices(Targets(fns)) && Indices(Targets(fns))[Positions(Targets(fns))[i]] == i
  {
    var t := Targets(fns);
    TargetsDistinct(fns);
    IndicesArePositions(t);
    forall f | f in Indices(t)
      ensures 0 <= Indices(t)[f] && Indices(t)[f] in Positions(t) && Positions(t)[Indices(t)[f]] == f
    {
      var k :| 0 <= k < |t| && t[k] == f;
    }
  }

  /**
   * With inverse tables and every function of the set indexed, converting
   * the set to a vector and the vector back gives the set again.
   */
  lemma RoundTrip(ix: FunctionIndex, funcs: set<string>, v: seq<bool>)
    requires ix.Valid()
    requires funcs <= ix.funcToIdx.Keys
    requires Bits(v) == set f | f in funcs :: ix.funcToIdx[f]
    ensures (set i | i in Bits(v) :: ix.FuncAt(i)) == set f | f in funcs :: Some(f)
  {
    var back := set i | i in Bits(v) :: ix.FuncAt(i);
    var wrapped := set f | f in funcs :: Some(f);
    forall i | i in Bits(v)
      ensures ix.FuncAt(i) in wrapped
    {
      var f :| f in funcs && ix.funcToIdx[f] == i;
    }
    forall f | f in funcs
      ensures Some(f) in back
    {
      assert ix.FuncAt(ix.funcToIdx[f]) == Some(f);
    }
  }

  /**
   * performMeet: `to` becomes the union of the two facts, and the result
   * says whether it changed, which is when `from` has a bit `to` lacked.
   */
  method PerformMeet(from: seq<bool>, to: seq<bool>) returns (newTo: seq<bool>, changed: bool)
    ensures Bits(newTo) == Bits(from) + Bits(to)
    ensures |newTo| == if |from| < |to| then |to| else |from|
    ensures changed <==> !(Bits(from) <= Bits(to))
  {
    var oldTo := to;
    newTo := Or(from, to);
    changed := Bits(newTo) != Bits(oldTo);
  }
}
