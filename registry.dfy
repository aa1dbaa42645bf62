// The name registries that give each classification label or sandbox name a
// bit position in a 32-bit mask. ClassifiedUtils and every generation of
// SandboxUtils keep one with the same shape: a name-to-index map, an
// index-to-name map and a counter, all static, so each registry is one
// `NameRegistry` object here.
module Registry {
  import opened Strings

  /** Bit `i` of `mask` is set: `mask & (1 << i)` in the source. */
  predicate Bit(mask: bv32, i: int)
    requires 0 <= i < 32
  {
    (mask >> i) & 1 == 1
  }

  /** The positions below `n` whose bit is set, in ascending order. */
  function SetBitsBelow(mask: bv32, n: int): (r: seq<int>)
    requires 0 <= n <= 32
    ensures forall k :: 0 <= k < |r| ==> 0 <= r[k] < n && Bit(mask, r[k])
    ensures forall k, l :: 0 <= k < l < |r| ==> r[k] < r[l]
  {
    if n == 0 then []
    else if Bit(mask, n - 1) then SetBitsBelow(mask, n - 1) + [n - 1]
    else SetBitsBelow(mask, n - 1)
  }

  /** Every set bit below `n` is listed. */
  lemma {:induction false} SetBitsBelowComplete(mask: bv32, n: int, i: int)
    requires 0 <= i < n <= 32 && Bit(mask, i)
    ensures i in SetBitsBelow(mask, n)
  {
    if i < n - 1 {
      SetBitsBelowComplete(mask, n - 1, i);
    }
  }

  /** `bitIdxToName[i]` read through std::map::operator[]: "" when absent. */
  function NameAt(m: map<int, string>, i: int): string
  {
    if i in m then m[i] else ""
  }

  /** The names of the set bits below `n`, in ascending bit order. */
  function NamesBelow(mask: bv32, m: map<int, string>, n: int): seq<string>
    requires 0 <= n <= 32
  {
    if n == 0 then []
    else if Bit(mask, n - 1) then NamesBelow(mask, m, n - 1) + [NameAt(m, n - 1)]
    else NamesBelow(mask, m, n - 1)
  }

  /** The index-to-name map after operator[] has been applied to every set
      bit below `n`: the missing ones are inserted with the empty name. */
  function FilledBelow(m: map<int, string>, mask: bv32, n: int): map<int, string>
    requires 0 <= n <= 32
  {
    map i | i in m.Keys + (set j | 0 <= j < n && Bit(mask, j)) :: NameAt(m, i)
  }

  /** One more bit of operator[]: a set bit's index is inserted with the
      empty name unless it is there, and then holds its name. */
  lemma FilledStep(m: map<int, string>, mask: bv32, i: int)
    requires 0 <= i < 32
    ensures var before := FilledBelow(m, mask, i);
      && (Bit(mask, i) ==>
            (FilledBelow(m, mask, i + 1) == (if i in before then before else before[i := ""])))
      && (!Bit(mask, i) ==> FilledBelow(m, mask, i + 1) == before)
      && (Bit(mask, i) ==> FilledBelow(m, mask, i + 1)[i] == NameAt(m, i))
  {
  }

  /** Printing one more name after an open bracketed list. */
  lemma ListedSnoc(s: string, listed: seq<string>, name: string, first: bool)
    requires s == "[" + Join(listed, ",") && (first <==> listed == [])
    ensures (if first then s + name else s + "," + name) == "[" + Join(listed + [name], ",")
  {
    JoinSnoc(listed, name, ",");
    if !first {
      assert s + "," + name == "[" + (Join(listed, ",") + "," + name);
    }
  }

  /** The bracketed, comma-separated list the stringify functions print. */
  function Bracketed(names: seq<string>): string
  {
    "[" + Join(names, ",") + "]"
  }

  /**
   * The names listed for a mask are, position by position, the names of its
   * set bits in ascending order: one name per set bit.
   */
  lemma {:induction false} NamesFollowBits(mask: bv32, m: map<int, string>, n: int)
    requires 0 <= n <= 32
    ensures |NamesBelow(mask, m, n)| == |SetBitsBelow(mask, n)|
    ensures forall k :: 0 <= k < |NamesBelow(mask, m, n)| ==>
      NamesBelow(mask, m, n)[k] == NameAt(m, SetBitsBelow(mask, n)[k])
  {
    if n > 0 {
      NamesFollowBits(mask, m, n - 1);
    }
  }

  /** A mask with no bit set lists no name, so it prints as "[]". */
  lemma {:induction false} EmptyMaskNoNames(m: map<int, string>, n: int)
    requires 0 <= n <= 32
    ensures NamesBelow(0, m, n) == []
    ensures Bracketed(NamesBelow(0, m, n)) == "[]"
  {
    if n > 0 {
      assert !Bit(0, n - 1);
      EmptyMaskNoNames(m, n - 1);
    }
  }

  class NameRegistry {
    var nameToIdx: map<string, int>
    var idxToName: map<int, string>
    var next: int

    /** The two maps are inverse to each other and the indices handed out
        are exactly those below the counter. */
    ghost predicate Valid()
      reads this
    {
      && 0 <= next
      && (forall i :: 0 <= i < next ==> i in idxToName)
      && (forall n :: n in nameToIdx ==>
            0 <= nameToIdx[n] < next && nameToIdx[n] in idxToName && idxToName[nameToIdx[n]] == n)
      && (forall i :: i in idxToName ==>
            0 <= i < next && idxToName[i] in nameToIdx && nameToIdx[idxToName[i]] == i)
    }

    constructor ()
      ensures Valid()
      ensures nameToIdx == map[] && idxToName == map[] && next == 0
    {
      nameToIdx := map[];
      idxToName := map[];
      next := 0;
    }

    /**
     * assignBitIdxTo...Name: a new name gets the counter as its index and the
     * counter moves on; a name already known gets -1 and nothing changes.
     */
    method Assign(name: string) returns (idx: int)
      modifies this
      ensures name !in old(nameToIdx) ==>
        && idx == old(next) && next == old(next) + 1
        && nameToIdx == old(nameToIdx)[name := idx]
        && idxToName == old(idxToName)[idx := name]
      ensures name in old(nameToIdx) ==>
        idx == -1 && nameToIdx == old(nameToIdx) && idxToName == old(idxToName) && next == old(next)
      ensures old(Valid()) ==> Valid()
    {
      if name !in nameToIdx {
        nameToIdx := nameToIdx[name := next];
        idxToName := idxToName[next := name];
        next := next + 1;
        idx := next - 1;
      } else {
        idx := -1;
      }
    }

    /**
     * getBitIdxFrom...Name, a std::map::operator[] lookup: a known name gives
     * its index, and in a valid registry that index maps back to the name;
     * an unknown name is inserted with index 0, and 0 is returned.
     */
    method GetIdx(name: string) returns (idx: int)
      modifies this`nameToIdx
      ensures name in old(nameToIdx) ==> idx == old(nameToIdx)[name] && nameToIdx == old(nameToIdx)
      ensures name !in old(nameToIdx) ==> idx == 0 && nameToIdx == old(nameToIdx)[name := 0]
      ensures old(Valid()) && name in old(nameToIdx) ==> Valid() && idxToName[idx] == name
    {
      if name !in nameToIdx {
        nameToIdx := nameToIdx[name := 0];
      }
      idx := nameToIdx[name];
    }

    /**
     * stringify...Names: the names of bits 0..31 that are set in `mask`, in
     * ascending bit order, comma-separated inside brackets. Each lookup goes
     * through operator[], which inserts "" for an index with no name.
     */
    method Stringify(mask: bv32) returns (s: string)
      modifies this`idxToName
      ensures s == Bracketed(NamesBelow(mask, old(idxToName), 32))
      ensures idxToName == FilledBelow(old(idxToName), mask, 32)
      ensures (forall i :: 0 <= i < 32 && Bit(mask, i) ==> i in old(idxToName)) ==> idxToName == old(idxToName)
    {
      ghost var m0 := idxToName;
      s := "[";
      var first := true;
      for i := 0 to 32
        invariant idxToName == FilledBelow(m0, mask, i)
        invariant s == "[" + Join(NamesBelow(mask, m0, i), ",")
        invariant first <==> NamesBelow(mask, m0, i) == []
      {
        FilledStep(m0, mask, i);
        if Bit(mask, i) {
          if i !in idxToName {
            idxToName := idxToName[i := ""];
          }
          var name := idxToName[i];
          assert name == NameAt(m0, i);
          ListedSnoc(s, NamesBelow(mask, m0, i), name, first);
          if !first {
            s := s + ",";
          }
          s := s + name;
          first := false;
        }
      }
      s := s + "]";
    }

    /**
     * ClassifiedUtils::convertNamesToVector: the same names as `Stringify`
     * lists, as a vector, with the same insertions.
     */
    method NamesOf(mask: bv32) returns (names: seq<string>)
      modifies this`idxToName
      ensures names == NamesBelow(mask, old(idxToName), 32)
      ensures idxToName == FilledBelow(old(idxToName), mask, 32)
      ensures (forall i :: 0 <= i < 32 && Bit(mask, i) ==> i in old(idxToName)) ==> idxToName == old(idxToName)
    {
      ghost var m0 := idxToName;
      names := [];
      for i := 0 to 32
        invariant idxToName == FilledBelow(m0, mask, i)
        invariant names == NamesBelow(mask, m0, i)
      {
        FilledStep(m0, mask, i);
        if Bit(mask, i) {
          if i !in idxToName {
            idxToName := idxToName[i := ""];
          }
          names := names + [idxToName[i]];
        }
      }
    }
  }

  /**
   * In a valid registry, when every set bit of `mask` has been handed out,
   * converting the mask to names and the names back to indices returns the
   * set bits in ascending order.
   */
  lemma NamesRoundTrip(r: NameRegistry, mask: bv32)
    requires r.Valid()
    requires forall i :: 0 <= i < 32 && Bit(mask, i) ==> i < r.next
    ensures |NamesBelow(mask, r.idxToName, 32)| == |SetBitsBelow(mask, 32)|
    ensures forall k :: 0 <= k < |NamesBelow(mask, r.idxToName, 32)| ==>
      var name := NamesBelow(mask, r.idxToName, 32)[k];
      name in r.nameToIdx && r.nameToIdx[name] == SetBitsBelow(mask, 32)[k]
  {
    NamesFollowBits(mask, r.idxToName, 32);
    forall k | 0 <= k < |NamesBelow(mask, r.idxToName, 32)|
      ensures NamesBelow(mask, r.idxToName, 32)[k] in r.nameToIdx
      ensures r.nameToIdx[NamesBelow(mask, r.idxToName, 32)[k]] == SetBitsBelow(mask, 32)[k]
    {
      assert SetBitsBelow(mask, 32)[k] in r.idxToName;
    }
  }
}
