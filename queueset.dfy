// A FIFO work-list that never holds the same element twice: a set records
// membership and a list records arrival order. The analyses use it as the
// worklist of their fixed-point iterations.
module QueueSet {

  /** `s` holds no element twice. */
  ghost predicate Distinct<T>(s: seq<T>)
  {
    forall i, j :: 0 <= i < j < |s| ==> s[i] != s[j]
  }

  /** The set of elements of `s`. */
  ghost function Elements<T>(s: seq<T>): set<T>
  {
    set x | x in s
  }

  /** The list contents after enqueueing `x` onto a list holding `items`. */
  ghost function Enqueued<T>(items: seq<T>, x: T): (r: seq<T>)
    ensures x in items ==> r == items
    ensures x !in items ==> |r| == |items| + 1 && r[..|items|] == items && r[|items|] == x
  {
    if x in items then items else items + [x]
  }

  /** The list contents after enqueueing every element of `xs` in turn. */
  ghost function EnqueuedAll<T>(items: seq<T>, xs: seq<T>): seq<T>
    decreases |xs|
  {
    if xs == [] then items else EnqueuedAll(Enqueued(items, xs[0]), xs[1..])
  }

  /** A distinct list has as many elements as its set of elements. */
  lemma {:induction false} DistinctCard<T>(s: seq<T>)
    requires Distinct(s)
    ensures |Elements(s)| == |s|
    decreases |s|
  {
    if s != [] {
      var t := s[..|s| - 1];
      assert Distinct(t);
      DistinctCard(t);
      assert s == t + [s[|s| - 1]];
      assert s[|s| - 1] !in t;
      assert Elements(s) == Elements(t) + {s[|s| - 1]};
    }
  }

  /** Enqueueing keeps the list free of duplicates. */
  lemma EnqueuedDistinct<T>(items: seq<T>, x: T)
    requires Distinct(items)
    ensures Distinct(Enqueued(items, x))
    ensures Elements(Enqueued(items, x)) == Elements(items) + {x}
  {
  }

  /**
   * Enqueueing a run of fresh, pairwise distinct elements appends them in
   * order: the queue is first-in, first-out.
   */
  lemma {:induction false} EnqueueFreshInOrder<T>(items: seq<T>, xs: seq<T>)
    requires Distinct(xs)
    requires forall x :: x in xs ==> x !in items
    ensures EnqueuedAll(items, xs) == items + xs
    decreases |xs|
  {
    if xs != [] {
      assert Enqueued(items, xs[0]) == items + [xs[0]];
      forall x | x in xs[1..]
        ensures x !in items + [xs[0]]
      {
        var k :| 1 <= k < |xs| && xs[k] == x;
      }
      assert Distinct(xs[1..]);
      EnqueueFreshInOrder(items + [xs[0]], xs[1..]);
      assert items + [xs[0]] + xs[1..] == items + xs;
    }
  }

  /** Enqueueing an element already waiting leaves the queue as it is. */
  lemma {:induction false} EnqueueWaitingIsIgnored<T>(items: seq<T>, xs: seq<T>)
    requires forall x :: x in xs ==> x in items
    ensures EnqueuedAll(items, xs) == items
    decreases |xs|
  {
    if xs != [] {
      assert xs[0] in xs;
      EnqueueWaitingIsIgnored(items, xs[1..]);
    }
  }

  class QueueSet<T(==)> {
    var members: set<T>   // the std::set
    var items: seq<T>     // the std::list, front first

    /** The set holds exactly the elements of the list, which has no duplicates. */
    ghost predicate Valid()
      reads this
    {
      members == Elements(items) && Distinct(items)
    }

    constructor ()
      ensures Valid()
      ensures items == [] && members == {}
    {
      members := {};
      items := [];
    }

    /**
     * Adds `x` at the back unless it is already queued; reports whether it
     * was added.
     */
    method Enqueue(x: T) returns (added: bool)
      requires Valid()
      modifies this
      ensures Valid()
      ensures added <==> x !in old(items)
      ensures items == Enqueued(old(items), x)
      ensures members == old(members) + {x}
    {
      EnqueuedDistinct(items, x);
      if x !in members {
        members := members + {x};
        items := items + [x];
        added := true;
      } else {
        added := false;
      }
    }

    /** Removes and returns the front element. */
    method Dequeue() returns (x: T)
      requires Valid() && items != []
      modifies this
      ensures Valid()
      ensures x == old(items)[0] && items == old(items)[1..]
      ensures members == old(members) - {x}
      ensures x !in items
      ensures Enqueued(items, x) == items + [x]  // it can be queued again, at the back
    {
      x := items[0];
      items := items[1..];
      members := members - {x};
      forall y | y in members
        ensures y in items
      {
        var k :| 0 <= k < |old(items)| && old(items)[k] == y;
        assert k != 0;
        assert items[k - 1] == y;
      }
    }

    /** Whether nothing is queued. */
    method Empty() returns (b: bool)
      requires Valid()
      ensures b <==> items == []
      ensures b <==> members == {}
    {
      b := items == [];
      if !b {
        assert items[0] in members;
      }
    }

    /** The number of queued elements, which is also the size of the set. */
    method Size() returns (n: int)
      requires Valid()
      ensures n == |items| == |members|
    {
      DistinctCard(items);
      n := |items|;
    }

    /** Forgets every queued element. */
    method Clear()
      requires Valid()
      modifies this
      ensures Valid()
      ensures items == [] && members == {}
    {
      items := [];
      members := {};
    }
  }
}
