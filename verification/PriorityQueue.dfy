/**
 The indexed binary heap under the pipe store: `PriorityQueue` of client/pipe_store.go driven by
 the Push, Fix, Remove, up and down routines of Go's container/heap. Every package in the queue
 carries its own position in `index`, which is what makes removal at an arbitrary position possible.
 */
module IndexedHeap {
  import opened Basics
  import opened Packages

  /** Go's `(j - 1) / 2` truncates toward zero, so the parent of 0 is 0 and the parent of -1 is -1. */
  function Parent(j: int): (i: int)
    requires -1 <= j
    ensures j > 0 ==> 0 <= i < j
    ensures j <= 0 ==> i == j
  {
    if j <= 0 then j else (j - 1) / 2
  }

  predicate Before(p: Package, q: Package)
    reads p`priority, q`priority, p`time, q`time
  {
    KeyLess(p.priority, p.time, q.priority, q.time)
  }

  /** Position k respects its parent. */
  predicate InOrder(s: seq<Package>, k: int)
    requires 0 < k < |s|
    reads s`priority, s`time
  {
    !Before(s[k], s[Parent(k)])
  }

  ghost predicate Heaped(s: seq<Package>, n: nat)
    requires n <= |s|
    reads s`priority, s`time
  {
    forall k :: 0 < k < n ==> InOrder(s, k)
  }

  /** Children of position i, if any, respect i's parent: what survives when i itself is disturbed. */
  ghost predicate Bridged(s: seq<Package>, n: nat, i: int)
    requires n <= |s|
    reads s`priority, s`time
  {
    forall k :: 0 < k < n && Parent(k) == i && 0 < i < n ==> !Before(s[k], s[Parent(i)])
  }

  /** A heap except that the package at i may be out of order with its parent and its children. */
  ghost predicate HeapedExcept(s: seq<Package>, n: nat, i: int)
    requires n <= |s|
    reads s`priority, s`time
  {
    && (forall k :: 0 < k < n && k != i && Parent(k) != i ==> InOrder(s, k))
    && Bridged(s, n, i)
  }

  /** A heap except that the package at i may belong further up. */
  ghost predicate HeapedBelow(s: seq<Package>, n: nat, i: int)
    requires n <= |s|
    reads s`priority, s`time
  {
    && (forall k :: 0 < k < n && k != i ==> InOrder(s, k))
    && Bridged(s, n, i)
  }

  /** A heap except that the package at i may belong further down. */
  ghost predicate HeapedAbove(s: seq<Package>, n: nat, i: int)
    requires n <= |s|
    reads s`priority, s`time
  {
    && (forall k :: 0 < k < n && Parent(k) != i ==> InOrder(s, k))
    && Bridged(s, n, i)
  }

  /** What holds while the package at i sinks: once it has moved, its place below its parent is settled. */
  ghost predicate Sinking(s: seq<Package>, n: nat, i: int, moved: bool)
    requires n <= |s|
    reads s`priority, s`time
  {
    if moved then HeapedAbove(s, n, i) else HeapedExcept(s, n, i)
  }

  /** The children of position i, if any, do not go before it. */
  ghost predicate Respected(s: seq<Package>, n: nat, i: int)
    requires n <= |s| && i < n
    reads s`priority, s`time
  {
    forall k :: 0 < k < n && Parent(k) == i ==> !Before(s[k], s[i])
  }

  function Swapped(s: seq<Package>, i: int, j: int): (t: seq<Package>)
    requires 0 <= i < |s| && 0 <= j < |s|
    ensures |t| == |s| && Elems(t) == Elems(s)
  {
    var t := s[i := s[j]][j := s[i]];
    assert forall p :: p in s ==> p in t by {
      assert t[i] == s[j] && t[j] == s[i];
      assert forall k :: 0 <= k < |s| && k != i && k != j ==> t[k] == s[k];
    }
    t
  }

  lemma HeapIsHeapExcept(s: seq<Package>, i: int)
    requires Heaped(s, |s|)
    ensures HeapedExcept(s, |s|, i)
  {
    forall k | 0 < k < |s| && Parent(k) == i && 0 < i < |s| ensures !Before(s[k], s[Parent(i)]) {
      assert InOrder(s, k) && InOrder(s, i);
    }
  }

  /** When the last package takes the place of the one at i, only that place is open. */
  lemma LastTakesPlace(s: seq<Package>, i: int)
    requires 0 <= i < |s| - 1 && Heaped(s, |s|)
    ensures HeapedExcept(Swapped(s, i, |s| - 1), |s| - 1, i)
  {
    HeapIsHeapExcept(s, i);
    var t := Swapped(s, i, |s| - 1);
    forall k | 0 < k < |s| - 1 && k != i && Parent(k) != i ensures InOrder(t, k) {
      assert InOrder(s, k);
    }
  }

  /** Moving the package at j above its parent repairs j and hands the problem to the parent. */
  lemma SwapUp(s: seq<Package>, n: nat, j: int)
    requires 0 < j < n <= |s|
    requires HeapedBelow(s, n, j) && Before(s[j], s[Parent(j)])
    ensures HeapedBelow(Swapped(s, Parent(j), j), n, Parent(j))
  {
    var i := Parent(j);
    var t := Swapped(s, i, j);
    forall k | 0 < k < n && k != i ensures InOrder(t, k) {
      if Parent(k) == j {
        assert !Before(s[k], s[i]);
      } else if k != j {
        assert InOrder(s, k);
      }
    }
    forall k | 0 < k < n && Parent(k) == i && 0 < i < n ensures !Before(t[k], t[Parent(i)]) {
      assert InOrder(s, i);
      if k != j {
        assert InOrder(s, k);
      }
    }
  }

  /** Moving the smaller child j above i repairs i and hands the problem to j. */
  lemma SwapDown(s: seq<Package>, n: nat, i: int, j: int)
    requires 0 <= i < n <= |s| && 0 < j < n && Parent(j) == i
    requires HeapedExcept(s, n, i)
    requires forall k :: 0 < k < n && Parent(k) == i ==> !Before(s[k], s[j])
    requires Before(s[j], s[i])
    ensures HeapedAbove(Swapped(s, i, j), n, j)
  {
    var t := Swapped(s, i, j);
    forall k | 0 < k < n && Parent(k) != j ensures InOrder(t, k) {
      if k == i {
        assert !Before(s[j], s[Parent(i)]);
      } else if Parent(k) != i {
        assert InOrder(s, k);
      }
    }
    forall k | 0 < k < n && Parent(k) == j ensures !Before(t[k], t[Parent(j)]) {
      assert InOrder(s, k);
    }
  }

  /** Once the children of i respect it, only i's own place below its parent is open. */
  lemma Settled(s: seq<Package>, n: nat, i: int)
    requires n <= |s| && i < n && HeapedExcept(s, n, i) && Respected(s, n, i)
    ensures HeapedBelow(s, n, i)
    ensures HeapedAbove(s, n, i) ==> Heaped(s, n)
  {
    forall k | 0 < k < n && k != i ensures InOrder(s, k) {
      if Parent(k) == i {
        assert !Before(s[k], s[i]);
      }
    }
  }

  lemma FrontIsRespected(s: seq<Package>, i: nat)
    requires i < |s| && forall x :: x in Elems(s) ==> !Before(x, s[i])
    ensures Respected(s, |s|, i)
  {
    forall k | 0 < k < |s| && Parent(k) == i ensures !Before(s[k], s[i]) {
      assert s[k] in Elems(s);
    }
  }

  /** No package of a heap goes before the first one. */
  lemma {:induction false} FirstIsLeast(s: seq<Package>, k: nat)
    requires k < |s| && Heaped(s, |s|)
    ensures !Before(s[k], s[0])
  {
    if k > 0 {
      assert InOrder(s, k);
      FirstIsLeast(s, Parent(k));
    }
  }

  class PriorityQueue {
    var items: seq<Package>

    ghost function Members(): set<Package>
      reads this
    {
      Elems(items)
    }

    /** Every package knows its position; in particular the positions hold distinct packages. */
    ghost predicate Indexed()
      reads this, Members()`index
    {
      forall i :: 0 <= i < |items| ==> items[i].index == i
    }

    ghost predicate Valid()
      reads this, Members()
    {
      Indexed() && Heaped(items, |items|)
    }

    /** As many members as positions. */
    lemma {:induction false} CountMembers()
      requires Indexed()
      ensures |Members()| == |items|
    {
      CountDistinct(items);
    }

    constructor ()
      ensures Valid() && items == []
    {
      items := [];
    }

    method Swap(i: int, j: int)
      requires Indexed()
      requires 0 <= i < |items| && 0 <= j < |items|
      modifies this, Members()`index
      ensures Indexed() && Members() == old(Members())
      ensures items == Swapped(old(items), i, j)
    {
      items := Swapped(items, i, j);
      items[i].index := i;
      items[j].index := j;
    }

    /** One step of `up`. */
    method SwapWithParent(j: int, ghost n: nat)
      requires Indexed()
      requires 0 < j < n <= |items|
      requires HeapedBelow(items, n, j) && Before(items[j], items[Parent(j)])
      modifies this, Members()`index
      ensures Indexed() && Members() == old(Members())
      ensures |items| == old(|items|) && items[n..] == old(items[n..])
      ensures HeapedBelow(items, n, Parent(j))
    {
      SwapUp(items, n, j);
      Swap(Parent(j), j);
    }

    /** One step of `down`, to the child j that goes first. */
    method SwapWithChild(i: int, j: int, ghost n: nat)
      requires Indexed()
      requires 0 <= i < j < n <= |items| && Parent(j) == i
      requires HeapedExcept(items, n, i) && Before(items[j], items[i])
      requires forall k :: 0 < k < n && Parent(k) == i ==> !Before(items[k], items[j])
      modifies this, Members()`index
      ensures Indexed() && Members() == old(Members())
      ensures |items| == old(|items|) && items[n..] == old(items[n..])
      ensures HeapedAbove(items, n, j)
    {
      SwapDown(items, n, i, j);
      Swap(i, j);
    }

    /** container/heap `up`: carries the package at j0 toward the root. */
    method Up(j0: int, ghost n: nat)
      requires Indexed()
      requires -1 <= j0 < n <= |items|
      requires HeapedBelow(items, n, j0)
      modifies this, Members()`index
      ensures Indexed() && Members() == old(Members())
      ensures |items| == old(|items|) && items[n..] == old(items[n..])
      ensures Heaped(items, n)
      ensures j0 <= 0 ==> items == old(items)
    {
      var j := j0;
      while true
        invariant -1 <= j <= j0
        invariant |items| == old(|items|) && items[n..] == old(items[n..])
        invariant Indexed() && Members() == old(Members())
        invariant HeapedBelow(items, n, j)
        invariant (j == j0 ==> items == old(items)) && (j0 <= 0 ==> j == j0)
        decreases j
      {
        var i := Parent(j);
        if i == j || !Before(items[j], items[i]) {
          break;
        }
        SwapWithParent(j, n);
        j := i;
      }
    }

    /** The child of i that goes first, if i has a child among the first n positions. */
    method FirstChild(i: int, n: nat) returns (j: int)
      requires -1 <= i < n <= |items|
      ensures i == -1 ==> j == -1
      ensures j == -1 ==> forall k :: 0 < k < n ==> Parent(k) != i
      ensures j != -1 ==> i < j < n && 0 < j && Parent(j) == i
      ensures j != -1 ==> forall k :: 0 < k < n && Parent(k) == i ==> !Before(items[k], items[j])
    {
      var j1 := 2 * i + 1;
      if j1 >= n || j1 < 0 {
        return -1;
      }
      j := j1;
      var j2 := j1 + 1;
      if j2 < n && Before(items[j2], items[j1]) {
        j := j2;
      }
      assert forall k :: 0 < k < n && Parent(k) == i ==> k == j1 || k == j2;
    }

    /** One iteration of `down`: stays where the children respect i, otherwise moves to the first child. */
    method Descend(i: int, n: nat, ghost moved: bool) returns (j: int)
      requires Indexed()
      requires -1 <= i < n <= |items|
      requires Sinking(items, n, i, moved)
      modifies this, Members()`index
      ensures Indexed() && Members() == old(Members())
      ensures |items| == old(|items|) && items[n..] == old(items[n..])
      ensures i <= j < n && Sinking(items, n, j, moved || j > i)
      ensures j == i <==> old(Respected(items, n, i))
      ensures j == i ==> items == old(items)
    {
      j := FirstChild(i, n);
      if j == -1 || !Before(items[j], items[i]) {
        return i;
      }
      SwapWithChild(i, j, n);
    }

    /** The loop of `down`: stops at a position whose children respect it. */
    method Sink(i0: int, n: nat) returns (i: int)
      requires Indexed()
      requires -1 <= i0 < n <= |items|
      requires HeapedExcept(items, n, i0)
      modifies this, Members()`index
      ensures Indexed() && Members() == old(Members())
      ensures |items| == old(|items|) && items[n..] == old(items[n..])
      ensures i0 <= i < n && Sinking(items, n, i, i > i0) && Respected(items, n, i)
      ensures i == i0 ==> items == old(items)
      ensures old(Respected(items, n, i0)) ==> i == i0
    {
      i := i0;
      ghost var calm := Respected(items, n, i0);
      while true
        invariant i0 <= i < n
        invariant |items| == old(|items|) && items[n..] == old(items[n..])
        invariant Indexed() && Members() == old(Members())
        invariant Sinking(items, n, i, i > i0)
        invariant i > i0 ==> !calm
        invariant i == i0 ==> items == old(items)
        decreases n - i
      {
        var j := Descend(i, n, i > i0);
        if j == i {
          break;
        }
        i := j;
      }
    }

    /** container/heap `down`: carries the package at i0 toward the leaves, within the first n positions. */
    method Down(i0: int, n: nat) returns (moved: bool)
      requires Indexed()
      requires -1 <= i0 < n <= |items|
      requires HeapedExcept(items, n, i0)
      modifies this, Members()`index
      ensures Indexed() && Members() == old(Members())
      ensures |items| == old(|items|) && items[n..] == old(items[n..])
      ensures moved ==> Heaped(items, n) && !old(Respected(items, n, i0))
      ensures !moved ==> HeapedBelow(items, n, i0) && items == old(items)
    {
      var i := Sink(i0, n);
      Settled(items, n, i);
      return i > i0;
    }

    /** The package no other goes before. */
    method First() returns (p: Package)
      requires Valid() && items != []
      ensures p in Members() && p == items[0]
      ensures forall x :: x in Members() ==> !Before(x, p)
    {
      p := items[0];
      forall x | x in Members() ensures !Before(x, p) {
        var k :| 0 <= k < |items| && items[k] == x;
        FirstIsLeast(items, k);
      }
    }

    /** container/heap `Push`. */
    method Push(p: Package)
      requires Valid() && p !in items
      modifies this, Members()`index, p`index
      ensures Valid()
      ensures Members() == old(Members()) + {p}
    {
      p.index := |items|;
      ghost var s := items;
      items := items + [p];
      assert forall k :: 0 < k < |s| ==> InOrder(s, k) ==> InOrder(items, k);
      Up(|items| - 1, |items|);
    }

    /** container/heap `Fix`, after the key of the package at i changed; position -1 is a no-op. */
    method Fix(i: int)
      requires Indexed()
      requires -1 <= i < |items|
      requires HeapedExcept(items, |items|, i)
      modifies this, Members()`index
      ensures Valid()
      ensures Members() == old(Members())
      ensures i <= 0 && old(Respected(items, |items|, i)) ==> items == old(items)
    {
      var moved := Down(i, |items|);
      if !moved {
        Up(i, |items|);
      }
    }

    /** `heap.Push` followed by `heap.Fix` at the position the package landed on. */
    method Insert(p: Package)
      requires Valid() && p !in items
      modifies this, Members()`index, p`index
      ensures Valid()
      ensures Members() == old(Members()) + {p}
    {
      Push(p);
      HeapIsHeapExcept(items, p.index);
      Fix(p.index);
    }

    /** `Priority++` followed by `heap.Fix` at the stored position, whether or not p is queued. */
    method Demote(p: Package)
      requires Valid()
      requires p in Members() || p.index == -1
      modifies this, Members()`index, p`priority
      ensures Valid() && Members() == old(Members())
      ensures p.priority == old(p.priority) + 1
      ensures p !in Members() ==> p.index == -1
      ensures old(p.index) == 0 && (forall x :: x in Members() ==> !Before(x, p)) ==> items == old(items)
    {
      HeapIsHeapExcept(items, p.index);
      p.priority := p.priority + 1;
      assert HeapedExcept(items, |items|, p.index) by {
        assert forall k :: 0 < k < |items| ==> old(InOrder(items, k));
      }
      if p in Members() && (forall x :: x in Members() ==> !Before(x, p)) {
        FrontIsRespected(items, p.index);
      }
      Fix(p.index);
    }

    /** Moves the package at i to the last position; the package from there may sift either way. */
    method MoveToEnd(i: int)
      requires Valid()
      requires 0 <= i < |items| - 1
      modifies this, Members()`index
      ensures Indexed() && Members() == old(Members())
      ensures |items| == old(|items|) && items[|items| - 1] == old(items[i])
      ensures Heaped(items, |items| - 1)
    {
      var n := |items| - 1;
      LastTakesPlace(items, i);
      Swap(i, n);
      var moved := Down(i, n);
      if !moved {
        Up(i, n);
      }
      assert items[n] == items[n..][0];
    }

    /** container/heap `Remove` at any position. */
    method Remove(i: int)
      requires Valid()
      requires 0 <= i < |items|
      modifies this, Members()`index
      ensures Valid()
      ensures old(items[i]).index == -1
      ensures Members() == old(Members()) - {old(items[i])}
    {
      if |items| - 1 != i {
        MoveToEnd(i);
      }
      DropLast();
    }

    /** `PriorityQueue.Pop`: detaches the last position. */
    method DropLast()
      requires Indexed() && items != [] && Heaped(items, |items| - 1)
      modifies this, Members()`index
      ensures Valid()
      ensures old(items[|items| - 1]).index == -1
      ensures Members() == old(Members()) - {old(items[|items| - 1])}
    {
      var n := |items| - 1;
      items[n].index := -1;
      ghost var s := items;
      items := items[..n];
      assert forall k :: 0 < k < n ==> InOrder(s, k) ==> InOrder(items, k);
    }
  }
}
