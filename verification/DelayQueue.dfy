/** The priority queue of buckets: a binary heap in a slice, smallest priority first. */
module DelayQueue {
  import opened Common

  datatype Item = Item(bucket: nat, priority: int)

  function Parent(k: nat): nat
    requires k > 0
  {
    (k - 1) / 2
  }

  /** Every element among the first `n` is at least its parent. */
  ghost predicate IsHeap(q: seq<Item>, n: nat)
    requires n <= |q|
  {
    forall k :: 1 <= k < n ==> q[Parent(k)].priority <= q[k].priority
  }

  /** Heap order except between `j` and its parent; the children of `j` respect its parent. */
  ghost predicate HeapButUp(q: seq<Item>, n: nat, j: nat)
    requires n <= |q|
  {
    && (forall k :: 1 <= k < n && k != j ==> q[Parent(k)].priority <= q[k].priority)
    && (forall k :: 1 <= k < n && j > 0 && Parent(k) == j ==> q[Parent(j)].priority <= q[k].priority)
  }

  /** Heap order except between `i` and its children; they respect the parent of `i`. */
  ghost predicate HeapButDown(q: seq<Item>, n: nat, i: nat)
    requires n <= |q|
  {
    && (forall k :: 1 <= k < n && Parent(k) != i ==> q[Parent(k)].priority <= q[k].priority)
    && (forall k :: 1 <= k < n && i > 0 && i < n && Parent(k) == i ==> q[Parent(i)].priority <= q[k].priority)
  }

  lemma {:induction false} RootIsLeast(q: seq<Item>, n: nat, k: nat)
    requires n <= |q| && IsHeap(q, n) && k < n
    ensures q[0].priority <= q[k].priority
    decreases k
  {
    if k > 0 {
      RootIsLeast(q, n, Parent(k));
    }
  }

  function Swapped(q: seq<Item>, i: nat, j: nat): (r: seq<Item>)
    requires i < |q| && j < |q|
    ensures |r| == |q| && multiset(r) == multiset(q)
  {
    SwapKeepsItems(q, i, j);
    q[i := q[j]][j := q[i]]
  }

  lemma SwapKeepsItems(q: seq<Item>, i: nat, j: nat)
    requires i < |q| && j < |q|
    ensures multiset(q[i := q[j]][j := q[i]]) == multiset(q)
  {
  }

  class PriorityQueue {
    var pq: seq<Item>

    ghost predicate Valid()
      reads this
    {
      IsHeap(pq, |pq|)
    }

    constructor ()
      ensures Valid() && pq == []
    {
      pq := [];
    }

    /** Moves element `j0` towards the root until its parent is no larger. */
    method Up(j0: nat)
      requires j0 < |pq| && HeapButUp(pq, |pq|, j0)
      modifies this
      ensures Valid() && multiset(pq) == old(multiset(pq)) && |pq| == old(|pq|)
    {
      hide Swapped;
      var j: nat := j0;
      while j > 0 && pq[j].priority < pq[Parent(j)].priority
        invariant j < |pq| == old(|pq|)
        invariant HeapButUp(pq, |pq|, j)
        invariant multiset(pq) == old(multiset(pq))
        decreases j
      {
        UpStep(pq, j);
        pq := Swapped(pq, j, Parent(j));
        j := Parent(j);
      }
    }

    /** Moves element `i0` away from the root, within the first `n`, until no child is smaller. */
    method Down(i0: nat, n: nat) returns (moved: bool)
      requires i0 < n <= |pq| && HeapButDown(pq, n, i0)
      modifies this
      ensures |pq| == old(|pq|) && IsHeap(pq, n) && multiset(pq) == old(multiset(pq))
      ensures pq[n..] == old(pq[n..])
    {
      hide Swapped, IsHeap, HeapButDown;
      var i: nat := i0;
      while 2 * i + 1 < n
        invariant i < n <= |pq| == old(|pq|)
        invariant HeapButDown(pq, n, i)
        invariant multiset(pq) == old(multiset(pq))
        invariant pq[n..] == old(pq[n..])
        decreases n - i
      {
        var j1 := 2 * i + 1;
        var j := j1;
        var j2 := j1 + 1;
        if j2 < n && pq[j2].priority < pq[j1].priority {
          j := j2;
        }
        LeastChild(pq, n, i, j);
        if !(pq[j].priority < pq[i].priority) {
          NoSmallerChild(pq, n, i, j);
          return i > i0;
        }
        DownStep(pq, n, i, j);
        pq := Swapped(pq, i, j);
        i := j;
      }
      NoChild(pq, n, i);
      moved := i > i0;
    }

    method Push(x: Item)
      requires Valid()
      modifies this
      ensures Valid() && multiset(pq) == old(multiset(pq)) + multiset{x}
    {
      pq := pq + [x];
      Up(|pq| - 1);
    }

    /** Takes the first element out; it is one of least priority. */
    method RemoveFirst() returns (x: Item)
      requires Valid() && |pq| > 0
      modifies this
      ensures Valid() && x == old(pq[0]) && |pq| + 1 == old(|pq|)
      ensures old(multiset(pq)) == multiset(pq) + multiset{x}
    {
      hide Swapped;
      var n := |pq| - 1;
      if n != 0 {
        SwappedEnds(pq);
        pq := Swapped(pq, 0, n);
        var moved := Down(0, n);
      }
      x := pq[n];
      assert pq == pq[..n] + [x];
      pq := pq[..n];
    }

    /** The first item if its priority has been reached, taken out of the queue. */
    method PeekAndShift(max: int) returns (r: Option<Item>)
      requires Valid()
      modifies this
      ensures Valid()
      ensures r.None? ==> pq == old(pq) && forall x :: x in multiset(pq) ==> x.priority > max
      ensures r.Some? ==>
                && r.value.priority <= max
                && |pq| + 1 == old(|pq|) && old(multiset(pq)) == multiset(pq) + multiset{r.value}
                && forall x :: x in multiset(pq) ==> r.value.priority <= x.priority
    {
      forall x | x in multiset(pq)
        ensures pq != [] && pq[0].priority <= x.priority
      {
        var k :| 0 <= k < |pq| && pq[k] == x;
        RootIsLeast(pq, |pq|, k);
      }
      if |pq| == 0 {
        return None;
      }
      if pq[0].priority > max {
        return None;
      }
      var x := RemoveFirst();
      return Some(x);
    }
  }

  lemma UpStep(q: seq<Item>, j: nat)
    requires 0 < j < |q| && HeapButUp(q, |q|, j) && q[j].priority < q[Parent(j)].priority
    ensures HeapButUp(Swapped(q, j, Parent(j)), |q|, Parent(j))
  {
  }

  lemma LeastChild(q: seq<Item>, n: nat, i: nat, j: nat)
    requires 2 * i + 1 < n <= |q|
    requires j == if 2 * i + 2 < n && q[2 * i + 2].priority < q[2 * i + 1].priority then 2 * i + 2 else 2 * i + 1
    ensures Parent(j) == i
    ensures forall k :: 1 <= k < n && Parent(k) == i ==> q[j].priority <= q[k].priority
  {
  }

  lemma DownStep(q: seq<Item>, n: nat, i: nat, j: nat)
    requires i < j < n <= |q| && HeapButDown(q, n, i) && Parent(j) == i
    requires forall k :: 1 <= k < n && Parent(k) == i ==> q[j].priority <= q[k].priority
    requires q[j].priority < q[i].priority
    ensures HeapButDown(Swapped(q, i, j), n, j)
    ensures Swapped(q, i, j)[n..] == q[n..]
  {
  }

  lemma NoSmallerChild(q: seq<Item>, n: nat, i: nat, j: nat)
    requires i < j < n <= |q| && HeapButDown(q, n, i)
    requires forall k :: 1 <= k < n && Parent(k) == i ==> q[j].priority <= q[k].priority
    requires q[i].priority <= q[j].priority
    ensures IsHeap(q, n)
  {
  }

  lemma NoChild(q: seq<Item>, n: nat, i: nat)
    requires n <= |q| && HeapButDown(q, n, i) && 2 * i + 1 >= n
    ensures IsHeap(q, n)
  {
  }

  lemma SwappedEnds(q: seq<Item>)
    requires |q| > 1 && IsHeap(q, |q|)
    ensures HeapButDown(Swapped(q, 0, |q| - 1), |q| - 1, 0)
    ensures Swapped(q, 0, |q| - 1)[|q| - 1] == q[0]
  {
  }
}
