/** Binary heaps as sequences of keys: what one swap of a sift keeps. */
module HeapOrder {
  import opened PollKeys

  function Parent(i: nat): nat
    requires 0 < i
  {
    (i - 1) / 2
  }

  ghost predicate Ordered(h: seq<Key>) {
    forall i :: 0 < i < |h| ==> AtMost(h[Parent(i)], h[i])
  }

  /** While sifting up: only hole may be smaller than its parent, and the children
      of hole are in order with the parent of hole. */
  ghost predicate SiftingUp(h: seq<Key>, hole: nat) {
    && (forall i :: 0 < i < |h| && i != hole ==> AtMost(h[Parent(i)], h[i]))
    && GrandparentInOrder(h, hole)
  }

  /** While sifting down: only the children of hole may be smaller than it. */
  ghost predicate SiftingDown(h: seq<Key>, hole: nat) {
    && (forall i :: 0 < i < |h| && Parent(i) != hole ==> AtMost(h[Parent(i)], h[i]))
    && GrandparentInOrder(h, hole)
  }

  ghost predicate GrandparentInOrder(h: seq<Key>, hole: nat) {
    0 < hole < |h| ==> forall i :: 0 < i < |h| && Parent(i) == hole ==> AtMost(h[Parent(hole)], h[i])
  }

  function Swap<T>(h: seq<T>, i: nat, j: nat): seq<T>
    requires i < |h| && j < |h|
  {
    h[i := h[j]][j := h[i]]
  }

  lemma SiftUpStep(h: seq<Key>, i: nat)
    requires 0 < i < |h| && SiftingUp(h, i) && Less(h[i], h[Parent(i)])
    ensures SiftingUp(Swap(h, i, Parent(i)), Parent(i))
  {
    var p := Parent(i);
    var g := Swap(h, i, p);
    LessTotal(h[i], h[p]);
    forall j | 0 < j < |g| && j != p
      ensures AtMost(g[Parent(j)], g[j])
    {
      if Parent(j) == p && j != i { AtMostTransitive(h[i], h[p], h[j]); }
    }
    if 0 < p {
      forall j | 0 < j < |g| && Parent(j) == p
        ensures AtMost(g[Parent(p)], g[j])
      {
        if j != i { AtMostTransitive(h[Parent(p)], h[p], h[j]); }
      }
    }
  }

  /** m is the smaller child of i, as the loop of down picks it. */
  ghost predicate SmallerChild(h: seq<Key>, i: nat, m: nat) {
    && 0 < m < |h| && Parent(m) == i
    && forall j :: 0 < j < |h| && Parent(j) == i ==> AtMost(h[m], h[j])
  }

  lemma SiftDownStep(h: seq<Key>, i: nat, m: nat)
    requires i < |h| && SiftingDown(h, i) && SmallerChild(h, i, m) && Less(h[m], h[i])
    ensures SiftingDown(Swap(h, i, m), m)
  {
    var g := Swap(h, i, m);
    LessTotal(h[m], h[i]);
    forall j | 0 < j < |g| && Parent(j) != m
      ensures AtMost(g[Parent(j)], g[j])
    {
    }
    forall j | 0 < j < |g| && Parent(j) == m
      ensures AtMost(g[Parent(m)], g[j])
    {
      assert AtMost(h[Parent(j)], h[j]);
    }
  }

  lemma PickSmallerChild(h: seq<Key>, i: nat, m: nat)
    requires 2 * i + 1 < |h|
    requires m == if 2 * i + 2 < |h| && Less(h[2 * i + 2], h[2 * i + 1]) then 2 * i + 2 else 2 * i + 1
    ensures SmallerChild(h, i, m)
  {
    LessTotal(h[m], h[m]);
    if 2 * i + 2 < |h| { LessTotal(h[2 * i + 1], h[2 * i + 2]); }
    assert forall j :: 0 < j && Parent(j) == i ==> j == 2 * i + 1 || j == 2 * i + 2;
  }

  lemma SiftDownDone(h: seq<Key>, i: nat, m: nat)
    requires i < |h| && SiftingDown(h, i) && SmallerChild(h, i, m) && !Less(h[m], h[i])
    ensures Ordered(h)
  {
    forall j | 0 < j < |h| && Parent(j) == i
      ensures AtMost(h[i], h[j])
    {
      AtMostTransitive(h[i], h[m], h[j]);
    }
  }

  /** The root of a heap is a least element. */
  lemma {:induction false} RootIsLeast(h: seq<Key>, i: nat)
    requires Ordered(h) && i < |h|
    ensures AtMost(h[0], h[i])
  {
    LessTotal(h[0], h[0]);
    if 0 < i {
      RootIsLeast(h, Parent(i));
      AtMostTransitive(h[0], h[Parent(i)], h[i]);
    }
  }
}
