/** The poll queue of internal/core/pollsched.go: a slice of pointers to mutable
    entries, kept as a binary heap by sifting in place. */
module PollHeap {
  import opened PollKeys
  import opened HeapOrder
  import opened DeviceJobs

  class PollEntry {
    const deviceID: DeviceID
    const job: DeviceJob
    const interval: int
    var next: int
    var stale: bool

    constructor (deviceID: DeviceID, job: DeviceJob, interval: int, next: int)
      ensures this.deviceID == deviceID && this.job == job && this.interval == interval
      ensures this.next == next && !stale
    {
      this.deviceID, this.job, this.interval := deviceID, job, interval;
      this.next, this.stale := next, false;
    }

    function Tick(): Key
      reads this`next
    {
      Key(next, deviceID)
    }
  }

  /** The fixed-rate step of the loop body: one interval on, or a whole interval
      from now when that is already past. */
  function Advance(next: int, interval: int, now: int): int {
    if next + interval < now then now + interval else next + interval
  }

  predicate EntryLess(a: PollEntry, b: PollEntry)
    reads a`next, b`next
  {
    Less(a.Tick(), b.Tick())
  }

  ghost function Ticks(h: seq<PollEntry>): (keys: seq<Key>)
    reads h
    ensures |keys| == |h| && forall i :: 0 <= i < |h| ==> keys[i] == h[i].Tick()
  {
    seq(|h|, i requires 0 <= i < |h| reads h => h[i].Tick())
  }

  lemma TicksSwap(h: seq<PollEntry>, i: nat, j: nat)
    requires i < |h| && j < |h|
    ensures Ticks(Swap(h, i, j)) == Swap(Ticks(h), i, j)
    ensures multiset(Swap(h, i, j)) == multiset(h)
  {
  }

  /** up: restores heap order above position i0, the entries staying where the slice holds them. */
  method Up(h0: seq<PollEntry>, i0: nat) returns (h: seq<PollEntry>)
    requires i0 < |h0| && SiftingUp(Ticks(h0), i0)
    ensures Ordered(Ticks(h)) && multiset(h) == multiset(h0)
  {
    h := h0;
    var i: nat := i0;
    while i > 0
      invariant i < |h| && SiftingUp(Ticks(h), i)
      invariant multiset(h) == multiset(h0)
    {
      var p := Parent(i);
      if !EntryLess(h[i], h[p]) {
        break;
      }
      SiftUpStep(Ticks(h), i);
      TicksSwap(h, i, p);
      h := h[i := h[p]][p := h[i]];
      i := p;
    }
  }

  /** down: restores heap order below position i0. */
  method Down(h0: seq<PollEntry>, i0: nat) returns (h: seq<PollEntry>)
    requires SiftingDown(Ticks(h0), i0)
    ensures Ordered(Ticks(h)) && multiset(h) == multiset(h0)
  {
    h := h0;
    var i: nat := i0;
    var n := |h|;
    while true
      invariant |h| == n && SiftingDown(Ticks(h), i)
      invariant multiset(h) == multiset(h0)
      decreases n - i
    {
      var l := 2 * i + 1;
      if l >= n {
        break;
      }
      var r := l + 1;
      var m := l;
      if r < n && EntryLess(h[r], h[l]) {
        m := r;
      }
      PickSmallerChild(Ticks(h), i, m);
      if !EntryLess(h[m], h[i]) {
        SiftDownDone(Ticks(h), i, m);
        break;
      }
      SiftDownStep(Ticks(h), i, m);
      TicksSwap(h, i, m);
      h := h[i := h[m]][m := h[i]];
      i := m;
    }
  }

  lemma TicksPop(h: seq<PollEntry>)
    requires h != [] && Ordered(Ticks(h))
    ensures var g := h[0 := h[|h| - 1]][..|h| - 1];
      SiftingDown(Ticks(g), 0) && multiset(g) == multiset(h) - multiset{h[0]}
  {
    var n := |h|;
    var g := h[0 := h[n - 1]][..n - 1];
    if n == 1 {
      assert h == [h[0]];
    } else {
      assert h == [h[0]] + h[1..n - 1] + [h[n - 1]];
      assert g == [h[n - 1]] + h[1..n - 1];
    }
  }

  lemma SameMembers<T>(h: seq<T>, m: set<T>)
    requires multiset(h) == multiset(m)
    ensures forall i :: 0 <= i < |h| ==> h[i] in m
    ensures forall x :: x in m ==> x in h
  {
    forall i | 0 <= i < |h| ensures h[i] in m {
      assert h[i] in multiset(h);
    }
    forall x | x in m ensures x in h {
      assert x in multiset(h);
    }
  }

  ghost predicate Ascending(ticks: seq<Key>) {
    forall i, j :: 0 <= i < j < |ticks| ==> AtMost(ticks[i], ticks[j])
  }

  ghost predicate NoneAfter(ticks: seq<Key>, k: Key) {
    forall i :: 0 <= i < |ticks| ==> AtMost(ticks[i], k)
  }

  lemma AscendingMore(ticks: seq<Key>, k: Key)
    requires Ascending(ticks) && NoneAfter(ticks, k)
    ensures Ascending(ticks + [k])
    ensures forall o :: NoneAfter(ticks, o) && AtMost(k, o) ==> NoneAfter(ticks + [k], o)
  {
  }

  lemma TakenOne<T>(taken: seq<T>, before: set<T>, x: T)
    requires x in before
    ensures multiset(taken + [x]) + multiset(before - {x}) == multiset(taken) + multiset(before)
  {
    assert multiset(before) == multiset(before - {x}) + multiset{x};
  }

  class Heap {
    var items: seq<PollEntry>
    ghost var members: set<PollEntry>  // the entries in items
    ghost var keys: seq<Key>           // their ticks, in slice order

    constructor ()
      ensures Valid() && members == {}
    {
      items, members, keys := [], {}, [];
    }

    /** The order reads only next: marking an entry stale cannot break it. */
    ghost predicate Valid()
      reads this, members
    {
      && multiset(items) == multiset(members)
      && |keys| == |items|
      && (forall i :: 0 <= i < |items| ==> items[i] in members && items[i].Tick() == keys[i])
      && Ordered(keys)
    }

    lemma RootIsLeastTick()
      requires Valid() && items != []
      ensures items[0] in members
      ensures forall o :: o in members ==> AtMost(items[0].Tick(), o.Tick())
    {
      SameMembers(items, members);
      forall o | o in members ensures AtMost(items[0].Tick(), o.Tick()) {
        var i :| 0 <= i < |items| && items[i] == o;
        RootIsLeast(keys, i);
      }
    }

    method Push(e: PollEntry)
      requires Valid() && e !in members
      modifies this
      ensures Valid() && members == old(members) + {e}
    {
      assert Ticks(items + [e]) == keys + [e.Tick()];
      var h := Up(items + [e], |items|);
      SameMembers(h, members + {e});
      items, members, keys := h, members + {e}, Ticks(h);
    }

    /** The popped entry is a least one. */
    method Pop() returns (e: PollEntry)
      requires Valid() && items != []
      modifies this
      ensures Valid() && e == old(items[0]) && e in old(members)
      ensures members == old(members) - {e}
    {
      var h := items;
      var n := |h|;
      e := h[0];
      assert Ticks(h) == keys;
      TicksPop(h);
      h := Down(h[0 := h[n - 1]][..n - 1], 0);
      assert multiset(h) == multiset(members - {e});
      SameMembers(h, members - {e});
      items, members, keys := h, members - {e}, Ticks(h);
    }

    /** es was taken out of all, in the order of its ticks, and nothing left comes before. */
    ghost predicate Drained(all: set<PollEntry>, es: seq<PollEntry>, ticks: seq<Key>)
      reads this, members, es
    {
      && Valid() && multiset(es) + multiset(members) == multiset(all)
      && |ticks| == |es| && (forall i :: 0 <= i < |es| ==> es[i].Tick() == ticks[i]) && Ascending(ticks)
      && forall o :: o in members ==> NoneAfter(ticks, o.Tick())
    }

    method PopNext(ghost all: set<PollEntry>, es0: seq<PollEntry>, ghost ticks0: seq<Key>)
      returns (es: seq<PollEntry>, ghost ticks: seq<Key>)
      requires Drained(all, es0, ticks0) && items != []
      modifies this
      ensures Drained(all, es, ticks) && members < old(members)
    {
      hide Ordered, Ascending, NoneAfter;
      ghost var tick := items[0].Tick();
      RootIsLeastTick();
      AscendingMore(ticks0, tick);
      TakenOne(es0, members, items[0]);
      var e := Pop();
      es, ticks := es0 + [e], ticks0 + [tick];
    }

    /** Any run of pops yields the entries in the order of their ticks. */
    method PopAll() returns (es: seq<PollEntry>, ghost ticks: seq<Key>)
      requires Valid()
      modifies this
      ensures Valid() && members == {} && multiset(es) == multiset(old(members))
      ensures |ticks| == |es| && (forall i :: 0 <= i < |es| ==> es[i].Tick() == ticks[i]) && Ascending(ticks)
    {
      es, ticks := [], [];
      ghost var all := members;
      while items != []
        invariant Drained(all, es, ticks)
        decreases members
      {
        hide Drained;
        es, ticks := PopNext(all, es, ticks);
      }
      assert multiset(members) == multiset(items);
    }

    /** The body of the catch-up loop: pop the root, advance it, push it again. */
    method Refire(now: int) returns (e: PollEntry)
      requires Valid() && items != []
      modifies this, items[0]
      ensures Valid() && members == old(members)
      ensures e == old(items[0]) && e.stale == old(e.stale)
      ensures e.next == Advance(old(e.next), e.interval, now)
    {
      e := Pop();
      e.next := e.next + e.interval;
      if e.next < now {
        e.next := now + e.interval;
      }
      Push(e);
    }
  }
}
