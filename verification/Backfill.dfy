/** The persistent store-and-forward queue (internal/backfill/backfill.go): one sequence of
    records per output, ids never reused, the oldest records evicted over the cap. A
    database error is a parameter of the operation it hits. */
module Backfill {
  datatype OutputID = OutputID(text: string)

  /** A data point, told apart by its serial number; encodable says whether its value can
      be stored as JSON. */
  datatype Reading = Reading(serial: nat, encodable: bool)

  datatype Rec = Rec(id: nat, dp: Reading)

  /** The table: the records of each output by id, and the next id. */
  datatype Disk = Disk(queues: map<OutputID, seq<Rec>>, nextId: nat)

  function Queue(d: Disk, o: OutputID): seq<Rec> {
    if o in d.queues then d.queues[o] else []
  }

  ghost predicate Increasing(q: seq<Rec>) {
    forall i, j :: 0 <= i < j < |q| ==> q[i].id < q[j].id
  }

  ghost predicate Below(q: seq<Rec>, bound: nat) {
    forall i :: 0 <= i < |q| ==> q[i].id < bound
  }

  /** Queues are in id order, their ids already handed out, and within the cap. */
  ghost predicate DiskValid(d: Disk, max: nat) {
    forall o: OutputID :: QueueValid(Queue(d, o), d.nextId, max)
  }

  ghost predicate QueueValid(q: seq<Rec>, nextId: nat, max: nat) {
    Increasing(q) && Below(q, nextId) && |q| <= max
  }

  /** The records a batch makes: points that cannot be encoded are skipped. */
  function Inserted(dps: seq<Reading>, firstId: nat): (q: seq<Rec>)
    ensures Increasing(q) && Below(q, firstId + |q|)
    ensures forall i :: 0 <= i < |q| ==> q[i].id == firstId + i && q[i].dp in dps && q[i].dp.encodable
  {
    if dps == [] then []
    else
      var init := Inserted(dps[..|dps| - 1], firstId);
      var dp := dps[|dps| - 1];
      if dp.encodable then init + [Rec(firstId + |init|, dp)] else init
  }

  /** What the cap leaves, and what it evicts. */
  function Newest(q: seq<Rec>, max: nat): seq<Rec> {
    if |q| > max then q[|q| - max..] else q
  }

  function Evicted(q: seq<Rec>, max: nat): seq<Rec> {
    if |q| > max then q[..|q| - max] else []
  }

  /** The queue of o after a batch, before the cap. */
  function Longer(d: Disk, o: OutputID, dps: seq<Reading>): seq<Rec> {
    Queue(d, o) + Inserted(dps, d.nextId)
  }

  function SavedTo(d: Disk, o: OutputID, dps: seq<Reading>, max: nat): Disk {
    if dps == [] then d
    else Disk(d.queues[o := Newest(Longer(d, o, dps), max)], d.nextId + |Inserted(dps, d.nextId)|)
  }

  /** q without the records whose id is acknowledged. */
  function Without(q: seq<Rec>, ids: seq<nat>): (r: seq<Rec>)
    ensures forall x :: x in r <==> x in q && x.id !in ids
    ensures |r| <= |q|
  {
    if q == [] then []
    else
      var init := Without(q[..|q| - 1], ids);
      if q[|q| - 1].id in ids then init else init + [q[|q| - 1]]
  }

  lemma {:induction false} WithoutOrdered(q: seq<Rec>, ids: seq<nat>)
    requires Increasing(q)
    ensures Increasing(Without(q, ids))
  {
    if q != [] {
      var init := Without(q[..|q| - 1], ids);
      WithoutOrdered(q[..|q| - 1], ids);
      forall i | 0 <= i < |init| ensures init[i].id < q[|q| - 1].id {
        assert init[i] in q[..|q| - 1];
      }
    }
  }

  /** Removing in two goes is removing all at once. */
  lemma {:induction false} WithoutTwice(q: seq<Rec>, a: seq<nat>, b: seq<nat>)
    ensures Without(Without(q, a), b) == Without(q, a + b)
  {
    if q != [] {
      var init, x := q[..|q| - 1], q[|q| - 1];
      WithoutTwice(init, a, b);
      if x.id !in a {
        assert Without(q, a)[..|Without(q, a)| - 1] == Without(init, a);
      }
    }
  }

  lemma {:induction false} WithoutNone(q: seq<Rec>)
    ensures Without(q, []) == q
  {
    if q != [] {
      WithoutNone(q[..|q| - 1]);
    }
  }

  lemma {:induction false} WithoutThese(q: seq<Rec>, ids: seq<nat>)
    ensures (forall x :: x in q ==> x.id in ids) ==> Without(q, ids) == []
    ensures (forall x :: x in q ==> x.id !in ids) ==> Without(q, ids) == q
  {
    if q != [] {
      WithoutThese(q[..|q| - 1], ids);
      assert q[|q| - 1] in q;
    }
  }

  lemma {:induction false} WithoutJoined(a: seq<Rec>, b: seq<Rec>, ids: seq<nat>)
    ensures Without(a + b, ids) == Without(a, ids) + Without(b, ids)
  {
    if b == [] {
      assert a + b == a;
    } else {
      WithoutJoined(a, b[..|b| - 1], ids);
      assert (a + b)[..|a + b| - 1] == a + b[..|b| - 1];
    }
  }

  /** Deleting the first n records leaves the rest. */
  lemma WithoutFirst(q: seq<Rec>, ids: seq<nat>, n: nat)
    requires Increasing(q) && n <= |q| && |ids| == n && forall i :: 0 <= i < n ==> ids[i] == q[i].id
    ensures Without(q, ids) == q[n..]
  {
    hide Without;
    var a, b := q[..n], q[n..];
    assert a + b == q;
    forall x | x in a ensures x.id in ids {
      var i :| 0 <= i < n && a[i] == x;
      assert ids[i] == x.id;
    }
    forall x | x in b ensures x.id !in ids {
      var j :| 0 <= j < |b| && b[j] == x;
      assert q[n + j] == x;
    }
    WithoutJoined(a, b, ids);
    WithoutThese(a, ids);
    WithoutThese(b, ids);
    assert [] + b == b;
  }

  function AckedOf(d: Disk, o: OutputID, ids: seq<nat>): Disk {
    if ids == [] then d else d.(queues := d.queues[o := Without(Queue(d, o), ids)])
  }

  function DroppedOf(d: Disk, o: OutputID): Disk {
    d.(queues := d.queues[o := []])
  }

  lemma SaveValid(d: Disk, o: OutputID, dps: seq<Reading>, max: nat)
    requires DiskValid(d, max)
    ensures DiskValid(SavedTo(d, o, dps, max), max)
    ensures forall p :: p != o ==> Queue(SavedTo(d, o, dps, max), p) == Queue(d, p)
  {
    hide Inserted;
    var d' := SavedTo(d, o, dps, max);
    assert QueueValid(Queue(d, o), d.nextId, max);
    forall p: OutputID ensures QueueValid(Queue(d', p), d'.nextId, max) {
      assert QueueValid(Queue(d, p), d.nextId, max);
    }
  }

  lemma AckValid(d: Disk, o: OutputID, ids: seq<nat>, max: nat)
    requires DiskValid(d, max)
    ensures DiskValid(AckedOf(d, o, ids), max)
  {
    var d' := AckedOf(d, o, ids);
    assert QueueValid(Queue(d, o), d.nextId, max);
    WithoutOrdered(Queue(d, o), ids);
    forall p: OutputID ensures QueueValid(Queue(d', p), d'.nextId, max) {
      assert QueueValid(Queue(d, p), d.nextId, max);
      if p == o {
        var r := Queue(d', o);
        forall i | 0 <= i < |r| ensures r[i].id < d.nextId {
          assert r[i] in Queue(d, o);
        }
      }
    }
  }

  lemma DropValid(d: Disk, o: OutputID, max: nat)
    requires DiskValid(d, max)
    ensures DiskValid(DroppedOf(d, o), max)
  {
    var d' := DroppedOf(d, o);
    forall p: OutputID ensures QueueValid(Queue(d', p), d'.nextId, max) {
      assert QueueValid(Queue(d, p), d.nextId, max);
    }
  }

  /** A save keeps the newest max records of the old queue followed by the new ones, and
      evicts the rest, every one older than every record kept. */
  lemma SaveSplits(d: Disk, o: OutputID, dps: seq<Reading>, max: nat)
    requires DiskValid(d, max) && dps != []
    ensures Evicted(Longer(d, o, dps), max) + Queue(SavedTo(d, o, dps, max), o) == Longer(d, o, dps)
    ensures Increasing(Longer(d, o, dps))
  {
    hide Inserted;
    assert QueueValid(Queue(d, o), d.nextId, max);
  }

  /** Records with the next ids. */
  function Numbered(dps: seq<Reading>, firstId: nat): (q: seq<Rec>)
    ensures |q| == |dps| && forall i :: 0 <= i < |q| ==> q[i] == Rec(firstId + i, dps[i])
  {
    seq(|dps|, i requires 0 <= i < |dps| => Rec(firstId + i, dps[i]))
  }

  lemma {:induction false} AllInserted(dps: seq<Reading>, firstId: nat)
    requires forall i :: 0 <= i < |dps| ==> dps[i].encodable
    ensures Inserted(dps, firstId) == Numbered(dps, firstId)
  {
    if dps != [] {
      AllInserted(dps[..|dps| - 1], firstId);
    }
  }

  /** Points that can be encoded go to the end of the queue in their order, with the next
      ids; of the whole the last max records stay. */
  lemma SaveAppends(d: Disk, o: OutputID, dps: seq<Reading>, max: nat)
    requires DiskValid(d, max) && forall i :: 0 <= i < |dps| ==> dps[i].encodable
    ensures var all, q := Queue(d, o) + Numbered(dps, d.nextId), Queue(SavedTo(d, o, dps, max), o);
      |q| == (if |all| <= max then |all| else max) && q == all[|all| - |q|..]
    ensures SavedTo(d, o, dps, max).nextId == d.nextId + |dps|
  {
    AllInserted(dps, d.nextId);
    hide Inserted, Numbered;
    assert QueueValid(Queue(d, o), d.nextId, max);
  }

  class Store {
    const max: nat
    var disk: Disk

    ghost predicate Valid()
      reads this
    {
      DiskValid(disk, max)
    }

    constructor (max: int)
      ensures Valid() && disk == Disk(map[], 0)
      ensures this.max == if max <= 0 then 100_000 else max
    {
      this.max := if max <= 0 then 100_000 else max;
      disk := Disk(map[], 0);
    }

    /** All or nothing: a database error anywhere rolls the transaction back. */
    method Save(o: OutputID, dps: seq<Reading>, commits: bool) returns (ok: bool)
      requires Valid()
      modifies this
      ensures Valid() && ok == (dps == [] || commits)
      ensures disk == if ok then SavedTo(old(disk), o, dps, max) else old(disk)
      ensures forall p :: p != o ==> Queue(disk, p) == Queue(old(disk), p)
      ensures !ok ==> disk == old(disk)
    {
      var d := disk;
      SaveValid(d, o, dps, max);
      if dps == [] {
        return true;
      }
      hide *;
      var rows, nextId := InsertAll(Queue(d, o), dps, d.nextId);
      rows := EvictOver(rows);
      var d' := Disk(d.queues[o := rows], nextId);
      assert d' == SavedTo(d, o, dps, max);
      if !commits {
        return false;
      }
      disk := d';
      return true;
    }

    method InsertAll(q: seq<Rec>, dps: seq<Reading>, firstId: nat) returns (rows: seq<Rec>, nextId: nat)
      ensures rows == q + Inserted(dps, firstId) && nextId == firstId + |Inserted(dps, firstId)|
    {
      rows, nextId := q, firstId;
      for k := 0 to |dps|
        invariant rows == q + Inserted(dps[..k], firstId) && nextId == firstId + |Inserted(dps[..k], firstId)|
      {
        assert dps[..k + 1][..k] == dps[..k];
        hide Inserted;
        if dps[k].encodable {
          rows := rows + [Rec(nextId, dps[k])];
          nextId := nextId + 1;
        }
      }
      assert dps[..|dps|] == dps;
    }

    method EvictOver(rows: seq<Rec>) returns (kept: seq<Rec>)
      ensures kept == Newest(rows, max)
      ensures |kept| == (if |rows| <= max then |rows| else max) && kept == rows[|rows| - |kept|..]
    {
      var total := |rows|;
      if total <= max {
        return rows;
      }
      var over := total - max;
      return rows[over..];
    }

    /** The oldest records, at most limit. */
    method Peek(o: OutputID, limit: nat) returns (items: seq<Rec>)
      requires Valid()
      ensures items == (if |Queue(disk, o)| <= limit then Queue(disk, o) else Queue(disk, o)[..limit])
      ensures Increasing(items)
    {
      var q := Queue(disk, o);
      assert QueueValid(q, disk.nextId, max);
      items := if |q| <= limit then q else q[..limit];
    }

    /** Delete in chunks of 500; chunk number failsAt is the first to fail, if any. */
    method Ack(o: OutputID, ids: seq<nat>, failsAt: nat) returns (ok: bool, ghost done: nat)
      requires Valid()
      modifies this
      ensures Valid() && done <= |ids| && (ok <==> done == |ids|)
      ensures disk == AckedOf(old(disk), o, ids[..done])
      ensures forall r :: r in Queue(disk, o) <==> r in Queue(old(disk), o) && r.id !in ids[..done]
      ensures forall p :: p != o ==> Queue(disk, p) == Queue(old(disk), p)
      ensures 500 * failsAt >= |ids| ==> ok
    {
      var d := disk;
      var q, good, n := Delete(Queue(d, o), ids, failsAt);
      AckValid(d, o, ids[..n], max);
      hide Without, DiskValid;
      if n > 0 {
        disk := d.(queues := d.queues[o := q]);
      }
      ok, done := good, n;
    }

    method Delete(q: seq<Rec>, ids: seq<nat>, failsAt: nat) returns (r: seq<Rec>, ok: bool, n: nat)
      ensures n <= |ids| && (ok <==> n == |ids|) && r == Without(q, ids[..n])
      ensures 500 * failsAt >= |ids| ==> ok
    {
      hide Without;
      r, n := q, 0;
      WithoutNone(q);
      while n < |ids|
        invariant n <= |ids| && (n < |ids| ==> n % 500 == 0 && n <= 500 * failsAt)
        invariant r == Without(q, ids[..n])
      {
        var end := if n + 500 > |ids| then |ids| else n + 500;
        if n / 500 == failsAt {
          return r, false, n;
        }
        WithoutTwice(q, ids[..n], ids[n..end]);
        assert ids[..n] + ids[n..end] == ids[..end];
        r := Without(r, ids[n..end]);
        n := end;
      }
      ok := true;
    }

    method DropOutput(o: OutputID)
      requires Valid()
      modifies this
      ensures Valid() && disk == DroppedOf(old(disk), o)
      ensures Queue(disk, o) == [] && forall p :: p != o ==> Queue(disk, p) == Queue(old(disk), p)
    {
      DropValid(disk, o, max);
      disk := DroppedOf(disk, o);
    }
  }
}
