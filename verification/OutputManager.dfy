/** The manager of output slots (internal/output/manager.go): publish to every slot, replay
    queued points, and reload. Each method is a run of the steps of Forwarding. */
module OutputManager {
  import opened Backfill
  import opened Forwarding
  import opened ForwardingRuns

  datatype Built = BuildFailed | Built(insts: seq<Inst>)

  function OfferSteps(ks: seq<nat>, dp: Reading, commits: seq<bool>): (steps: seq<Step>)
    requires |commits| == |ks|
  {
    seq(|ks|, i requires 0 <= i < |ks| => Offer(ks[i], dp, commits[i]))
  }

  class Manager {
    const store: Store
    const wired: bool
    /** Every slot ever started; a slot's number stands for the reference to it. */
    var slots: seq<Slot>
    var current: seq<nat>
    ghost var world: World

    ghost predicate Valid()
      reads this, store
    {
      && Matches(world, wired, store.max, store.disk, slots, current)
      && store.Valid() && Sound(world)
      && Distinct(current)
    }

    constructor (store: Store, wired: bool)
      requires store.Valid()
      ensures Valid() && Begins(world) && this.store == store && this.wired == wired
    {
      this.store, this.wired := store, wired;
      slots, current := [], [];
      world := World(wired, store.max, store.disk, [], [], Idle, History({}, {}, {}, {}, {}, {}, {}, map[]));
    }

    /** A non-blocking send to one slot; a full channel falls back to the queue if the
        output has one, and drops the point otherwise. */
    method Send(k: nat, dp: Reading, commits: bool)
      requires Valid() && k < |slots|
      modifies this, store
      ensures Valid() && world == Apply(old(world), Offer(k, dp, commits))
      ensures current == old(current) && slots == old(slots)[k := slots[k]] && Taken(old(slots)[k], slots[k], dp, wired)
      ensures |old(slots)[k].buf| < 1024 || !(wired && slots[k].capable && commits) ==> store.disk == old(store.disk)
      ensures forall o :: o != slots[k].out ==> Queue(store.disk, o) == Queue(old(store.disk), o)
    {
      var s := slots[k];
      ghost var w := world;
      StepSound(w, Offer(k, dp, commits));
      OfferTakes(w, k, dp, commits);
      hide OfferTo, Sound, SavedTo;
      if |s.buf| < QUEUE_SIZE {
        slots := slots[k := Entered(s.(tally := s.tally.(offered := s.tally.offered + 1)), dp)];
      } else if wired && s.capable {
        var saved := store.Save(s.out, [dp], commits);
        slots := slots[k := Diverted(s)];
      } else {
        slots := slots[k := s.(dropped := s.dropped + 1, tally := s.tally.(offered := s.tally.offered + 1))];
      }
      world := Apply(w, Offer(k, dp, commits));
    }

    /** Offer a point to every current slot, in order; commits[i] says whether the save that
        slot i may need succeeds. */
    method Publish(dp: Reading, commits: seq<bool>)
      requires Valid() && |commits| == |current|
      modifies this, store
      ensures Valid() && current == old(current)
      ensures Ran(old(world), OfferSteps(old(current), dp, commits), world)
      ensures PublishedTo(old(slots), old(store.disk), slots, store.disk, current, |current|, dp, wired)
    {
      hide Distinct, RoomFor, Apply, Ran, Taken;
      ghost var slots0, disk0 := slots, store.disk;
      var ks := current;
      ghost var w0, steps := world, OfferSteps(ks, dp, commits);
      CurrentStarted(w0);
      RanNone(w0);
      assert steps[..0] == [];
      for i := 0 to |ks|
        invariant Valid() && current == ks && |slots| == |old(slots)|
        invariant Ran(w0, steps[..i], world)
        invariant PublishedTo(slots0, disk0, slots, store.disk, ks, i, dp, wired)
      {
        hide Sound, PublishedTo, Queue, Enabled;
        ghost var s1, d1 := slots, store.disk;
        assert ks[i] in w0.current;
        RanMore(w0, steps[..i], world, steps[i]);
        Send(ks[i], dp, commits[i]);
        assert steps[..i + 1] == steps[..i] + [steps[i]];
        PublishMore(slots0, disk0, s1, d1, slots, store.disk, ks, i, dp, wired);
      }
      assert steps[..|ks|] == steps;
    }

    /** The publishing goroutine of slot k takes a point and hands it to its output, which
        sends it or gives it back to the queue. */
    method Deliver(k: nat, outcome: Outcome)
      requires Valid() && Enabled(world, Consume(k, outcome))
      modifies this, store
      ensures Valid() && current == old(current)
      ensures world == Apply(old(world), Consume(k, outcome))
      ensures slots == old(slots)[k := slots[k]] && HandedOver(old(slots)[k], slots[k])
      ensures store.disk == if outcome.SentBack? && outcome.commits && wired
        then SavedTo(old(store.disk), slots[k].out, [old(slots)[k].buf[0]], store.max) else old(store.disk)
    {
      var s := slots[k];
      ghost var w := world;
      StepSound(w, Consume(k, outcome));
      hide ConsumeFrom, Sound, SavedTo;
      slots := slots[k := Handed(s)];
      if outcome.SentBack? && wired {
        var saved := store.Save(s.out, [s.buf[0]], outcome.commits);
      }
      world := Apply(w, Consume(k, outcome));
    }

    /** One round of replay for slot k: oldest records first, until the batch ends or the
        channel is full, then acknowledge what was pushed. */
    method ReplaySlot(k: nat, failsAt: nat) returns (ghost steps: seq<Step>)
      requires Valid() && k < |slots| && wired
      modifies this, store
      ensures Valid() && current == old(current)
      ensures Ran(old(world), steps, world) && (500 * failsAt >= REPLAY_BATCH ==> RunsAcking(old(world), steps))
      ensures 500 * failsAt >= REPLAY_BATCH ==> Replayed(old(slots), old(store.disk), k, slots, store.disk)
      ensures |slots| == |old(slots)|
    {
      var s := slots[k];
      if s.capable {
        var items := store.Peek(s.out, REPLAY_BATCH);
        if items != [] {
          steps := ReplayItems(k, items, failsAt);
          return;
        }
      }
      RanNone(world);
      NotReplayed(slots, store.disk, k);
      steps := [];
    }

    method ReplayItems(k: nat, items: seq<Rec>, failsAt: nat) returns (ghost steps: seq<Step>)
      requires Valid() && k < |slots| && wired && slots[k].capable
      requires items == Batch(Queue(store.disk, slots[k].out)) != []
      modifies this, store
      ensures Valid() && current == old(current)
      ensures Ran(old(world), steps, world) && (500 * failsAt >= REPLAY_BATCH ==> RunsAcking(old(world), steps))
      ensures 500 * failsAt >= REPLAY_BATCH ==> Replayed(old(slots), old(store.disk), k, slots, store.disk)
      ensures |slots| == |old(slots)|
    {
      hide Sound, DiskValid, Distinct, Ran, RunsAcking, Apply, AckedOf, Replayed, Moved, SlotAfter, MidReplay, Batch,
        Pushable;
      var s := slots[k];
      ghost var w0, slots0, disk0 := world, slots, store.disk;
      BatchFits(disk0, s.out, items);
      var s', acked;
      ghost var w;
      s', acked, w, steps := PushAll(w0, k, s, items);
      var ok;
      ghost var done;
      ok, done := store.Ack(s.out, acked, failsAt);
      AckRound(w0, steps, w, k, items, acked, done);
      slots := slots[k := s'];
      world, steps := Apply(w, ReplayAck(done)), steps + [ReplayAck(done)];
      if ok {
        assert acked[..|acked|] == acked;
        ItemsReplayed(slots0, disk0, k, items, slots, store.disk, store.max);
      }
    }

    /** One round of replay: every current slot whose output is healthy, in order. */
    method ReplayOnce(healthy: seq<bool>, failsAt: seq<nat>)
        returns (ghost steps: seq<Step>, ghost trace: seq<(seq<Slot>, Disk)>)
      requires Valid() && |healthy| == |failsAt| == |current|
      modifies this, store
      ensures Valid() && current == old(current) && Ran(old(world), steps, world)
      ensures (forall i :: 0 <= i < |failsAt| ==> 500 * failsAt[i] >= REPLAY_BATCH) ==> RunsAcking(old(world), steps)
      ensures (forall i :: 0 <= i < |failsAt| ==> 500 * failsAt[i] >= 256) ==>
        RoundOf(trace, current, healthy, if wired then |current| else 0, old(slots), old(store.disk), slots, store.disk)
    {
      ghost var w0, slots0, disk0 := world, slots, store.disk;
      var ks := current;
      steps, trace := [], [(slots0, disk0)];
      RanNone(w0);
      if !wired {
        return;
      }
      CurrentStarted(w0);
      for i := 0 to |ks|
        invariant Valid() && current == ks && |slots| == |old(slots)| && Ran(w0, steps, world)
        invariant (forall j :: 0 <= j < i ==> 500 * failsAt[j] >= REPLAY_BATCH) ==> RunsAcking(w0, steps)
        invariant (forall j :: 0 <= j < i ==> 500 * failsAt[j] >= REPLAY_BATCH) ==>
          RoundOf(trace, ks, healthy, i, slots0, disk0, slots, store.disk)
      {
        hide Sound, Ran, RunsAcking, Replayed, RoundOf, Distinct;
        ghost var s1, d1 := slots, store.disk;
        if healthy[i] {
          assert ks[i] in w0.current;
          ghost var w1 := world;
          ghost var more := ReplaySlot(ks[i], failsAt[i]);
          RunsMore(w0, steps, more);
          if RunsAcking(w0, steps) && RunsAcking(w1, more) {
            RunsAckingMore(w0, steps, more);
          }
          steps := steps + more;
        }
        if forall j :: 0 <= j <= i ==> 500 * failsAt[j] >= REPLAY_BATCH {
          RoundMore(trace, ks, healthy, i, slots0, disk0, s1, d1, slots, store.disk);
        }
        trace := trace + [(slots, store.disk)];
      }
    }

    /** Build the configured outputs, put them in place of the current ones, stop those, and
        drop the queues of outputs that are gone. A failed build changes nothing. */
    method Reload(built: Built) returns (ok: bool, ghost steps: seq<Step>)
      requires Valid()
      modifies this, store
      ensures Valid() && ok == built.Built? && Ran(old(world), steps, world) && RunsAcking(old(world), steps)
      ensures !ok ==> world == old(world)
      ensures ok ==> Reloaded(old(world), built.insts, world)
    {
      ghost var w0 := world;
      steps := [];
      RanNone(w0);
      if built.BuildFailed? {
        return false, [];
      }
      var n, before := |slots|, current;
      SwapRuns(w0, built.insts);
      StepSound(w0, Swap(built.insts));
      hide Sound, Ran, RunsAcking, Stopping, Reloaded;
      slots := slots + Started(built.insts);
      current := seq(|built.insts|, i requires 0 <= i < |built.insts| => n + i);
      world, steps := Apply(w0, Swap(built.insts)), [Swap(built.insts)];
      steps := StopAll(before, w0, built.insts, steps);
      DropBegins(w0, built.insts, world);
      if wired {
        steps := DropRemoved(before, built.insts, w0, steps);
      }
      ok := true;
    }

    method StopAll(before: seq<nat>, ghost w0: World, ghost insts: seq<Inst>, ghost steps0: seq<Step>)
      returns (ghost steps: seq<Step>)
      requires Valid() && before == w0.current && Sound(w0) && Stopping(w0, insts, [], world)
      requires Ran(w0, steps0, world) && RunsAcking(w0, steps0)
      modifies this
      ensures Valid() && Stopping(w0, insts, before, world)
      ensures Ran(w0, steps, world) && RunsAcking(w0, steps)
    {
      steps := steps0;
      assert before[..0] == [];
      for i := 0 to |before|
        invariant Valid() && Ran(w0, steps, world) && RunsAcking(w0, steps)
        invariant Stopping(w0, insts, before[..i], world)
      {
        hide Sound, Ran, RunsAcking, Stopping;
        StopOne(w0, insts, before, i, world);
        RanMore(w0, steps, world, Stop(before[i]));
        StepSound(world, Stop(before[i]));
        slots := slots[before[i] := slots[before[i]].(stopped := true)];
        world, steps := Apply(world, Stop(before[i])), steps + [Stop(before[i])];
      }
      assert before[..|before|] == before;
    }

    method DropRemoved(before: seq<nat>, insts: seq<Inst>, ghost w0: World, ghost steps0: seq<Step>)
      returns (ghost steps: seq<Step>)
      requires Valid() && wired && w0.wired && before == w0.current && Sound(w0) && Dropping(w0, insts, [], world)
      requires Ran(w0, steps0, world) && RunsAcking(w0, steps0)
      modifies this, store
      ensures Valid() && Reloaded(w0, insts, world)
      ensures Ran(w0, steps, world) && RunsAcking(w0, steps)
    {
      steps := steps0;
      assert before[..0] == [];
      for i := 0 to |before|
        invariant Valid() && Ran(w0, steps, world) && RunsAcking(w0, steps)
        invariant Dropping(w0, insts, before[..i], world)
      {
        hide Sound, Ran, RunsAcking, Dropping;
        DropOne(w0, insts, before, i, world);
        var o := slots[before[i]].out;
        if !Configured(insts, o) {
          RanMore(w0, steps, world, DropQueue(o));
          StepSound(world, DropQueue(o));
          store.DropOutput(o);
          world, steps := Apply(world, DropQueue(o)), steps + [DropQueue(o)];
        }
      }
      assert before[..|before|] == before;
    }
  }

  ghost predicate Distinct(ks: seq<nat>) {
    forall i, j :: 0 <= i < j < |ks| ==> ks[i] != ks[j]
  }

  /** Every current slot of the output has room. */
  predicate RoomFor(slots: seq<Slot>, ks: seq<nat>, o: OutputID) {
    forall i :: 0 <= i < |ks| && ks[i] < |slots| && slots[ks[i]].out == o ==> |slots[ks[i]].buf| < 1024
  }

  /** The oldest point of the channel has been handed to the output. */
  predicate HandedOver(s: Slot, s': Slot) {
    && s.buf != [] && s'.buf == s.buf[1..] && s'.tally.handed == s.tally.handed + [s.buf[0]]
    && s'.received == s.received + 1 && s'.out == s.out && s'.stopped == s.stopped
    && s'.dropped == s.dropped && s'.tally.diverted == s.tally.diverted
  }

  /** The point was offered to the first n slots of the list. */
  ghost predicate PublishedTo(slots0: seq<Slot>, d0: Disk, slots: seq<Slot>, d: Disk, ks: seq<nat>, n: nat,
                              dp: Reading, wired: bool)
    requires n <= |ks|
  {
    && |slots| == |slots0|
    && (forall k :: 0 <= k < |slots| ==>
         if k in ks[..n] then Taken(slots0[k], slots[k], dp, wired) else slots[k] == slots0[k])
    && forall o: OutputID :: RoomFor(slots0, ks, o) ==> Queue(d, o) == Queue(d0, o)
  }

  lemma PublishMore(slots0: seq<Slot>, d0: Disk, s1: seq<Slot>, d1: Disk, slots: seq<Slot>, d: Disk, ks: seq<nat>,
                    n: nat, dp: Reading, wired: bool)
    requires n < |ks| && PublishedTo(slots0, d0, s1, d1, ks, n, dp, wired)
    requires Distinct(ks)
    requires ks[n] < |s1| == |slots| && slots == s1[ks[n] := slots[ks[n]]]
    requires Taken(s1[ks[n]], slots[ks[n]], dp, wired) && (|s1[ks[n]].buf| < 1024 ==> d == d1)
    requires forall o: OutputID :: o != slots[ks[n]].out ==> Queue(d, o) == Queue(d1, o)
    ensures PublishedTo(slots0, d0, slots, d, ks, n + 1, dp, wired)
  {
    assert ks[n] !in ks[..n] && ks[..n + 1] == ks[..n] + [ks[n]];
    assert slots[ks[n]].out == s1[ks[n]].out == slots0[ks[n]].out;
    hide Taken, Queue;
  }

  /** Push records of a batch until it ends or the channel is full. */
  method PushAll(ghost w0: World, k: nat, s0: Slot, items: seq<Rec>)
    returns (s: Slot, acked: seq<nat>, ghost w: World, ghost steps: seq<Step>)
    requires Enabled(w0, ReplayStart(k)) && s0 == w0.slots[k] && items == Batch(Queue(w0.disk, s0.out)) != []
    ensures var sent := items[..Pushable(s0, items)]; s == SlotAfter(s0, sent) && acked == Ids(sent)
    ensures MidReplay(w, w0, k, items, Pushable(s0, items)) && Ran(w0, steps, w) && RunsAcking(w0, steps)
  {
    s, acked := s0, [];
    w, steps := BeginReplay(w0, k, items);
    PushNone(s0, items);
    var n := 0;
    while n < |items|
      invariant n <= Pushable(s0, items)
      invariant HasPushed(s0, items, n, s, acked)
      invariant MidReplay(w, w0, k, items, n) && Ran(w0, steps, w) && RunsAcking(w0, steps)
    {
      PushMore(s0, items, n, s, acked);
      if |s.buf| >= QUEUE_SIZE {
        break;
      }
      hide MidReplay, Ran, RunsAcking, Apply, HasPushed, Enabled, Entered, SlotAfter, Batch, Queue;
      PushOne(w, w0, k, items, n);
      RanMore(w0, steps, w, ReplayPush);
      assert Acks(w, ReplayPush);
      w, steps := Apply(w, ReplayPush), steps + [ReplayPush];
      s := Entered(s.(tally := s.tally.(replayed := s.tally.replayed + 1)), items[n].dp);
      acked := acked + [items[n].id];
      n := n + 1;
    }
  }

  /** A slot and the ids to acknowledge after n records. */
  predicate HasPushed(s0: Slot, items: seq<Rec>, n: nat, s: Slot, acked: seq<nat>)
    requires n <= |items|
  {
    s == SlotAfter(s0, items[..n]) && acked == Ids(items[..n])
  }

  lemma PushNone(s0: Slot, items: seq<Rec>)
    ensures HasPushed(s0, items, 0, s0, [])
  {
    assert items[..0] == [] && s0.buf + [] == s0.buf && s0.tally.entered + [] == s0.tally.entered;
  }

  lemma PushMore(s0: Slot, items: seq<Rec>, n: nat, s: Slot, acked: seq<nat>)
    requires n < |items| && HasPushed(s0, items, n, s, acked)
    ensures |s.buf| == |s0.buf| + n && s.capable == s0.capable
    ensures HasPushed(s0, items, n + 1, Entered(s.(tally := s.tally.(replayed := s.tally.replayed + 1)), items[n].dp),
      acked + [items[n].id])
  {
    SlotAfterMore(s0, items, n);
  }

  /** A slot after records are pushed into its channel. */
  function SlotAfter(s: Slot, sent: seq<Rec>): Slot {
    s.(buf := s.buf + Points(sent),
       tally := s.tally.(replayed := s.tally.replayed + |sent|, entered := s.tally.entered + Points(sent)))
  }

  lemma SlotAfterMore(s0: Slot, items: seq<Rec>, n: nat)
    requires n < |items|
    ensures var s := SlotAfter(s0, items[..n]);
      && |s.buf| == |s0.buf| + n && s.capable == s0.capable
      && SlotAfter(s0, items[..n + 1]) == Entered(s.(tally := s.tally.(replayed := s.tally.replayed + 1)), items[n].dp)
    ensures Ids(items[..n + 1]) == Ids(items[..n]) + [items[n].id]
  {
    assert Points(items[..n + 1]) == Points(items[..n]) + [items[n].dp];
    assert s0.buf + (Points(items[..n]) + [items[n].dp]) == s0.buf + Points(items[..n]) + [items[n].dp];
    assert s0.tally.entered + (Points(items[..n]) + [items[n].dp]) ==
      s0.tally.entered + Points(items[..n]) + [items[n].dp];
  }

  ghost predicate Matches(w: World, wired: bool, max: nat, disk: Disk, slots: seq<Slot>, current: seq<nat>) {
    && w.wired == wired && w.max == max && w.disk == disk && w.slots == slots && w.current == current
    && w.replay.Idle?
  }

  lemma CurrentStarted(w: World)
    requires Sound(w)
    ensures forall k :: k in w.current ==> k < |w.slots|
  {
  }

  /** How many records of a batch a slot has room for. */
  function Pushable(s: Slot, q: seq<Rec>): (n: nat)
    ensures n <= |q|
  {
    if !s.capable || |s.buf| >= QUEUE_SIZE then 0
    else if |q| <= QUEUE_SIZE - |s.buf| then |q|
    else QUEUE_SIZE - |s.buf|
  }

  function Points(q: seq<Rec>): (dps: seq<Reading>)
    ensures |dps| == |q| && forall i :: 0 <= i < |q| ==> dps[i] == q[i].dp
  {
    seq(|q|, i requires 0 <= i < |q| => q[i].dp)
  }

  function Ids(q: seq<Rec>): (ids: seq<nat>)
    ensures |ids| == |q| && forall i :: 0 <= i < |q| ==> ids[i] == q[i].id
  {
    seq(|q|, i requires 0 <= i < |q| => q[i].id)
  }

  /** The first n queued records have moved into the channel of a slot, in order, and are
      no longer queued; other slots and queues are as before. */
  ghost predicate Moved(slots: seq<Slot>, d: Disk, k: nat, n: nat, slots': seq<Slot>, d': Disk)
    requires k < |slots| && n <= |Queue(d, slots[k].out)|
  {
    var o := slots[k].out;
    && |slots'| == |slots| && (forall j :: 0 <= j < |slots| && j != k ==> slots'[j] == slots[j])
    && slots'[k].out == o && slots'[k].stopped == slots[k].stopped && slots'[k].dropped == slots[k].dropped
    && slots'[k].received == slots[k].received && slots'[k].tally.diverted == slots[k].tally.diverted
    && slots'[k].buf == slots[k].buf + Points(Queue(d, o)[..n])
    && Queue(d', o) == Queue(d, o)[n..] && forall p :: p != o ==> Queue(d', p) == Queue(d, p)
  }

  /** A full round: as many of the oldest records, at most 256, as the channel has room for. */
  ghost predicate Replayed(slots: seq<Slot>, d: Disk, k: nat, slots': seq<Slot>, d': Disk)
    requires k < |slots|
  {
    var s := slots[k];
    var most := if |Queue(d, s.out)| <= 256 then |Queue(d, s.out)| else 256;
    var room := if |s.buf| <= 1024 then 1024 - |s.buf| else 0;
    Moved(slots, d, k, if !s.capable then 0 else if most <= room then most else room, slots', d')
  }

  /** The first n slots of the list have had their turn, the healthy ones a full round. */
  ghost predicate RoundOf(trace: seq<(seq<Slot>, Disk)>, ks: seq<nat>, healthy: seq<bool>, n: nat,
                          slots0: seq<Slot>, d0: Disk, slots: seq<Slot>, d: Disk)
  {
    && n <= |ks| == |healthy| && |trace| == n + 1 && trace[0] == (slots0, d0) && trace[n] == (slots, d)
    && forall i :: 0 <= i < n ==>
         && ks[i] < |trace[i].0|
         && if healthy[i] then Replayed(trace[i].0, trace[i].1, ks[i], trace[i + 1].0, trace[i + 1].1)
            else trace[i + 1] == trace[i]
  }

  lemma RoundMore(trace: seq<(seq<Slot>, Disk)>, ks: seq<nat>, healthy: seq<bool>, n: nat, slots0: seq<Slot>, d0: Disk,
                  s1: seq<Slot>, d1: Disk, slots: seq<Slot>, d: Disk)
    requires n < |ks| && RoundOf(trace, ks, healthy, n, slots0, d0, s1, d1) && ks[n] < |s1|
    requires if healthy[n] then Replayed(s1, d1, ks[n], slots, d) else slots == s1 && d == d1
    ensures RoundOf(trace + [(slots, d)], ks, healthy, n + 1, slots0, d0, slots, d)
  {
    hide Replayed;
  }

  lemma NotReplayed(slots: seq<Slot>, d: Disk, k: nat)
    requires k < |slots| && (!slots[k].capable || Queue(d, slots[k].out) == [])
    ensures Replayed(slots, d, k, slots, d)
  {
    var q := Queue(d, slots[k].out);
    assert Points(q[..0]) == [] && slots[k].buf + [] == slots[k].buf && q[0..] == q;
  }

  lemma ItemsReplayed(slots: seq<Slot>, d: Disk, k: nat, items: seq<Rec>, slots': seq<Slot>, d': Disk, max: nat)
    requires k < |slots| && slots[k].capable && DiskValid(d, max) && items == Batch(Queue(d, slots[k].out)) != []
    requires var sent := items[..Pushable(slots[k], items)];
      slots' == slots[k := SlotAfter(slots[k], sent)] && d' == AckedOf(d, slots[k].out, Ids(sent))
    ensures Replayed(slots, d, k, slots', d')
  {
    var q, n := Queue(d, slots[k].out), Pushable(slots[k], items);
    assert QueueValid(q, d.nextId, max) && items[..n] == q[..n];
    hide DiskValid, QueueValid, AckedOf, SlotAfter, Moved;
    AckedFirst(d, slots[k].out, n, d');
    SlotMoved(slots, d, k, n, slots', d');
  }

  lemma AckedFirst(d: Disk, o: OutputID, n: nat, d': Disk)
    requires n <= |Queue(d, o)| && Increasing(Queue(d, o)) && d' == AckedOf(d, o, Ids(Queue(d, o)[..n]))
    ensures Queue(d', o) == Queue(d, o)[n..] && forall p :: p != o ==> Queue(d', p) == Queue(d, p)
  {
    var q := Queue(d, o);
    WithoutFirst(q, Ids(q[..n]), n);
    hide Without;
    if n == 0 { assert Ids(q[..n]) == [] && q[n..] == q; }
  }

  lemma SlotMoved(slots: seq<Slot>, d: Disk, k: nat, n: nat, slots': seq<Slot>, d': Disk)
    requires k < |slots| && n <= |Queue(d, slots[k].out)|
    requires slots' == slots[k := SlotAfter(slots[k], Queue(d, slots[k].out)[..n])]
    requires var o := slots[k].out;
      Queue(d', o) == Queue(d, o)[n..] && forall p :: p != o ==> Queue(d', p) == Queue(d, p)
    ensures Moved(slots, d, k, n, slots', d')
  {
  }

  lemma BatchFits(d: Disk, o: OutputID, items: seq<Rec>)
    requires items == Batch(Queue(d, o))
    ensures |items| <= REPLAY_BATCH
  {
  }

  lemma MidFacts(w: World, w0: World, k: nat, items: seq<Rec>, n: nat)
    requires MidReplay(w, w0, k, items, n)
    ensures w.wired == w0.wired && w.max == w0.max && w.disk == w0.disk && w.current == w0.current
    ensures w.replay.Replaying? && w.replay.slot == k && w.replay.acked == Ids(items[..n])
    ensures k < |w0.slots| && w.slots == w0.slots[k := SlotAfter(w0.slots[k], items[..n])]
    ensures w.slots[k].out == w0.slots[k].out
  {
  }

  /** The end of a round: the records pushed are acknowledged, as far as that succeeds. */
  lemma AckRound(w0: World, steps: seq<Step>, w: World, k: nat, items: seq<Rec>, acked: seq<nat>, done: nat)
    requires Sound(w0) && w0.replay.Idle? && Ran(w0, steps, w) && RunsAcking(w0, steps) && k < |w0.slots|
    requires MidReplay(w, w0, k, items, Pushable(w0.slots[k], items))
    requires acked == Ids(items[..Pushable(w0.slots[k], items)]) && done <= |acked|
    ensures Enabled(w, ReplayAck(done))
    ensures var w', steps', n := Apply(w, ReplayAck(done)), steps + [ReplayAck(done)], Pushable(w0.slots[k], items);
      && Sound(w') && Ran(w0, steps', w') && (done == |acked| ==> RunsAcking(w0, steps'))
      && w' == w.(disk := AckedOf(w0.disk, w0.slots[k].out, acked[..done]), replay := Idle)
      && w'.wired == w0.wired && w'.max == w0.max && w'.current == w0.current
      && w'.slots == w0.slots[k := SlotAfter(w0.slots[k], items[..n])]
  {
    hide Sound, Ran, RunsAcking, MidReplay, AckedOf, SlotAfter, Pushable;
    MidFacts(w, w0, k, items, Pushable(w0.slots[k], items));
    RanMore(w0, steps, w, ReplayAck(done));
    RunSound(w0, steps + [ReplayAck(done)], Apply(w, ReplayAck(done)));
  }

  /** n records of the batch are pushed. */
  ghost predicate MidReplay(w: World, w0: World, k: nat, items: seq<Rec>, n: nat) {
    && k < |w0.slots| && n <= |items|
    && w.wired == w0.wired && w.max == w0.max
    && w.disk == w0.disk && w.current == w0.current
    && w.replay == Replaying(k, items[n..], Ids(items[..n]))
    && w.slots == w0.slots[k := SlotAfter(w0.slots[k], items[..n])]
  }

  lemma BeginReplay(w0: World, k: nat, items: seq<Rec>) returns (w: World, steps: seq<Step>)
    requires Enabled(w0, ReplayStart(k)) && items == Batch(Queue(w0.disk, w0.slots[k].out)) != []
    ensures MidReplay(w, w0, k, items, 0)
    ensures Ran(w0, steps, w) && RunsAcking(w0, steps)
  {
    RanNone(w0);
    RanMore(w0, [], w0, ReplayStart(k));
    w, steps := Apply(w0, ReplayStart(k)), [] + [ReplayStart(k)];
    var s := w0.slots[k];
    assert s.buf + Points(items[..0]) == s.buf && s.tally.entered + Points(items[..0]) == s.tally.entered
      && SlotAfter(s, items[..0]) == s && w0.slots[k := s] == w0.slots;
    assert items[0..] == items && Ids(items[..0]) == [];
  }

  lemma PushOne(w: World, w0: World, k: nat, items: seq<Rec>, n: nat)
    requires MidReplay(w, w0, k, items, n) && n < |items| && |w0.slots[k].buf| + n < QUEUE_SIZE
    ensures Enabled(w, ReplayPush) && MidReplay(Apply(w, ReplayPush), w0, k, items, n + 1)
  {
    assert items[n..][1..] == items[n + 1..] && items[n..][0] == items[n];
    SlotAfterMore(w0.slots[k], items, n);
  }

  /** Whatever steps ran, the world stays sound. */
  lemma {:induction false} RunSound(w0: World, steps: seq<Step>, w: World)
    requires Sound(w0) && (w0.replay.Idle? || ReplayValid(w0)) && Ran(w0, steps, w)
    ensures Sound(w)
    decreases |steps|
  {
    assert ReplayValid(w0);
    hide Sound, ReplayValid, Apply, Enabled;
    if steps != [] {
      StepSound(w0, steps[0]);
      RunSound(Apply(w0, steps[0]), steps[1..], w);
    }
  }

  /** The world after a reload: the new slots are current and empty, the old ones stopped
      with their channels as they were, and queues dropped for gone outputs only. */
  ghost predicate Reloaded(w0: World, insts: seq<Inst>, w: World) {
    SlotsReloaded(w0, insts, w) && QueuesDropped(w0.disk, if w0.wired then Gone(w0, insts) else {}, w.disk)
  }

  ghost predicate SlotsReloaded(w0: World, insts: seq<Inst>, w: World) {
    && w.current == seq(|insts|, i requires 0 <= i < |insts| => |w0.slots| + i)
    && |w.slots| == |w0.slots| + |insts| && w.slots[|w0.slots|..] == Started(insts)
    && (forall k :: 0 <= k < |w0.slots| ==>
      w.slots[k] == w0.slots[k].(stopped := w0.slots[k].stopped || k in w0.current))
  }

  ghost predicate QueuesDropped(d0: Disk, gone: set<OutputID>, d: Disk) {
    forall o: OutputID :: Queue(d, o) == if o in gone then [] else Queue(d0, o)
  }

  /** The old slots in done are stopped. */
  ghost predicate Stopping(w0: World, insts: seq<Inst>, done: seq<nat>, w: World) {
    && w.wired == w0.wired && w.max == w0.max && w.disk == w0.disk && w.replay.Idle?
    && w.current == seq(|insts|, i requires 0 <= i < |insts| => |w0.slots| + i)
    && |w.slots| == |w0.slots| + |insts| && w.slots[|w0.slots|..] == Started(insts)
    && (forall k :: 0 <= k < |w0.slots| ==>
      w.slots[k] == w0.slots[k].(stopped := w0.slots[k].stopped || k in done))
    && w.hist.removed == w0.hist.removed + Gone(w0, insts)
  }

  lemma SwapRuns(w0: World, insts: seq<Inst>)
    requires w0.replay.Idle?
    ensures Ran(w0, [Swap(insts)], Apply(w0, Swap(insts))) && RunsAcking(w0, [Swap(insts)])
    ensures Stopping(w0, insts, [], Apply(w0, Swap(insts)))
  {
    RanNone(w0);
    RanMore(w0, [], w0, Swap(insts));
    assert [] + [Swap(insts)] == [Swap(insts)];
    var w := Apply(w0, Swap(insts));
    assert w.slots[|w0.slots|..] == Started(insts);
  }

  lemma StopOne(w0: World, insts: seq<Inst>, before: seq<nat>, i: nat, w: World)
    requires i < |before| && before == w0.current && Sound(w0) && Stopping(w0, insts, before[..i], w)
    ensures Enabled(w, Stop(before[i]))
    ensures Stopping(w0, insts, before[..i + 1], Apply(w, Stop(before[i])))
  {
    var k := before[i];
    assert k in w0.current;
    assert before[..i + 1] == before[..i] + [k];
    var w' := Apply(w, Stop(k));
    assert w'.slots[|w0.slots|..] == w.slots[|w0.slots|..];
  }

  /** The queues of gone outputs among done are dropped. */
  ghost predicate Dropping(w0: World, insts: seq<Inst>, done: seq<nat>, w: World) {
    && w.replay.Idle? && w.wired == w0.wired && w.max == w0.max && SlotsReloaded(w0, insts, w)
    && w.hist.removed == w0.hist.removed + Gone(w0, insts)
    && QueuesDropped(w0.disk, GoneOf(w0.slots, done, insts), w.disk)
  }

  lemma DropBegins(w0: World, insts: seq<Inst>, w: World)
    requires Stopping(w0, insts, w0.current, w)
    ensures Dropping(w0, insts, [], w)
    ensures !w0.wired ==> Reloaded(w0, insts, w)
  {
    assert GoneOf(w0.slots, [], insts) == {};
  }

  lemma DropOne(w0: World, insts: seq<Inst>, before: seq<nat>, i: nat, w: World)
    requires i < |before| && before == w0.current && Sound(w0) && w0.wired && Dropping(w0, insts, before[..i], w)
    ensures before[i] < |w0.slots| < |w.slots| + 1 && w.slots[before[i]].out == w0.slots[before[i]].out
    ensures var o := w0.slots[before[i]].out;
      if Configured(insts, o) then Dropping(w0, insts, before[..i + 1], w)
      else Enabled(w, DropQueue(o)) && Dropping(w0, insts, before[..i + 1], Apply(w, DropQueue(o)))
  {
    var k := before[i];
    assert k in w0.current;
    assert before[..i + 1] == before[..i] + [k];
    var o := w0.slots[k].out;
    var gone, gone' := GoneOf(w0.slots, before[..i], insts), GoneOf(w0.slots, before[..i + 1], insts);
    assert gone' == if Configured(insts, o) then gone else gone + {o};
  }

}
