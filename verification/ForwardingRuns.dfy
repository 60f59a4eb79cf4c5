/** Over whole runs: no point is lost silently, replay is in id order and never repeats,
    and the cap evicts only the oldest records. */
module ForwardingRuns {
  import opened Backfill
  import opened Forwarding

  // Nothing is lost silently.

  lemma StepKeeps(w: World, step: Step)
    requires Sound(w) && ReplayValid(w) && Enabled(w, step)
    ensures Keeps(w, Apply(w, step))
    ensures forall c :: c in Apply(w, step).hist.given && c !in w.hist.given ==> Somewhere(Apply(w, step), c)
  {
    hide Keeps, Somewhere, Sound, ReplayValid;
    match step
    case Offer(k, dp, commits) => OfferKeeps(w, k, dp, commits);
    case Consume(k, outcome) => ConsumeKeeps(w, k, outcome);
    case OutputSaves(o, dps, commits) => SaveKeeps(w, o, dps, commits);
    case ReplayStart(k) => StartKeeps(w, k);
    case ReplayPush => PushKeeps(w);
    case ReplayAck(done) => AckKeeps(w, done);
    case Swap(insts) => SwapKeeps(w, insts);
    case Stop(k) => StopKeeps(w, k);
    case DropQueue(o) => DropKeeps(w, o);
  }

  lemma SaveKeeps(w: World, o: OutputID, dps: seq<Reading>, commits: bool)
    requires Sound(w) && ReplayValid(w)
    ensures Keeps(w, Saving(w, o, dps, commits))
    ensures forall dp :: dp in dps ==> Somewhere(Saving(w, o, dps, commits), Copy(o, dp))
    ensures Saving(w, o, dps, commits).hist.given == w.hist.given
  {
    SavingKeeps(w, o, dps, commits);
  }

  /** A slot whose channel keeps its points keeps every copy. */
  lemma SlotKeeps(w: World, k: nat, s: Slot)
    requires k < |w.slots| && s.out == w.slots[k].out && forall dp :: dp in w.slots[k].buf ==> dp in s.buf
    ensures Keeps(w, WithSlot(w, k, s))
  {
    var w' := WithSlot(w, k, s);
    forall c | Somewhere(w, c) ensures Somewhere(w', c) {
      assert InFlight(w', c.out) == InFlight(w, c.out);
      if InChannel(w, c) {
        var j :| 0 <= j < |w.slots| && w.slots[j].out == c.out && c.dp in w.slots[j].buf;
        assert c.dp in w'.slots[j].buf;
      }
    }
  }

  lemma OfferKeeps(w: World, k: nat, dp: Reading, commits: bool)
    requires Sound(w) && ReplayValid(w) && k < |w.slots|
    ensures Keeps(w, OfferTo(w, k, dp, commits))
    ensures forall c :: c in OfferTo(w, k, dp, commits).hist.given && c !in w.hist.given ==>
      Somewhere(OfferTo(w, k, dp, commits), c)
  {
    var s := w.slots[k];
    var c := Copy(s.out, dp);
    var w1 := if w.wired && s.capable then w.(hist := w.hist.(given := w.hist.given + {c})) else w;
    var w' := OfferTo(w, k, dp, commits);
    GivenKeeps(w, w1.hist.given);
    if |s.buf| < QUEUE_SIZE {
      SlotKeeps(w1, k, w'.slots[k]);
      assert InChannel(w', c) by {
        assert dp in w'.slots[k].buf;
      }
    } else if w.wired && s.capable {
      var w2 := WithSlot(w1, k, Diverted(s));
      SlotKeeps(w1, k, Diverted(s));
      SlotReplayValid(w1, k, Diverted(s));
      SavingKeeps(w2, s.out, [dp], commits);
      assert w' == Saving(w2, s.out, [dp], commits);
      assert dp in [dp];
    } else {
      SlotKeeps(w1, k, w'.slots[k]);
    }
  }

  lemma GivenKeeps(w: World, given: set<Copy>)
    ensures Keeps(w, w.(hist := w.hist.(given := given)))
    ensures ReplayValid(w) ==> ReplayValid(w.(hist := w.hist.(given := given)))
  {
    forall c | Somewhere(w, c) ensures Somewhere(w.(hist := w.hist.(given := given)), c) {
      assert InFlight(w.(hist := w.hist.(given := given)), c.out) == InFlight(w, c.out);
    }
  }

  lemma SlotReplayValid(w: World, k: nat, s: Slot)
    requires ReplayValid(w) && k < |w.slots| && s.out == w.slots[k].out && s.capable == w.slots[k].capable
    ensures ReplayValid(WithSlot(w, k, s))
  {
  }

  lemma ConsumeKeeps(w: World, k: nat, outcome: Outcome)
    requires Sound(w) && ReplayValid(w) && k < |w.slots| && w.slots[k].buf != []
    ensures Keeps(w, ConsumeFrom(w, k, outcome))
    ensures ConsumeFrom(w, k, outcome).hist.given == w.hist.given
  {
    var s := w.slots[k];
    var s1 := Handed(s);
    var w1 := WithSlot(w, k, s1);
    var w' := ConsumeFrom(w, k, outcome);
    var taken := Copy(s.out, s.buf[0]);
    forall c | Somewhere(w, c) && c != taken ensures Somewhere(w1, c) {
      TakenKeeps(w, k, c);
    }
    match outcome
    case Sent =>
      forall c | Somewhere(w, c) ensures Somewhere(w', c) {
        if c != taken {
          assert InFlight(w', c.out) == InFlight(w1, c.out);
          assert Somewhere(w1, c);
        }
      }
    case SentBack(commits) =>
      SlotReplayValid(w, k, s1);
      SavingKeeps(w1, s.out, [s.buf[0]], commits);
      assert s.buf[0] in [s.buf[0]];
  }

  lemma TakenKeeps(w: World, k: nat, c: Copy)
    requires k < |w.slots| && w.slots[k].buf != [] && c != Copy(w.slots[k].out, w.slots[k].buf[0])
    requires Somewhere(w, c)
    ensures Somewhere(WithSlot(w, k, Handed(w.slots[k])), c)
  {
    var s := w.slots[k];
    var w1 := WithSlot(w, k, Handed(s));
    assert InFlight(w1, c.out) == InFlight(w, c.out);
    if InChannel(w, c) {
      var j :| 0 <= j < |w.slots| && w.slots[j].out == c.out && c.dp in w.slots[j].buf;
      assert s.buf == [s.buf[0]] + s.buf[1..];
      assert c.dp in w1.slots[j].buf;
    }
  }

  lemma StartKeeps(w: World, k: nat)
    requires Enabled(w, ReplayStart(k))
    ensures Keeps(w, Apply(w, ReplayStart(k))) && Apply(w, ReplayStart(k)).hist == w.hist
  {
    var w' := Apply(w, ReplayStart(k));
    forall c | Somewhere(w, c) ensures Somewhere(w', c) {
      assert InFlight(w', c.out) == InFlight(w, c.out) == [];
    }
  }

  lemma PushKeeps(w: World)
    requires ReplayValid(w) && Enabled(w, ReplayPush)
    ensures Keeps(w, Push(w)) && Push(w).hist.given == w.hist.given
  {
    var w', k := Push(w), w.replay.slot;
    var s, x := w.slots[k], w.replay.rest[0];
    assert x in w.replay.rest;
    forall c | Somewhere(w, c) ensures Somewhere(w', c) {
      if InChannel(w, c) {
        var j :| 0 <= j < |w.slots| && w.slots[j].out == c.out && c.dp in w.slots[j].buf;
        assert c.dp in w'.slots[j].buf;
      } else if Queued(w, c) {
        var r :| r in Queue(w.disk, c.out) && r.id !in InFlight(w, c.out) && r.dp == c.dp;
        if c.out == s.out && r.id == x.id {
          assert r == x;
          assert c.dp in w'.slots[k].buf;
        } else {
          assert r.id !in InFlight(w', c.out);
        }
      }
    }
  }

  lemma AckKeeps(w: World, done: nat)
    requires Enabled(w, ReplayAck(done))
    ensures Keeps(w, Apply(w, ReplayAck(done))) && Apply(w, ReplayAck(done)).hist == w.hist
  {
    var w' := Apply(w, ReplayAck(done));
    forall c | Somewhere(w, c) ensures Somewhere(w', c) {
      assert InFlight(w', c.out) == [];
      if Queued(w, c) {
        var r :| r in Queue(w.disk, c.out) && r.id !in InFlight(w, c.out) && r.dp == c.dp;
        assert r in Queue(w'.disk, c.out);
      }
    }
  }

  lemma SwapKeeps(w: World, insts: seq<Inst>)
    requires Sound(w) && ReplayValid(w)
    ensures Keeps(w, SwapIn(w, insts)) && SwapIn(w, insts).hist.given == w.hist.given
  {
    var w' := SwapIn(w, insts);
    forall c | Somewhere(w, c) ensures Somewhere(w', c) {
      assert InFlight(w', c.out) == InFlight(w, c.out);
      if InChannel(w, c) {
        var j :| 0 <= j < |w.slots| && w.slots[j].out == c.out && c.dp in w.slots[j].buf;
        assert w'.slots[j] == w.slots[j];
      }
    }
  }

  lemma StopKeeps(w: World, k: nat)
    requires Enabled(w, Stop(k))
    ensures Keeps(w, Apply(w, Stop(k))) && Apply(w, Stop(k)).hist == w.hist
  {
    SlotKeeps(w, k, w.slots[k].(stopped := true));
  }

  lemma DropKeeps(w: World, o: OutputID)
    requires Enabled(w, DropQueue(o))
    ensures Keeps(w, Apply(w, DropQueue(o))) && Apply(w, DropQueue(o)).hist.given == w.hist.given
  {
    var w' := Apply(w, DropQueue(o));
    forall c | Somewhere(w, c) ensures Somewhere(w', c) {
      assert InFlight(w', c.out) == InFlight(w, c.out);
    }
  }

  lemma {:induction false} RunKeeps(w: World, steps: seq<Step>)
    requires Sound(w) && ReplayValid(w) && Covered(w) && Runs(w, steps)
    ensures forall n :: 0 <= n <= |steps| ==> Runs(w, steps[..n]) && Kept(After(w, steps[..n]))
    decreases |steps|
  {
    hide Sound, ReplayValid, Apply, Somewhere;
    if steps != [] {
      var w1, rest := Apply(w, steps[0]), steps[1..];
      StepSound(w, steps[0]);
      StepKeeps(w, steps[0]);
      forall c | c in w1.hist.given ensures Somewhere(w1, c) {
      }
      RunKeeps(w1, rest);
      hide Kept;
      forall n | 0 < n <= |steps| ensures Runs(w, steps[..n]) && Kept(After(w, steps[..n])) {
        assert steps[..n][1..] == rest[..n - 1] && steps[..n][0] == steps[0];
      }
    }
  }

  ghost predicate Kept(w: World) {
    Sound(w) && ReplayValid(w) && Covered(w)
  }

  predicate Commits(step: Step) {
    match step
    case Offer(_, _, commits) => commits
    case Consume(_, SentBack(commits)) => commits
    case OutputSaves(_, _, commits) => commits
    case _ => true
  }

  lemma {:induction false} NothingFails(w: World, steps: seq<Step>)
    requires w.wired && w.hist.failed == {} && Runs(w, steps) && forall s :: s in steps ==> Commits(s)
    ensures After(w, steps).hist.failed == {}
    decreases |steps|
  {
    if steps != [] {
      assert steps[0] in steps;
      NothingFails(Apply(w, steps[0]), steps[1..]);
    }
  }

  /** When every save commits, each point published to an output with a queue was delivered,
      is in a channel of the output (of a live slot, or left in that of a stopped one), is
      queued, was evicted by the cap, was dropped with the queue of a removed output, or
      cannot be encoded. */
  lemma NothingLostSilently(w: World, steps: seq<Step>)
    requires Begins(w) && w.wired && Runs(w, steps) && forall s :: s in steps ==> Commits(s)
    ensures var w' := After(w, steps);
      forall c :: c in w'.hist.given ==>
        || c in w'.hist.delivered || InChannel(w', c) || Queued(w', c) || c in w'.hist.evicted
        || (c in w'.hist.abandoned && c.out in w'.hist.removed) || !c.dp.encodable
  {
    RunKeeps(w, steps);
    assert steps[..|steps|] == steps;
    NothingFails(w, steps);
    hide After, Queued, InChannel;
    var w' := After(w, steps);
    forall c | c in w'.hist.given ensures
      || c in w'.hist.delivered || InChannel(w', c) || Queued(w', c) || c in w'.hist.evicted
      || (c in w'.hist.abandoned && c.out in w'.hist.removed) || !c.dp.encodable
    {
      assert Somewhere(w', c);
    }
  }

  /** In every reachable state no queue exceeds the cap, no channel its size, and every
      slot accounts for every point: offered and replayed points are received, waiting,
      dropped or diverted, and outputs are handed points in the order they came in. */
  lemma BoundedAndCounted(w: World, steps: seq<Step>)
    requires Begins(w) && Runs(w, steps)
    ensures var w' := After(w, steps);
      && (forall o: OutputID :: |Queue(w'.disk, o)| <= w'.max)
      && forall k :: 0 <= k < |w'.slots| ==> var s := w'.slots[k];
        && |s.buf| <= QUEUE_SIZE
        && s.tally.entered == s.tally.handed + s.buf && s.received == |s.tally.handed|
        && s.tally.offered + s.tally.replayed == s.received + |s.buf| + s.dropped + s.tally.diverted
  {
    RunKeeps(w, steps);
    assert steps[..|steps|] == steps;
    MaxSame(w, steps);
    hide After;
    var w' := After(w, steps);
    forall o: OutputID ensures |Queue(w'.disk, o)| <= w'.max {
      assert QueueValid(Queue(w'.disk, o), w'.disk.nextId, w'.max);
    }
    forall k | 0 <= k < |w'.slots| ensures SlotValid(w'.slots[k]) {
    }
  }

  lemma {:induction false} RunsPrefix(w: World, steps: seq<Step>, n: nat)
    requires Runs(w, steps) && n < |steps|
    ensures Runs(w, steps[..n]) && Enabled(After(w, steps[..n]), steps[n])
    ensures Runs(w, steps[..n + 1]) && After(w, steps[..n + 1]) == Apply(After(w, steps[..n]), steps[n])
    decreases n
  {
    hide Enabled, Apply;
    if n == 0 {
      assert steps[..1] == [steps[0]] && steps[..1][1..] == [];
    } else {
      var rest := steps[1..];
      RunsPrefix(Apply(w, steps[0]), rest, n - 1);
      assert steps[..n][1..] == rest[..n - 1] && steps[..n + 1][1..] == rest[..n] && rest[n - 1] == steps[n];
    }
  }

  /** What becomes of a slot to which a point is offered: with room in its channel the point
      goes in behind all that waits there, and nothing else changes; a full one stays as it
      is, and the point is diverted if there is a queue, or dropped. */
  predicate Taken(s: Slot, s': Slot, dp: Reading, wired: bool) {
    && s'.out == s.out && s'.capable == s.capable && s'.stopped == s.stopped && s'.received == s.received
    && s'.buf == (if |s.buf| < 1024 then s.buf + [dp] else s.buf)
    && s'.tally.diverted == s.tally.diverted + (if |s.buf| >= 1024 && wired && s.capable then 1 else 0)
    && s'.dropped == s.dropped + (if |s.buf| >= 1024 && !(wired && s.capable) then 1 else 0)
  }

  lemma OfferTakes(w: World, k: nat, dp: Reading, commits: bool)
    requires k < |w.slots|
    ensures var w' := OfferTo(w, k, dp, commits);
      && |w'.slots| == |w.slots| && Taken(w.slots[k], w'.slots[k], dp, w.wired)
      && (forall j :: 0 <= j < |w.slots| && j != k ==> w'.slots[j] == w.slots[j])
      && (|w.slots[k].buf| < 1024 || !(w.wired && w.slots[k].capable && commits) ==> w'.disk == w.disk)
      && (|w.slots[k].buf| < 1024 ==> w'.hist.failed == w.hist.failed)
  {
    hide SavedTo;
  }

  /** A step that offers nothing to a slot neither drops nor diverts anything there. */
  lemma OthersTake(w: World, step: Step, k: nat)
    requires Enabled(w, step) && k < |w.slots|
    ensures var w' := Apply(w, step);
      && k < |w'.slots| && w'.slots[k].out == w.slots[k].out
      && ((step.Offer? && step.slot == k) ||
           (w'.slots[k].dropped == w.slots[k].dropped && w'.slots[k].tally.diverted == w.slots[k].tally.diverted))
  {
    hide SavedTo, AckedOf, DroppedOf, RecCopies;
    if step.Offer? {
      OfferTakes(w, step.slot, step.dp, step.commits);
      hide OfferTo;
    }
  }

  /** In every run, a point offered to a slot is taken so, and no point is dropped or
      diverted, nor does its save fail, but while the channel holds its 1024 points. */
  lemma OnlyWhenFull(w: World, steps: seq<Step>, n: nat, k: nat)
    requires Begins(w) && Runs(w, steps) && n < |steps| && Runs(w, steps[..n]) && Runs(w, steps[..n + 1])
    requires k < |After(w, steps[..n]).slots|
    ensures var w0, w1 := After(w, steps[..n]), After(w, steps[..n + 1]);
      && k < |w1.slots|
      && var s, s', offered := w0.slots[k], w1.slots[k], steps[n].Offer? && steps[n].slot == k;
      && (offered ==> Taken(s, s', steps[n].dp, w0.wired))
      && (offered && |s.buf| < 1024 ==> w1.disk == w0.disk && w1.hist.failed == w0.hist.failed)
      && (s'.dropped != s.dropped || s'.tally.diverted != s.tally.diverted ==> offered && |s.buf| == 1024)
  {
    RunsPrefix(w, steps, n);
    RunKeeps(w, steps[..n]);
    assert steps[..n][..n] == steps[..n];
    var w0 := After(w, steps[..n]);
    assert SlotValid(w0.slots[k]);
    hide After, Runs, Kept, Apply, Enabled;
    OthersTake(w0, steps[n], k);
    if steps[n].Offer? && steps[n].slot == k {
      OfferTakes(w0, k, steps[n].dp, steps[n].commits);
      assert Apply(w0, steps[n]) == OfferTo(w0, k, steps[n].dp, steps[n].commits) by {
        OfferApplies(w0, k, steps[n].dp, steps[n].commits);
      }
    }
  }

  lemma OfferApplies(w: World, k: nat, dp: Reading, commits: bool)
    requires Enabled(w, Offer(k, dp, commits)) && k < |w.slots|
    ensures Apply(w, Offer(k, dp, commits)) == OfferTo(w, k, dp, commits)
  {
  }

  lemma {:induction false} MaxSame(w: World, steps: seq<Step>)
    requires Runs(w, steps)
    ensures After(w, steps).max == w.max
    decreases |steps|
  {
    if steps != [] {
      MaxSame(Apply(w, steps[0]), steps[1..]);
    }
  }

  // Replay order.

  ghost predicate Ascending(ids: seq<nat>) {
    forall i, j :: 0 <= i < j < |ids| ==> ids[i] < ids[j]
  }

  ghost predicate AllBelow(ids: seq<nat>, bound: nat) {
    forall i :: 0 <= i < |ids| ==> ids[i] < bound
  }

  /** Everything replayed for o is older than everything still to replay. */
  ghost predicate InOrder(w: World, o: OutputID) {
    && Ascending(Pushed(w, o)) && AllBelow(Pushed(w, o), w.disk.nextId)
    && (forall r :: r in Queue(w.disk, o) && r.id !in InFlight(w, o) ==> AllBelow(Pushed(w, o), r.id))
    && (Replays(w, o) ==> RestNext(w.replay.rest, Queue(w.disk, o), w.replay.acked, Pushed(w, o)))
  }

  /** What is left of the batch comes after all that was replayed and before all else queued. */
  ghost predicate RestNext(rest: seq<Rec>, q: seq<Rec>, acked: seq<nat>, ids: seq<nat>) {
    && (forall i :: 0 <= i < |rest| ==> AllBelow(ids, rest[i].id))
    && forall r :: r in q && r.id !in acked ==> r in rest || forall i :: 0 <= i < |rest| ==> rest[i].id < r.id
  }

  predicate Replays(w: World, o: OutputID) {
    w.replay.Replaying? && w.replay.slot < |w.slots| && w.slots[w.replay.slot].out == o
  }

  ghost predicate AllInOrder(w: World) {
    forall o: OutputID ::
      InOrder(w, o)
  }

  /** Every acknowledgement deletes all it was given. */
  predicate Acks(w: World, step: Step) {
    step.ReplayAck? && w.replay.Replaying? ==> step.done == |w.replay.acked|
  }

  predicate RunsAcking(w: World, steps: seq<Step>)
    decreases |steps|
  {
    || steps == []
    || (Enabled(w, steps[0]) && Acks(w, steps[0]) && RunsAcking(Apply(w, steps[0]), steps[1..]))
  }

  /** A save leaves order as it is: its records get new ids. */
  lemma SavingInOrder(w: World, o: OutputID, dps: seq<Reading>, commits: bool)
    requires Sound(w) && ReplayValid(w) && AllInOrder(w)
    ensures AllInOrder(Saving(w, o, dps, commits))
  {
    var w' := Saving(w, o, dps, commits);
    forall p: OutputID ensures InOrder(w', p) {
      assert InOrder(w, p);
      assert Pushed(w', p) == Pushed(w, p) && InFlight(w', p) == InFlight(w, p) && (Replays(w', p) <==> Replays(w, p));
      SavedRecords(w, o, dps, commits, p);
      NewerInOrder(w, w', p);
    }
  }

  /** After a save a queue holds records from before or with new ids. */
  lemma SavedRecords(w: World, o: OutputID, dps: seq<Reading>, commits: bool, p: OutputID)
    requires Sound(w)
    ensures var w' := Saving(w, o, dps, commits);
      && w.disk.nextId <= w'.disk.nextId
      && forall r :: r in Queue(w'.disk, p) ==> r in Queue(w.disk, p) || r.id >= w.disk.nextId
  {
    var w' := Saving(w, o, dps, commits);
    if w.wired && commits && dps != [] {
      SaveSplits(w.disk, o, dps, w.max);
      SaveValid(w.disk, o, dps, w.max);
      forall r | r in Queue(w'.disk, o) ensures r in Queue(w.disk, o) || r.id >= w.disk.nextId {
        assert r in Longer(w.disk, o, dps);
      }
    }
  }

  lemma NewerInOrder(w: World, w': World, o: OutputID)
    requires ReplayValid(w) && InOrder(w, o) && w'.replay == w.replay && w'.slots == w.slots
    requires Pushed(w', o) == Pushed(w, o) && w.disk.nextId <= w'.disk.nextId
    requires forall r :: r in Queue(w'.disk, o) ==> r in Queue(w.disk, o) || r.id >= w.disk.nextId
    ensures InOrder(w', o)
  {
    assert InFlight(w', o) == InFlight(w, o) && (Replays(w', o) <==> Replays(w, o));
    forall r | r in Queue(w'.disk, o) && r.id !in InFlight(w, o) ensures AllBelow(Pushed(w, o), r.id) {
    }
    if Replays(w, o) {
      var rest := w.replay.rest;
      forall r | r in Queue(w'.disk, o) && r.id !in w.replay.acked
        ensures r in rest || forall i :: 0 <= i < |rest| ==> rest[i].id < r.id
      {
      }
    }
  }

  /** Nothing but the parts named changes the order. */
  lemma SameOrder(w: World, w': World)
    requires AllInOrder(w) && w'.disk == w.disk && w'.replay == w.replay && w'.hist.pushed == w.hist.pushed
    requires |w.slots| <= |w'.slots| && forall k :: 0 <= k < |w.slots| ==> w'.slots[k].out == w.slots[k].out
    requires ReplayValid(w)
    ensures AllInOrder(w')
  {
    forall o: OutputID ensures InOrder(w', o) {
      assert InOrder(w, o) && Pushed(w', o) == Pushed(w, o) && InFlight(w', o) == InFlight(w, o);
    }
  }

  lemma PushInOrder(w: World)
    requires ReplayValid(w) && AllInOrder(w) && Enabled(w, ReplayPush)
    ensures AllInOrder(Push(w))
  {
    var w', out := Push(w), w.slots[w.replay.slot].out;
    var x := w.replay.rest[0];
    forall o: OutputID ensures InOrder(w', o) {
      assert InOrder(w, o);
      if o == out {
        assert Pushed(w', o) == Pushed(w, o) + [x.id] && InFlight(w', o) == w.replay.acked + [x.id];
        RestLater(w.replay.rest, Queue(w.disk, o), w.replay.acked, Pushed(w, o));
      } else {
        assert Pushed(w', o) == Pushed(w, o) && InFlight(w', o) == InFlight(w, o);
      }
    }
  }

  lemma RestLater(rest: seq<Rec>, q: seq<Rec>, acked: seq<nat>, ids: seq<nat>)
    requires rest != [] && Increasing(rest) && Ascending(ids) && RestNext(rest, q, acked, ids)
    requires forall r :: r in q && r.id !in acked ==> AllBelow(ids, r.id)
    ensures var x := rest[0];
      && Ascending(ids + [x.id])
      && RestNext(rest[1..], q, acked + [x.id], ids + [x.id])
      && forall r :: r in q && r.id !in acked + [x.id] ==> AllBelow(ids + [x.id], r.id)
  {
    var x := rest[0];
    assert AllBelow(ids, x.id);
    assert rest == [x] + rest[1..];
    forall r | r in q && r.id !in acked + [x.id] ensures r.id > x.id && (r in rest ==> r in rest[1..]) {
      assert r.id !in acked && r.id != x.id;
    }
    forall i | 0 <= i < |rest| - 1 ensures AllBelow(ids + [x.id], rest[1..][i].id) {
      assert rest[1..][i] == rest[i + 1];
      assert AllBelow(ids, rest[i + 1].id);
    }
  }

  lemma StartInOrder(w: World, k: nat)
    requires Sound(w) && AllInOrder(w) && Enabled(w, ReplayStart(k))
    ensures AllInOrder(Apply(w, ReplayStart(k)))
  {
    var w', out := Apply(w, ReplayStart(k)), w.slots[k].out;
    var q := Queue(w.disk, out);
    assert QueueValid(q, w.disk.nextId, w.max);
    forall o: OutputID ensures InOrder(w', o) {
      assert InOrder(w, o) && Pushed(w', o) == Pushed(w, o) && InFlight(w', o) == InFlight(w, o) == [];
      if w'.replay.Replaying? && o == out {
        BatchNext(q, Pushed(w, o));
      }
    }
  }

  lemma BatchNext(q: seq<Rec>, ids: seq<nat>)
    requires Increasing(q) && forall r :: r in q ==> AllBelow(ids, r.id)
    ensures RestNext(Batch(q), q, [], ids)
  {
    var rest := Batch(q);
    assert rest <= q;
    forall r | r in q ensures r in rest || forall i :: 0 <= i < |rest| ==> rest[i].id < r.id {
      var j :| 0 <= j < |q| && q[j] == r;
      if j < |rest| {
        assert rest[j] == r;
      }
    }
  }

  lemma AckInOrder(w: World)
    requires ReplayValid(w) && AllInOrder(w) && w.replay.Replaying?
    ensures AllInOrder(Apply(w, ReplayAck(|w.replay.acked|)))
  {
    var w' := Apply(w, ReplayAck(|w.replay.acked|));
    var acked := w.replay.acked;
    assert acked[..|acked|] == acked;
    forall o: OutputID ensures InOrder(w', o) {
      assert InOrder(w, o) && Pushed(w', o) == Pushed(w, o) && InFlight(w', o) == [];
    }
  }

  lemma DropInOrder(w: World, o: OutputID)
    requires AllInOrder(w) && Enabled(w, DropQueue(o))
    ensures AllInOrder(Apply(w, DropQueue(o)))
  {
    var w' := Apply(w, DropQueue(o));
    forall p: OutputID ensures InOrder(w', p) {
      assert InOrder(w, p) && Pushed(w', p) == Pushed(w, p) && InFlight(w', p) == InFlight(w, p);
    }
  }

  lemma StepInOrder(w: World, step: Step)
    requires Sound(w) && ReplayValid(w) && AllInOrder(w) && Enabled(w, step) && Acks(w, step)
    ensures AllInOrder(Apply(w, step))
  {
    match step
    case Offer(k, dp, commits) => OfferInOrder(w, k, dp, commits);
    case Consume(k, outcome) => ConsumeInOrder(w, k, outcome);
    case OutputSaves(o, dps, commits) => SavingInOrder(w, o, dps, commits);
    case ReplayStart(k) => StartInOrder(w, k);
    case ReplayPush => PushInOrder(w);
    case ReplayAck(done) => AckInOrder(w);
    case Swap(insts) => SameOrder(w, SwapIn(w, insts));
    case Stop(k) => SameOrder(w, Apply(w, Stop(k)));
    case DropQueue(o) => DropInOrder(w, o);
  }

  lemma OfferInOrder(w: World, k: nat, dp: Reading, commits: bool)
    requires Sound(w) && ReplayValid(w) && AllInOrder(w) && k < |w.slots|
    ensures AllInOrder(OfferTo(w, k, dp, commits))
  {
    var s := w.slots[k];
    if |s.buf| >= QUEUE_SIZE && w.wired && s.capable {
      var w1 := w.(hist := w.hist.(given := w.hist.given + {Copy(s.out, dp)}));
      var w2 := WithSlot(w1, k, Diverted(s));
      SameOrder(w, w2);
      SavingInOrder(w2, s.out, [dp], commits);
    } else {
      SameOrder(w, OfferTo(w, k, dp, commits));
    }
  }

  lemma ConsumeInOrder(w: World, k: nat, outcome: Outcome)
    requires Sound(w) && ReplayValid(w) && AllInOrder(w) && k < |w.slots| && w.slots[k].buf != []
    ensures AllInOrder(ConsumeFrom(w, k, outcome))
  {
    var s := w.slots[k];
    var w1 := WithSlot(w, k, Handed(s));
    SameOrder(w, w1);
    if outcome.SentBack? {
      HandedValid(w.slots[k]);
      SavingInOrder(w1, s.out, [s.buf[0]], outcome.commits);
    } else {
      SameOrder(w, ConsumeFrom(w, k, outcome));
    }
  }

  lemma {:induction false} RunInOrder(w: World, steps: seq<Step>)
    requires Sound(w) && ReplayValid(w) && AllInOrder(w) && RunsAcking(w, steps)
    ensures Runs(w, steps) && AllInOrder(After(w, steps))
    decreases |steps|
  {
    hide Sound, ReplayValid, AllInOrder, Apply, Enabled;
    if steps != [] {
      StepSound(w, steps[0]);
      StepInOrder(w, steps[0]);
      RunInOrder(Apply(w, steps[0]), steps[1..]);
    }
  }

  /** While acknowledgements succeed, the records replay puts into channels of an output
      have strictly increasing ids: queue order, and none twice. */
  lemma ReplayInOrder(w: World, steps: seq<Step>, o: OutputID)
    requires Begins(w) && RunsAcking(w, steps)
    ensures Runs(w, steps) && Ascending(Pushed(After(w, steps), o))
  {
    forall p: OutputID ensures InOrder(w, p) {
    }
    RunInOrder(w, steps);
    hide After;
    assert InOrder(After(w, steps), o);
  }

  predicate CanReplay(w: World, k: nat) {
    Enabled(w, ReplayStart(k)) && Queue(w.disk, w.slots[k].out) != [] && |w.slots[k].buf| < QUEUE_SIZE
  }

  function FirstPush(w: World, k: nat): World
    requires CanReplay(w, k)
  {
    Push(Apply(w, ReplayStart(k)))
  }

  /** A failed acknowledgement is all it takes to replay a record twice: from any state
      where a round can begin, push one record, fail to acknowledge it, and push again. */
  lemma FailedAckRepeats(w: World, k: nat)
    requires CanReplay(w, k) && |w.slots[k].buf| < QUEUE_SIZE - 1
    ensures Enabled(Apply(w, ReplayStart(k)), ReplayPush) && Enabled(FirstPush(w, k), ReplayAck(0))
    ensures var o := w.slots[k].out;
      var id := Queue(w.disk, o)[0].id;
      var again := Apply(FirstPush(w, k), ReplayAck(0));
      CanReplay(again, k) && Pushed(FirstPush(again, k), o) == Pushed(w, o) + [id, id]
  {
    assert FirstPush(w, k).replay.acked[..0] == [];
    var again := Apply(FirstPush(w, k), ReplayAck(0));
    PushesFirst(w, k);
    hide FirstPush;
    PushesFirst(again, k);
  }

  lemma PushesFirst(w: World, k: nat)
    requires CanReplay(w, k)
    ensures var o := w.slots[k].out; Pushed(FirstPush(w, k), o) == Pushed(w, o) + [Queue(w.disk, o)[0].id]
  {
  }

  lemma RunsOne(w: World, step: Step)
    requires Enabled(w, step)
    ensures Runs(w, [step]) && After(w, [step]) == Apply(w, step)
    ensures Acks(w, step) ==> RunsAcking(w, [step])
  {
    hide Enabled, Apply, Acks;
    assert [step][1..] == [];
    assert Runs(Apply(w, step), []) && RunsAcking(Apply(w, step), []);
  }

  lemma {:induction false} RunsAckingMore(w: World, a: seq<Step>, b: seq<Step>)
    requires RunsAcking(w, a) && Runs(w, a) && RunsAcking(After(w, a), b)
    ensures RunsAcking(w, a + b)
    decreases |a|
  {
    hide Enabled, Apply, Acks;
    if a == [] {
      assert a + b == b;
    } else {
      assert (a + b)[1..] == a[1..] + b;
      RunsAckingMore(Apply(w, a[0]), a[1..], b);
    }
  }

  /** steps lead from one world to another. */
  ghost predicate Ran(w0: World, steps: seq<Step>, w: World) {
    && Runs(w0, steps)
    && After(w0, steps) == w
  }

  lemma RanNone(w: World)
    ensures Ran(w, [], w) && RunsAcking(w, [])
  {
  }

  /** A run and one more step. */
  lemma RanMore(w0: World, steps: seq<Step>, w: World, step: Step)
    requires Ran(w0, steps, w) && Enabled(w, step)
    ensures Ran(w0, steps + [step], Apply(w, step))
    ensures RunsAcking(w0, steps) && Acks(w, step) ==> RunsAcking(w0, steps + [step])
  {
    RunsOne(w, step);
    RunsMore(w0, steps, [step]);
    if RunsAcking(w0, steps) && Acks(w, step) {
      RunsAckingMore(w0, steps, [step]);
    }
  }

}
