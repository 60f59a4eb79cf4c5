/** Publishing, consuming, saving, replaying and reloading as interleaved steps
    (internal/output/manager.go over internal/backfill/backfill.go). Each step is one
    critical section, channel operation or database transaction of the source. */
module Forwarding {
  import opened Backfill

  const QUEUE_SIZE := 1024
  const REPLAY_BATCH := 256

  /** A slot and its bounded channel. received and dropped are the source's counters; the
      tally only records what happened: how many points were offered by Publish, replayed,
      and diverted to the queue or to a failed save, and which entered the channel and were
      handed to the output, in order. */
  datatype Slot = Slot(out: OutputID, capable: bool, stopped: bool, buf: seq<Reading>,
                       received: nat, dropped: nat, tally: Tally)

  datatype Tally = Tally(offered: nat, replayed: nat, diverted: nat, entered: seq<Reading>, handed: seq<Reading>)

  const BLANK := Tally(0, 0, 0, [], [])

  datatype Inst = Inst(out: OutputID, capable: bool)

  /** A point as given to one output. */
  datatype Copy = Copy(out: OutputID, dp: Reading)

  datatype Replay = Idle | Replaying(slot: nat, rest: seq<Rec>, acked: seq<nat>)

  /** What became of copies that are neither in a channel nor in a queue; and the ids that
      replay has put into channels, by output. */
  datatype History = History(given: set<Copy>, delivered: set<Copy>, evicted: set<Copy>, abandoned: set<Copy>,
                             skipped: set<Copy>, failed: set<Copy>, removed: set<OutputID>,
                             pushed: map<OutputID, seq<nat>>)

  /** slots are all slots ever started, by number; current are those of the last reload. A
      goroutine may hold an old slot, so steps may name any slot. */
  datatype World = World(wired: bool, max: nat, disk: Disk, slots: seq<Slot>, current: seq<nat>,
                         replay: Replay, hist: History)

  datatype Outcome = Sent | SentBack(commits: bool)

  datatype Step =
    | Offer(slot: nat, dp: Reading, commits: bool)
    | Consume(slot: nat, outcome: Outcome)
    | OutputSaves(out: OutputID, dps: seq<Reading>, commits: bool)
    | ReplayStart(slot: nat)
    | ReplayPush
    | ReplayAck(done: nat)
    | Swap(insts: seq<Inst>)
    | Stop(slot: nat)
    | DropQueue(out: OutputID)

  function Copies(o: OutputID, dps: seq<Reading>): set<Copy> {
    set dp | dp in dps :: Copy(o, dp)
  }

  function RecCopies(o: OutputID, q: seq<Rec>): set<Copy> {
    set r | r in q :: Copy(o, r.dp)
  }

  function Pushed(w: World, o: OutputID): seq<nat> {
    if o in w.hist.pushed then w.hist.pushed[o] else []
  }

  /** Saving points of an output that did not go out. */
  function Saving(w: World, o: OutputID, dps: seq<Reading>, commits: bool): World {
    if dps == [] then w
    else if w.wired && commits then
      w.(disk := SavedTo(w.disk, o, dps, w.max),
         hist := w.hist.(evicted := w.hist.evicted + RecCopies(o, Evicted(Longer(w.disk, o, dps), w.max)),
                         skipped := w.hist.skipped + (set c | c in Copies(o, dps) && !c.dp.encodable)))
    else
      w.(hist := w.hist.(failed := w.hist.failed + Copies(o, dps)))
  }

  function WithSlot(w: World, k: nat, s: Slot): World
    requires k < |w.slots|
  {
    w.(slots := w.slots[k := s])
  }

  function Diverted(s: Slot): Slot {
    s.(tally := s.tally.(offered := s.tally.offered + 1, diverted := s.tally.diverted + 1))
  }

  function Entered(s: Slot, dp: Reading): Slot {
    s.(buf := s.buf + [dp], tally := s.tally.(entered := s.tally.entered + [dp]))
  }

  function Handed(s: Slot): Slot
    requires s.buf != []
  {
    s.(buf := s.buf[1..], received := s.received + 1, tally := s.tally.(handed := s.tally.handed + [s.buf[0]]))
  }

  function OfferTo(w: World, k: nat, dp: Reading, commits: bool): World
    requires k < |w.slots|
  {
    var s := w.slots[k];
    var w1 := if w.wired && s.capable then w.(hist := w.hist.(given := w.hist.given + {Copy(s.out, dp)})) else w;
    var s1 := s.(tally := s.tally.(offered := s.tally.offered + 1));
    if |s.buf| < QUEUE_SIZE then WithSlot(w1, k, Entered(s1, dp))
    else if w.wired && s.capable then Saving(WithSlot(w1, k, Diverted(s)), s.out, [dp], commits)
    else WithSlot(w1, k, s1.(dropped := s.dropped + 1))
  }

  function ConsumeFrom(w: World, k: nat, outcome: Outcome): World
    requires k < |w.slots| && w.slots[k].buf != []
  {
    var s := w.slots[k];
    var w1 := WithSlot(w, k, Handed(s));
    match outcome
    case Sent => w1.(hist := w1.hist.(delivered := w1.hist.delivered + {Copy(s.out, s.buf[0])}))
    case SentBack(commits) => Saving(w1, s.out, [s.buf[0]], commits)
  }

  function Batch(q: seq<Rec>): seq<Rec> {
    if |q| <= REPLAY_BATCH then q else q[..REPLAY_BATCH]
  }

  function Push(w: World): World
    requires w.replay.Replaying? && w.replay.slot < |w.slots| && w.replay.rest != []
  {
    var r := w.replay;
    var s := w.slots[r.slot];
    WithSlot(w, r.slot, Entered(s.(tally := s.tally.(replayed := s.tally.replayed + 1)), r.rest[0].dp))
      .(replay := Replaying(r.slot, r.rest[1..], r.acked + [r.rest[0].id]),
        hist := w.hist.(pushed := w.hist.pushed[s.out := Pushed(w, s.out) + [r.rest[0].id]]))
  }

  function Started(insts: seq<Inst>): (s: seq<Slot>)
    ensures |s| == |insts|
    ensures forall i :: 0 <= i < |s| ==> s[i] == Slot(insts[i].out, insts[i].capable, false, [], 0, 0, BLANK)
  {
    seq(|insts|, i requires 0 <= i < |insts| =>
      Slot(insts[i].out, insts[i].capable, false, [], 0, 0, BLANK))
  }

  predicate Configured(insts: seq<Inst>, o: OutputID) {
    exists i :: 0 <= i < |insts| && insts[i].out == o
  }

  /** Outputs of some slots that the new configuration no longer has. */
  function GoneOf(slots: seq<Slot>, ks: seq<nat>, insts: seq<Inst>): set<OutputID> {
    set k | k in ks && k < |slots| && !Configured(insts, slots[k].out) :: slots[k].out
  }

  function Gone(w: World, insts: seq<Inst>): set<OutputID> {
    GoneOf(w.slots, w.current, insts)
  }

  function SwapIn(w: World, insts: seq<Inst>): World {
    var n := |w.slots|;
    w.(slots := w.slots + Started(insts), current := seq(|insts|, i requires 0 <= i < |insts| => n + i),
       hist := w.hist.(removed := w.hist.removed + Gone(w, insts)))
  }

  predicate Enabled(w: World, step: Step) {
    match step
    case Offer(k, _, _) => k < |w.slots|
    case Consume(k, outcome) =>
      && k < |w.slots| && !w.slots[k].stopped && w.slots[k].buf != []
      && (outcome.SentBack? && outcome.commits ==> w.slots[k].capable)
    case OutputSaves(o, dps, _) => Copies(o, dps) <= w.hist.delivered
    case ReplayStart(k) => w.wired && w.replay.Idle? && k < |w.slots| && w.slots[k].capable
    case ReplayPush =>
      && w.replay.Replaying? && w.replay.slot < |w.slots| && w.replay.rest != []
      && |w.slots[w.replay.slot].buf| < QUEUE_SIZE
    case ReplayAck(done) => w.replay.Replaying? && w.replay.slot < |w.slots| && done <= |w.replay.acked|
    case Swap(_) => true
    case Stop(k) => k < |w.slots| && k !in w.current
    case DropQueue(o) => w.wired && o in w.hist.removed
  }

  function Apply(w: World, step: Step): World
    requires Enabled(w, step)
  {
    match step
    case Offer(k, dp, commits) => OfferTo(w, k, dp, commits)
    case Consume(k, outcome) => ConsumeFrom(w, k, outcome)
    case OutputSaves(o, dps, commits) => Saving(w, o, dps, commits)
    case ReplayStart(k) =>
      var items := Batch(Queue(w.disk, w.slots[k].out));
      w.(replay := if items == [] then Idle else Replaying(k, items, []))
    case ReplayPush => Push(w)
    case ReplayAck(done) =>
      w.(disk := AckedOf(w.disk, w.slots[w.replay.slot].out, w.replay.acked[..done]), replay := Idle)
    case Swap(insts) => SwapIn(w, insts)
    case Stop(k) => WithSlot(w, k, w.slots[k].(stopped := true))
    case DropQueue(o) =>
      w.(disk := DroppedOf(w.disk, o),
         hist := w.hist.(abandoned := w.hist.abandoned + RecCopies(o, Queue(w.disk, o))))
  }

  predicate Runs(w: World, steps: seq<Step>)
    decreases |steps|
  {
    || steps == []
    || (Enabled(w, steps[0]) && Runs(Apply(w, steps[0]), steps[1..]))
  }

  function After(w: World, steps: seq<Step>): World
    requires Runs(w, steps)
    decreases |steps|
  {
    if steps == [] then w else After(Apply(w, steps[0]), steps[1..])
  }

  lemma {:induction false} RunsMore(w: World, a: seq<Step>, b: seq<Step>)
    requires Runs(w, a) && Runs(After(w, a), b)
    ensures Runs(w, a + b) && After(w, a + b) == After(After(w, a), b)
    decreases |a|
  {
    hide Enabled, Apply;
    if a == [] {
      assert a + b == b;
    } else {
      assert (a + b)[1..] == a[1..] + b;
      RunsMore(Apply(w, a[0]), a[1..], b);
    }
  }

  // What every run keeps.

  /** The ids a replay in progress has put into a channel and not yet acknowledged. */
  function InFlight(w: World, o: OutputID): seq<nat> {
    if w.replay.Replaying? && w.replay.slot < |w.slots| && w.slots[w.replay.slot].out == o then w.replay.acked else []
  }

  predicate Queued(w: World, c: Copy) {
    exists r :: r in Queue(w.disk, c.out) && r.id !in InFlight(w, c.out) && r.dp == c.dp
  }

  predicate InChannel(w: World, c: Copy) {
    exists k :: 0 <= k < |w.slots| && w.slots[k].out == c.out && c.dp in w.slots[k].buf
  }

  predicate Somewhere(w: World, c: Copy) {
    || c in w.hist.delivered || Queued(w, c) || InChannel(w, c)
    || c in w.hist.evicted || c in w.hist.abandoned || c in w.hist.skipped || c in w.hist.failed
  }

  ghost predicate Covered(w: World) {
    forall c :: c in w.hist.given ==> Somewhere(w, c)
  }

  ghost predicate SlotValid(s: Slot) {
    && |s.buf| <= QUEUE_SIZE
    && s.tally.entered == s.tally.handed + s.buf && s.received == |s.tally.handed|
    && s.tally.offered + s.tally.replayed == s.received + |s.buf| + s.dropped + s.tally.diverted
  }

  ghost predicate Sound(w: World) {
    && DiskValid(w.disk, w.max)
    && (forall k :: 0 <= k < |w.slots| ==> SlotValid(w.slots[k]))
    && (forall k :: k in w.current ==> k < |w.slots| && !w.slots[k].stopped)
    && (forall c :: c in w.hist.skipped ==> !c.dp.encodable)
    && (forall c :: c in w.hist.abandoned ==> c.out in w.hist.removed)
  }

  /** A replay in progress holds records as they were queued. */
  ghost predicate ReplayValid(w: World) {
    w.replay.Replaying? ==>
      && w.replay.slot < |w.slots| && w.slots[w.replay.slot].capable
      && Increasing(w.replay.rest) && Below(w.replay.rest, w.disk.nextId)
      && (forall id :: id in w.replay.acked ==> id < w.disk.nextId)
      && forall x, r :: x in w.replay.rest && r in Queue(w.disk, w.slots[w.replay.slot].out) && r.id == x.id ==> r == x
  }

  ghost predicate Begins(w: World) {
    && w.slots == [] && w.current == [] && w.replay == Idle && DiskValid(w.disk, w.max)
    && w.hist == History({}, {}, {}, {}, {}, {}, {}, map[])
  }

  /** A place kept: everything a copy could be found in before, it can be found in after. */
  ghost predicate Keeps(w: World, w': World) {
    forall c ::
      Somewhere(w, c) ==> Somewhere(w', c)
  }

  lemma SavingKeeps(w: World, o: OutputID, dps: seq<Reading>, commits: bool)
    requires DiskValid(w.disk, w.max) && ReplayValid(w)
    ensures Keeps(w, Saving(w, o, dps, commits))
    ensures forall dp :: dp in dps ==> Somewhere(Saving(w, o, dps, commits), Copy(o, dp))
  {
    var w' := Saving(w, o, dps, commits);
    if w.wired && commits && dps != [] {
      var q, q' := Longer(w.disk, o, dps), Queue(w'.disk, o);
      var gone, sent := Evicted(q, w.max), InFlight(w, o);
      SaveSplits(w.disk, o, dps, w.max);
      SaveValid(w.disk, o, dps, w.max);
      LongerHas(w.disk, o, dps);
      hide SavedTo, Longer, Inserted, Evicted;
      assert w'.slots == w.slots && InFlight(w', o) == sent;
      forall r | r in q && r.id !in sent ensures Copy(o, r.dp) in w'.hist.evicted || Queued(w', Copy(o, r.dp)) {
        assert r in gone + q';
        assert r in gone ==> Copy(o, r.dp) in RecCopies(o, gone);
      }
      forall dp | dp in dps ensures Somewhere(w', Copy(o, dp)) {
        if dp.encodable {
          var r :| r in q && r.id >= w.disk.nextId && r.dp == dp;
          assert r.id !in sent;
        }
      }
      forall c | Somewhere(w, c) ensures Somewhere(w', c) {
        if c.out == o && Queued(w, c) {
          var r :| r in Queue(w.disk, o) && r.id !in sent && r.dp == c.dp;
        }
      }
    }
  }

  lemma LongerHas(d: Disk, o: OutputID, dps: seq<Reading>)
    ensures forall r :: r in Queue(d, o) ==> r in Longer(d, o, dps)
    ensures forall dp :: dp in dps && dp.encodable ==>
      exists r :: r in Longer(d, o, dps) && r.id >= d.nextId && r.dp == dp
  {
    InsertedHas(dps, d.nextId);
    forall dp | dp in dps && dp.encodable
      ensures exists r :: r in Longer(d, o, dps) && r.id >= d.nextId && r.dp == dp
    {
      var r :| r in Inserted(dps, d.nextId) && r.dp == dp;
      assert r in Longer(d, o, dps);
    }
  }

  lemma {:induction false} InsertedHas(dps: seq<Reading>, firstId: nat)
    ensures forall dp :: dp in dps && dp.encodable ==> exists r :: r in Inserted(dps, firstId) && r.dp == dp
  {
    if dps != [] {
      var init := dps[..|dps| - 1];
      InsertedHas(init, firstId);
      forall dp | dp in dps && dp.encodable ensures exists r :: r in Inserted(dps, firstId) && r.dp == dp {
        if dp in init {
          var r :| r in Inserted(init, firstId) && r.dp == dp;
          assert r in Inserted(dps, firstId);
        } else {
          var q := Inserted(dps, firstId);
          assert q[|q| - 1].dp == dp;
        }
      }
    }
  }

  /** A save keeps the table and a replay in progress valid. */
  lemma SavingSound(w: World, o: OutputID, dps: seq<Reading>, commits: bool)
    requires DiskValid(w.disk, w.max) && ReplayValid(w)
    ensures DiskValid(Saving(w, o, dps, commits).disk, w.max) && ReplayValid(Saving(w, o, dps, commits))
  {
    var w' := Saving(w, o, dps, commits);
    SaveValid(w.disk, o, dps, w.max);
    if w.wired && commits && dps != [] {
      SaveSplits(w.disk, o, dps, w.max);
      hide DiskValid, Evicted;
      forall r | r in Queue(w'.disk, o) ensures r in Queue(w.disk, o) || r.id >= w.disk.nextId {
        assert r in Longer(w.disk, o, dps);
      }
    }
  }

  lemma StepSound(w: World, step: Step)
    requires Sound(w) && ReplayValid(w) && Enabled(w, step)
    ensures Sound(Apply(w, step)) && ReplayValid(Apply(w, step))
  {
    hide Sound, ReplayValid;
    match step
    case Offer(k, dp, commits) => OfferSound(w, k, dp, commits);
    case Consume(k, outcome) => ConsumeSound(w, k, outcome);
    case OutputSaves(o, dps, commits) => SaveSound(w, o, dps, commits);
    case ReplayStart(k) => StartSound(w, k);
    case ReplayPush => PushSound(w);
    case ReplayAck(done) => AckSound(w, done);
    case Swap(insts) => SwapSound(w, insts);
    case Stop(k) => StopSound(w, k);
    case DropQueue(o) => DropSound(w, o);
  }

  lemma OfferSound(w: World, k: nat, dp: Reading, commits: bool)
    requires Sound(w) && ReplayValid(w) && k < |w.slots|
    ensures Sound(OfferTo(w, k, dp, commits)) && ReplayValid(OfferTo(w, k, dp, commits))
  {
    var s := w.slots[k];
    EnteredValid(s.(tally := s.tally.(offered := s.tally.offered + 1)), dp);
    if |s.buf| >= QUEUE_SIZE && w.wired && s.capable {
      var w1 := w.(hist := w.hist.(given := w.hist.given + {Copy(s.out, dp)}));
      var w2 := WithSlot(w1, k, Diverted(s));
      SavingSound(w2, s.out, [dp], commits);
    }
  }

  lemma HandedValid(s: Slot)
    requires SlotValid(s) && s.buf != []
    ensures SlotValid(Handed(s))
  {
    assert s.buf == [s.buf[0]] + s.buf[1..];
    assert s.tally.handed + [s.buf[0]] + s.buf[1..] == s.tally.handed + s.buf;
  }

  lemma EnteredValid(s: Slot, dp: Reading)
    ensures (s.tally.entered == s.tally.handed + s.buf) ==>
      Entered(s, dp).tally.entered == Entered(s, dp).tally.handed + Entered(s, dp).buf
  {
    assert s.tally.handed + (s.buf + [dp]) == s.tally.handed + s.buf + [dp];
  }

  lemma ConsumeSound(w: World, k: nat, outcome: Outcome)
    requires Sound(w) && ReplayValid(w) && k < |w.slots| && w.slots[k].buf != []
    ensures Sound(ConsumeFrom(w, k, outcome)) && ReplayValid(ConsumeFrom(w, k, outcome))
  {
    var s := w.slots[k];
    var w1 := WithSlot(w, k, Handed(s));
    HandedValid(s);
    if outcome.SentBack? {
      SavingSound(w1, s.out, [s.buf[0]], outcome.commits);
    }
  }

  lemma SaveSound(w: World, o: OutputID, dps: seq<Reading>, commits: bool)
    requires Sound(w) && ReplayValid(w)
    ensures Sound(Saving(w, o, dps, commits)) && ReplayValid(Saving(w, o, dps, commits))
  {
    SavingSound(w, o, dps, commits);
  }

  lemma StartSound(w: World, k: nat)
    requires Sound(w) && Enabled(w, ReplayStart(k))
    ensures Sound(Apply(w, ReplayStart(k))) && ReplayValid(Apply(w, ReplayStart(k)))
  {
    var q := Queue(w.disk, w.slots[k].out);
    assert QueueValid(q, w.disk.nextId, w.max);
    forall x, r | x in q && r in q && r.id == x.id ensures r == x {
    }
  }

  lemma AckSound(w: World, done: nat)
    requires Sound(w) && ReplayValid(w) && Enabled(w, ReplayAck(done))
    ensures Sound(Apply(w, ReplayAck(done))) && ReplayValid(Apply(w, ReplayAck(done)))
  {
    AckValid(w.disk, w.slots[w.replay.slot].out, w.replay.acked[..done], w.max);
  }

  lemma DropSound(w: World, o: OutputID)
    requires Sound(w) && ReplayValid(w) && Enabled(w, DropQueue(o))
    ensures Sound(Apply(w, DropQueue(o))) && ReplayValid(Apply(w, DropQueue(o)))
  {
    DropValid(w.disk, o, w.max);
  }

  lemma PushSound(w: World)
    requires Sound(w) && ReplayValid(w) && Enabled(w, ReplayPush)
    ensures Sound(Push(w)) && ReplayValid(Push(w))
  {
    var s := w.slots[w.replay.slot];
    EnteredValid(s.(tally := s.tally.(replayed := s.tally.replayed + 1)), w.replay.rest[0].dp);
  }

  lemma SwapSound(w: World, insts: seq<Inst>)
    requires Sound(w) && ReplayValid(w)
    ensures Sound(SwapIn(w, insts)) && ReplayValid(SwapIn(w, insts))
  {
  }

  lemma StopSound(w: World, k: nat)
    requires Sound(w) && ReplayValid(w) && Enabled(w, Stop(k))
    ensures Sound(Apply(w, Stop(k))) && ReplayValid(Apply(w, Stop(k)))
  {
  }
}
