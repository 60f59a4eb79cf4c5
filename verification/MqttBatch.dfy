/** The batching MQTT output (Publish, flushOnce, publishBatch, saveBackfill and Close of
    internal/output/mqtt/mqtt.go). */
module MqttBatch {
  import B = Backfill

  const MAX_PENDING := 8192
  const DEFAULT_BATCH_MAX := 64

  datatype DeviceID = DeviceID(text: string)

  datatype Sample = Sample(device: DeviceID, serial: nat, encodable: bool)

  predicate AllEncodable(ps: seq<Sample>) {
    forall i :: 0 <= i < |ps| ==> ps[i].encodable
  }

  function Flatten(messages: seq<seq<Sample>>): seq<Sample> {
    if messages == [] then [] else Flatten(messages[..|messages| - 1]) + messages[|messages| - 1]
  }

  /** What became of a batch: the messages sent; the points dropped because they, or another
      point of their message, cannot be encoded; the points the queue has taken; and those it
      was meant to take but did not, for want of a queue or because the save failed. */
  datatype Fate = Fate(messages: seq<seq<Sample>>, lost: seq<Sample>, saved: seq<Sample>, forgotten: seq<Sample>)

  const NOTHING := Fate([], [], [], [])

  function Bag(f: Fate): multiset<Sample> {
    multiset(Flatten(f.messages)) + multiset(f.lost) + multiset(f.saved) + multiset(f.forgotten)
  }

  /** The points that can, or cannot, be encoded. */
  function Pick(ps: seq<Sample>, encodable: bool): seq<Sample> {
    if ps == [] then []
    else (if ps[0].encodable == encodable then [ps[0]] else []) + Pick(ps[1..], encodable)
  }

  /** Saving points: the queue skips those that cannot be encoded. */
  function Saving(ps: seq<Sample>, kept: bool): Fate {
    if kept then Fate([], Pick(ps, false), Pick(ps, true), []) else Fate([], [], [], ps)
  }

  function Readings(ps: seq<Sample>): seq<B.Reading> {
    seq(|ps|, i requires 0 <= i < |ps| => B.Reading(ps[i].serial, ps[i].encodable))
  }

  /** The saved points are exactly those for which the queue makes records, in order. */
  lemma {:induction false} QueueTakes(ps: seq<Sample>, firstId: nat)
    ensures var q, saved := B.Inserted(Readings(ps), firstId), Saving(ps, true).saved;
      |q| == |saved| && forall i :: 0 <= i < |q| ==> q[i].dp == Readings(saved)[i]
  {
    if ps != [] {
      var n := |ps| - 1;
      QueueTakes(ps[..n], firstId);
      assert ps == ps[..n] + [ps[n]] && Readings(ps)[..n] == Readings(ps[..n]);
      PickMore(ps[..n], [ps[n]], true);
    }
  }

  lemma {:induction false} PickMore(a: seq<Sample>, b: seq<Sample>, encodable: bool)
    ensures Pick(a + b, encodable) == Pick(a, encodable) + Pick(b, encodable)
  {
    if a == [] {
      assert a + b == b;
    } else {
      assert (a + b)[1..] == a[1..] + b && (a + b)[0] == a[0];
      PickMore(a[1..], b, encodable);
      var head := if a[0].encodable == encodable then [a[0]] else [];
    }
  }

  lemma {:induction false} PickBag(ps: seq<Sample>)
    ensures multiset(Pick(ps, true)) + multiset(Pick(ps, false)) == multiset(ps)
  {
    if ps != [] {
      PickBag(ps[1..]);
      assert ps == [ps[0]] + ps[1..];
    }
  }

  lemma {:induction false} PickParts(ps: seq<Sample>)
    ensures AllEncodable(Pick(ps, true))
    ensures AllEncodable(ps) ==> Pick(ps, true) == ps && Pick(ps, false) == []
  {
    if ps != [] {
      var rest := ps[1..];
      PickParts(rest);
      assert ps == [ps[0]] + rest;
      assert AllEncodable(ps) ==> AllEncodable(rest);
    }
  }

  lemma PickOne(p: Sample)
    ensures Pick([p], true) == (if p.encodable then [p] else [])
    ensures Pick([p], false) == (if p.encodable then [] else [p])
  {
    assert [p][1..] == [];
  }

  lemma SaveOne(f: Fate, p: Sample)
    ensures JoinFate(f, Saving([p], false)) == f.(forgotten := f.forgotten + [p])
    ensures p.encodable ==> JoinFate(f, Saving([p], true)) == f.(saved := f.saved + [p])
    ensures !p.encodable ==> JoinFate(f, Saving([p], true)) == f.(lost := f.lost + [p])
  {
    PickOne(p);
    hide Pick;
    var none: seq<Sample> := [];
    assert f.messages + [] == f.messages && f.saved + none == f.saved && f.lost + none == f.lost;
    assert f.forgotten + none == f.forgotten;
  }

  function Chunk(ps: seq<Sample>, start: nat, batchMax: nat): (end: nat)
    requires start < |ps| && batchMax > 0
    ensures start < end <= |ps| && end - start <= batchMax
  {
    if start + batchMax > |ps| then |ps| else start + batchMax
  }

  /** sends(k) says whether the message starting at point k goes out, kept whether there is
      a queue and it takes what is saved. */
  function BatchFrom(ps: seq<Sample>, start: nat, batchMax: nat, sends: nat -> bool, kept: bool): Fate
    requires batchMax > 0
    decreases |ps| - start
  {
    if start >= |ps| then NOTHING
    else
      var end := Chunk(ps, start, batchMax);
      var chunk := ps[start..end];
      if !AllEncodable(chunk) then
        var f := BatchFrom(ps, end, batchMax, sends, kept);
        f.(lost := chunk + f.lost)
      else if sends(start) then
        var f := BatchFrom(ps, end, batchMax, sends, kept);
        f.(messages := [chunk] + f.messages)
      else Saving(ps[start..], kept)
  }

  lemma {:induction false} FlattenMore(a: seq<seq<Sample>>, b: seq<seq<Sample>>)
    ensures Flatten(a + b) == Flatten(a) + Flatten(b)
  {
    if b == [] {
      assert a + b == a;
    } else {
      var init := b[..|b| - 1];
      assert (a + b)[..|a + b| - 1] == a + init;
      FlattenMore(a, init);
      assert Flatten(a + b) == Flatten(a + init) + b[|b| - 1];
    }
  }

  lemma FlattenOne(m: seq<Sample>)
    ensures Flatten([m]) == m
  {
    assert [m][..0] == [];
  }

  lemma ChunkBag(chunk: seq<Sample>, f: Fate)
    ensures Bag(f.(lost := chunk + f.lost)) == multiset(chunk) + Bag(f)
    ensures Bag(f.(messages := [chunk] + f.messages)) == multiset(chunk) + Bag(f)
  {
    FlattenMore([chunk], f.messages);
    FlattenOne(chunk);
  }

  lemma SavedBag(ps: seq<Sample>)
    ensures Bag(Saving(ps, true)) == multiset(ps) && Bag(Saving(ps, false)) == multiset(ps)
  {
    PickBag(ps);
    hide Pick, AllEncodable;
  }

  /** Every point of a batch has exactly one fate. */
  lemma {:induction false} BatchAccounts(ps: seq<Sample>, start: nat, batchMax: nat, sends: nat -> bool, kept: bool)
    requires batchMax > 0 && start <= |ps|
    ensures Bag(BatchFrom(ps, start, batchMax, sends, kept)) == multiset(ps[start..])
    decreases |ps| - start
  {
    if start < |ps| {
      var end := Chunk(ps, start, batchMax);
      var chunk := ps[start..end];
      BatchAccounts(ps, end, batchMax, sends, kept);
      var f := BatchFrom(ps, end, batchMax, sends, kept);
      assert ps[start..] == chunk + ps[end..];
      BagStep(ps, start, batchMax, sends, kept);
    } else {
      assert ps[start..] == [];
    }
  }

  lemma BagStep(ps: seq<Sample>, start: nat, batchMax: nat, sends: nat -> bool, kept: bool)
    requires batchMax > 0 && start < |ps|
    ensures var end := Chunk(ps, start, batchMax);
      var f, g := BatchFrom(ps, start, batchMax, sends, kept), BatchFrom(ps, end, batchMax, sends, kept);
      Bag(f) == multiset(ps[start..end]) + Bag(g) || Bag(f) == multiset(ps[start..])
  {
    hide Bag, AllEncodable, Saving;
    var end := Chunk(ps, start, batchMax);
    ChunkBag(ps[start..end], BatchFrom(ps, end, batchMax, sends, kept));
    SavedBag(ps[start..]);
  }

  /** What was sent followed by what was to be saved is a batch in its own order; every
      message is a nonempty piece of at most batchMax points. */
  ghost predicate InOrder(f: Fate, ps: seq<Sample>, batchMax: nat, kept: bool) {
    && f.lost == []
    && Flatten(f.messages) + (f.saved + f.forgotten) == ps
    && (if kept then f.forgotten == [] else f.saved == [])
    && forall i :: 0 <= i < |f.messages| ==> 0 < |f.messages[i]| <= batchMax
  }

  /** So it is when all points can be encoded. */
  lemma {:induction false} BatchInOrder(ps: seq<Sample>, start: nat, batchMax: nat, sends: nat -> bool, kept: bool)
    requires batchMax > 0 && start <= |ps| && AllEncodable(ps)
    ensures InOrder(BatchFrom(ps, start, batchMax, sends, kept), ps[start..], batchMax, kept)
    decreases |ps| - start
  {
    hide InOrder;
    if start < |ps| {
      var end := Chunk(ps, start, batchMax);
      var chunk := ps[start..end];
      assert AllEncodable(chunk);
      BatchInOrder(ps, end, batchMax, sends, kept);
      InOrderMore(BatchFrom(ps, end, batchMax, sends, kept), chunk, ps[end..], batchMax, kept);
      assert ps[start..] == chunk + ps[end..];
    } else {
      assert ps[start..] == [];
    }
    assert AllEncodable(ps[start..]);
    InOrderSaved(ps[start..], batchMax, kept);
  }

  lemma InOrderMore(f: Fate, chunk: seq<Sample>, rest: seq<Sample>, batchMax: nat, kept: bool)
    requires InOrder(f, rest, batchMax, kept) && 0 < |chunk| <= batchMax
    ensures InOrder(f.(messages := [chunk] + f.messages), chunk + rest, batchMax, kept)
  {
    FlattenMore([chunk], f.messages);
    FlattenOne(chunk);
    hide Flatten;
  }

  lemma InOrderSaved(ps: seq<Sample>, batchMax: nat, kept: bool)
    requires AllEncodable(ps)
    ensures InOrder(Saving(ps, kept), ps, batchMax, kept)
    ensures ps == [] ==> InOrder(NOTHING, ps, batchMax, kept)
  {
    PickParts(ps);
  }

  // Which point of a batch has which fate.

  /** Where the message of point i starts: there is one every batchMax points. */
  function MessageOf(i: nat, batchMax: nat): (k: nat)
    requires batchMax > 0
    ensures k <= i
  {
    if i < batchMax then 0 else MessageOf(i - batchMax, batchMax) + batchMax
  }

  lemma {:induction false} MessagesOf(start: nat, batchMax: nat, i: nat)
    requires batchMax > 0 && MessageOf(start, batchMax) == start <= i
    ensures start <= MessageOf(i, batchMax)
    ensures i < start + batchMax ==> MessageOf(i, batchMax) == start
    ensures MessageOf(start + batchMax, batchMax) == start + batchMax
  {
    if start >= batchMax {
      MessagesOf(start - batchMax, batchMax, i - batchMax);
    }
  }

  /** The message that starts at point k can be encoded but is not sent. */
  predicate Fails(ps: seq<Sample>, k: nat, batchMax: nat, sends: nat -> bool)
    requires batchMax > 0
  {
    k < |ps| && MessageOf(k, batchMax) == k && AllEncodable(ps[k..Chunk(ps, k, batchMax)]) && !sends(k)
  }

  datatype Outcome = Sent | Lost | Saved | Forgotten

  function Saves(p: Sample, kept: bool): Outcome {
    if !kept then Forgotten else if p.encodable then Saved else Lost
  }

  /** The outcome for point i. Once its own message or an earlier one has failed, it is
      forgotten without a queue that takes it; otherwise it is saved if it can be encoded and
      lost if not. Before that it is lost exactly when its message holds a point that cannot
      be encoded. */
  ghost function OutcomeOf(ps: seq<Sample>, i: nat, batchMax: nat, sends: nat -> bool, kept: bool): Outcome
    requires batchMax > 0 && i < |ps|
  {
    var own := MessageOf(i, batchMax);
    if exists k: nat :: k <= own && Fails(ps, k, batchMax, sends) then Saves(ps[i], kept)
    else if AllEncodable(ps[own..Chunk(ps, own, batchMax)]) then Sent
    else Lost
  }

  /** The points from start on with some outcome, in order. */
  ghost function Those(ps: seq<Sample>, start: nat, o: Outcome, batchMax: nat, sends: nat -> bool,
                       kept: bool): seq<Sample>
    requires batchMax > 0
    decreases |ps| - start
  {
    if start >= |ps| then []
    else
      var rest := Those(ps, start + 1, o, batchMax, sends, kept);
      if OutcomeOf(ps, start, batchMax, sends, kept) == o then [ps[start]] + rest else rest
  }

  ghost predicate ByOutcome(f: Fate, ps: seq<Sample>, start: nat, batchMax: nat, sends: nat -> bool, kept: bool)
    requires batchMax > 0
  {
    forall o ::
      Part(f, o) == Those(ps, start, o, batchMax, sends, kept)
  }

  function Part(f: Fate, o: Outcome): seq<Sample> {
    match o
    case Sent => Flatten(f.messages)
    case Lost => f.lost
    case Saved => f.saved
    case Forgotten => f.forgotten
  }

  /** A whole batch: the points sent, lost, saved and forgotten are exactly those with that
      outcome, each in their order. */
  lemma BatchByOutcome(ps: seq<Sample>, batchMax: nat, sends: nat -> bool, kept: bool)
    requires batchMax > 0
    ensures ByOutcome(BatchFrom(ps, 0, batchMax, sends, kept), ps, 0, batchMax, sends, kept)
  {
    FromMessage(ps, 0, batchMax, sends, kept);
  }

  lemma {:induction false} FromMessage(ps: seq<Sample>, start: nat, batchMax: nat, sends: nat -> bool, kept: bool)
    requires batchMax > 0 && MessageOf(start, batchMax) == start
    requires forall k: nat :: k < start ==> !Fails(ps, k, batchMax, sends)
    ensures ByOutcome(BatchFrom(ps, start, batchMax, sends, kept), ps, start, batchMax, sends, kept)
    decreases |ps| - start
  {
    if start < |ps| {
      var end := Chunk(ps, start, batchMax);
      MessagesOf(start, batchMax, start);
      if Fails(ps, start, batchMax, sends) {
        RestSaved(ps, start, batchMax, sends, kept);
      } else {
        hide OutcomeOf, MessageOf;
        OneMessage(ps, start, batchMax, sends, kept);
        if end < |ps| {
          forall k: nat | k < end ensures !Fails(ps, k, batchMax, sends) {
            if start < k { MessagesOf(start, batchMax, k); }
          }
          FromMessage(ps, end, batchMax, sends, kept);
        }
        MessageDone(ps, start, batchMax, sends, kept, if AllEncodable(ps[start..end]) then Sent else Lost);
      }
    }
  }

  /** The first message that fails: its points and all later ones are to be saved. */
  lemma RestSaved(ps: seq<Sample>, start: nat, batchMax: nat, sends: nat -> bool, kept: bool)
    requires batchMax > 0 && Fails(ps, start, batchMax, sends)
    ensures ByOutcome(BatchFrom(ps, start, batchMax, sends, kept), ps, start, batchMax, sends, kept)
  {
    forall i | start <= i < |ps| ensures OutcomeOf(ps, i, batchMax, sends, kept) == Saves(ps[i], kept) {
      MessagesOf(start, batchMax, i);
    }
    hide OutcomeOf, MessageOf;
    forall o ensures Part(Saving(ps[start..], kept), o) == Those(ps, start, o, batchMax, sends, kept) {
      ThoseSaved(ps, start, o, batchMax, sends, kept);
    }
  }

  lemma {:induction false} ThoseSaved(ps: seq<Sample>, start: nat, o: Outcome, batchMax: nat, sends: nat -> bool,
                                      kept: bool)
    requires batchMax > 0 && start <= |ps|
    requires forall i :: start <= i < |ps| ==> OutcomeOf(ps, i, batchMax, sends, kept) == Saves(ps[i], kept)
    ensures Those(ps, start, o, batchMax, sends, kept) == Part(Saving(ps[start..], kept), o)
    decreases |ps| - start
  {
    hide OutcomeOf, Those;
    if start < |ps| {
      ThoseSaved(ps, start + 1, o, batchMax, sends, kept);
      ThoseOne(ps, start, o, Saves(ps[start], kept), batchMax, sends, kept);
      assert ps[start..][1..] == ps[start + 1..];
      assert ps[start..] == [ps[start]] + ps[start + 1..];
    } else {
      assert ps[start..] == [];
      ThoseNone(ps, o, batchMax, sends, kept);
    }
  }

  lemma ThoseNone(ps: seq<Sample>, o: Outcome, batchMax: nat, sends: nat -> bool, kept: bool)
    requires batchMax > 0
    ensures Those(ps, |ps|, o, batchMax, sends, kept) == []
  {
  }

  /** A message that does not fail is sent or lost as a whole. */
  lemma OneMessage(ps: seq<Sample>, start: nat, batchMax: nat, sends: nat -> bool, kept: bool)
    requires batchMax > 0 && start < |ps| && MessageOf(start, batchMax) == start
    requires forall k: nat :: k <= start ==> !Fails(ps, k, batchMax, sends)
    ensures var end := Chunk(ps, start, batchMax);
      forall i :: start <= i < end ==>
        OutcomeOf(ps, i, batchMax, sends, kept) == if AllEncodable(ps[start..end]) then Sent else Lost
  {
    var end := Chunk(ps, start, batchMax);
    forall i | start <= i < end
      ensures OutcomeOf(ps, i, batchMax, sends, kept) == if AllEncodable(ps[start..end]) then Sent else Lost
    {
      MessagesOf(start, batchMax, i);
      hide Fails, AllEncodable, MessageOf;
    }
  }

  lemma MessageDone(ps: seq<Sample>, start: nat, batchMax: nat, sends: nat -> bool, kept: bool, o: Outcome)
    requires batchMax > 0 && start < |ps| && !Fails(ps, start, batchMax, sends) && MessageOf(start, batchMax) == start
    requires var end := Chunk(ps, start, batchMax);
      && (forall i :: start <= i < end ==> OutcomeOf(ps, i, batchMax, sends, kept) == o)
      && o == (if AllEncodable(ps[start..end]) then Sent else Lost)
      && ByOutcome(BatchFrom(ps, end, batchMax, sends, kept), ps, end, batchMax, sends, kept)
    ensures ByOutcome(BatchFrom(ps, start, batchMax, sends, kept), ps, start, batchMax, sends, kept)
  {
    hide OutcomeOf, MessageOf, Flatten, AllEncodable, Those;
    var end := Chunk(ps, start, batchMax);
    ThoseRuns(ps, start, end, o, batchMax, sends, kept);
    var f := BatchFrom(ps, end, batchMax, sends, kept);
    FlattenMore([ps[start..end]], f.messages);
    FlattenOne(ps[start..end]);
    forall o'
      ensures Part(BatchFrom(ps, start, batchMax, sends, kept), o') == Those(ps, start, o', batchMax, sends, kept)
    {
      assert RunFirst(ps, start, end, o', o, batchMax, sends, kept);
      assert Part(f, o') == Those(ps, end, o', batchMax, sends, kept);
    }
  }

  /** Points with one outcome come first among the points with that outcome. */
  lemma ThoseRuns(ps: seq<Sample>, start: nat, end: nat, all: Outcome, batchMax: nat, sends: nat -> bool, kept: bool)
    requires batchMax > 0 && start <= end <= |ps|
    requires forall i :: start <= i < end ==> OutcomeOf(ps, i, batchMax, sends, kept) == all
    ensures forall o :: RunFirst(ps, start, end, o, all, batchMax, sends, kept)
  {
    hide OutcomeOf, RunFirst;
    forall o ensures RunFirst(ps, start, end, o, all, batchMax, sends, kept) {
      ThoseRun(ps, start, end, o, all, batchMax, sends, kept);
    }
  }

  ghost predicate RunFirst(ps: seq<Sample>, start: nat, end: nat, o: Outcome, all: Outcome, batchMax: nat,
                           sends: nat -> bool, kept: bool)
    requires batchMax > 0 && start <= end <= |ps|
  {
    Those(ps, start, o, batchMax, sends, kept) ==
      (if o == all then ps[start..end] else []) + Those(ps, end, o, batchMax, sends, kept)
  }

  lemma {:induction false} ThoseRun(ps: seq<Sample>, start: nat, end: nat, o: Outcome, all: Outcome,
                                    batchMax: nat, sends: nat -> bool, kept: bool)
    requires batchMax > 0 && start <= end <= |ps|
    requires forall i :: start <= i < end ==> OutcomeOf(ps, i, batchMax, sends, kept) == all
    ensures RunFirst(ps, start, end, o, all, batchMax, sends, kept)
    decreases end - start
  {
    hide OutcomeOf, Those;
    if start < end {
      ThoseRun(ps, start + 1, end, o, all, batchMax, sends, kept);
      ThoseOne(ps, start, o, all, batchMax, sends, kept);
      assert ps[start..end] == [ps[start]] + ps[start + 1..end];
    } else {
      assert ps[start..end] == [];
    }
  }

  lemma ThoseOne(ps: seq<Sample>, i: nat, o: Outcome, all: Outcome, batchMax: nat, sends: nat -> bool, kept: bool)
    requires batchMax > 0 && i < |ps| && OutcomeOf(ps, i, batchMax, sends, kept) == all
    ensures Those(ps, i, o, batchMax, sends, kept) ==
      (if o == all then [ps[i]] else []) + Those(ps, i + 1, o, batchMax, sends, kept)
  {
    hide OutcomeOf;
  }

  /** One point that cannot be encoded takes its whole message with it: the other point of
      this batch is neither sent nor saved, although the broker is there. */
  lemma OneBadPoint(d: DeviceID)
    ensures var good, bad := Sample(d, 1, true), Sample(d, 2, false);
      BatchFrom([good, bad], 0, DEFAULT_BATCH_MAX, k => true, true) == Fate([], [good, bad], [], [])
  {
    var good, bad := Sample(d, 1, true), Sample(d, 2, false);
    var ps := [good, bad];
    assert ps[0..2] == ps && !ps[1].encodable;
    assert BatchFrom(ps, 2, DEFAULT_BATCH_MAX, k => true, true) == NOTHING;
  }

  /** One behind the first message that fails is dropped by the queue, which takes the rest. */
  lemma BadPointInTail(d: DeviceID)
    ensures var good, bad := Sample(d, 1, true), Sample(d, 2, false);
      BatchFrom([good, bad], 0, 1, k => false, true) == Fate([], [bad], [good], [])
  {
    var good, bad := Sample(d, 1, true), Sample(d, 2, false);
    var ps := [good, bad];
    assert ps[0..1] == [good] && ps[0..] == ps == [good] + [bad];
    PickOne(good);
    PickOne(bad);
    PickMore([good], [bad], true);
    PickMore([good], [bad], false);
    hide Pick;
  }

  /** The samples of some devices, in order. */
  function Of(ps: seq<Sample>, ds: set<DeviceID>): seq<Sample> {
    if ps == [] then []
    else
      var init := Of(ps[..|ps| - 1], ds);
      if ps[|ps| - 1].device in ds then init + [ps[|ps| - 1]] else init
  }

  lemma {:induction false} OfMore(ps: seq<Sample>, ds: set<DeviceID>, d: DeviceID)
    requires d !in ds
    ensures multiset(Of(ps, ds + {d})) == multiset(Of(ps, ds)) + multiset(Of(ps, {d}))
  {
    if ps != [] {
      OfMore(ps[..|ps| - 1], ds, d);
    }
  }

  lemma {:induction false} OfAll(ps: seq<Sample>, ds: set<DeviceID>)
    requires forall p :: p in ps ==> p.device in ds
    ensures Of(ps, ds) == ps
  {
    if ps != [] {
      assert ps[|ps| - 1] in ps;
      OfAll(ps[..|ps| - 1], ds);
      assert ps == ps[..|ps| - 1] + [ps[|ps| - 1]];
    }
  }

  /** The buffer groups the arrived samples by device, each group in arrival order. */
  ghost predicate Grouped(pending: map<DeviceID, seq<Sample>>, arrived: seq<Sample>) {
    && (forall d :: d in pending ==> pending[d] == Of(arrived, {d}))
    && forall p :: p in arrived ==> p.device in pending
  }

  function Appended(pending: map<DeviceID, seq<Sample>>, p: Sample): map<DeviceID, seq<Sample>> {
    pending[p.device := (if p.device in pending then pending[p.device] else []) + [p]]
  }

  lemma GroupedMore(pending: map<DeviceID, seq<Sample>>, arrived: seq<Sample>, p: Sample)
    requires Grouped(pending, arrived)
    ensures Grouped(Appended(pending, p), arrived + [p])
  {
    var pending' := Appended(pending, p);
    forall d | d in pending' ensures pending'[d] == Of(arrived + [p], {d}) {
      assert (arrived + [p])[..|arrived|] == arrived;
      if d !in pending {
        OfNone(arrived, d);
      }
    }
  }

  lemma {:induction false} OfNone(ps: seq<Sample>, d: DeviceID)
    requires forall p :: p in ps ==> p.device != d
    ensures Of(ps, {d}) == []
  {
    if ps != [] {
      assert ps[|ps| - 1] in ps;
      OfNone(ps[..|ps| - 1], d);
    }
  }

  class MqttOutput {
    const batching: bool
    const batchMax: nat
    const wired: bool  // is there a queue?
    var pending: map<DeviceID, seq<Sample>>
    var pendingCount: nat
    /** The samples buffered since the last flush, in arrival order. */
    ghost var arrived: seq<Sample>
    /** What became of all samples that are not buffered. */
    ghost var done: Fate

    ghost predicate Valid()
      reads this
    {
      && batchMax > 0 && Grouped(pending, arrived) && pendingCount == |arrived| <= MAX_PENDING
      && (!batching ==> arrived == [])
    }

    constructor (batching: bool, batchMax: int, wired: bool)
      ensures Valid() && arrived == [] && done == NOTHING && this.wired == wired
      ensures this.batching == batching && this.batchMax == if batchMax <= 0 then 64 else batchMax
    {
      this.batching, this.wired := batching, wired;
      this.batchMax := if batchMax <= 0 then DEFAULT_BATCH_MAX else batchMax;
      pending, pendingCount, arrived, done := map[], 0, [], NOTHING;
    }

    /** A published sample is buffered, sent, saved, dropped because it cannot be encoded, or
        forgotten. It is forgotten exactly when it must be saved and there is no queue or the
        save fails; if the queue takes what it is given, it skips a sample that cannot be
        encoded. */
    method Publish(p: Sample, sends: bool, commits: bool)
      requires Valid()
      modifies this
      ensures Valid()
      ensures Bag(done) + multiset(arrived) == old(Bag(done) + multiset(arrived)) + multiset{p}
      ensures var mustSave := if batching then old(pendingCount) >= 8192 else p.encodable && !sends;
        && done.forgotten == old(done.forgotten) + (if mustSave && !(wired && commits) then [p] else [])
        && done.saved == old(done.saved) + (if mustSave && wired && commits && p.encodable then [p] else [])
        && done.lost == old(done.lost) +
             if !p.encodable && (!batching || (mustSave && wired && commits)) then [p] else []
      ensures done.messages == old(done.messages) + if !batching && p.encodable && sends then [[p]] else []
      ensures arrived == old(arrived) + if batching && old(pendingCount) < 8192 then [p] else []
    {
      hide Bag, Grouped, Flatten, Of, Appended, JoinFate, Saving;
      ghost var f := done;
      PublishBag(f, p);
      SaveOne(f, p);
      if !batching {
        if !p.encodable {
          done := f.(lost := f.lost + [p]);
        } else if sends {
          done := f.(messages := f.messages + [[p]]);
        } else {
          SaveBackfill([p], commits);
        }
      } else if pendingCount >= MAX_PENDING {
        SaveBackfill([p], commits);
      } else {
        GroupedMore(pending, arrived, p);
        pending, pendingCount, arrived := Appended(pending, p), pendingCount + 1, arrived + [p];
      }
    }

    /** Without a queue, or when the save fails, the points are forgotten; otherwise the queue
        takes those that can be encoded. */
    method SaveBackfill(ps: seq<Sample>, commits: bool)
      requires Valid()
      modifies this`done
      ensures Valid() && done == JoinFate(old(done), Saving(ps, wired && commits))
    {
      if |ps| == 0 || !wired {
        done := done.(forgotten := done.forgotten + ps);
      } else if commits {
        done := done.(lost := done.lost + Pick(ps, false), saved := done.saved + Pick(ps, true));
      } else {
        done := done.(forgotten := done.forgotten + ps);
      }
    }

    /** One device's points, in messages of at most batchMax; after the first failure the
        rest is saved. */
    method PublishBatch(ps: seq<Sample>, sends: nat -> bool, commits: bool)
      requires Valid()
      modifies this`done
      ensures Valid()
      ensures done == JoinFate(old(done), BatchFrom(ps, 0, batchMax, sends, wired && commits))
    {
      ghost var d0, kept := done, wired && commits;
      var start := 0;
      while start < |ps|
        invariant 0 <= start <= |ps| && Valid()
        invariant JoinFate(done, BatchFrom(ps, start, batchMax, sends, kept)) ==
          JoinFate(d0, BatchFrom(ps, 0, batchMax, sends, kept))
      {
        var end := Chunk(ps, start, batchMax);
        var chunk := ps[start..end];
        ghost var f := BatchFrom(ps, end, batchMax, sends, kept);
        JoinMoves(done, chunk, f);
        if !AllEncodable(chunk) {
          done := done.(lost := done.lost + chunk);
        } else if sends(start) {
          done := done.(messages := done.messages + [chunk]);
        } else {
          SaveBackfill(ps[start..], commits);
          return;
        }
        start := end;
      }
    }

    /** Without a connection nothing happens. Otherwise the buffer is emptied device by
        device, in an order of its own, and the samples of each are a batch, whose points get
        their fates. When all can be encoded, what is sent of a device followed by what is to
        be saved of it is what arrived from it, in order. sends(d)(k) says whether the message
        of device d that starts at point k goes out, commits(d) whether a save of its points
        would commit. */
    method FlushOnce(connected: bool, sends: DeviceID -> (nat -> bool), commits: DeviceID -> bool)
        returns (ghost f: Fate, ghost order: seq<DeviceID>)
      requires Valid()
      modifies this
      ensures Valid() && done == JoinFate(old(done), f) && Bag(f) + multiset(arrived) == multiset(old(arrived))
      ensures if connected then arrived == [] else arrived == old(arrived) && f == NOTHING
      ensures connected ==> Flushed(f, order, old(arrived), batchMax, sends, commits, wired)
      ensures connected && AllEncodable(old(arrived)) ==> forall d :: InTurn(f, old(arrived), d)
      ensures wired && (forall d :: commits(d)) ==> f.forgotten == []
      ensures Deliverable(f)
    {
      f, order := NOTHING, [];
      if !connected {
        return;
      }
      var batch := pending;
      ghost var was, done0 := arrived, done;
      pending, pendingCount, arrived := map[], 0, [];
      var todo := batch.Keys;
      FlushBegins(was, batch, batchMax, sends, commits, wired);
      hide *;
      while todo != {}
        invariant todo <= batch.Keys && Valid() && arrived == [] && done == JoinFate(done0, f)
        invariant Flushing(was, batch, todo, f, order, batchMax, sends, commits, wired)
      {
        var d :| d in todo;
        FlushStep(was, batch, todo, d, f, order, batchMax, sends, commits, wired);
        JoinTwice(done0, f, BatchFrom(batch[d], 0, batchMax, sends(d), wired && commits(d)));
        PublishBatch(batch[d], sends(d), commits(d));
        f, order := JoinFate(f, BatchFrom(batch[d], 0, batchMax, sends(d), wired && commits(d))), order + [d];
        todo := todo - {d};
      }
      FlushEnds(was, batch, todo, f, order, batchMax, sends, commits, wired);
    }

    /** A last flush; what is still buffered when the broker is away is forgotten. */
    method Close(connected: bool, sends: DeviceID -> (nat -> bool), commits: DeviceID -> bool)
        returns (ghost f: Fate, ghost order: seq<DeviceID>)
      requires Valid()
      modifies this
      ensures done == JoinFate(old(done), f) && (!batching || !connected ==> f == NOTHING)
      ensures batching && connected ==> Flushed(f, order, old(arrived), batchMax, sends, commits, wired)
      ensures Valid() && Bag(done) + multiset(arrived) == old(Bag(done) + multiset(arrived))
      ensures arrived == [] <==> connected || old(arrived) == []
      ensures !batching ==> done == old(done) && arrived == old(arrived)
    {
      hide Bag, JoinFate, Flushed, Deliverable, InTurn, Grouped;
      f, order := NOTHING, [];
      JoinNothing(done);
      if batching {
        f, order := FlushOnce(connected, sends, commits);
      }
      JoinBag(old(done), f);
    }
  }

  /** The fates of the batches of some devices, one after the other. */
  ghost function AllFates(order: seq<DeviceID>, was: seq<Sample>, batchMax: nat,
                          sends: DeviceID -> (nat -> bool), commits: DeviceID -> bool, wired: bool): Fate
    requires batchMax > 0
  {
    if order == [] then NOTHING
    else
      var d := order[|order| - 1];
      JoinFate(AllFates(order[..|order| - 1], was, batchMax, sends, commits, wired),
               BatchFrom(Of(was, {d}), 0, batchMax, sends(d), wired && commits(d)))
  }

  ghost predicate InOrderOf(order: seq<DeviceID>, ds: set<DeviceID>) {
    && (forall i, j :: 0 <= i < j < |order| ==> order[i] != order[j])
    && forall d :: d in order <==> d in ds
  }

  /** f is the fates of the batches of all devices with samples, each once. */
  ghost predicate Flushed(f: Fate, order: seq<DeviceID>, was: seq<Sample>, batchMax: nat,
                          sends: DeviceID -> (nat -> bool), commits: DeviceID -> bool, wired: bool)
    requires batchMax > 0
  {
    && (forall i, j :: 0 <= i < j < |order| ==> order[i] != order[j])
    && (forall p :: p in was ==> p.device in order)
    && f == AllFates(order, was, batchMax, sends, commits, wired)
  }

  lemma FatesMore(order: seq<DeviceID>, ds: set<DeviceID>, d: DeviceID, was: seq<Sample>,
                  batch: map<DeviceID, seq<Sample>>, batchMax: nat,
                  sends: DeviceID -> (nat -> bool), commits: DeviceID -> bool, wired: bool)
    requires batchMax > 0 && InOrderOf(order, ds) && d !in ds && Grouped(batch, was) && d in batch
    ensures InOrderOf(order + [d], ds + {d})
    ensures AllFates(order + [d], was, batchMax, sends, commits, wired) ==
      JoinFate(AllFates(order, was, batchMax, sends, commits, wired),
               BatchFrom(batch[d], 0, batchMax, sends(d), wired && commits(d)))
  {
    hide BatchFrom, Of, JoinFate;
    assert (order + [d])[..|order|] == order;
  }

  /** What is sent of a device, then what is saved or forgotten of it, is what arrived from
      it. */
  ghost predicate InTurn(f: Fate, was: seq<Sample>, d: DeviceID) {
    f.lost == [] && Of(Flatten(f.messages), {d}) + (Of(f.saved, {d}) + Of(f.forgotten, {d})) == Of(was, {d})
  }

  /** Only what can be encoded is sent or saved. */
  ghost predicate Deliverable(f: Fate) {
    && AllEncodable(Flatten(f.messages))
    && AllEncodable(f.saved)
  }

  lemma JoinDeliverable(a: Fate, b: Fate)
    requires Deliverable(a) && Deliverable(b)
    ensures Deliverable(JoinFate(a, b))
  {
    FlattenMore(a.messages, b.messages);
  }

  lemma {:induction false} BatchDeliverable(ps: seq<Sample>, start: nat, batchMax: nat, sends: nat -> bool, kept: bool)
    requires batchMax > 0
    ensures Deliverable(BatchFrom(ps, start, batchMax, sends, kept))
    decreases |ps| - start
  {
    if start < |ps| {
      var end := Chunk(ps, start, batchMax);
      var chunk := ps[start..end];
      BatchDeliverable(ps, end, batchMax, sends, kept);
      FlattenMore([chunk], BatchFrom(ps, end, batchMax, sends, kept).messages);
      FlattenOne(chunk);
      PickParts(ps[start..]);
    }
  }

  ghost predicate Untouched(f: Fate, d: DeviceID) {
    Of(Flatten(f.messages), {d}) == [] && Of(f.saved, {d}) == [] && Of(f.forgotten, {d}) == []
  }

  ghost predicate TurnsTaken(f: Fate, was: seq<Sample>, todo: set<DeviceID>) {
    f.lost == [] && forall d :: if d in todo then Untouched(f, d) else InTurn(f, was, d)
  }

  /** The batches of all devices but those in todo have been published. */
  ghost predicate Flushing(was: seq<Sample>, batch: map<DeviceID, seq<Sample>>, todo: set<DeviceID>, f: Fate,
                           order: seq<DeviceID>, batchMax: nat, sends: DeviceID -> (nat -> bool),
                           commits: DeviceID -> bool, wired: bool)
  {
    && batchMax > 0 && Grouped(batch, was)
    && Bag(f) == multiset(Of(was, batch.Keys - todo)) && Deliverable(f)
    && (AllEncodable(was) ==> TurnsTaken(f, was, todo))
    && (wired && (forall d :: commits(d)) ==> f.forgotten == [])
    && InOrderOf(order, batch.Keys - todo) && f == AllFates(order, was, batchMax, sends, commits, wired)
  }

  lemma FlushBegins(was: seq<Sample>, batch: map<DeviceID, seq<Sample>>, batchMax: nat,
                    sends: DeviceID -> (nat -> bool), commits: DeviceID -> bool, wired: bool)
    requires batchMax > 0 && Grouped(batch, was)
    ensures Flushing(was, batch, batch.Keys, NOTHING, [], batchMax, sends, commits, wired)
  {
    assert batch.Keys - batch.Keys == {};
    NoneOf(was);
    forall d | d !in batch ensures Of(was, {d}) == [] {
      OfNone(was, d);
    }
  }

  lemma FlushStep(was: seq<Sample>, batch: map<DeviceID, seq<Sample>>, todo: set<DeviceID>, d: DeviceID, f: Fate,
                  order: seq<DeviceID>, batchMax: nat, sends: DeviceID -> (nat -> bool), commits: DeviceID -> bool,
                  wired: bool)
    requires Flushing(was, batch, todo, f, order, batchMax, sends, commits, wired) && d in todo && todo <= batch.Keys
    ensures batchMax > 0
    ensures var g := BatchFrom(batch[d], 0, batchMax, sends(d), wired && commits(d));
      Flushing(was, batch, todo - {d}, JoinFate(f, g), order + [d], batchMax, sends, commits, wired)
  {
    hide Of, BatchFrom, Flatten, Bag, TurnsTaken, AllEncodable, JoinFate, AllFates, InOrderOf, Deliverable, Grouped;
    var kept := wired && commits(d);
    var g := BatchFrom(batch[d], 0, batchMax, sends(d), kept);
    assert batch.Keys - (todo - {d}) == (batch.Keys - todo) + {d};
    FatesMore(order, batch.Keys - todo, d, was, batch, batchMax, sends, commits, wired);
    BatchAccounts(batch[d], 0, batchMax, sends(d), kept);
    JoinBag(f, g);
    assert batch[d][0..] == batch[d];
    OfMore(was, batch.Keys - todo, d);
    GroupIs(batch, was, d);
    BatchDeliverable(batch[d], 0, batchMax, sends(d), kept);
    JoinDeliverable(f, g);
    if AllEncodable(was) {
      TurnTaken(was, batch[d], todo, d, f, batchMax, sends(d), kept);
    }
    if kept && f.forgotten == [] {
      KeptForgetsNone(f, batch[d], 0, batchMax, sends(d), kept);
    }
  }

  lemma GroupIs(batch: map<DeviceID, seq<Sample>>, was: seq<Sample>, d: DeviceID)
    requires Grouped(batch, was) && d in batch
    ensures batch[d] == Of(was, {d})
  {
  }

  lemma TurnTaken(was: seq<Sample>, ps: seq<Sample>, todo: set<DeviceID>, d: DeviceID,
                  f: Fate, batchMax: nat, sends: nat -> bool, kept: bool)
    requires ps == Of(was, {d}) && d in todo && AllEncodable(was) && batchMax > 0 && TurnsTaken(f, was, todo)
    ensures TurnsTaken(JoinFate(f, BatchFrom(ps, 0, batchMax, sends, kept)), was, todo - {d})
  {
    var g := BatchFrom(ps, 0, batchMax, sends, kept);
    var f' := JoinFate(f, g);
    OfSubset(was, {d});
    BatchInOrder(ps, 0, batchMax, sends, kept);
    assert ps[0..] == ps == Flatten(g.messages) + (g.saved + g.forgotten);
    FlattenMore(f.messages, g.messages);
    assert Of(was, {d}) == ps;
    hide Flatten, BatchFrom, Of, Bag, AllEncodable;
    forall e ensures if e in todo - {d} then Untouched(f', e) else InTurn(f', was, e) {
      TurnOne(Flatten(f.messages), f.saved, f.forgotten, Flatten(g.messages), g.saved, g.forgotten, ps, d, e);
      assert e in todo ==> Untouched(f, e);
      assert e !in todo ==> InTurn(f, was, e);
    }
  }

  lemma TurnOne(a: seq<Sample>, s: seq<Sample>, t: seq<Sample>, sent: seq<Sample>, saved: seq<Sample>,
                forgotten: seq<Sample>, ps: seq<Sample>, d: DeviceID, e: DeviceID)
    requires sent + (saved + forgotten) == ps && forall p :: p in ps ==> p.device == d
    ensures e != d ==>
      Of(a + sent, {e}) == Of(a, {e}) && Of(s + saved, {e}) == Of(s, {e}) && Of(t + forgotten, {e}) == Of(t, {e})
    ensures e == d && Of(a, {d}) == Of(s, {d}) == Of(t, {d}) == [] ==>
      Of(a + sent, {d}) + (Of(s + saved, {d}) + Of(t + forgotten, {d})) == ps
  {
    hide *;
    OfConcat(a, sent, {e});
    OfConcat(s, saved, {e});
    OfConcat(t, forgotten, {e});
    PartsOf(sent, saved + forgotten, d);
    PartsOf(saved, forgotten, d);
    OfDevice(sent, d, e);
    OfDevice(saved, d, e);
    OfDevice(forgotten, d, e);
    if e != d {
      assert Of(a, {e}) + [] == Of(a, {e}) && Of(s, {e}) + [] == Of(s, {e}) && Of(t, {e}) + [] == Of(t, {e});
    } else {
      assert [] + sent == sent && [] + saved == saved && [] + forgotten == forgotten;
    }
  }

  lemma PartsOf(sent: seq<Sample>, saved: seq<Sample>, d: DeviceID)
    requires forall p :: p in sent + saved ==> p.device == d
    ensures (forall p :: p in sent ==> p.device == d) && (forall p :: p in saved ==> p.device == d)
  {
    forall p | p in sent || p in saved ensures p.device == d {
      assert p in sent + saved;
    }
  }

  lemma {:induction false} OfSubset(ps: seq<Sample>, ds: set<DeviceID>)
    ensures forall p :: p in Of(ps, ds) ==> p in ps && p.device in ds
    ensures AllEncodable(ps) ==> AllEncodable(Of(ps, ds))
  {
    if ps != [] {
      OfSubset(ps[..|ps| - 1], ds);
    }
  }

  lemma {:induction false} OfConcat(a: seq<Sample>, b: seq<Sample>, ds: set<DeviceID>)
    ensures Of(a + b, ds) == Of(a, ds) + Of(b, ds)
  {
    if b == [] {
      assert a + b == a;
    } else {
      assert (a + b)[..|a + b| - 1] == a + b[..|b| - 1];
      OfConcat(a, b[..|b| - 1], ds);
    }
  }

  /** The samples of device e among those of device d. */
  lemma OfDevice(ps: seq<Sample>, d: DeviceID, e: DeviceID)
    requires forall p :: p in ps ==> p.device == d
    ensures Of(ps, {e}) == if e == d then ps else []
  {
    if e == d {
      OfAll(ps, {d});
    } else {
      OfNone(ps, e);
    }
  }

  lemma FlushEnds(was: seq<Sample>, batch: map<DeviceID, seq<Sample>>, todo: set<DeviceID>, f: Fate,
                  order: seq<DeviceID>, batchMax: nat, sends: DeviceID -> (nat -> bool), commits: DeviceID -> bool,
                  wired: bool)
    requires Flushing(was, batch, todo, f, order, batchMax, sends, commits, wired) && todo == {}
    ensures Bag(f) == multiset(was) && Deliverable(f) && (wired && (forall d :: commits(d)) ==> f.forgotten == [])
    ensures AllEncodable(was) ==> forall d :: InTurn(f, was, d)
    ensures Flushed(f, order, was, batchMax, sends, commits, wired)
  {
    hide Of, Bag, AllFates, InTurn, Deliverable;
    assert batch.Keys - todo == batch.Keys;
    OfAll(was, batch.Keys);
    if TurnsTaken(f, was, todo) {
      forall d ensures InTurn(f, was, d) {
        assert d !in todo;
      }
    }
  }

  lemma JoinNothing(a: Fate)
    ensures JoinFate(a, NOTHING) == a && Bag(NOTHING) == multiset{}
  {
  }

  lemma JoinTwice(a: Fate, b: Fate, c: Fate)
    ensures JoinFate(JoinFate(a, b), c) == JoinFate(a, JoinFate(b, c))
  {
  }

  function JoinFate(a: Fate, b: Fate): Fate {
    Fate(a.messages + b.messages, a.lost + b.lost, a.saved + b.saved, a.forgotten + b.forgotten)
  }

  lemma JoinMoves(a: Fate, chunk: seq<Sample>, f: Fate)
    ensures JoinFate(a.(lost := a.lost + chunk), f) == JoinFate(a, f.(lost := chunk + f.lost))
    ensures JoinFate(a.(messages := a.messages + [chunk]), f) == JoinFate(a, f.(messages := [chunk] + f.messages))
  {
    assert (a.lost + chunk) + f.lost == a.lost + (chunk + f.lost);
    assert (a.messages + [chunk]) + f.messages == a.messages + ([chunk] + f.messages);
  }

  lemma PublishBag(f: Fate, p: Sample)
    ensures Bag(f.(lost := f.lost + [p])) == Bag(f) + multiset{p}
    ensures Bag(JoinFate(f, Saving([p], true))) == Bag(f) + multiset{p}
    ensures Bag(JoinFate(f, Saving([p], false))) == Bag(f) + multiset{p}
    ensures Bag(f.(messages := f.messages + [[p]])) == Bag(f) + multiset{p}
  {
    assert f.(lost := f.lost + [p]) == JoinFate(f, Fate([], [p], [], []));
    assert f.(messages := f.messages + [[p]]) == JoinFate(f, Fate([[p]], [], [], []));
    OneBag(p);
    SavedBag([p]);
    hide Bag, JoinFate;
    JoinBag(f, Saving([p], true));
    JoinBag(f, Saving([p], false));
    JoinBag(f, Fate([], [p], [], []));
    JoinBag(f, Fate([[p]], [], [], []));
  }

  lemma OneBag(p: Sample)
    ensures Bag(Fate([], [p], [], [])) == multiset{p} && Bag(Fate([[p]], [], [], [])) == multiset{p}
  {
    FlattenOne([p]);
  }

  lemma {:induction false} KeptForgetsNone(f: Fate, ps: seq<Sample>, start: nat, batchMax: nat, sends: nat -> bool,
                                           kept: bool)
    requires batchMax > 0 && kept && f.forgotten == []
    ensures JoinFate(f, BatchFrom(ps, start, batchMax, sends, kept)).forgotten == []
    decreases |ps| - start
  {
    if start < |ps| {
      KeptForgetsNone(f, ps, Chunk(ps, start, batchMax), batchMax, sends, kept);
    }
  }

  lemma JoinBag(a: Fate, b: Fate)
    ensures Bag(JoinFate(a, b)) == Bag(a) + Bag(b)
  {
    FlattenMore(a.messages, b.messages);
  }

  lemma {:induction false} NoneOf(ps: seq<Sample>)
    ensures Of(ps, {}) == []
  {
    if ps != [] {
      NoneOf(ps[..|ps| - 1]);
    }
  }
}
