/** The coalescing change signal (OnChange and notify of internal/store/sqlite.go) and its
    consumers, as interleaved steps: a commit, taking the list of subscribers, each
    non-blocking send, and a consumer's subscribe, wake-up, read and finish are each one step. */
module ChangeSignal {
  /** A consumer that subscribes first and then loads (internal/core/scheduler.go), or one
      that loads and then subscribes (the processing and alert engines). */
  datatype Phase =
    | Start
    | Loading
    | HasRead(seen: nat)
    | Waiting(seen: nat)
    | ReadEarly(seen: nat)
    | Gone

  datatype Writer = Quiet | Committed | Sending(rest: seq<nat>)

  /** Consumers are numbered; tokens are the consumers whose one-place channel is full. */
  datatype World = World(version: nat, subs: set<nat>, tokens: set<nat>, consumers: seq<Phase>, writers: seq<Writer>)

  datatype Step =
    | Subscribe(c: nat)
    | LoadEarly(c: nat)
    | SubscribeLate(c: nat)
    | Read(c: nat)
    | Finish(c: nat)
    | Wake(c: nat)
    | Leave(c: nat)
    | Commit(w: nat)
    | Snapshot(w: nat, order: seq<nat>)
    | Send(w: nat)
    | Done(w: nat)

  ghost predicate Enabled(s: World, step: Step) {
    match step
    case Subscribe(c) => c < |s.consumers| && s.consumers[c].Start?
    case LoadEarly(c) => c < |s.consumers| && s.consumers[c].Start?
    case SubscribeLate(c) => c < |s.consumers| && s.consumers[c].ReadEarly?
    case Read(c) => c < |s.consumers| && s.consumers[c].Loading?
    case Finish(c) => c < |s.consumers| && s.consumers[c].HasRead?
    case Wake(c) => c < |s.consumers| && s.consumers[c].Waiting? && c in s.tokens
    case Leave(c) => c < |s.consumers|
    case Commit(w) => w < |s.writers| && s.writers[w].Quiet?
    case Snapshot(w, order) => w < |s.writers| && s.writers[w].Committed? && forall c :: c in order <==> c in s.subs
    case Send(w) => w < |s.writers| && s.writers[w].Sending? && s.writers[w].rest != []
    case Done(w) => w < |s.writers| && s.writers[w].Sending? && s.writers[w].rest == []
  }

  ghost function Apply(s: World, step: Step): World
    requires Enabled(s, step)
  {
    match step
    case Subscribe(c) => s.(consumers := s.consumers[c := Loading], subs := s.subs + {c})
    case LoadEarly(c) => s.(consumers := s.consumers[c := ReadEarly(s.version)])
    case SubscribeLate(c) => s.(consumers := s.consumers[c := Waiting(s.consumers[c].seen)], subs := s.subs + {c})
    case Read(c) => s.(consumers := s.consumers[c := HasRead(s.version)])
    case Finish(c) => s.(consumers := s.consumers[c := Waiting(s.consumers[c].seen)])
    case Wake(c) => s.(consumers := s.consumers[c := Loading], tokens := s.tokens - {c})
    case Leave(c) => s.(consumers := s.consumers[c := Gone], subs := s.subs - {c})
    case Commit(w) => s.(version := s.version + 1, writers := s.writers[w := Committed])
    case Snapshot(w, order) => s.(writers := s.writers[w := Sending(order)])
    case Send(w) =>
      s.(tokens := s.tokens + {s.writers[w].rest[0]}, writers := s.writers[w := Sending(s.writers[w].rest[1..])])
    case Done(w) => s.(writers := s.writers[w := Quiet])
  }

  ghost predicate Runs(s: World, steps: seq<Step>)
    decreases |steps|
  {
    steps == [] || (Enabled(s, steps[0]) && Runs(Apply(s, steps[0]), steps[1..]))
  }

  ghost function After(s: World, steps: seq<Step>): World
    requires Runs(s, steps)
    decreases |steps|
  {
    if steps == [] then s else After(Apply(s, steps[0]), steps[1..])
  }

  /** Writer w will still send to consumer c. */
  predicate WillSend(w: Writer, c: nat) {
    w.Committed? || (w.Sending? && c in w.rest)
  }

  /** Consumer c has a token or is going to get one. */
  ghost predicate Signalled(s: World, c: nat) {
    c in s.tokens || exists w :: 0 <= w < |s.writers| && WillSend(s.writers[w], c)
  }

  /** A consumer that has read an old version is signalled. */
  ghost predicate NotForgotten(s: World, c: nat)
    requires c < |s.consumers|
  {
    var p := s.consumers[c];
    p.HasRead? || p.Waiting? ==> c in s.subs && p.seen <= s.version && (p.seen < s.version ==> Signalled(s, c))
  }

  /** What holds of a consumer that subscribes before it loads. */
  ghost predicate Kept(s: World, c: nat) {
    c < |s.consumers| && NotForgotten(s, c) && (s.consumers[c].Loading? ==> c in s.subs)
  }

  ghost predicate Begins(s: World) {
    && (forall c :: 0 <= c < |s.consumers| ==> s.consumers[c].Start?)
    && (forall w :: 0 <= w < |s.writers| ==> s.writers[w].Quiet?)
    && s.subs == {} && s.tokens == {}
  }

  /** A step that is not the consumer's own never takes its signal away. */
  lemma StaysSignalled(s: World, step: Step, c: nat)
    requires Enabled(s, step) && c < |s.consumers| && c in s.subs && Signalled(s, c)
    requires step != Wake(c)
    ensures Signalled(Apply(s, step), c)
  {
    var s' := Apply(s, step);
    if c !in s.tokens {
      var w :| 0 <= w < |s.writers| && WillSend(s.writers[w], c);
      if step.Send? && step.w == w {
        assert s.writers[w].rest == [s.writers[w].rest[0]] + s.writers[w].rest[1..];
        assert c in s'.tokens || WillSend(s'.writers[w], c);
      } else {
        assert WillSend(s'.writers[w], c);
      }
    }
  }

  /** Any step of any consumer or writer keeps it, but for c's own late subscription; so it
      holds all through a run. */
  lemma StepKeeps(s: World, step: Step, c: nat)
    requires Kept(s, c) && Enabled(s, step) && step != SubscribeLate(c)
    ensures Kept(Apply(s, step), c)
  {
    var s' := Apply(s, step);
    var p := s'.consumers[c];
    if (p.HasRead? || p.Waiting?) && p.seen < s'.version {
      if step.Commit? {
        assert WillSend(s'.writers[step.w], c);
      } else {
        assert s.consumers[c].HasRead? || s.consumers[c].Waiting?;
        StaysSignalled(s, step, c);
      }
    }
  }

  lemma {:induction false} RunKeeps(s: World, steps: seq<Step>, c: nat)
    requires Kept(s, c) && Runs(s, steps) && SubscribeLate(c) !in steps
    ensures forall n :: 0 <= n <= |steps| ==> Runs(s, steps[..n]) && Kept(After(s, steps[..n]), c)
    decreases |steps|
  {
    if steps != [] {
      StepKeeps(s, steps[0], c);
      hide Kept, Apply, Enabled;
      var rest := steps[1..];
      RunKeeps(Apply(s, steps[0]), rest, c);
      forall n | 0 < n <= |steps| ensures Runs(s, steps[..n]) && Kept(After(s, steps[..n]), c) {
        assert steps[..n][1..] == rest[..n - 1] && steps[..n][0] == steps[0];
      }
    }
  }

  /** A consumer that subscribes before its first load never misses a change, whatever the
      other consumers do: if what it has read is behind the store, its channel holds a token
      or a writer has committed and is still to send it one. */
  lemma {:induction false} SignalNeverLost(s: World, steps: seq<Step>, c: nat)
    requires Begins(s) && Runs(s, steps) && c < |s.consumers| && SubscribeLate(c) !in steps
    ensures var s' := After(s, steps);
      && |s'.consumers| > c
      && (s'.consumers[c].HasRead? || s'.consumers[c].Waiting? ==>
        s'.consumers[c].seen <= s'.version && (s'.consumers[c].seen < s'.version ==> Signalled(s', c)))
  {
    RunKeeps(s, steps, c);
    assert steps[..|steps|] == steps;
  }

  /** At rest such a consumer has read the latest version. */
  lemma {:induction false} UpToDateAtRest(s: World, steps: seq<Step>, c: nat)
    requires Begins(s) && Runs(s, steps) && c < |s.consumers| && SubscribeLate(c) !in steps
    requires forall w :: 0 <= w < |After(s, steps).writers| ==> After(s, steps).writers[w].Quiet?
    ensures |After(s, steps).consumers| > c
    ensures After(s, steps).consumers[c].Waiting? && c !in After(s, steps).tokens ==>
      After(s, steps).consumers[c].seen == After(s, steps).version
  {
    SignalNeverLost(s, steps, c);
  }

  /** No signal reaches a consumer before it subscribes. */
  ghost predicate Unheard(s: World, c: nat) {
    && c < |s.consumers|
    && (s.consumers[c].ReadEarly? ==> s.consumers[c].seen <= s.version)
    && (s.consumers[c].Start? || s.consumers[c].ReadEarly? ==>
      && c !in s.subs && c !in s.tokens
      && forall w :: 0 <= w < |s.writers| && s.writers[w].Sending? ==> c !in s.writers[w].rest)
  }

  lemma StepUnheard(s: World, step: Step, c: nat)
    requires Unheard(s, c) && Enabled(s, step)
    ensures Unheard(Apply(s, step), c)
  {
  }

  lemma {:induction false} RunUnheard(s: World, steps: seq<Step>, c: nat)
    requires Unheard(s, c) && Runs(s, steps)
    ensures Unheard(After(s, steps), c)
    decreases |steps|
  {
    if steps != [] {
      StepUnheard(s, steps[0], c);
      hide Unheard, Apply, Enabled;
      RunUnheard(Apply(s, steps[0]), steps[1..], c);
    }
  }

  /** A consumer that loads before it subscribes is safe at that moment if and only if
      nothing was committed since its load, or a writer has yet to look up the subscribers. */
  lemma {:induction false} LateSubscriberIff(s: World, steps: seq<Step>, c: nat)
    requires Begins(s) && Runs(s, steps) && Enabled(After(s, steps), SubscribeLate(c))
    ensures var s' := After(s, steps);
      NotForgotten(Apply(s', SubscribeLate(c)), c) <==>
        s'.consumers[c].seen == s'.version || exists w :: 0 <= w < |s'.writers| && s'.writers[w].Committed?
  {
    var s1 := After(s, steps);
    SameCount(s, steps);
    RunUnheard(s, steps, c);
    hide After;
    var s2 := Apply(s1, SubscribeLate(c));
    if w :| 0 <= w < |s1.writers| && s1.writers[w].Committed? {
      assert WillSend(s2.writers[w], c);
    }
    if w :| 0 <= w < |s2.writers| && WillSend(s2.writers[w], c) {
      assert s1.writers[w].Committed?;
    }
  }

  lemma {:induction false} SameCount(s: World, steps: seq<Step>)
    requires Runs(s, steps)
    ensures |After(s, steps).consumers| == |s.consumers|
    decreases |steps|
  {
    if steps != [] {
      SameCount(Apply(s, steps[0]), steps[1..]);
    }
  }

  /** And if it is safe then, it never misses a change from then on. */
  lemma {:induction false} LateSubscriberStaysSafe(s: World, c: nat, steps: seq<Step>)
    requires Enabled(s, SubscribeLate(c)) && NotForgotten(Apply(s, SubscribeLate(c)), c)
    requires Runs(Apply(s, SubscribeLate(c)), steps) && SubscribeLate(c) !in steps
    ensures var s' := After(Apply(s, SubscribeLate(c)), steps);
      && c < |s'.consumers|
      && var p := s'.consumers[c]; (p.HasRead? || p.Waiting?) && p.seen < s'.version ==> Signalled(s', c)
  {
    RunKeeps(Apply(s, SubscribeLate(c)), steps, c);
    assert steps[..|steps|] == steps;
  }

  /** steps lead from one world to another. */
  ghost predicate Leads(s: World, steps: seq<Step>, e: World) {
    Runs(s, steps) && After(s, steps) == e
  }

  /** So it can wait for good on an old version: a change that is committed and announced
      between its load and its subscription reaches it only with the next change. */
  lemma {:induction false} LateSubscriberMisses()
    ensures exists s, steps :: Begins(s) && Leads(s, steps, World(1, {0}, {}, [Waiting(0)], [Quiet]))
  {
    hide Leads;
    var s := World(0, {}, {}, [Start], [Quiet]);
    var s1 := World(0, {}, {}, [ReadEarly(0)], [Quiet]);
    var s2 := World(1, {}, {}, [ReadEarly(0)], [Committed]);
    var s3 := World(1, {}, {}, [ReadEarly(0)], [Sending([])]);
    var s4 := World(1, {}, {}, [ReadEarly(0)], [Quiet]);
    var s5 := World(1, {0}, {}, [Waiting(0)], [Quiet]);
    LeadsNone(s5);
    LeadsFirst(s4, SubscribeLate(0), [], s5, s5);
    var t4 := [SubscribeLate(0)] + [];
    LeadsFirst(s3, Done(0), t4, s4, s5);
    var t3 := [Done(0)] + t4;
    LeadsFirst(s2, Snapshot(0, []), t3, s3, s5);
    var t2 := [Snapshot(0, [])] + t3;
    LeadsFirst(s1, Commit(0), t2, s2, s5);
    var t1 := [Commit(0)] + t2;
    LeadsFirst(s, LoadEarly(0), t1, s1, s5);
    assert Begins(s);
  }

  lemma {:induction false} LeadsNone(s: World)
    ensures Leads(s, [], s)
  {
  }

  lemma {:induction false} LeadsFirst(s: World, step: Step, rest: seq<Step>, s1: World, e: World)
    requires Enabled(s, step) && Apply(s, step) == s1 && Leads(s1, rest, e)
    ensures Leads(s, [step] + rest, e)
  {
    assert ([step] + rest)[1..] == rest;
  }

  // The store's side as it is written.

  lemma {:induction false} LeadsMore(s: World, steps: seq<Step>, e: World, step: Step)
    requires Leads(s, steps, e) && Enabled(e, step)
    ensures Leads(s, steps + [step], Apply(e, step))
    decreases |steps|
  {
    if steps == [] {
      LeadsNone(Apply(e, step));
      LeadsFirst(e, step, [], Apply(e, step), Apply(e, step));
      assert steps + [step] == [step] + [];
    } else {
      var s1 := Apply(s, steps[0]);
      LeadsMore(s1, steps[1..], e, step);
      assert steps + [step] == [steps[0]] + (steps[1..] + [step]);
      LeadsFirst(s, steps[0], steps[1..] + [step], s1, Apply(e, step));
    }
  }

  /** The subscribers of s, and which of them have a token. */
  ghost predicate Shows(subs: map<nat, bool>, next: nat, s: World) {
    && subs.Keys == s.subs
    && (forall id :: id in subs ==> (subs[id] <==> id in s.tokens))
    && (forall id :: id in s.subs ==> id < next)
    && (forall id :: id in s.tokens ==> id < next)
  }

  class Feed {
    var next: nat
    /** Subscribers and whether their one-place channel is full. */
    var subs: map<nat, bool>

    constructor ()
      ensures subs == map[] && forall s :: Begins(s) ==> Shows(subs, next, s)
    {
      next, subs := 0, map[];
    }

    /** A new subscriber has an empty channel of its own. */
    method OnChange(ghost s: World) returns (id: nat)
      requires Shows(subs, next, s)
      modifies this
      ensures id !in s.subs && Shows(subs, next, s.(subs := s.subs + {id}))
    {
      id := next;
      next := next + 1;
      subs := subs[id := false];
    }

    method Cancel(id: nat, ghost s: World)
      requires Shows(subs, next, s)
      modifies this
      ensures Shows(subs, next, s.(subs := s.subs - {id}))
    {
      subs := subs - {id};
    }

    /** Look up the subscribers, then send to each without blocking: to writer w of the
        state machine, a snapshot and its sends. Every subscriber has a token then, and
        nothing but tokens has changed. */
    method Notify(ghost s: World, ghost w: nat) returns (ghost steps: seq<Step>)
      requires Shows(subs, next, s) && w < |s.writers| && s.writers[w].Committed?
      modifies this
      ensures var s' := s.(tokens := s.tokens + s.subs, writers := s.writers[w := Quiet]);
        Leads(s, steps, s') && Shows(subs, next, s')
    {
      var chans, n := subs, next;
      var list := Listed(chans.Keys);
      chans, steps := SendAll(chans, n, list, s, w);
      subs := chans;
    }
  }

  method Listed(ids: set<nat>) returns (list: seq<nat>)
    ensures forall id :: id in list <==> id in ids
  {
    list := [];
    var todo := ids;
    while todo != {}
      invariant todo <= ids && forall id :: id in list <==> id in ids - todo
    {
      var id :| id in todo;
      list, todo := list + [id], todo - {id};
    }
  }

  /** s after a snapshot of list and the first k sends. */
  ghost predicate MidSending(s: World, w: nat, list: seq<nat>, k: nat, s1: World) {
    && w < |s.writers| && k <= |list|
    && s1 == s.(tokens := s1.tokens, writers := s.writers[w := Sending(list[k..])])
    && (forall id :: id in s1.tokens <==> id in s.tokens || id in list[..k])
  }

  method SendAll(subs0: map<nat, bool>, next: nat, list: seq<nat>, ghost s: World, ghost w: nat)
    returns (subs: map<nat, bool>, ghost steps: seq<Step>)
    requires Shows(subs0, next, s) && w < |s.writers| && s.writers[w].Committed?
    requires forall id :: id in list <==> id in s.subs
    ensures var s' := s.(tokens := s.tokens + s.subs, writers := s.writers[w := Quiet]);
      Leads(s, steps, s') && Shows(subs, next, s')
  {
    ghost var s1 := Apply(s, Snapshot(w, list));
    SendBegins(s, w, list);
    steps, subs := [] + [Snapshot(w, list)], subs0;
    for k := 0 to |list|
      invariant MidSending(s, w, list, k, s1) && Leads(s, steps, s1) && Shows(subs, next, s1)
    {
      SendStep(s, w, list, k, s1, subs, next);
      LeadsMore(s, steps, s1, Send(w));
      hide MidSending, Leads, Shows, Apply;
      if !subs[list[k]] {
        subs := subs[list[k] := true];
      } else {
        assert subs[list[k] := true] == subs;
      }
      s1, steps := Apply(s1, Send(w)), steps + [Send(w)];
    }
    SendEnds(s, w, list, s1, subs, next);
    LeadsMore(s, steps, s1, Done(w));
    steps := steps + [Done(w)];
  }

  lemma {:induction false} SendBegins(s: World, w: nat, list: seq<nat>)
    requires Enabled(s, Snapshot(w, list))
    ensures var s1 := Apply(s, Snapshot(w, list));
      MidSending(s, w, list, 0, s1) && Leads(s, [] + [Snapshot(w, list)], s1)
    ensures forall subs, next :: Shows(subs, next, s) ==> Shows(subs, next, Apply(s, Snapshot(w, list)))
  {
    LeadsNone(s);
    LeadsMore(s, [], s, Snapshot(w, list));
    assert list[0..] == list && list[..0] == [];
  }

  lemma {:induction false} SendStep(s: World, w: nat, list: seq<nat>, k: nat, s1: World, subs: map<nat, bool>,
                                    next: nat)
    requires MidSending(s, w, list, k, s1) && k < |list| && Shows(subs, next, s1) && list[k] in s.subs
    ensures Enabled(s1, Send(w)) && MidSending(s, w, list, k + 1, Apply(s1, Send(w)))
    ensures list[k] in subs && Shows(subs[list[k] := true], next, Apply(s1, Send(w)))
  {
    assert list[k..][0] == list[k] && list[k..][1..] == list[k + 1..] && list[..k + 1] == list[..k] + [list[k]];
  }

  lemma {:induction false} SendEnds(s: World, w: nat, list: seq<nat>, s1: World, subs: map<nat, bool>, next: nat)
    requires MidSending(s, w, list, |list|, s1) && Shows(subs, next, s1)
    requires forall id :: id in list <==> id in s.subs
    ensures var s' := s.(tokens := s.tokens + s.subs, writers := s.writers[w := Quiet]);
      Enabled(s1, Done(w)) && Apply(s1, Done(w)) == s' && Shows(subs, next, s')
  {
    assert list[..|list|] == list && s1.tokens == s.tokens + s.subs;
  }
}
