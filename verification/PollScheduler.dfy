/** The poll scheduler of internal/core/pollsched.go: a heap of entries, an index by
    device with lazy deletion, and a wake channel of capacity one. Every method is
    proved against the plain map of PollPlan, and those of the protocol are the steps of
    PollLoop. */
module PollScheduler {
  import opened PollKeys
  import opened PollHeap
  import opened PollPlan
  import opened DeviceJobs
  import L = PollLoop

  type Index = map<DeviceID, PollEntry>

  /** e is the current entry of its device. */
  ghost predicate Live(byID: Index, e: PollEntry) {
    e.deviceID in byID && byID[e.deviceID] == e
  }

  /** Live heap entries and index are in bijection, all other heap entries are
      marked stale, and the live entries show the plan. */
  ghost predicate Consistent(members: set<PollEntry>, byID: Index, plan: Plan)
    reads members
  {
    && (forall e :: e in members ==> 0 < e.interval && (e.stale <==> !Live(byID, e)))
    && plan.Keys == byID.Keys
    && (forall id :: id in byID ==> byID[id].deviceID == id && byID[id] in members)
    && (forall id :: id in byID ==> plan[id] == Timer(byID[id].interval, byID[id].next, byID[id].job))
  }

  lemma ConsistentWith(members: set<PollEntry>, byID: Index, plan: Plan, e: PollEntry)
    requires Consistent(members, byID - {e.deviceID}, plan - {e.deviceID})
    requires e !in members && Live(byID, e) && !e.stale && 0 < e.interval
    requires e.deviceID in plan && plan[e.deviceID] == Timer(e.interval, e.next, e.job)
    ensures Consistent(members + {e}, byID, plan)
  {
    var byID', plan' := byID - {e.deviceID}, plan - {e.deviceID};
    assert forall o :: o in members ==> (Live(byID, o) <==> Live(byID', o));
    assert byID.Keys == byID'.Keys + {e.deviceID} && plan.Keys == plan'.Keys + {e.deviceID};
  }

  lemma ConsistentWithout(members: set<PollEntry>, byID: Index, plan: Plan, e: PollEntry)
    requires Consistent(members, byID, plan) && e in members
    ensures e.stale ==> Consistent(members - {e}, byID, plan)
    ensures !e.stale ==> Consistent(members - {e}, byID - {e.deviceID}, plan - {e.deviceID})
  {
    var byID' := byID - {e.deviceID};
    assert forall o :: o in members - {e} && Live(byID, e) ==> (Live(byID, o) <==> Live(byID', o));
  }

  /** The earliest heap entry, if live, is the earliest timer of the plan. */
  lemma EarliestEntry(members: set<PollEntry>, byID: Index, plan: Plan, e: PollEntry)
    requires Consistent(members, byID, plan) && e in members && !e.stale
    requires forall o :: o in members ==> AtMost(e.Tick(), o.Tick())
    ensures Earliest(plan, e.deviceID) && plan[e.deviceID] == Timer(e.interval, e.next, e.job)
  {
    forall id | id in plan ensures AtMost(TickOf(plan, e.deviceID), TickOf(plan, id)) {
      assert TickOf(plan, id) == byID[id].Tick();
    }
  }

  /** Entry for entry, es are the current entries of the devices of ticks. */
  ghost predicate Fits(byID: Index, es: seq<PollEntry>, ticks: seq<Key>) {
    && |es| == |ticks|
    && forall i :: 0 <= i < |es| ==> es[i].deviceID == ticks[i].id && Live(byID, es[i])
  }

  /** How far the catch-up loop has come: from plan0 to plan, firing es at ticks. */
  ghost predicate CaughtUp(plan0: Plan, plan: Plan, now: int, ticks: seq<Key>, byID: Index, es: seq<PollEntry>) {
    Progress(plan0, plan, now, ticks) && Fits(byID, es, ticks)
  }

  lemma CaughtUpStep(members: set<PollEntry>, plan0: Plan, plan: Plan, now: int, ticks: seq<Key>,
                     byID: Index, es: seq<PollEntry>, e: PollEntry)
    requires Consistent(members, byID, plan) && CaughtUp(plan0, plan, now, ticks, byID, es)
    requires e in members && !e.stale && e.next <= now
    requires forall o :: o in members ==> AtMost(e.Tick(), o.Tick())
    ensures e.deviceID in plan
    ensures var plan' := plan[e.deviceID := Step(plan[e.deviceID], now)];
      && CaughtUp(plan0, plan', now, ticks + [e.Tick()], byID, es + [e])
      && Fewer(plan', plan, now)
  {
    EarliestEntry(members, byID, plan, e);
    ProgressStep(plan0, plan, now, ticks, e.deviceID);
    StepDecreases(plan, now, e.deviceID);
  }

  class PollScheduler {
    const heap: Heap
    const fnv: DeviceID -> nat  // the hash of device IDs
    var byID: Index
    var wake: bool  // the token of a channel of capacity 1
    ghost var plan: Plan  // the plain map this scheduler stands for

    constructor (fnv: DeviceID -> nat)
      ensures Valid() && fresh(heap)
      ensures this.fnv == fnv && plan == map[] && !wake && heap.members == {}
    {
      heap := new Heap();
      this.fnv := fnv;
      byID := map[];
      wake := false;
      plan := map[];
    }

    ghost predicate Valid()
      reads this`byID, this`plan, heap, heap.members
    {
      && heap.Valid()
      && Consistent(heap.members, byID, plan)
    }

    /** The state s of the protocol is that of this scheduler. */
    ghost predicate Shows(s: L.State)
      reads this`plan, this`wake
    {
      plan == s.plan && wake == s.token
    }

    method Nudge()
      modifies this`wake
      ensures wake
    {
      if !wake {
        wake := true;
      }
    }

    method Schedule(deviceID: DeviceID, interval0: int, job: DeviceJob, now: int, ghost s: L.State)
        returns (ghost s': L.State)
      requires Valid() && Shows(s) && s.clock == now
      modifies this, heap, heap.members
      ensures Valid() && fresh(heap.members - old(heap.members))
      ensures plan == Scheduled(old(plan), deviceID, fnv(deviceID), interval0, job, now)
      ensures wake
      ensures L.Next(s, L.Action.Schedule(deviceID, fnv(deviceID), interval0, job), s') && Shows(s')
    {
      var interval := if interval0 <= 0 then DEFAULT_INTERVAL else interval0;
      var next := now + HashPhase(fnv(deviceID), interval);
      assert Scheduled(plan, deviceID, fnv(deviceID), interval0, job, now) ==
        plan[deviceID := Timer(interval, next, job)];
      Replace(deviceID, interval, job, next);
      Nudge();
      s' := s.(plan := plan, token := wake);
    }

    method Replace(deviceID: DeviceID, interval: int, job: DeviceJob, next: int)
      requires Valid() && 0 < interval
      modifies this`byID, this`plan, heap, heap.members
      ensures Valid() && fresh(heap.members - old(heap.members))
      ensures plan == old(plan)[deviceID := Timer(interval, next, job)]
    {
      RescheduleReplaces(plan, deviceID, Timer(interval, next, job));
      if deviceID in byID {
        Retire(deviceID);
      }
      var e := new PollEntry(deviceID, job, interval, next);
      Insert(e);
    }

    method Remove(deviceID: DeviceID, ghost s: L.State) returns (ghost s': L.State)
      requires Valid() && Shows(s)
      modifies this, heap.members
      ensures Valid()
      ensures plan == Removed(old(plan), deviceID)
      ensures wake == if deviceID in old(byID) then true else old(wake)
      ensures L.Next(s, L.Action.Remove(deviceID), s') && Shows(s')
    {
      if deviceID in byID {
        Retire(deviceID);
        Nudge();
      }
      s' := s.(plan := plan, token := wake);
    }

    /** The lazy deletion of an indexed entry: mark it, leave it in the heap. */
    method Retire(deviceID: DeviceID)
      requires Valid() && deviceID in byID
      modifies this`byID, this`plan, heap.members
      ensures Valid() && byID == old(byID) - {deviceID}
      ensures plan == Removed(old(plan), deviceID)
    {
      var e := byID[deviceID];
      e.stale := true;
      byID := byID - {deviceID};
      plan := plan - {deviceID};
    }

    /** Index a new entry and push it. */
    method Insert(e: PollEntry)
      requires Valid() && e.deviceID !in byID && e !in heap.members && !e.stale && 0 < e.interval
      modifies this`byID, this`plan, heap
      ensures Valid() && heap.members == old(heap.members) + {e}
      ensures byID == old(byID)[e.deviceID := e]
      ensures plan == old(plan)[e.deviceID := Timer(e.interval, e.next, e.job)]
    {
      ghost var byID0, plan0 := byID, plan;
      byID := byID[e.deviceID := e];
      plan := plan[e.deviceID := Timer(e.interval, e.next, e.job)];
      assert byID - {e.deviceID} == byID0 && plan - {e.deviceID} == plan0;
      ConsistentWith(heap.members, byID, plan, e);
      heap.Push(e);
    }

    /** Fire the due root: advance it in the heap and in the plan. */
    method Refire(now: int)
      requires Valid() && heap.items != [] && !heap.items[0].stale
      modifies this`plan, heap, heap.members
      ensures Valid() && heap.members == old(heap.members)
      ensures var id := old(heap.items[0]).deviceID;
        id in old(plan) && plan == old(plan)[id := Step(old(plan)[id], now)]
    {
      heap.RootIsLeastTick();
      ghost var e := heap.items[0];
      ConsistentWithout(heap.members, byID, plan, e);
      AdvanceRoot(now, Step(plan[e.deviceID], now));
    }

    method AdvanceRoot(now: int, ghost t: Timer)
      requires heap.Valid() && heap.items != []
      requires var e := heap.items[0];
        && e in heap.members && Live(byID, e) && !e.stale && 0 < e.interval && e.deviceID in plan
        && Consistent(heap.members - {e}, byID - {e.deviceID}, plan - {e.deviceID})
        && t == Timer(e.interval, Advance(e.next, e.interval, now), e.job)
      modifies this`plan, heap, heap.members
      ensures Valid() && heap.members == old(heap.members)
      ensures plan == old(plan)[old(heap.items[0]).deviceID := t]
    {
      ghost var e := heap.items[0];
      ghost var rest := heap.members - {e};
      plan := plan[e.deviceID := t];
      assert plan - {e.deviceID} == old(plan) - {e.deviceID};
      assert rest + {e} == heap.members;
      var _ := heap.Refire(now);
      ConsistentWith(rest, byID, plan, e);
    }

    /** Discard a stale root. */
    method DropRoot()
      requires Valid() && heap.items != [] && heap.items[0].stale
      modifies heap
      ensures Valid() && heap.members < old(heap.members)
    {
      heap.RootIsLeastTick();
      ConsistentWithout(heap.members, byID, plan, heap.items[0]);
      var _ := heap.Pop();
    }

    method DropStale()
      requires Valid()
      modifies heap
      ensures Valid() && heap.members <= old(heap.members)
      ensures heap.items != [] ==> !heap.items[0].stale
    {
      while |heap.items| > 0 && heap.items[0].stale
        invariant Valid() && heap.members <= old(heap.members)
        decreases heap.members
      {
        DropRoot();
      }
    }

    /** What the loop does before it sleeps: nothing to wait for, or a delay. */
    method Measure(now: int, ghost s: L.State) returns (empty: bool, delay: int, ghost s': L.State)
      requires Valid() && Shows(s) && s.pc.Top? && s.clock == now
      modifies heap
      ensures Valid() && heap.members <= old(heap.members)
      ensures empty <==> plan == map[]
      ensures !empty ==> IsDelay(plan, now, delay)
      ensures L.Next(s, L.Action.Measure(delay), s') && Shows(s')
      ensures s'.pc == if empty then L.WaitEmpty else L.Measured(delay, now)
    {
      DropStale();
      if plan != map[] {
        var id :| id in plan;
        assert byID[id] in heap.members;
      }
      if |heap.items| == 0 {
        SameMembers(heap.items, heap.members);
        return true, 0, s.(pc := L.WaitEmpty);
      }
      ghost var e := heap.items[0];
      heap.RootIsLeastTick();
      EarliestEntry(heap.members, byID, plan, e);
      empty, delay := false, heap.items[0].next - now;
      if delay < 0 {
        delay := 0;
      }
      forall j | j in plan ensures Until(plan[e.deviceID], now) <= Until(plan[j], now) {
        assert AtMost(TickOf(plan, e.deviceID), TickOf(plan, j));
      }
      s' := s.(pc := L.Measured(delay, now));
    }

    /** One turn of the catch-up loop; done when nothing is due any more. */
    method CatchUp(now: int, due0: seq<PollEntry>, ghost plan0: Plan, ghost ticks0: seq<Key>)
      returns (due: seq<PollEntry>, ghost ticks: seq<Key>, done: bool)
      requires Valid() && heap.items != [] && CaughtUp(plan0, plan, now, ticks0, byID, due0)
      modifies this`plan, heap, heap.members
      ensures Valid() && heap.members <= old(heap.members)
      ensures CaughtUp(plan0, plan, now, ticks, byID, due)
      ensures done ==> forall e :: e in heap.members ==> now < e.next
      ensures done ==> forall id :: id in plan ==> !Due(plan[id], now)
      ensures !done ==> Fewer(plan, old(plan), now) || (plan == old(plan) && heap.members < old(heap.members))
    {
      due, ticks, done := due0, ticks0, false;
      var e := heap.items[0];
      heap.RootIsLeastTick();
      if e.stale {
        DropRoot();
      } else if now < e.next {
        done := true;
      } else {
        CaughtUpStep(heap.members, plan0, plan, now, ticks, byID, due, e);
        due, ticks := due + [e], ticks + [e.Tick()];
        Refire(now);
      }
    }

    /** dropStale and the catch-up loop, under the lock: fires every due device in
        order. The entries to fire come out in due; ticks are the instants they
        were scheduled for. */
    method Wake(now: int, ghost s: L.State) returns (due: seq<PollEntry>, ghost ticks: seq<Key>, ghost s': L.State)
      requires Valid() && Shows(s) && s.pc == L.Firing(now)
      modifies this`plan, heap, heap.members
      ensures Valid() && heap.members <= old(heap.members)
      ensures plan == WokenPlan(old(plan), now)
      ensures StrictlySorted(ticks) && forall k :: k in ticks <==> Fires(old(plan), now, k)
      ensures Fits(byID, due, ticks)
      ensures forall e :: e in heap.members ==> now < e.next
      ensures L.Next(s, L.Action.Fire, s') && Shows(s')
    {
      DropStale();
      due, ticks := [], [];
      var done := false;
      while !done && |heap.items| > 0
        invariant Valid() && heap.members <= old(heap.members)
        invariant CaughtUp(old(plan), plan, now, ticks, byID, due)
        invariant done ==> forall e :: e in heap.members ==> now < e.next
        invariant done ==> forall id :: id in plan ==> !Due(plan[id], now)
        decreases !done, TwiceDue(plan, now), AllDue(plan, now), heap.members
      {
        due, ticks, done := CatchUp(now, due, old(plan), ticks);
      }
      ProgressDone(old(plan), plan, now, ticks);
      s' := s.(plan := plan, pc := L.Top);
    }
  }
}
