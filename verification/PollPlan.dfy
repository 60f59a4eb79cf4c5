/** What the poll scheduler promises, said of a plain map from device to timer:
    no heap, no stale entries, no order of processing. */
module PollPlan {
  import opened PollKeys
  import opened DeviceJobs
  import opened PollHeap

  const DEFAULT_INTERVAL := 5_000_000_000  // nanoseconds

  datatype Timer = Timer(interval: int, next: int, job: DeviceJob)

  type Plan = map<DeviceID, Timer>

  /** A stable offset per device, so that devices of one interval do not fire together. */
  function HashPhase(hash: nat, interval: nat): (phase: nat)
    requires 0 < interval
    ensures phase < interval
  {
    hash % interval
  }

  function EffectiveInterval(interval: int): (r: int)
    ensures 0 < r
  {
    if interval <= 0 then DEFAULT_INTERVAL else interval
  }

  /** The device's timer is replaced, no other; its first tick is a remainder of its hash away. */
  function Scheduled(plan: Plan, id: DeviceID, hash: nat, interval: int, job: DeviceJob, now: int): (p: Plan)
    ensures p.Keys == plan.Keys + {id} && p[id].job == job
    ensures p[id].interval == if 0 < interval then interval else 5_000_000_000
    ensures p[id].next == now + hash % p[id].interval < now + p[id].interval
    ensures forall j :: j in plan && j != id ==> p[j] == plan[j]
  {
    var iv := EffectiveInterval(interval);
    plan[id := Timer(iv, now + HashPhase(hash, iv), job)]
  }

  lemma RescheduleReplaces(plan: Plan, id: DeviceID, t: Timer)
    ensures (plan - {id})[id := t] == plan[id := t]
  {
  }

  function Removed(plan: Plan, id: DeviceID): (p: Plan)
    ensures p.Keys == plan.Keys - {id} && forall j :: j in p ==> p[j] == plan[j]
  {
    plan - {id}
  }

  predicate Due(t: Timer, now: int) {
    t.next <= now
  }

  /** After one step the timer is due again: its next tick falls on now exactly. */
  predicate DueTwice(t: Timer, now: int) {
    Due(t, now) && t.next + t.interval == now
  }

  function AfterWake(t: Timer, now: int): Timer {
    if !Due(t, now) then t
    else if t.next + t.interval <= now then t.(next := now + t.interval)
    else t.(next := t.next + t.interval)
  }

  function WokenPlan(plan: Plan, now: int): Plan {
    map id | id in plan :: AfterWake(plan[id], now)
  }

  /** k is a tick that a wake at time now fires. */
  predicate Fires(plan: Plan, now: int, k: Key) {
    && k.id in plan
    && Due(plan[k.id], now)
    && (k.next == plan[k.id].next || (DueTwice(plan[k.id], now) && k.next == now))
  }

  predicate WellFormed(plan: Plan) {
    forall id :: id in plan ==> 0 < plan[id].interval
  }

  /** delay is how long to sleep at time now: until the earliest tick, or not at all. */
  ghost predicate IsDelay(plan: Plan, now: int, delay: int) {
    && 0 <= delay
    && (forall id :: id in plan ==> delay <= Until(plan[id], now))
    && (exists id :: id in plan && delay == Until(plan[id], now))
  }

  function Until(t: Timer, now: int): nat {
    if t.next < now then 0 else t.next - now
  }

  // The catch-up loop, seen on the plan.

  function Step(t: Timer, now: int): Timer {
    t.(next := Advance(t.next, t.interval, now))
  }

  function TickOf(plan: Plan, id: DeviceID): Key
    requires id in plan
  {
    Key(plan[id].next, id)
  }

  ghost predicate Earliest(plan: Plan, id: DeviceID) {
    id in plan && forall j :: j in plan ==> AtMost(TickOf(plan, id), TickOf(plan, j))
  }

  /** Where the loop may have brought a timer: nowhere, one step on, or two steps on. */
  predicate Reached(t: Timer, u: Timer, now: int) {
    || u == t
    || (Due(t, now) && u == Step(t, now))
    || (DueTwice(t, now) && u == Step(Step(t, now), now))
  }

  predicate Fired(plan: Plan, cur: Plan, now: int, k: Key)
    requires plan.Keys == cur.Keys
  {
    && k.id in plan
    && (|| (k.next == plan[k.id].next && cur[k.id] != plan[k.id])
        || (k.next == now && DueTwice(plan[k.id], now) && cur[k.id] == Step(Step(plan[k.id], now), now)))
  }

  /** The loop started from plan, has fired ticks in order, and now holds cur. */
  ghost predicate Progress(plan: Plan, cur: Plan, now: int, ticks: seq<Key>) {
    && WellFormed(plan)
    && plan.Keys == cur.Keys
    && (forall id :: id in plan ==> Reached(plan[id], cur[id], now))
    && (forall k :: k in ticks <==> Fired(plan, cur, now, k))
    && StrictlySorted(ticks)
    && (forall k, id :: k in ticks && id in cur ==> Less(k, TickOf(cur, id)))
  }

  ghost function TwiceDue(plan: Plan, now: int): set<DeviceID> {
    set id | id in plan && DueTwice(plan[id], now)
  }

  ghost function AllDue(plan: Plan, now: int): set<DeviceID> {
    set id | id in plan && Due(plan[id], now)
  }

  lemma ProgressStep(plan: Plan, cur: Plan, now: int, ticks: seq<Key>, id: DeviceID)
    requires Progress(plan, cur, now, ticks) && Earliest(cur, id) && Due(cur[id], now)
    ensures Progress(plan, cur[id := Step(cur[id], now)], now, ticks + [TickOf(cur, id)])
  {
    var k0 := TickOf(cur, id);
    var next := cur[id := Step(cur[id], now)];
    var ticks' := ticks + [k0];
    forall i, j | 0 <= i < j < |ticks'| ensures Less(ticks'[i], ticks'[j]) {
      assert ticks[i] in ticks;
    }
    forall k ensures k in ticks' <==> Fired(plan, next, now, k) {
      assert k in ticks' <==> k in ticks || k == k0;
    }
    forall k, j | k in ticks' && j in next ensures Less(k, TickOf(next, j)) {
      if j == id {
        if k != k0 { LessTransitive(k, k0, TickOf(next, j)); }
      } else if k == k0 {
        LessTotal(k0, TickOf(cur, j));
      }
    }
  }

  /** Fewer timers are due twice, or as many and fewer are due. */
  ghost predicate Fewer(next: Plan, plan: Plan, now: int) {
    || TwiceDue(next, now) < TwiceDue(plan, now)
    || (TwiceDue(next, now) == TwiceDue(plan, now) && AllDue(next, now) < AllDue(plan, now))
  }

  /** Why the loop ends although it pushes what it pops. */
  lemma StepDecreases(plan: Plan, now: int, id: DeviceID)
    requires id in plan && 0 < plan[id].interval && Due(plan[id], now)
    ensures Fewer(plan[id := Step(plan[id], now)], plan, now)
  {
    var next := plan[id := Step(plan[id], now)];
    assert forall j :: j in TwiceDue(next, now) ==> j in TwiceDue(plan, now);
    if DueTwice(plan[id], now) {
      assert id in TwiceDue(plan, now) && id !in TwiceDue(next, now);
    } else {
      assert TwiceDue(next, now) == TwiceDue(plan, now);
      assert id in AllDue(plan, now) && id !in AllDue(next, now);
    }
  }

  lemma ProgressDone(plan: Plan, cur: Plan, now: int, ticks: seq<Key>)
    requires Progress(plan, cur, now, ticks)
    requires forall id :: id in cur ==> !Due(cur[id], now)
    ensures cur == WokenPlan(plan, now)
    ensures forall k :: k in ticks <==> Fires(plan, now, k)
  {
    forall id | id in plan ensures cur[id] == AfterWake(plan[id], now) {
    }
    forall k ensures Fired(plan, cur, now, k) <==> Fires(plan, now, k) {
    }
  }
}
