/** What the plain map of PollPlan guarantees over one wake and over runs of wakes. */
module PollRate {
  import opened PollKeys
  import opened PollPlan
  import opened DeviceJobs

  /** The ticks one wake fires for a timer, in order. */
  function WakeTicks(t: Timer, now: int): seq<int> {
    if !Due(t, now) then []
    else if DueTwice(t, now) then [t.next, now]
    else [t.next]
  }

  lemma WakeTicksAreFires(plan: Plan, now: int, id: DeviceID, tick: int)
    requires WellFormed(plan) && id in plan
    ensures tick in WakeTicks(plan[id], now) <==> Fires(plan, now, Key(tick, id))
  {
  }

  /** The promise "at most one firing per device and wake" holds exactly when no tick
      of the plan lies one interval before now. */
  lemma AtMostOncePerWake(plan: Plan, now: int)
    requires WellFormed(plan)
    ensures (forall k, l :: Fires(plan, now, k) && Fires(plan, now, l) && k.id == l.id ==> k == l)
        <==> (forall id :: id in plan ==> plan[id].next + plan[id].interval != now)
  {
    if id :| id in plan && plan[id].next + plan[id].interval == now {
      assert Fires(plan, now, Key(plan[id].next, id)) && Fires(plan, now, Key(now, id));
    }
  }

  /** A device of interval 5 last due at 5 fires twice in a wake at 10. */
  lemma TwiceInOneWake(id: DeviceID, job: DeviceJob)
    ensures WakeTicks(Timer(5, 5, job), 10) == [5, 10]
  {
  }

  /** A wake leaves every tick in the future, by at most one interval. */
  lemma NextAfterWake(t: Timer, now: int)
    requires 0 < t.interval && Due(t, now)
    ensures now < AfterWake(t, now).next <= now + t.interval
    ensures AfterWake(t, now).interval == t.interval && AfterWake(t, now).job == t.job
  {
  }

  /** The ticks a run of wakes fires for one timer. */
  function RunTicks(t: Timer, wakes: seq<int>): seq<int>
    decreases |wakes|
  {
    if wakes == [] then [] else WakeTicks(t, wakes[0]) + RunTicks(AfterWake(t, wakes[0]), wakes[1..])
  }

  function AfterRun(t: Timer, wakes: seq<int>): Timer
    decreases |wakes|
  {
    if wakes == [] then t else AfterRun(AfterWake(t, wakes[0]), wakes[1..])
  }

  ghost predicate Spaced(ticks: seq<int>, interval: int) {
    forall i :: 0 < i < |ticks| ==> ticks[i - 1] + interval <= ticks[i]
  }

  /** Whatever the wakes, a device never fires faster than its interval: no catching
      up, and the first tick is the one scheduled. */
  lemma {:induction false} TicksAreSpaced(t: Timer, wakes: seq<int>)
    requires 0 < t.interval
    ensures Spaced(RunTicks(t, wakes), t.interval)
    ensures RunTicks(t, wakes) != [] ==> RunTicks(t, wakes)[0] == t.next
    decreases |wakes|
  {
    if wakes != [] {
      var now, u := wakes[0], AfterWake(t, wakes[0]);
      TicksAreSpaced(u, wakes[1..]);
      var head, tail := WakeTicks(t, now), RunTicks(u, wakes[1..]);
      assert head + tail == RunTicks(t, wakes);
      if Due(t, now) {
        forall i | 0 < i < |head + tail| ensures (head + tail)[i - 1] + t.interval <= (head + tail)[i] {
          if |head| < i { assert tail[i - |head| - 1] + t.interval <= tail[i - |head|]; }
        }
      } else {
        assert head + tail == tail;
      }
    }
  }

  // The fixed rate.

  ghost predicate Ascends(wakes: seq<int>) {
    forall i, j :: 0 <= i < j < |wakes| ==> wakes[i] <= wakes[j]
  }

  /** Some wake fires the tick: the first at or after it. */
  predicate Woken(wakes: seq<int>, tick: int)
    decreases |wakes|
  {
    wakes != [] && (tick <= wakes[0] || Woken(wakes[1..], tick))
  }

  function WakeOf(wakes: seq<int>, tick: int): (w: int)
    requires Woken(wakes, tick)
    ensures tick <= w && w in wakes
    decreases |wakes|
  {
    if tick <= wakes[0] then wakes[0] else WakeOf(wakes[1..], tick)
  }

  /** next follows tick: one interval later, unless tick was fired more than an interval
      late, and then one interval after that wake. */
  predicate Follows(wakes: seq<int>, tick: int, next: int, interval: int) {
    && Woken(wakes, tick)
    && var w := WakeOf(wakes, tick);
       next == if w <= tick + interval then tick + interval else w + interval
  }

  ghost predicate AllFollow(wakes: seq<int>, ticks: seq<int>, interval: int) {
    forall i :: 0 < i < |ticks| ==> Follows(wakes, ticks[i - 1], ticks[i], interval)
  }

  /** The fixed rate, whatever the wakes: the first tick is the one scheduled, and each tick
      of a run, and the one that comes next after it, follows the one before. */
  lemma {:induction false} FixedRate(t: Timer, wakes: seq<int>)
    requires 0 < t.interval && Ascends(wakes)
    ensures var all := RunTicks(t, wakes) + [AfterRun(t, wakes).next];
      all[0] == t.next && AllFollow(wakes, all, t.interval)
    decreases |wakes|
  {
    if wakes != [] {
      var now, rest := wakes[0], wakes[1..];
      var u := AfterWake(t, now);
      FixedRate(u, rest);
      var head, tail := WakeTicks(t, now), RunTicks(u, rest) + [AfterRun(u, rest).next];
      var all := RunTicks(t, wakes) + [AfterRun(t, wakes).next];
      assert all == head + tail;
      NotBefore(u, rest, now);
      FirstFollow(t, wakes);
      hide Follows, WakeTicks, AfterWake;
      forall i | 0 < i < |all| ensures Follows(wakes, all[i - 1], all[i], t.interval) {
        if |head| < i {
          var j := i - |head|;
          assert tail[j - 1] in RunTicks(u, rest);
          assert Follows(rest, tail[j - 1], tail[j], t.interval);
          StillFollows(wakes, tail[j - 1], tail[j], t.interval);
        }
      }
    }
  }

  lemma StillFollows(wakes: seq<int>, tick: int, next: int, interval: int)
    requires wakes != [] && wakes[0] < tick && Follows(wakes[1..], tick, next, interval)
    ensures Follows(wakes, tick, next, interval)
  {
  }

  lemma FirstFollow(t: Timer, wakes: seq<int>)
    requires 0 < t.interval && wakes != []
    ensures var all := WakeTicks(t, wakes[0]) + [AfterWake(t, wakes[0]).next];
      all[0] == t.next && AllFollow(wakes, all, t.interval)
  {
  }

  /** All later ticks come after now. */
  lemma {:induction false} NotBefore(t: Timer, wakes: seq<int>, now: int)
    requires 0 < t.interval && now < t.next
    ensures forall tick :: tick in RunTicks(t, wakes) ==> now < tick
    decreases |wakes|
  {
    if wakes != [] {
      NotBefore(AfterWake(t, wakes[0]), wakes[1..], now);
    }
  }

  /** So while no tick is fired more than an interval late, the ticks are a grid. */
  lemma {:induction false} OnGrid(t: Timer, wakes: seq<int>)
    requires 0 < t.interval && Ascends(wakes)
    requires forall tick :: tick in RunTicks(t, wakes) ==>
      Woken(wakes, tick) && WakeOf(wakes, tick) <= tick + t.interval
    ensures forall i :: 0 <= i < |RunTicks(t, wakes)| ==> RunTicks(t, wakes)[i] == t.next + i * t.interval
    ensures AfterRun(t, wakes).next == t.next + |RunTicks(t, wakes)| * t.interval
  {
    var ticks := RunTicks(t, wakes);
    var all := ticks + [AfterRun(t, wakes).next];
    FixedRate(t, wakes);
    assert forall i :: 0 <= i < |ticks| ==> all[i] == ticks[i];
    for i := 0 to |ticks|
      invariant forall j :: 0 <= j <= i ==> all[j] == t.next + j * t.interval
    {
      assert all[i] == ticks[i] && ticks[i] in ticks;
      assert Follows(wakes, all[i], all[i + 1], t.interval);
      assert (i + 1) * t.interval == i * t.interval + t.interval;
    }
  }

  /** So up to time last a device fires at most once per interval since its first tick. */
  lemma {:induction false} RateBound(t: Timer, wakes: seq<int>, last: int)
    requires 0 < t.interval && forall i :: 0 <= i < |wakes| ==> wakes[i] <= last
    ensures var n := |RunTicks(t, wakes)|; n > 0 ==> t.next + (n - 1) * t.interval <= last
  {
    TicksAreSpaced(t, wakes);
    TicksInTime(t, wakes, last);
    var ticks := RunTicks(t, wakes);
    if ticks != [] {
      SpacedReach(ticks, t.interval);
      assert ticks[|ticks| - 1] in ticks;
    }
  }

  lemma {:induction false} TicksInTime(t: Timer, wakes: seq<int>, last: int)
    requires forall i :: 0 <= i < |wakes| ==> wakes[i] <= last
    ensures forall tick :: tick in RunTicks(t, wakes) ==> tick <= last
    decreases |wakes|
  {
    if wakes != [] { TicksInTime(AfterWake(t, wakes[0]), wakes[1..], last); }
  }

  lemma {:induction false} SpacedReach(ticks: seq<int>, interval: int)
    requires ticks != [] && Spaced(ticks, interval)
    ensures ticks[0] + (|ticks| - 1) * interval <= ticks[|ticks| - 1]
  {
    if |ticks| > 1 {
      var init := ticks[..|ticks| - 1];
      SpacedReach(init, interval);
      assert (|init| - 1) * interval + interval == (|ticks| - 1) * interval;
    }
  }

  /** And it does not fall behind: after wakes up to last, the next tick is in
      (last, last + interval], or the first tick has not come yet. */
  lemma {:induction false} KeepsUp(t: Timer, wakes: seq<int>)
    requires 0 < t.interval && wakes != []
    requires forall i, j :: 0 <= i < j < |wakes| ==> wakes[i] <= wakes[j]
    ensures var last := wakes[|wakes| - 1];
      && last < AfterRun(t, wakes).next
      && (t.next <= last ==> AfterRun(t, wakes).next <= last + t.interval)
      && (last < t.next ==> AfterRun(t, wakes) == t && RunTicks(t, wakes) == [])
    decreases |wakes|
  {
    if |wakes| > 1 {
      KeepsUp(AfterWake(t, wakes[0]), wakes[1..]);
    }
  }
}
