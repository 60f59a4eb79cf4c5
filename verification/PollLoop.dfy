/** The sleep and wake protocol of the scheduler goroutine, as a state machine: the
    loop runs beside schedule and remove, each holding the lock for one step, and
    sleeps on a timer and a wake channel of capacity one. */
module PollLoop {
  import opened PollKeys
  import opened PollPlan
  import opened DeviceJobs

  /** Where the loop is. since and armed are clock readings kept for the proof. */
  datatype Pc =
    | Top
    | WaitEmpty
    | Measured(delay: int, since: int)
    | WaitTimer(deadline: int, since: int, armed: int)
    | Awake
    | Firing(now: int)

  datatype State = State(plan: Plan, token: bool, pc: Pc, clock: int)

  datatype Action =
    | Schedule(id: DeviceID, hash: nat, interval: int, job: DeviceJob)
    | Remove(id: DeviceID)
    | TimePasses(d: nat)
    | Measure(delay: int)
    | Arm
    | TakeToken
    | TimerFires
    | ReadClock
    | Fire

  ghost predicate Next(s: State, a: Action, s': State) {
    match a
    case Schedule(id, hash, interval, job) =>
      s' == s.(plan := Scheduled(s.plan, id, hash, interval, job, s.clock), token := true)
    case Remove(id) =>
      s' == s.(plan := Removed(s.plan, id), token := s.token || id in s.plan)
    case TimePasses(d) =>
      s' == s.(clock := s.clock + d)
    case Measure(delay) =>
      && s.pc.Top?
      && if s.plan == map[] then s' == s.(pc := WaitEmpty)
         else IsDelay(s.plan, s.clock, delay) && s' == s.(pc := Measured(delay, s.clock))
    case Arm =>
      s.pc.Measured? && s' == s.(pc := WaitTimer(s.clock + s.pc.delay, s.pc.since, s.clock))
    case TakeToken =>
      s.token && (
        || (s.pc.WaitEmpty? && s' == s.(token := false, pc := Top))
        || (s.pc.WaitTimer? && s' == s.(token := false, pc := Awake)))
    case TimerFires =>
      s.pc.WaitTimer? && s.pc.deadline <= s.clock && s' == s.(pc := Awake)
    case ReadClock =>
      s.pc.Awake? && s' == s.(pc := Firing(s.clock))
    case Fire =>
      s.pc.Firing? && s' == s.(plan := WokenPlan(s.plan, s.pc.now), pc := Top)
  }

  predicate Init(s: State) {
    s.plan == map[] && !s.token && s.pc == Top
  }

  ghost predicate Run(states: seq<State>, actions: seq<Action>) {
    && |states| == |actions| + 1
    && Init(states[0])
    && forall i :: 0 <= i < |actions| ==> Next(states[i], actions[i], states[i + 1])
  }

  function Max(a: int, b: int): int {
    if a < b then b else a
  }

  /** The loop sleeps until some device's tick, or not at all if that is past. */
  ghost predicate Sleeps(plan: Plan, since: int, until: int) {
    exists id :: id in plan && until == Max(since, plan[id].next)
  }

  /** While the loop sleeps, either a token waits for it or its deadline is that of the
      earliest tick, late by just the pause between measuring and arming. */
  ghost predicate Inv(s: State) {
    && WellFormed(s.plan)
    && match s.pc
       case WaitEmpty => s.token || s.plan == map[]
       case Measured(delay, since) =>
         && since <= s.clock
         && (s.token || forall id :: id in s.plan ==> since + delay <= Max(since, s.plan[id].next))
         && (s.token || Sleeps(s.plan, since, since + delay))
       case WaitTimer(deadline, since, armed) =>
         && since <= armed <= s.clock
         && (s.token || forall id :: id in s.plan ==> deadline <= Max(since, s.plan[id].next) + (armed - since))
         && (s.token || Sleeps(s.plan, since, deadline - (armed - since)))
       case Firing(now) => now <= s.clock
       case _ => true
  }

  lemma InvNext(s: State, a: Action, s': State)
    requires Inv(s) && Next(s, a, s')
    ensures Inv(s')
  {
    if a.Remove? && a.id !in s.plan {
      assert s'.plan == s.plan;
    }
    if a.Measure? && s.plan != map[] {
      var id :| id in s.plan && a.delay == Until(s.plan[id], s.clock);
      assert s.clock + a.delay == Max(s.clock, s.plan[id].next);
    }
  }

  lemma {:induction false} InvRun(states: seq<State>, actions: seq<Action>, n: nat)
    requires Run(states, actions) && n <= |states|
    ensures forall i :: 0 <= i < n ==> Inv(states[i])
  {
    if n > 1 {
      InvRun(states, actions, n - 1);
      InvNext(states[n - 2], actions[n - 2], states[n - 1]);
    }
  }

  predicate Asleep(s: State) {
    s.pc.WaitEmpty? || s.pc.WaitTimer?
  }

  predicate CanWake(s: State) {
    s.token || (s.pc.WaitTimer? && s.pc.deadline <= s.clock)
  }

  function Lag(s: State): int {
    if s.pc.WaitTimer? then s.pc.armed - s.pc.since else 0
  }

  /** In every reachable state a sleeping loop that has a device to fire can wake up,
      as soon as the tick is as far past as the loop took to arm its timer. */
  lemma NoMissedWake(states: seq<State>, actions: seq<Action>, i: nat, id: DeviceID)
    requires Run(states, actions) && i < |states|
    requires Asleep(states[i]) && id in states[i].plan
    requires states[i].plan[id].next + Lag(states[i]) <= states[i].clock
    ensures CanWake(states[i])
  {
    InvRun(states, actions, |states|);
  }

  /** And it does not wake for nothing: when its timer fires without a token, some tick has
      come, or had come before the loop went to sleep. */
  lemma NoIdleWake(states: seq<State>, actions: seq<Action>, i: nat)
    requires Run(states, actions) && i < |states|
    requires states[i].pc.WaitTimer? && !states[i].token && states[i].pc.deadline <= states[i].clock
    ensures exists id :: id in states[i].plan && states[i].plan[id].next <= states[i].clock
  {
    InvRun(states, actions, |states|);
  }

  /** The three steps of the loop after it wakes on its timer or the token. */
  ghost predicate WakesAndFires(s: State, a: Action, s1: State, s2: State, s3: State) {
    && (a.TakeToken? || a.TimerFires?)
    && Next(s, a, s1) && Next(s1, ReadClock, s2) && Next(s2, Fire, s3)
  }

  /** So a due device is fired by those steps, and its next tick lies in the future. */
  lemma DueDeviceFires(states: seq<State>, actions: seq<Action>, i: nat, id: DeviceID)
      returns (a: Action, s1: State, s2: State, s3: State)
    requires Run(states, actions) && i < |states|
    requires states[i].pc.WaitTimer? && id in states[i].plan
    requires states[i].plan[id].next + Lag(states[i]) <= states[i].clock
    ensures WakesAndFires(states[i], a, s1, s2, s3)
    ensures s2.pc.Firing? && Fires(s2.plan, s2.pc.now, Key(states[i].plan[id].next, id))
    ensures id in s3.plan && s3.clock < s3.plan[id].next
  {
    InvRun(states, actions, |states|);
    var s := states[i];
    NoMissedWake(states, actions, i, id);
    a := if s.token then TakeToken else TimerFires;
    s1 := if s.token then s.(token := false, pc := Awake) else s.(pc := Awake);
    s2 := s1.(pc := Firing(s.clock));
    s3 := s2.(plan := WokenPlan(s.plan, s.clock), pc := Top);
  }
}
