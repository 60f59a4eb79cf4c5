/** What the reloads of the scheduler guarantee between one another, and where the code
    is narrower than its comments. */
module ReloadTheorems {
  import opened DeviceJobs
  import opened DriverCalls
  import opened ConnPool
  import opened PollPlan
  import opened ReconcileSpec
  import opened ReconcileSteps
  import opened ReloadProgress
  import S = Scheduler

  /** Every handle ever opened is owned by exactly one runtime and open, or owned by
      none and closed exactly once. */
  lemma Ownership(modeOf: ConnKey -> Mode, rts: Runtimes, points: JobPoints, plan: Plan, log: seq<Call>,
                  lost: set<DeviceID>)
    requires AtRest(modeOf, rts, points, plan, log, lost)
    ensures Legal(log)
    ensures forall c :: c in ClosesOf(log) ==> ClosesOf(log)[c] == if c in ConnsOf(rts) then 0 else 1
    ensures ConnsOf(rts) == Live(ClosesOf(log))
    ensures forall i, j :: i in rts && j in rts && i != j ==> rts[i].conn != rts[j].conn
  {
    forall c | c in ClosesOf(log) ensures Owns(rts, c) <==> c in ConnsOf(rts) {
      if c in ConnsOf(rts) {
        var id :| id in rts && rts[id].conn == c;
        assert rts[id].conn.deviceID == id;
      }
    }
  }

  /** The devices whose runtimes use a pooled connection. */
  ghost function DevicesOn(rts: Runtimes, k: PoolKey): set<DeviceID> {
    set id | id in rts && PoolOf(rts[id].connKey) == k
  }

  /** Distinct devices, distinct handles. */
  lemma {:induction false} SameSize(hs: set<Conn>, ids: set<DeviceID>)
    requires forall c :: c in hs ==> c.deviceID in ids
    requires forall c, e :: c in hs && e in hs && c.deviceID == e.deviceID ==> c == e
    requires forall id :: id in ids ==> exists c :: c in hs && c.deviceID == id
    ensures |hs| == |ids|
  {
    if hs == {} {
      assert ids == {};
    } else {
      var c :| c in hs;
      forall id | id in ids - {c.deviceID} ensures exists e :: e in hs - {c} && e.deviceID == id {
        var e :| e in hs && e.deviceID == id;
      }
      SameSize(hs - {c}, ids - {c.deviceID});
    }
  }

  lemma UsersAreDevices(modeOf: ConnKey -> Mode, rts: Runtimes, k: PoolKey)
    requires AllShaped(rts, modeOf)
    ensures |Users(ConnsOf(rts), k)| == |DevicesOn(rts, k)|
  {
    forall id | id in DevicesOn(rts, k) ensures exists c :: c in Users(ConnsOf(rts), k) && c.deviceID == id {
      assert rts[id].conn in ConnsOf(rts);
      assert rts[id].conn in Users(ConnsOf(rts), k);
    }
    SameSize(Users(ConnsOf(rts), k), DevicesOn(rts, k));
  }

  /** The drivers' side: whatever reloads happened, each runtime is on an open connection
      built from its own configuration, and each pooled connection counts its devices. */
  method DriversAtRest(s: S.Scheduler) returns (driver: Pool)
    requires s.Valid()
    ensures forall id :: id in s.runtimes ==>
      var rt := s.runtimes[id];
      && PoolOf(rt.connKey) in driver.pool
      && driver.pool[PoolOf(rt.connKey)].config == rt.connKey.config
      && !driver.pool[PoolOf(rt.connKey)].closed
    ensures forall k :: k in driver.pool ==> driver.pool[k].refCount == |DevicesOn(s.runtimes, k)| > 0
  {
    ghost var rts := s.runtimes;
    Ownership(s.modeOf, rts, s.points, s.plan, s.log, s.lost);
    forall k ensures |Users(ConnsOf(rts), k)| == |DevicesOn(rts, k)| {
      UsersAreDevices(s.modeOf, rts, k);
    }
    var log := s.log;
    driver := Serve(log);
    forall id | id in rts ensures rts[id].conn in Live(ClosesOf(log)) {
      assert rts[id].conn in ConnsOf(rts);
    }
  }

  /** After every reload that ends, the poll schedule holds exactly the polled devices that
      are not lost, each with its runtime's job, interval and points. */
  lemma ScheduleAtRest(modeOf: ConnKey -> Mode, rts: Runtimes, points: JobPoints, plan: Plan, lost: set<DeviceID>)
    requires Running(modeOf, rts, points, plan, lost)
    ensures forall id :: id in plan <==> id in rts && rts[id].mode == Poll && id !in lost
    ensures forall id :: id in plan ==>
      && plan[id].job == rts[id].job
      && plan[id].interval == (if rts[id].intervalMs <= 0 then 5_000_000_000 else rts[id].intervalMs * 1_000_000)
      && plan[id].job in points && points[plan[id].job] == rts[id].sig.points
  {
    var none: set<DeviceID> := {};
    forall id ensures OnSchedule(plan, rts, lost, id) {
      assert id !in none;
    }
    forall id ensures id in plan <==> id in rts && rts[id].mode == Poll && id !in lost {
      assert OnSchedule(plan, rts, lost, id);
    }
    forall id | id in plan
      ensures plan[id].job == rts[id].job
      ensures plan[id].interval == if rts[id].intervalMs <= 0 then 5_000_000_000 else rts[id].intervalMs * 1_000_000
      ensures plan[id].job in points && points[plan[id].job] == rts[id].sig.points
    {
      assert OnSchedule(plan, rts, lost, id) && FedAt(points, rts, id) && Shaped(rts[id], id, modeOf);
    }
  }

  /** The outcome of a reload that ends, as the contract of Apply gives it. */
  ghost predicate Outcome(r: Reload, b: Before, modeOf: ConnKey -> Mode, next: Runtimes, lost: set<DeviceID>) {
    && Fated(r, b, modeOf) && Lists(b.order, KeysOfRuntimes(r.prev))
    && Placing(r, b, modeOf, lost, next, r.desired.Keys, GoneBy(r, modeOf, KeysOfRuntimes(r.prev)))
  }

  /** A device whose connection and spec are unchanged keeps its runtime, handle and job
      included, unless its pushed group restarts; if it is polled, it is on or off the
      schedule as before. */
  lemma UnchangedIsKept(r: Reload, b: Before, modeOf: ConnKey -> Mode, next: Runtimes, lost: set<DeviceID>,
                        id: DeviceID)
    requires Outcome(r, b, modeOf, next, lost) && id in r.prev && id in r.desired
    requires r.prev[id].connKey == r.desired[id].key && r.prev[id].sig == SigOf(r.desired[id])
    ensures !Restarts(r, modeOf, r.desired[id].key) ==> id in next && next[id] == r.prev[id]
    ensures modeOf(r.desired[id].key) == Poll ==> id in next && next[id] == r.prev[id] && (id in lost <==> id in b.lost)
  {
    assert PlacedAt(r, b, modeOf, next, id);
    assert Survives(r, r.desired[id].key);
    if modeOf(r.desired[id].key) == Poll {
      LostAre(r, b, modeOf, next, lost, id);
      assert Shaped(r.prev[id], id, modeOf);
    }
  }

  /** A polled device that stays in its group or goes astray comes off the schedule, or
      stays off it: it changes its parameters and reopens polled; it stays as it was, off
      schedule; or it goes astray with the parameters it had, unless its interval changes
      and its old group comes first. */
  ghost predicate Drops(r: Reload, b: Before, modeOf: ConnKey -> Mode, id: DeviceID) {
    && id in r.prev && id in r.desired && r.prev[id].mode == Poll
    && (r.prev[id].connKey == r.desired[id].key || Astray(r, modeOf, id))
    && if r.prev[id].params != r.desired[id].params then modeOf(r.desired[id].key) == Poll && id in r.opens
       else if r.prev[id].connKey == r.desired[id].key then id in b.lost && !Retimed(r, id)
       else !(Retimed(r, id) && OldFirst(r, b, id))
  }

  lemma GoneAt(r: Reload, b: Before, modeOf: ConnKey -> Mode, id: DeviceID)
    requires Fated(r, b, modeOf) && id in r.prev && id in r.desired
    ensures !b.fates[id].Fresh? ==>
      && (id in GoneBy(r, modeOf, KeysOfRuntimes(r.prev)) <==> r.prev[id].connKey != r.desired[id].key)
      && (Astray(r, modeOf, id) <==> r.prev[id].connKey != r.desired[id].key)
    ensures b.fates[id].Fresh? && AllShaped(r.prev, modeOf) ==>
      !Astray(r, modeOf, id) && (r.prev[id].connKey == r.desired[id].key ==> r.prev[id].mode != Poll)
  {
    assert r.prev[id].connKey in KeysOfRuntimes(r.prev) && Survives(r, r.prev[id].connKey);
    if r.prev[id].connKey == r.desired[id].key && AllShaped(r.prev, modeOf) { assert Shaped(r.prev[id], id, modeOf); }
  }

  /** The devices that run polled but are off the schedule after a reload. */
  lemma LostAre(r: Reload, b: Before, modeOf: ConnKey -> Mode, next: Runtimes, lost: set<DeviceID>, id: DeviceID)
    requires Outcome(r, b, modeOf, next, lost)
    ensures id in lost <==> Drops(r, b, modeOf, id)
  {
    hide OldFirst, Retimed, Lists, Astray, GoneBy;
    var gone := GoneBy(r, modeOf, KeysOfRuntimes(r.prev));
    NobodyHeld(r, b, modeOf);
    assert LostAt(r, b, modeOf, next, lost, r.desired.Keys, gone, id);
    if id in r.prev && id in r.desired {
      assert Shaped(r.prev[id], id, modeOf);
      assert PlacedAt(r, b, modeOf, next, id);
      GoneAt(r, b, modeOf, id);
    }
  }

  /** Every polled device is on the schedule. */
  ghost predicate Complete(rts: Runtimes, plan: Plan) {
    forall id :: id in rts && rts[id].mode == Poll ==> id in plan
  }

  /** The change of a device that may cost it its place in the schedule. */
  ghost predicate Endangered(r: Reload, modeOf: ConnKey -> Mode, id: DeviceID) {
    && id in r.prev && id in r.desired && r.prev[id].mode == Poll
    && (r.prev[id].connKey == r.desired[id].key || Astray(r, modeOf, id))
    && if r.prev[id].params != r.desired[id].params then modeOf(r.desired[id].key) == Poll
       else r.prev[id].connKey != r.desired[id].key
  }

  ghost predicate OnlyRetimed(r: Reload, id: DeviceID) {
    Retimed(r, id) && r.prev[id].params == r.desired[id].params
  }

  /** The schedule is complete after a reload exactly when no device drops off it. A
      complete one stays so, whichever opens succeed and in any order of the groups, when
      no device makes such a change; with one it does not when all opens succeed, unless
      the interval changes and the parameters do not. */
  lemma CompleteIff(r: Reload, b: Before, modeOf: ConnKey -> Mode, next: Runtimes, points: JobPoints, plan: Plan,
                    lost: set<DeviceID>)
    requires Outcome(r, b, modeOf, next, lost) && Running(modeOf, next, points, plan, lost)
    ensures Complete(next, plan) <==> forall id :: !Drops(r, b, modeOf, id)
    ensures b.lost == {} && (forall id :: !Endangered(r, modeOf, id)) ==> Complete(next, plan)
    ensures r.desired.Keys <= r.opens && (exists id :: Endangered(r, modeOf, id) && !OnlyRetimed(r, id)) ==>
      !Complete(next, plan)
  {
    hide Outcome, Planned, Fed, Astray;
    ScheduleAtRest(modeOf, next, points, plan, lost);
    forall id
      ensures id in lost <==> Drops(r, b, modeOf, id)
      ensures b.lost == {} && Drops(r, b, modeOf, id) ==> Endangered(r, modeOf, id)
      ensures r.desired.Keys <= r.opens && Endangered(r, modeOf, id) && !OnlyRetimed(r, id) ==> Drops(r, b, modeOf, id)
    {
      LostAre(r, b, modeOf, next, lost, id);
    }
    hide Drops, Endangered;
  }

  /** A polled device that goes astray is off the schedule in any order of the groups,
      unless only its interval, or that and its points, change: then it is on it exactly
      if the old group came first. */
  lemma StraySchedule(r: Reload, b: Before, modeOf: ConnKey -> Mode, next: Runtimes, points: JobPoints, plan: Plan,
                      lost: set<DeviceID>, id: DeviceID)
    requires Outcome(r, b, modeOf, next, lost) && Running(modeOf, next, points, plan, lost)
    requires Astray(r, modeOf, id) && r.prev[id].mode == Poll
    ensures id in plan <==> r.prev[id].params == r.desired[id].params && Retimed(r, id) && OldFirst(r, b, id)
    ensures OldFirst(r, b, id) <==> !Earlier(b.order, r.desired[id].key, r.prev[id].connKey)
  {
    ScheduleAtRest(modeOf, next, points, plan, lost);
    LostAre(r, b, modeOf, next, lost, id);
    assert PlacedAt(r, b, modeOf, next, id);
    AstrayFate(r, modeOf, id);
    assert r.prev[id].connKey in b.order && r.desired[id].key in b.order;
    var i :| 0 <= i < |b.order| && b.order[i] == r.prev[id].connKey;
    var j :| 0 <= j < |b.order| && b.order[j] == r.desired[id].key;
  }

  // What runs is what was asked for.

  /** The runtime, its handle and its job have the device's own parameters, interval and
      points, and its timer the interval, whatever became of the device in the reload. */
  ghost predicate AsAsked(rt: Runtime, d: Desired, points: JobPoints, plan: Plan, id: DeviceID) {
    && rt.deviceID == rt.conn.deviceID == id && rt.conn.params == d.params && rt.params == d.params
    && rt.intervalMs == d.intervalMs
    && (rt.job != null ==> rt.job.conn == rt.conn && rt.job in points && points[rt.job] == d.points)
    && (id in plan ==>
          && plan[id].job == rt.job
          && plan[id].interval == if d.intervalMs <= 0 then 5_000_000_000 else d.intervalMs * 1_000_000)
  }

  /** After every reload that ends, no device runs that is not desired, and each that runs
      does so as asked, on a handle of the connection asked for, driver and configuration
      included, unless it went astray without a change of parameters. */
  lemma RunsAsAsked(r: Reload, b: Before, modeOf: ConnKey -> Mode, next: Runtimes, points: JobPoints, plan: Plan,
                    lost: set<DeviceID>, id: DeviceID)
    requires Outcome(r, b, modeOf, next, lost) && Running(modeOf, next, points, plan, lost) && id in next
    ensures id in r.desired && AsAsked(next[id], r.desired[id], points, plan, id)
    ensures next[id].mode == modeOf(next[id].conn.key)
    ensures next[id].conn.key == r.desired[id].key <==>
      !(Astray(r, modeOf, id) && r.prev[id].params == r.desired[id].params)
  {
    hide Lists, Retimed, OldFirst, LostAt, GoneBy;
    ScheduleAtRest(modeOf, next, points, plan, lost);
    assert PlacedAt(r, b, modeOf, next, id) && FedAt(points, next, id) && Shaped(next[id], id, modeOf);
    if id in r.prev {
      assert Shaped(r.prev[id], id, modeOf);
      GoneAt(r, b, modeOf, id);
    }
  }

  /** A device that can be opened and registered runs. One that cannot be opened runs only
      on the handle it had, and so does a polled device on an unchanged connection if and
      only if its parameters are unchanged. */
  lemma WhoRuns(r: Reload, b: Before, modeOf: ConnKey -> Mode, next: Runtimes, lost: set<DeviceID>, id: DeviceID)
    requires Outcome(r, b, modeOf, next, lost) && id in r.desired
    ensures id in r.opens && (modeOf(r.desired[id].key) == Poll || id in r.registers) ==> id in next
    ensures id in next && id !in r.opens ==> id in r.prev && next[id].conn == r.prev[id].conn
    ensures id in r.prev && r.prev[id].connKey == r.desired[id].key && modeOf(r.desired[id].key) == Poll ==>
      if r.prev[id].params == r.desired[id].params then id in next && next[id].conn == r.prev[id].conn
      else id in next ==> next[id].conn !in b.closes
  {
    hide Lists, Retimed, OldFirst, LostAt, GoneBy;
    assert PlacedAt(r, b, modeOf, next, id);
    if id in r.prev {
      assert Shaped(r.prev[id], id, modeOf);
      GoneAt(r, b, modeOf, id);
    }
  }

  /** Some device of the group is gone or has changed. */
  predicate MemberChanged(r: Reload, k: ConnKey) {
    exists j :: j in r.prev && r.prev[j].connKey == k
      && (j in r.desired ==> var rt, d := r.prev[j], r.desired[j];
            rt.params != d.params || rt.intervalMs != d.intervalMs || rt.sig.points != d.points)
  }

  /** A pushed group that had devices before is opened anew as a whole if one of them is
      gone or has changed, and otherwise keeps the runtimes of all that stay in it. */
  lemma PushedGroup(r: Reload, b: Before, modeOf: ConnKey -> Mode, next: Runtimes, lost: set<DeviceID>, id: DeviceID)
    requires Outcome(r, b, modeOf, next, lost) && id in r.prev && id in r.desired
    requires r.prev[id].connKey == r.desired[id].key && modeOf(r.desired[id].key) != Poll
    ensures if MemberChanged(r, r.desired[id].key) then id in next ==> next[id].conn !in b.closes
      else id in next && next[id] == r.prev[id]
  {
    hide Lists, Retimed, OldFirst, LostAt, GoneBy;
    assert PlacedAt(r, b, modeOf, next, id) && Survives(r, r.desired[id].key);
    forall j | j in r.prev && r.prev[j].connKey == r.desired[id].key ensures Shaped(r.prev[j], j, modeOf) {
    }
  }

  datatype Config = Config(desired: Wanted, opens: set<DeviceID>, registers: set<DeviceID>, now: int)

  /** A gateway starts and reloads: every handle is owned by exactly one runtime and open,
      or by none and closed once, and stays so up to the first configuration in which a
      device goes astray. */
  method Reloads(modeOf: ConnKey -> Mode, fnv: DeviceID -> nat, configs: seq<Config>) returns (s: S.Scheduler, n: nat)
    requires forall i :: 0 <= i < |configs| ==> Coherent(KeysOfWanted(configs[i].desired))
    ensures fresh(s) && s.modeOf == modeOf && s.Valid()
    ensures n <= |configs|
    ensures n < |configs| ==>
      var c := configs[n];
      !Clean(Reload(s.runtimes, c.desired, c.opens, c.registers, c.now), modeOf)
    ensures forall c :: c in ClosesOf(s.log) ==> ClosesOf(s.log)[c] == if c in ConnsOf(s.runtimes) then 0 else 1
    ensures forall i, j :: i in s.runtimes && j in s.runtimes && i != j ==> s.runtimes[i].conn != s.runtimes[j].conn
  {
    hide AtRest, Clean, Placing, Settled;
    s := new S.Scheduler(modeOf, fnv);
    n := 0;
    while n < |configs|
      invariant n <= |configs| && fresh(s) && s.modeOf == modeOf && s.Valid()
    {
      var c := configs[n];
      if !Clean(Reload(s.runtimes, c.desired, c.opens, c.registers, c.now), modeOf) {
        break;
      }
      var crashed, order := s.Apply(c.desired, c.opens, c.registers, c.now);
      n := n + 1;
    }
    Ownership(modeOf, s.runtimes, s.points, s.plan, s.log, s.lost);
  }

  /** Every desired device has a runtime that collects what it asks for. */
  ghost predicate Runs(rts: Runtimes, desired: Wanted, modeOf: ConnKey -> Mode) {
    && rts.Keys == desired.Keys
    && forall id :: id in desired ==> Shaped(rts[id], id, modeOf) && Collects(rts[id], desired[id])
  }

  /** A gateway that starts with some devices, all of which can be opened. */
  method Start(modeOf: ConnKey -> Mode, fnv: DeviceID -> nat, desired: Wanted, now: int) returns (s: S.Scheduler)
    requires Coherent(KeysOfWanted(desired))
    ensures fresh(s) && s.modeOf == modeOf && s.Valid() && s.lost == {}
    ensures Runs(s.runtimes, desired, modeOf)
  {
    hide AtRest, Settled;
    s := new S.Scheduler(modeOf, fnv);
    ghost var r := Reload(s.runtimes, desired, desired.Keys, desired.Keys, now);
    ghost var closes, lost := ClosesOf(s.log), s.lost;
    var crashed, order := s.Apply(desired, desired.Keys, desired.Keys, now);
    ghost var b := Before(closes, lost, FatesOf(r, modeOf), order);
    AllStarted(r, b, modeOf, s.runtimes, s.lost);
  }

  lemma AllStarted(r: Reload, b: Before, modeOf: ConnKey -> Mode, next: Runtimes, lost: set<DeviceID>)
    requires Outcome(r, b, modeOf, next, lost) && r.prev == map[] && r.desired.Keys <= r.opens * r.registers
    ensures Runs(next, r.desired, modeOf) && lost == {}
  {
    forall id | id in r.desired
      ensures id in next && Shaped(next[id], id, modeOf) && Collects(next[id], r.desired[id])
    {
      assert PlacedAt(r, b, modeOf, next, id);
    }
    forall id ensures id !in lost {
      assert LostAt(r, b, modeOf, next, lost, r.desired.Keys, GoneBy(r, modeOf, KeysOfRuntimes(r.prev)), id);
    }
  }

  // Concrete configurations in which the code falls short.

  function Key(id: string): ConnKey {
    ConnKey(ConnID(id), DriverName("modbus-tcp"), ConnConfig("{}"))
  }

  function Spec(id: string, params: string, point: string): Desired {
    Desired(Key(id), Params(params), 1000, Points([point]))
  }

  const DEVICE_A := DeviceID("a")
  const DEVICE_B := DeviceID("b")

  lemma KeysDiffer()
    ensures PoolOf(Key("1")) != PoolOf(Key("2")) && DEVICE_A != DEVICE_B
  {
    assert "1"[0] != "2"[0] && "a"[0] != "b"[0];
  }

  function Polled(k: ConnKey): Mode {
    Poll
  }

  function Subscribed(k: ConnKey): Mode {
    Subscribe
  }

  function TwoDevices(a: Desired): Wanted {
    map[DEVICE_A := a, DEVICE_B := Spec("2", "slave 2", "p")]
  }

  lemma TwoAreCoherent(a: Desired)
    requires a.key == Key("1") || a.key == Key("2")
    ensures Coherent(KeysOfWanted(TwoDevices(a)))
  {
    KeysDiffer();
  }

  /** The reload in which device a, running as before on connection 1, is to run on the
      connection of device b as after. */
  ghost function Moving(rts: Runtimes, after: Desired, now: int): Reload {
    Reload(rts, TwoDevices(after), {DEVICE_A, DEVICE_B}, {DEVICE_A, DEVICE_B}, now)
  }

  /** The first device moves to the connection of the second; that group does not restart. */
  lemma MoveIsAstray(rts: Runtimes, modeOf: ConnKey -> Mode, before: Desired, after: Desired, now: int)
    requires before.key == Key("1") && after.key == Key("2") && Runs(rts, TwoDevices(before), modeOf)
    ensures Astray(Moving(rts, after, now), modeOf, DEVICE_A)
    ensures forall id :: id != DEVICE_A ==> !Astray(Moving(rts, after, now), modeOf, id)
  {
    KeysDiffer();
    var r := Moving(rts, after, now);
    assert DEVICE_B in r.prev && r.prev[DEVICE_B].connKey == Key("2")
      && r.prev[DEVICE_B].sig == SigOf(r.desired[DEVICE_B]);
    assert r.prev[DEVICE_A].connKey == Key("1");
    forall j | j in r.prev && r.prev[j].connKey == Key("2")
      ensures j in r.desired && r.prev[j].sig == SigOf(r.desired[j])
    {
    }
  }

  /** Two polled devices on two connections; the first moves to the connection of the
      second and is otherwise unchanged. Its handle ends up closed while in use. */
  method MoveLosesHandle(fnv: DeviceID -> nat) returns (s: S.Scheduler)
    ensures !Settled(ClosesOf(s.log), s.runtimes)
    ensures exists c :: c in ClosesOf(s.log) && ClosesOf(s.log)[c] == 1 && Owns(s.runtimes, c)
    ensures DEVICE_A in s.runtimes && s.runtimes[DEVICE_A].mode == Poll && DEVICE_A !in s.plan
  {
    hide AtRest, Settled, Astray;
    var before, after := Spec("1", "slave 1", "p"), Spec("2", "slave 1", "p");
    TwoAreCoherent(before);
    TwoAreCoherent(after);
    s := Start(Polled, fnv, TwoDevices(before), 0);
    ghost var r := Moving(s.runtimes, after, 1);
    MoveIsAstray(s.runtimes, s.modeOf, before, after, 1);
    assert Shaped(r.prev[DEVICE_A], DEVICE_A, Polled);
    ghost var closes, lost := ClosesOf(s.log), s.lost;
    var crashed, order := s.Apply(TwoDevices(after), {DEVICE_A, DEVICE_B}, {DEVICE_A, DEVICE_B}, 1);
    ghost var b := Before(closes, lost, FatesOf(r, s.modeOf), order);
    assert Mishandled(r, ClosesOf(s.log), s.runtimes, DEVICE_A);
    StraySchedule(r, b, s.modeOf, s.runtimes, s.points, s.plan, s.lost, DEVICE_A);
  }

  /** The same with pushed devices, when one point of the first changes too: the reload
      crashes, since the device has no job to give the point to. */
  method MoveCrashes(fnv: DeviceID -> nat) returns (crashed: bool)
    ensures crashed
  {
    hide AtRest, Settled, Astray;
    var before, after := Spec("1", "slave 1", "p"), Spec("2", "slave 1", "q");
    TwoAreCoherent(before);
    TwoAreCoherent(after);
    var s := Start(Subscribed, fnv, TwoDevices(before), 0);
    ghost var r := Moving(s.runtimes, after, 1);
    MoveIsAstray(s.runtimes, s.modeOf, before, after, 1);
    assert Shaped(r.prev[DEVICE_A], DEVICE_A, Subscribed);
    assert "p"[0] != "q"[0] && ["p"][0] != ["q"][0];
    assert Stuck(r, s.modeOf, DEVICE_A);
    ghost var order;
    crashed, order := s.Apply(TwoDevices(after), {DEVICE_A, DEVICE_B}, {DEVICE_A, DEVICE_B}, 1);
  }

  /** One polled device changes its parameters; it runs on, but is off the schedule. */
  method ChangeLosesSchedule(fnv: DeviceID -> nat) returns (s: S.Scheduler)
    ensures s.Valid() && s.runtimes.Keys == {DEVICE_A} && s.runtimes[DEVICE_A].mode == Poll && s.plan == map[]
  {
    hide AtRest, Settled;
    var before, after := Spec("1", "slave 1", "p"), Spec("1", "slave 2", "p");
    s := Start(Polled, fnv, map[DEVICE_A := before], 0);
    ghost var r := Reload(s.runtimes, map[DEVICE_A := after], {DEVICE_A}, {}, 1);
    ghost var closes, lost := ClosesOf(s.log), s.lost;
    assert "slave 1"[6] != "slave 2"[6];
    assert Shaped(r.prev[DEVICE_A], DEVICE_A, Polled);
    var crashed, order := s.Apply(map[DEVICE_A := after], {DEVICE_A}, {}, 1);
    ghost var b := Before(closes, lost, FatesOf(r, s.modeOf), order);
    LostAre(r, b, s.modeOf, s.runtimes, s.lost, DEVICE_A);
    assert PlacedAt(r, b, s.modeOf, s.runtimes, DEVICE_A);
    ScheduleAtRest(s.modeOf, s.runtimes, s.points, s.plan, s.lost);
    assert forall id :: id !in s.plan;
  }
}
