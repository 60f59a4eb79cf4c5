/** What an incremental reload of internal/core/scheduler.go keeps at every point:
    which connection handles are live and who owns them, and what is on the poll
    schedule. */
module ReconcileSpec {
  import opened DeviceJobs
  import opened DriverCalls
  import opened PollPlan

  datatype Mode = Poll | Subscribe | Listen

  /** The collection spec of a device: a change of any part needs handling. */
  datatype Sig = Sig(params: Params, intervalMs: int, points: Points)

  datatype Desired = Desired(key: ConnKey, params: Params, intervalMs: int, points: Points)

  /** The desired devices of a reload, by ID. */
  type Wanted = map<DeviceID, Desired>

  function SigOf(d: Desired): Sig {
    Sig(d.params, d.intervalMs, d.points)
  }

  /** Milliseconds to nanoseconds, with the default for what is not positive. */
  function IntervalOf(intervalMs: int): int {
    EffectiveInterval(intervalMs * 1_000_000)
  }

  /** The running state of a device. Its job is shared with the poll schedule. */
  datatype Runtime = Runtime(deviceID: DeviceID, conn: Conn, mode: Mode, job: DeviceJob?,
                             connKey: ConnKey, params: Params, intervalMs: int, sig: Sig)

  type Runtimes = map<DeviceID, Runtime>

  ghost predicate Shaped(rt: Runtime, id: DeviceID, modeOf: ConnKey -> Mode) {
    && rt.deviceID == id == rt.conn.deviceID
    && rt.connKey == rt.conn.key && rt.params == rt.conn.params
    && rt.mode == modeOf(rt.connKey)
    && (rt.mode == Poll <==> rt.job != null)
    && (rt.job != null ==> rt.job.deviceID == id && rt.job.conn == rt.conn)
    && rt.sig.params == rt.params && rt.sig.intervalMs == rt.intervalMs
  }

  ghost predicate AllShaped(rts: Runtimes, modeOf: ConnKey -> Mode) {
    forall id :: id in rts ==> Shaped(rts[id], id, modeOf)
  }

  /** The points field of every job. */
  type JobPoints = map<DeviceJob, Points>

  /** The device's job, if it has one, collects the points of its runtime's spec. */
  ghost predicate FedAt(points: JobPoints, rts: Runtimes, id: DeviceID) {
    id in rts && rts[id].job != null ==> rts[id].job in points && points[rts[id].job] == rts[id].sig.points
  }

  /** left are the devices whose previous runtime has no successor yet. */
  ghost predicate Fed(points: JobPoints, prev: Runtimes, next: Runtimes, left: set<DeviceID>) {
    && (forall id :: id in next ==> FedAt(points, next, id))
    && (forall id :: id in left ==> FedAt(points, prev, id))
  }

  ghost predicate Collects(rt: Runtime, d: Desired) {
    rt.connKey == d.key && rt.sig == SigOf(d)
  }

  ghost function KeysOfRuntimes(rts: Runtimes): set<ConnKey> {
    set id | id in rts :: rts[id].connKey
  }

  ghost function KeysOfWanted(desired: Wanted): set<ConnKey> {
    set id | id in desired :: desired[id].key
  }

  // Ownership of connection handles.

  ghost predicate Owns(rts: Runtimes, c: Conn) {
    c.deviceID in rts && rts[c.deviceID].conn == c
  }

  ghost function ConnsOf(rts: Runtimes): set<Conn> {
    set id | id in rts :: rts[id].conn
  }

  lemma ConnsMore(rts: Runtimes, id: DeviceID, rt: Runtime)
    requires id !in rts
    ensures ConnsOf(rts[id := rt]) == ConnsOf(rts) + {rt.conn}
  {
    var m := rts[id := rt];
    assert m[id] == rt;
    forall c | c in ConnsOf(rts) ensures c in ConnsOf(m) {
      var j :| j in rts && rts[j].conn == c;
      assert m[j].conn == c;
    }
  }

  /** What ownership means: a handle is open exactly when it is the one of a runtime, and
      is closed at most once. */
  ghost predicate Settled(closes: Closes, rts: Runtimes) {
    && ConnsOf(rts) <= closes.Keys
    && forall c :: c in closes ==> closes[c] <= 1 && (closes[c] == 0 <==> Owns(rts, c))
  }

  /** How far a reload has come: the previous runtimes, the next ones so far, the devices
      whose previous runtime was stopped by its own group, those stopped because a new
      handle replaced the old one, and the connections opened so far. */
  datatype Stage = Stage(prev: Runtimes, next: Runtimes, gone: set<DeviceID>, reopened: set<DeviceID>,
                         keys: set<ConnKey>)

  ghost function Stops(st: Stage, id: DeviceID): nat {
    (if id in st.gone then 1 else 0) + if id in st.reopened then 1 else 0
  }

  /** In the middle of a reload, whatever it does: a handle of a previous runtime was
      closed whenever that was stopped; any other is closed at most once, and open when it
      is the one of a next runtime or pending registration. */
  ghost predicate Owned(closes: Closes, st: Stage, pending: set<Conn>) {
    && pending + ConnsOf(st.prev) + ConnsOf(st.next) <= closes.Keys
    && (forall c :: c in pending ==> !Owns(st.prev, c))
    && forall c :: c in closes ==>
         if Owns(st.prev, c) then closes[c] == Stops(st, c.deviceID)
         else closes[c] <= 1 && (closes[c] == 0 <==> c in pending || Owns(st.next, c))
  }

  ghost predicate KeysWithin(live: set<Conn>, keys: set<ConnKey>) {
    Coherent(keys) && forall c :: c in live ==> c.key in keys
  }

  ghost predicate Steady(log: seq<Call>, st: Stage, pending: set<Conn>) {
    && Proper(log)
    && KeysWithin(Live(ClosesOf(log)), st.keys)
    && Owned(ClosesOf(log), st, pending)
  }

  lemma SteadyRekey(log: seq<Call>, st: Stage, keys: set<ConnKey>)
    requires Steady(log, st, {}) && KeysWithin(Live(ClosesOf(log)), keys)
    ensures Steady(log, st.(keys := keys), {})
  {
  }

  lemma SteadyOpen(log: seq<Call>, st: Stage, pending: set<Conn>, c: Conn)
    requires Steady(log, st, pending) && c !in ClosesOf(log) && c.key in st.keys
    ensures Steady(log + [Opened(c)], st, pending + {c})
  {
    ProperMore(log, Opened(c));
    LiveAfter(ClosesOf(log), Opened(c));
    assert Owns(st.prev, c) ==> c in ConnsOf(st.prev);
    assert Owns(st.next, c) ==> c in ConnsOf(st.next);
  }

  /** A pending handle is closed again. */
  lemma SteadyDrop(log: seq<Call>, st: Stage, pending: set<Conn>, c: Conn)
    requires Steady(log, st, pending + {c}) && c !in pending && !Owns(st.next, c)
    ensures Steady(log + [Closed(c)], st, pending)
  {
    ProperMore(log, Closed(c));
    LiveAfter(ClosesOf(log), Closed(c));
  }

  /** The previous runtime of a device is stopped by its own group, or because a new
      handle replaced the old one. */
  lemma SteadyStop(log: seq<Call>, st: Stage, id: DeviceID, st': Stage)
    requires Steady(log, st, {}) && id in st.prev && st.prev[id].conn.deviceID == id
    requires || (id !in st.gone && st' == st.(gone := st.gone + {id}))
             || (id !in st.reopened && st' == st.(reopened := st.reopened + {id}))
    ensures Steady(log + [Closed(st.prev[id].conn)], st', {})
  {
    var c := st.prev[id].conn;
    assert c in ConnsOf(st.prev);
    ProperMore(log, Closed(c));
    LiveAfter(ClosesOf(log), Closed(c));
  }

  /** The previous runtime of a device stays, perhaps with a new spec. */
  lemma SteadyKeep(log: seq<Call>, st: Stage, id: DeviceID, rt: Runtime)
    requires Steady(log, st, {})
    requires id in st.prev && id !in st.next && rt.conn == st.prev[id].conn && rt.conn.deviceID == id
    ensures Steady(log, st.(next := st.next[id := rt]), {})
  {
    assert st.prev[id].conn in ConnsOf(st.prev);
    ConnsMore(st.next, id, rt);
  }

  /** Pending handles become those of new runtimes. */
  lemma SteadySettle(log: seq<Call>, st: Stage, got: Runtimes)
    requires Steady(log, st, ConnsOf(got)) && got.Keys !! st.next.Keys
    requires forall id :: id in got ==> got[id].conn.deviceID == id
    ensures Steady(log, st.(next := st.next + got), {})
  {
    var m := st.next + got;
    forall c | c in ClosesOf(log) ensures Owns(m, c) <==> c in ConnsOf(got) || Owns(st.next, c) {
      if c in ConnsOf(got) {
        var id :| id in got && got[id].conn == c;
      } else if c.deviceID in got {
        assert got[c.deviceID].conn in ConnsOf(got);
      }
    }
    forall c | c in ConnsOf(m) ensures c in ConnsOf(got) + ConnsOf(st.next) {
      var id :| id in m && m[id].conn == c;
      assert id in got || st.next[id].conn == c;
    }
  }

  /** Pending handles belong to no runtime. */
  lemma PendingUnowned(log: seq<Call>, st: Stage, c: Conn)
    requires Steady(log, st, {}) && c !in ClosesOf(log)
    ensures !Owns(st.prev, c) && !Owns(st.next, c)
  {
    assert Owns(st.prev, c) ==> c in ConnsOf(st.prev);
    assert Owns(st.next, c) ==> c in ConnsOf(st.next);
  }

  // The poll schedule.

  ghost predicate TimerFits(t: Timer, rt: Runtime) {
    t.job == rt.job && t.interval == IntervalOf(rt.intervalMs)
  }

  /** Device id is scheduled, with its runtime's job and interval, exactly when it is
      polled and not lost. */
  ghost predicate OnSchedule(plan: Plan, rts: Runtimes, lost: set<DeviceID>, id: DeviceID) {
    && (id in plan <==> id in rts && rts[id].mode == Poll && id !in lost)
    && (id in plan ==> TimerFits(plan[id], rts[id]))
  }

  /** In the middle of a reload the schedule follows the previous runtimes of the devices
      still held, and the next ones of all others. */
  ghost predicate Planned(plan: Plan, prev: Runtimes, next: Runtimes, held: set<DeviceID>, lost: set<DeviceID>) {
    forall id ::
      OnSchedule(plan, if id in held then prev else next, lost, id)
  }

  ghost predicate SameAt(p: Plan, q: Plan, id: DeviceID) {
    (id in p <==> id in q) && (id in p ==> p[id] == q[id])
  }

  /** The plan gained the polled runtimes of got and changed nowhere else. */
  ghost predicate Gained(plan: Plan, before: Plan, got: Runtimes) {
    && (forall id :: id in got && got[id].mode == Poll ==> id in plan && TimerFits(plan[id], got[id]))
    && (forall id :: (id in got && got[id].mode == Poll) || SameAt(plan, before, id))
  }

  lemma GainedNone(plan: Plan)
    ensures Gained(plan, plan, map[])
  {
  }

  lemma GainedMore(plan: Plan, before: Plan, got: Runtimes, plan': Plan, id: DeviceID, rt: Runtime)
    requires Gained(plan, before, got) && id !in got
    requires forall j :: j != id || rt.mode != Poll ==> SameAt(plan', plan, j)
    requires rt.mode == Poll ==> id in plan' && TimerFits(plan'[id], rt)
    ensures Gained(plan', before, got[id := rt])
  {
    var m := got[id := rt];
    forall j ensures (j in m && m[j].mode == Poll) || SameAt(plan', before, j) {
      assert (j in got && got[j].mode == Poll) || SameAt(plan, before, j);
      assert (j == id && rt.mode == Poll) || SameAt(plan', plan, j);
    }
    forall j | j in m && m[j].mode == Poll ensures j in plan' && TimerFits(plan'[j], m[j]) {
      assert j == id || SameAt(plan', plan, j);
    }
  }

  /** No job loses its points. */
  ghost predicate Extends(points: JobPoints, before: JobPoints) {
    forall j :: j in before ==> j in points && points[j] == before[j]
  }

  /** Runtimes as RegisterDevice makes them, for desired devices on open handles. */
  ghost predicate Registered(got: Runtimes, handles: map<DeviceID, Conn>, desired: Wanted, modeOf: ConnKey -> Mode,
                             points: JobPoints)
  {
    && got.Keys <= handles.Keys && got.Keys <= desired.Keys
    && (forall id :: id in got ==>
      Shaped(got[id], id, modeOf) && Collects(got[id], desired[id]) && got[id].conn == handles[id])
    && (forall id :: id in got ==> FedAt(points, got, id))
  }

  lemma RegisteredMore(got: Runtimes, handles: map<DeviceID, Conn>, desired: Wanted, modeOf: ConnKey -> Mode,
                       points: JobPoints, id: DeviceID, rt: Runtime, points': JobPoints)
    requires Registered(got, handles, desired, modeOf, points) && Extends(points', points)
    requires id in handles && id in desired
    requires Shaped(rt, id, modeOf) && Collects(rt, desired[id]) && rt.conn == handles[id]
    requires rt.job != null ==> rt.job in points' && points'[rt.job] == rt.sig.points
    ensures Registered(got[id := rt], handles, desired, modeOf, points')
  {
    var m := got[id := rt];
    forall j | j in m ensures FedAt(points', m, j) {
      if j != id { assert FedAt(points, got, j); }
    }
  }

  // The points of the jobs, at each step of a reload.

  lemma FedBatch(points: JobPoints, prev: Runtimes, next: Runtimes, left: set<DeviceID>, got: Runtimes,
                 points': JobPoints)
    requires Fed(points, prev, next, left) && Extends(points', points)
    requires forall id :: id in got ==> FedAt(points', got, id)
    ensures Fed(points', prev, next + got, left)
  {
    forall id | id in next + got ensures FedAt(points', next + got, id) {
      assert if id in got then FedAt(points', got, id) else FedAt(points, next, id);
    }
    forall id | id in left ensures FedAt(points', prev, id) {
      assert FedAt(points, prev, id);
    }
  }

  /** A kept device: its own job may get new points, all jobs belong to one device. */
  lemma FedKeep(points: JobPoints, prev: Runtimes, next: Runtimes, left: set<DeviceID>, id: DeviceID, rt: Runtime,
                points': JobPoints, modeOf: ConnKey -> Mode)
    requires Fed(points, prev, next, left) && id in prev && id in left && rt.job == prev[id].job
    requires AllShaped(prev, modeOf) && AllShaped(next, modeOf)
    requires points' == if rt.sig == prev[id].sig || rt.job == null then points else points[rt.job := rt.sig.points]
    requires rt.sig == prev[id].sig || rt.job != null
    ensures Fed(points', prev, next[id := rt], left - {id})
  {
    var m := next[id := rt];
    assert FedAt(points, prev, id);
    forall j | j in m ensures FedAt(points', m, j) {
      assert j != id ==> FedAt(points, next, j) && Shaped(next[j], j, modeOf);
    }
    forall j | j in left - {id} ensures FedAt(points', prev, j) {
      assert FedAt(points, prev, j);
    }
  }
}
