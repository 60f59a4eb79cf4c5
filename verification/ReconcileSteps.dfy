/** The steps of an incremental reload, as lemmas: what becomes of each device, and how
    every step keeps what ReconcileSpec promises. */
module ReconcileSteps {
  import opened DeviceJobs
  import opened DriverCalls
  import opened PollPlan
  import opened ReconcileSpec

  /** A reload: the runtimes before it, the devices wanted after it, which opens and
      registrations will succeed, and the clock. */
  datatype Reload = Reload(prev: Runtimes, desired: Wanted, opens: set<DeviceID>, registers: set<DeviceID>, now: int)

  /** What held before the reload, handles opened so far and devices off schedule; what it
      will do to each desired device; and in which order it takes the groups of before. */
  datatype Before = Before(closes: Closes, lost: set<DeviceID>, fates: map<DeviceID, Fate>, order: seq<ConnKey>)

  datatype Fate = Keep | Update | Reopen | Fresh

  predicate Survives(r: Reload, k: ConnKey) {
    exists j :: j in r.prev && r.prev[j].connKey == k
  }

  /** A pushed group reopens as a whole when one of its devices goes away or changes. */
  predicate Restarts(r: Reload, modeOf: ConnKey -> Mode, k: ConnKey) {
    && modeOf(k) != Poll
    && exists j :: j in r.prev && r.prev[j].connKey == k && (j !in r.desired || r.prev[j].sig != SigOf(r.desired[j]))
  }

  ghost function FateOf(r: Reload, modeOf: ConnKey -> Mode, id: DeviceID): Fate
    requires id in r.desired
  {
    var d := r.desired[id];
    if id !in r.prev || !Survives(r, d.key) || Restarts(r, modeOf, d.key) then Fresh
    else if r.prev[id].sig == SigOf(d) then Keep
    else if r.prev[id].params == d.params then Update
    else Reopen
  }

  /** A device that moves into a connection group that survives and does not restart: the
      group takes the device's old runtime, which belongs to another group, for its own. */
  predicate Astray(r: Reload, modeOf: ConnKey -> Mode, id: DeviceID) {
    && id in r.prev && id in r.desired && r.prev[id].connKey != r.desired[id].key
    && Survives(r, r.desired[id].key) && !Restarts(r, modeOf, r.desired[id].key)
  }

  predicate Clean(r: Reload, modeOf: ConnKey -> Mode) {
    forall id :: id in r.desired ==> !Astray(r, modeOf, id)
  }

  /** Such a device that was pushed, whose interval or points change but not its
      parameters: there is no job to give the new points to. */
  predicate Stuck(r: Reload, modeOf: ConnKey -> Mode, id: DeviceID) {
    && Astray(r, modeOf, id) && r.prev[id].job == null
    && r.prev[id].sig != SigOf(r.desired[id]) && r.prev[id].params == r.desired[id].params
  }

  predicate Starts(r: Reload, modeOf: ConnKey -> Mode, id: DeviceID)
    requires id in r.desired
  {
    id in r.opens && (modeOf(r.desired[id].key) == Poll || id in r.registers)
  }

  /** The group of a previous runtime stops it: it is not wanted there, or all of them
      are opened anew. */
  ghost predicate Leaves(r: Reload, modeOf: ConnKey -> Mode, id: DeviceID)
    requires id in r.prev
  {
    || !(id in r.desired && r.desired[id].key == r.prev[id].connKey)
    || Restarts(r, modeOf, r.prev[id].connKey)
  }

  /** The fates are those the rules of the reload give. */
  ghost predicate Fated(r: Reload, b: Before, modeOf: ConnKey -> Mode) {
    b.fates.Keys == r.desired.Keys && forall id :: id in r.desired ==> b.fates[id] == FateOf(r, modeOf, id)
  }

  ghost function FatesOf(r: Reload, modeOf: ConnKey -> Mode): map<DeviceID, Fate> {
    map id | id in r.desired :: FateOf(r, modeOf, id)
  }

  // Ownership, whatever the reload does.

  ghost function ReopenedOf(b: Before, placed: set<DeviceID>): set<DeviceID> {
    set id | id in placed && id in b.fates && b.fates[id].Reopen?
  }

  /** The handle of a device that has its runtime of after the reload. */
  ghost predicate PutAt(r: Reload, b: Before, next: Runtimes, id: DeviceID) {
    && id in r.desired && id in b.fates
    && (id in next ==> next[id].conn.deviceID == id)
    && match b.fates[id]
       case Keep => id in r.prev && id in next && next[id].conn == r.prev[id].conn
       case Update => id in r.prev && id in next && next[id].conn == r.prev[id].conn && r.prev[id].job != null
       case _ => id in next ==> next[id].conn.key == r.desired[id].key && !Owns(r.prev, next[id].conn)
  }

  /** gone are the devices whose previous runtime was stopped by its own group, placed
      those that have their runtime of after the reload, if any. */
  ghost predicate Ledger(r: Reload, b: Before, log: seq<Call>, next: Runtimes,
                         placed: set<DeviceID>, gone: set<DeviceID>, keys: set<ConnKey>) {
    && Steady(log, Stage(r.prev, next, gone, ReopenedOf(b, placed), keys), {})
    && b.closes.Keys <= ClosesOf(log).Keys
    && next.Keys <= placed
    && forall id :: id in placed ==> PutAt(r, b, next, id)
  }

  lemma MoreCloses(log: seq<Call>, call: Call)
    ensures ClosesOf(log).Keys <= ClosesOf(log + [call]).Keys
  {
    assert (log + [call])[..|log|] == log;
  }

  lemma LedgerStop(r: Reload, b: Before, log: seq<Call>, next: Runtimes,
                   placed: set<DeviceID>, gone: set<DeviceID>, keys: set<ConnKey>, id: DeviceID)
    requires Ledger(r, b, log, next, placed, gone, keys)
    requires id in r.prev && id !in gone && r.prev[id].conn.deviceID == id
    ensures Ledger(r, b, log + [Closed(r.prev[id].conn)], next, placed, gone + {id}, keys)
  {
    hide Steady, PutAt;
    var st := Stage(r.prev, next, gone, ReopenedOf(b, placed), keys);
    SteadyStop(log, st, id, st.(gone := gone + {id}));
    MoreCloses(log, Closed(r.prev[id].conn));
  }

  lemma LedgerKeep(r: Reload, b: Before, log: seq<Call>, next: Runtimes,
                   placed: set<DeviceID>, gone: set<DeviceID>, keys: set<ConnKey>, id: DeviceID, rt: Runtime)
    requires Ledger(r, b, log, next, placed, gone, keys)
    requires id in r.prev && id in r.desired && id !in placed && id in b.fates
    requires r.prev[id].conn.deviceID == id && rt.conn == r.prev[id].conn
    requires b.fates[id].Keep? || (b.fates[id].Update? && r.prev[id].job != null)
    ensures Ledger(r, b, log, next[id := rt], placed + {id}, gone, keys)
  {
    hide Steady;
    SteadyKeep(log, Stage(r.prev, next, gone, ReopenedOf(b, placed), keys), id, rt);
    assert ReopenedOf(b, placed + {id}) == ReopenedOf(b, placed);
    forall j | j in placed + {id} ensures PutAt(r, b, next[id := rt], j) {
      assert j != id ==> PutAt(r, b, next, j);
    }
  }

  /** got are the new runtimes of those of ids that start. */
  ghost predicate BatchResult(r: Reload, b: Before, modeOf: ConnKey -> Mode, ids: set<DeviceID>, got: Runtimes) {
    && ids <= r.desired.Keys
    && (forall id :: id in got ==> id in ids)
    && (forall id :: id in ids ==> (id in got <==> Starts(r, modeOf, id)))
    && forall id :: id in got ==>
         Shaped(got[id], id, modeOf) && Collects(got[id], r.desired[id]) && got[id].conn !in b.closes
  }

  /** The handles of a batch are new. */
  lemma BatchPut(r: Reload, b: Before, modeOf: ConnKey -> Mode, next: Runtimes, placed: set<DeviceID>,
                 ids: set<DeviceID>, got: Runtimes)
    requires BatchResult(r, b, modeOf, ids, got) && ids !! placed && ConnsOf(r.prev) <= b.closes.Keys
    requires b.fates.Keys == r.desired.Keys && forall id :: id in ids ==> b.fates[id].Fresh? || b.fates[id].Reopen?
    requires next.Keys <= placed && forall id :: id in placed ==> PutAt(r, b, next, id)
    ensures forall id :: id in placed + ids ==> PutAt(r, b, next + got, id)
  {
    forall id | id in placed + ids ensures PutAt(r, b, next + got, id) {
      if id in got {
        assert got[id].conn !in ConnsOf(r.prev);
      } else if id in placed {
        assert PutAt(r, b, next, id);
      }
    }
  }

  lemma LedgerBatch(r: Reload, b: Before, modeOf: ConnKey -> Mode, log: seq<Call>, next: Runtimes,
                    placed: set<DeviceID>, gone: set<DeviceID>, keys: set<ConnKey>,
                    ids: set<DeviceID>, got: Runtimes, log': seq<Call>)
    requires Ledger(r, b, log, next, placed, gone, keys) && BatchResult(r, b, modeOf, ids, got) && ids !! placed
    requires b.fates.Keys == r.desired.Keys && forall id :: id in ids ==> b.fates[id].Fresh?
    requires Steady(log', Stage(r.prev, next, gone, ReopenedOf(b, placed), keys), ConnsOf(got))
    requires b.closes.Keys <= ClosesOf(log').Keys && ConnsOf(r.prev) <= b.closes.Keys
    ensures Ledger(r, b, log', next + got, placed + ids, gone, keys)
  {
    hide Steady, PutAt;
    SteadySettle(log', Stage(r.prev, next, gone, ReopenedOf(b, placed), keys), got);
    assert ReopenedOf(b, placed + ids) == ReopenedOf(b, placed);
    BatchPut(r, b, modeOf, next, placed, ids, got);
  }

  /** The new handle is opened before the old runtime is stopped. */
  lemma LedgerReopen(r: Reload, b: Before, modeOf: ConnKey -> Mode, log: seq<Call>, next: Runtimes,
                     placed: set<DeviceID>, gone: set<DeviceID>, keys: set<ConnKey>,
                     id: DeviceID, got: Runtimes, log': seq<Call>)
    requires Ledger(r, b, log, next, placed, gone, keys) && BatchResult(r, b, modeOf, {id}, got) && id !in placed
    requires b.fates.Keys == r.desired.Keys && b.fates[id].Reopen? && id in r.prev && r.prev[id].conn.deviceID == id
    requires Steady(log', Stage(r.prev, next, gone, ReopenedOf(b, placed), keys), ConnsOf(got))
    requires b.closes.Keys <= ClosesOf(log').Keys && ConnsOf(r.prev) <= b.closes.Keys
    ensures Ledger(r, b, log' + [Closed(r.prev[id].conn)], next + got, placed + {id}, gone, keys)
  {
    hide Steady, PutAt;
    var st := Stage(r.prev, next, gone, ReopenedOf(b, placed), keys);
    SteadySettle(log', st, got);
    assert ReopenedOf(b, placed + {id}) == ReopenedOf(b, placed) + {id};
    SteadyStop(log', st.(next := next + got), id, st.(next := next + got, reopened := ReopenedOf(b, placed) + {id}));
    MoreCloses(log', Closed(r.prev[id].conn));
    BatchPut(r, b, modeOf, next, placed, {id}, got);
  }

  // Runtimes and schedule, whatever the reload does.

  /** Group k is dealt with before group l. */
  ghost predicate Earlier(order: seq<ConnKey>, k: ConnKey, l: ConnKey) {
    exists i, j :: 0 <= i < j < |order| && order[i] == k && order[j] == l
  }

  ghost predicate OldFirst(r: Reload, b: Before, id: DeviceID) {
    id in r.prev && id in r.desired && Earlier(b.order, r.prev[id].connKey, r.desired[id].key)
  }

  ghost predicate Retimed(r: Reload, id: DeviceID) {
    id in r.prev && id in r.desired && r.prev[id].intervalMs != r.desired[id].intervalMs
  }

  /** Device id has its runtime of after the reload. */
  ghost predicate PlacedAt(r: Reload, b: Before, modeOf: ConnKey -> Mode, next: Runtimes, id: DeviceID) {
    && id in r.desired && id in b.fates && (!b.fates[id].Fresh? ==> id in r.prev)
    && var f, d := b.fates[id], r.desired[id];
    && (id in next <==> f.Keep? || f.Update? || Starts(r, modeOf, id))
    && (id in next ==> Shaped(next[id], id, modeOf) && next[id].sig == SigOf(d))
    && (f.Keep? ==> next[id] == r.prev[id])
    && (f.Update? ==> next[id] == r.prev[id].(intervalMs := d.intervalMs, sig := SigOf(d)))
    && ((f.Fresh? || f.Reopen?) && id in next ==> next[id].connKey == d.key && next[id].conn !in b.closes)
  }

  /** What takes a device with a runtime off schedule: its reopening, if it is polled before
      and after; the stop of a kept runtime by another group, unless the device was
      scheduled anew after it; or that it was off schedule already, unless it was scheduled
      anew. */
  ghost predicate StaysLost(r: Reload, b: Before, modeOf: ConnKey -> Mode, gone: set<DeviceID>, id: DeviceID) {
    && id in r.desired && id in b.fates && id in r.prev && r.prev[id].mode == Poll
    && match b.fates[id]
       case Fresh => false
       case Reopen => modeOf(r.desired[id].key) == Poll
       case _ => if id in gone then !(Retimed(r, id) && OldFirst(r, b, id)) else id in b.lost && !Retimed(r, id)
  }

  ghost predicate FateFits(r: Reload, b: Before, modeOf: ConnKey -> Mode, id: DeviceID) {
    && id in r.desired && id in b.fates && !b.fates[id].Fresh? && id in r.prev
    && Shaped(r.prev[id], id, modeOf)
    && (b.fates[id].Keep? ==> r.prev[id].sig == SigOf(r.desired[id]))
    && (b.fates[id].Update? ==> r.prev[id].params == r.desired[id].params)
  }

  ghost predicate Sound(r: Reload, b: Before, modeOf: ConnKey -> Mode) {
    && AllShaped(r.prev, modeOf)
    && (forall id :: id in r.prev ==> r.prev[id].conn in b.closes)
    && (forall id :: id in b.lost ==> id in r.prev && r.prev[id].mode == Poll)
    && b.fates.Keys == r.desired.Keys
    && (forall id :: id in r.desired && !b.fates[id].Fresh? ==> FateFits(r, b, modeOf, id))
  }

  lemma SoundAt(r: Reload, b: Before, modeOf: ConnKey -> Mode, id: DeviceID)
    requires Sound(r, b, modeOf) && id in r.desired && !b.fates[id].Fresh?
    ensures FateFits(r, b, modeOf, id) && id in r.prev && r.prev[id].conn in b.closes
    ensures id in b.lost ==> r.prev[id].mode == Poll
  {
  }

  /** The devices whose previous runtime has no successor yet, */
  ghost function Left(r: Reload, b: Before, placed: set<DeviceID>): set<DeviceID> {
    set id | id in r.prev && (id in placed && id in b.fates ==> b.fates[id].Fresh?)
  }

  /** and those of them that still run. */
  ghost function Held(r: Reload, b: Before, placed: set<DeviceID>, gone: set<DeviceID>): set<DeviceID> {
    Left(r, b, placed) - gone
  }

  ghost predicate LostAt(r: Reload, b: Before, modeOf: ConnKey -> Mode, next: Runtimes, lost: set<DeviceID>,
                         placed: set<DeviceID>, gone: set<DeviceID>, id: DeviceID) {
    id in lost <==>
      if id in Held(r, b, placed, gone) then id in b.lost
      else id in placed && id in next && StaysLost(r, b, modeOf, gone, id)
  }

  ghost predicate Placing(r: Reload, b: Before, modeOf: ConnKey -> Mode, lost: set<DeviceID>,
                          next: Runtimes, placed: set<DeviceID>, gone: set<DeviceID>) {
    && Sound(r, b, modeOf)
    && next.Keys <= placed <= r.desired.Keys
    && (forall id :: id in placed ==> PlacedAt(r, b, modeOf, next, id))
    && (forall id ::
         LostAt(r, b, modeOf, next, lost, placed, gone, id))
    && (forall id :: id in placed && id in Held(r, b, placed, gone) ==> modeOf(r.desired[id].key) != Poll)
  }

  /** The fields a reload changes, and the polled devices that are off schedule. */
  datatype State = State(points: JobPoints, plan: Plan, log: seq<Call>, lost: set<DeviceID>)

  ghost predicate Orderly(r: Reload, b: Before, modeOf: ConnKey -> Mode, s: State,
                          next: Runtimes, placed: set<DeviceID>, gone: set<DeviceID>) {
    && Planned(s.plan, r.prev, next, Held(r, b, placed, gone), s.lost)
    && Placing(r, b, modeOf, s.lost, next, placed, gone)
    && Fed(s.points, r.prev, next, Left(r, b, placed))
  }

  lemma NextShaped(r: Reload, b: Before, modeOf: ConnKey -> Mode, lost: set<DeviceID>,
                   next: Runtimes, placed: set<DeviceID>, gone: set<DeviceID>)
    requires Placing(r, b, modeOf, lost, next, placed, gone)
    ensures AllShaped(next, modeOf)
    ensures forall id :: id in Held(r, b, placed, gone) && id in next ==> next[id].mode != Poll
  {
    hide LostAt;
    forall id | id in next
      ensures Shaped(next[id], id, modeOf)
      ensures b.fates[id].Fresh? ==> next[id].connKey == r.desired[id].key
    {
      assert PlacedAt(r, b, modeOf, next, id);
    }
  }

  // stopDevice on a previous runtime.

  /** What becomes of the devices off schedule when the group of a device stops it: a
      runtime that another group has kept is off schedule from then on. */
  ghost function LostByStop(r: Reload, held: set<DeviceID>, next: Runtimes, lost: set<DeviceID>,
                            id: DeviceID): set<DeviceID>
    requires id in r.prev
  {
    if id in held then lost - {id}
    else if r.prev[id].mode == Poll && id in next && next[id].mode == Poll then lost + {id}
    else lost
  }

  lemma StopPlanned(plan: Plan, r: Reload, next: Runtimes, held: set<DeviceID>, lost: set<DeviceID>, id: DeviceID)
    requires Planned(plan, r.prev, next, held, lost) && id in r.prev
    requires id in held && id in next ==> next[id].mode != Poll
    ensures Planned(if r.prev[id].mode == Poll then Removed(plan, id) else plan, r.prev, next, held - {id},
                    LostByStop(r, held, next, lost, id))
  {
    var plan' := if r.prev[id].mode == Poll then Removed(plan, id) else plan;
    var lost', held' := LostByStop(r, held, next, lost, id), held - {id};
    forall j ensures OnSchedule(plan', if j in held' then r.prev else next, lost', j) {
      assert OnSchedule(plan, if j in held then r.prev else next, lost, j);
    }
  }

  lemma StopPlacing(r: Reload, b: Before, modeOf: ConnKey -> Mode, lost: set<DeviceID>,
                    next: Runtimes, placed: set<DeviceID>, gone: set<DeviceID>, id: DeviceID)
    requires Placing(r, b, modeOf, lost, next, placed, gone) && id in r.prev && id !in gone
    requires id in placed && !b.fates[id].Fresh? ==> !OldFirst(r, b, id)
    ensures Placing(r, b, modeOf, LostByStop(r, Held(r, b, placed, gone), next, lost, id), next, placed, gone + {id})
  {
    var lost', gone' := LostByStop(r, Held(r, b, placed, gone), next, lost, id), gone + {id};
    forall j ensures LostAt(r, b, modeOf, next, lost', placed, gone', j) {
      assert LostAt(r, b, modeOf, next, lost, placed, gone, j);
      if j == id && id in placed { assert PlacedAt(r, b, modeOf, next, id); }
    }
  }

  lemma StopOrderly(r: Reload, b: Before, modeOf: ConnKey -> Mode, s: State, next: Runtimes,
                    placed: set<DeviceID>, gone: set<DeviceID>, id: DeviceID, s': State)
    requires Orderly(r, b, modeOf, s, next, placed, gone) && id in r.prev && id !in gone
    requires id in placed && id in b.fates && id in r.desired && !b.fates[id].Fresh? ==> !OldFirst(r, b, id)
    requires s'.points == s.points && s'.lost == LostByStop(r, Held(r, b, placed, gone), next, s.lost, id)
    requires s'.plan == if r.prev[id].mode == Poll then Removed(s.plan, id) else s.plan
    ensures Orderly(r, b, modeOf, s', next, placed, gone + {id})
  {
    assert Held(r, b, placed, gone + {id}) == Held(r, b, placed, gone) - {id};
    hide Planned, Fed, PlacedAt, LostAt, Held, LostByStop;
    NextShaped(r, b, modeOf, s.lost, next, placed, gone);
    StopPlanned(s.plan, r, next, Held(r, b, placed, gone), s.lost, id);
    StopPlacing(r, b, modeOf, s.lost, next, placed, gone, id);
  }

  // A device keeps its runtime, perhaps with a new spec and a new place in the schedule.

  /** A runtime that its own group has stopped, and another group keeps, is off schedule. */
  ghost function LostByKeep(lost: set<DeviceID>, gone: set<DeviceID>, id: DeviceID, rt: Runtime): set<DeviceID> {
    if id in gone && rt.mode == Poll then lost + {id} else lost
  }

  /** What becomes of a kept device, of the schedule and of the points. */
  ghost predicate KeptAs(r: Reload, b: Before, gone: set<DeviceID>, id: DeviceID, rt: Runtime, s: State, s': State)
    requires id in r.prev && id in r.desired && id in b.fates
  {
    var d := r.desired[id];
    && (b.fates[id].Keep? || b.fates[id].Update?)
    && rt == (if b.fates[id].Keep? then r.prev[id] else r.prev[id].(intervalMs := d.intervalMs, sig := SigOf(d)))
    && s'.points == (if b.fates[id].Keep? || rt.job == null then s.points else s.points[rt.job := d.points])
    && (b.fates[id].Update? ==> rt.job != null && r.prev[id].sig != SigOf(d))
    && if rt.intervalMs == r.prev[id].intervalMs then
         s'.plan == s.plan && s'.lost == LostByKeep(s.lost, gone, id, rt)
       else
         && s'.lost == s.lost - {id} && id in s'.plan && TimerFits(s'.plan[id], rt)
         && forall j :: j != id ==> SameAt(s'.plan, s.plan, j)
  }

  lemma KeepPlanned(r: Reload, b: Before, s: State, next: Runtimes, held: set<DeviceID>, gone: set<DeviceID>,
                    id: DeviceID, rt: Runtime, s': State)
    requires Planned(s.plan, r.prev, next, held, s.lost) && id in r.prev && id !in next && (id in held <==> id !in gone)
    requires id in r.desired && id in b.fates && KeptAs(r, b, gone, id, rt, s, s')
    requires r.prev[id].mode == Poll <==> r.prev[id].job != null
    requires b.fates[id].Keep? ==> r.prev[id].intervalMs == r.desired[id].intervalMs
    ensures Planned(s'.plan, r.prev, next[id := rt], held - {id}, s'.lost)
  {
    var m, held' := next[id := rt], held - {id};
    forall j ensures OnSchedule(s'.plan, if j in held' then r.prev else m, s'.lost, j) {
      assert OnSchedule(s.plan, if j in held then r.prev else next, s.lost, j);
      assert rt.intervalMs == r.prev[id].intervalMs || j == id || SameAt(s'.plan, s.plan, j);
    }
  }

  /** A step for one device leaves all others alone. */
  lemma PlacingMore(r: Reload, b: Before, modeOf: ConnKey -> Mode, lost: set<DeviceID>, next: Runtimes,
                    placed: set<DeviceID>, gone: set<DeviceID>, id: DeviceID, lost': set<DeviceID>, next': Runtimes)
    requires Placing(r, b, modeOf, lost, next, placed, gone)
    requires id in r.desired && id in b.fates && !b.fates[id].Fresh? && id in r.prev && id !in placed
    requires forall j :: j != id ==> (j in next' <==> j in next) && (j in lost' <==> j in lost)
    requires forall j :: j != id && j in next ==> next'[j] == next[j]
    requires PlacedAt(r, b, modeOf, next', id)
    requires id in lost' <==> id in next' && StaysLost(r, b, modeOf, gone, id)
    ensures Placing(r, b, modeOf, lost', next', placed + {id}, gone)
  {
    hide Sound, Shaped, StaysLost, SigOf;
    var placed' := placed + {id};
    forall j | j in placed' ensures PlacedAt(r, b, modeOf, next', j) {
      if j != id { assert PlacedAt(r, b, modeOf, next, j); }
    }
    hide PlacedAt;
    forall j ensures LostAt(r, b, modeOf, next', lost', placed', gone, j) {
      assert LostAt(r, b, modeOf, next, lost, placed, gone, j);
    }
  }

  lemma KeepPlacedAt(r: Reload, b: Before, modeOf: ConnKey -> Mode, gone: set<DeviceID>, id: DeviceID, rt: Runtime,
                     s: State, s': State, next: Runtimes)
    requires FateFits(r, b, modeOf, id) && KeptAs(r, b, gone, id, rt, s, s')
    ensures PlacedAt(r, b, modeOf, next[id := rt], id)
  {
  }

  lemma KeepLost(r: Reload, b: Before, modeOf: ConnKey -> Mode, s: State, next: Runtimes,
                 placed: set<DeviceID>, gone: set<DeviceID>, id: DeviceID, rt: Runtime, s': State)
    requires id !in placed && (id in gone ==> OldFirst(r, b, id))
    requires FateFits(r, b, modeOf, id) && KeptAs(r, b, gone, id, rt, s, s')
    requires LostAt(r, b, modeOf, next, s.lost, placed, gone, id) && (id in b.lost ==> r.prev[id].mode == Poll)
    ensures id in s'.lost <==> StaysLost(r, b, modeOf, gone, id)
    ensures forall j :: j != id ==> (j in s'.lost <==> j in s.lost)
  {
    hide OldFirst;
  }

  lemma KeepPlacing(r: Reload, b: Before, modeOf: ConnKey -> Mode, s: State, next: Runtimes,
                    placed: set<DeviceID>, gone: set<DeviceID>, id: DeviceID, rt: Runtime, s': State)
    requires Placing(r, b, modeOf, s.lost, next, placed, gone)
    requires id in r.prev && id in r.desired && id !in placed && (id in gone ==> OldFirst(r, b, id))
    requires KeptAs(r, b, gone, id, rt, s, s')
    ensures Placing(r, b, modeOf, s'.lost, next[id := rt], placed + {id}, gone)
  {
    hide OldFirst, Held, LostAt, PlacedAt, StaysLost, Sound, FateFits;
    SoundAt(r, b, modeOf, id);
    assert LostAt(r, b, modeOf, next, s.lost, placed, gone, id);
    KeepPlacedAt(r, b, modeOf, gone, id, rt, s, s', next);
    KeepLost(r, b, modeOf, s, next, placed, gone, id, rt, s');
    PlacingMore(r, b, modeOf, s.lost, next, placed, gone, id, s'.lost, next[id := rt]);
  }

  lemma KeepOrderly(r: Reload, b: Before, modeOf: ConnKey -> Mode, s: State, next: Runtimes,
                    placed: set<DeviceID>, gone: set<DeviceID>, id: DeviceID, rt: Runtime, s': State)
    requires Orderly(r, b, modeOf, s, next, placed, gone)
    requires id in r.prev && id in r.desired && id !in placed && (id in gone ==> OldFirst(r, b, id))
    requires id in b.fates && KeptAs(r, b, gone, id, rt, s, s')
    ensures Orderly(r, b, modeOf, s', next[id := rt], placed + {id}, gone)
  {
    assert Held(r, b, placed + {id}, gone) == Held(r, b, placed, gone) - {id};
    assert Left(r, b, placed + {id}) == Left(r, b, placed) - {id};
    assert id in Left(r, b, placed) && (id in Held(r, b, placed, gone) <==> id !in gone);
    hide Planned, Fed, PlacedAt, LostAt, Held, Left, OldFirst;
    NextShaped(r, b, modeOf, s.lost, next, placed, gone);
    assert Shaped(r.prev[id], id, modeOf);
    KeepPlanned(r, b, s, next, Held(r, b, placed, gone), gone, id, rt, s');
    KeepPlacing(r, b, modeOf, s, next, placed, gone, id, rt, s');
    FedKeep(s.points, r.prev, next, Left(r, b, placed), id, rt, s'.points, modeOf);
  }

  // A batch of devices is opened; a previous runtime that is still running gets another
  // device only in a pushed group.

  ghost predicate NoneOnSchedule(r: Reload, modeOf: ConnKey -> Mode, held: set<DeviceID>, ids: set<DeviceID>) {
    forall id :: id in ids && id in held ==> id in r.desired && modeOf(r.desired[id].key) != Poll
  }

  lemma BatchPlanned(plan: Plan, prev: Runtimes, next: Runtimes, held: set<DeviceID>, lost: set<DeviceID>,
                     got: Runtimes, plan': Plan)
    requires Planned(plan, prev, next, held, lost) && Gained(plan', plan, got)
    requires forall id :: id in got ==> id !in next && if id in held then got[id].mode != Poll else id !in lost
    ensures Planned(plan', prev, next + got, held, lost)
  {
    forall j ensures OnSchedule(plan', if j in held then prev else next + got, lost, j) {
      assert OnSchedule(plan, if j in held then prev else next, lost, j);
      assert (j in got && got[j].mode == Poll) || SameAt(plan', plan, j);
    }
  }

  lemma BatchPlacing(r: Reload, b: Before, modeOf: ConnKey -> Mode, lost: set<DeviceID>, next: Runtimes,
                     placed: set<DeviceID>, gone: set<DeviceID>, ids: set<DeviceID>, got: Runtimes)
    requires Placing(r, b, modeOf, lost, next, placed, gone) && ids !! placed && BatchResult(r, b, modeOf, ids, got)
    requires NoneOnSchedule(r, modeOf, Held(r, b, placed, gone), ids)
    requires forall id :: id in ids ==> b.fates[id].Fresh?
    ensures Placing(r, b, modeOf, lost, next + got, placed + ids, gone)
    ensures forall id :: id in got ==>
      id !in next && if id in Held(r, b, placed, gone) then got[id].mode != Poll else id !in lost
  {
    hide Earlier;
    var next', placed' := next + got, placed + ids;
    assert Held(r, b, placed', gone) == Held(r, b, placed, gone);
    forall j | j in placed' ensures PlacedAt(r, b, modeOf, next', j) {
      hide Shaped;
      if j in placed { assert PlacedAt(r, b, modeOf, next, j); }
    }
    hide Held, StaysLost;
    forall j ensures LostAt(r, b, modeOf, next', lost, placed', gone, j) {
      assert LostAt(r, b, modeOf, next, lost, placed, gone, j);
      if j in ids { FreshIsNotLost(r, b, modeOf, gone, j); }
    }
    forall id | id in got
      ensures id !in next && if id in Held(r, b, placed, gone) then got[id].mode != Poll else id !in lost
    {
      assert LostAt(r, b, modeOf, next, lost, placed, gone, id);
      assert Shaped(got[id], id, modeOf) && Collects(got[id], r.desired[id]);
    }
  }

  lemma FreshIsNotLost(r: Reload, b: Before, modeOf: ConnKey -> Mode, gone: set<DeviceID>, id: DeviceID)
    requires id in r.desired && id in b.fates && b.fates[id].Fresh?
    ensures !StaysLost(r, b, modeOf, gone, id)
  {
  }

  lemma BatchOrderly(r: Reload, b: Before, modeOf: ConnKey -> Mode, s: State, next: Runtimes,
                     placed: set<DeviceID>, gone: set<DeviceID>, ids: set<DeviceID>, got: Runtimes, s': State)
    requires Orderly(r, b, modeOf, s, next, placed, gone)
    requires ids !! placed && BatchResult(r, b, modeOf, ids, got) && Gained(s'.plan, s.plan, got) && s'.lost == s.lost
    requires Extends(s'.points, s.points) && forall id :: id in got ==> FedAt(s'.points, got, id)
    requires NoneOnSchedule(r, modeOf, Held(r, b, placed, gone), ids)
    requires forall id :: id in ids ==> id in b.fates && b.fates[id].Fresh?
    ensures Orderly(r, b, modeOf, s', next + got, placed + ids, gone)
  {
    assert Held(r, b, placed + ids, gone) == Held(r, b, placed, gone);
    assert Left(r, b, placed + ids) == Left(r, b, placed);
    hide Planned, Gained, Fed, PlacedAt, LostAt, NoneOnSchedule, BatchResult, Held, Left;
    BatchPlacing(r, b, modeOf, s.lost, next, placed, gone, ids, got);
    BatchPlanned(s.plan, r.prev, next, Held(r, b, placed, gone), s.lost, got, s'.plan);
    FedBatch(s.points, r.prev, next, Left(r, b, placed), got, s'.points);
  }

  // A device whose parameters changed: the new handle is opened and scheduled first, then
  // the previous runtime is stopped, which takes the device off the schedule under the ID
  // both share.

  ghost function LostByReopen(r: Reload, lost: set<DeviceID>, id: DeviceID, got: Runtimes): set<DeviceID>
    requires id in r.prev
  {
    lost - {id} + if r.prev[id].mode == Poll && id in got && got[id].mode == Poll then {id} else {}
  }

  lemma ReopenPlanned(plan: Plan, r: Reload, next: Runtimes, held: set<DeviceID>, lost: set<DeviceID>,
                      id: DeviceID, got: Runtimes, plan': Plan)
    requires Planned(plan, r.prev, next, held, lost) && Gained(plan', plan, got) && got.Keys <= {id}
    requires id in r.prev && id !in next
    ensures Planned(if r.prev[id].mode == Poll then Removed(plan', id) else plan', r.prev, next + got, held - {id},
                    LostByReopen(r, lost, id, got))
  {
    var plan'' := if r.prev[id].mode == Poll then Removed(plan', id) else plan';
    var lost', m, held' := LostByReopen(r, lost, id, got), next + got, held - {id};
    forall j ensures OnSchedule(plan'', if j in held' then r.prev else m, lost', j) {
      assert OnSchedule(plan, if j in held then r.prev else next, lost, j);
      assert (j in got && got[j].mode == Poll) || SameAt(plan', plan, j);
    }
  }

  lemma ReopenPlacing(r: Reload, b: Before, modeOf: ConnKey -> Mode, lost: set<DeviceID>, next: Runtimes,
                      placed: set<DeviceID>, gone: set<DeviceID>, id: DeviceID, got: Runtimes)
    requires Placing(r, b, modeOf, lost, next, placed, gone) && BatchResult(r, b, modeOf, {id}, got)
    requires id in r.prev && id !in placed && b.fates[id].Reopen?
    ensures Placing(r, b, modeOf, LostByReopen(r, lost, id, got), next + got, placed + {id}, gone)
  {
    hide Earlier, Held, LostAt;
    if id in got { assert Shaped(got[id], id, modeOf) && Collects(got[id], r.desired[id]); }
    PlacingMore(r, b, modeOf, lost, next, placed, gone, id, LostByReopen(r, lost, id, got), next + got);
  }

  lemma ReopenOrderly(r: Reload, b: Before, modeOf: ConnKey -> Mode, s: State, next: Runtimes,
                      placed: set<DeviceID>, gone: set<DeviceID>, id: DeviceID, got: Runtimes, s': State, s'': State)
    requires Orderly(r, b, modeOf, s, next, placed, gone)
    requires BatchResult(r, b, modeOf, {id}, got) && Gained(s'.plan, s.plan, got)
    requires Extends(s'.points, s.points) && forall id :: id in got ==> FedAt(s'.points, got, id)
    requires id in r.prev && id !in placed && id in b.fates && b.fates[id].Reopen?
    requires s''.points == s'.points && s''.lost == LostByReopen(r, s.lost, id, got)
    requires s''.plan == if r.prev[id].mode == Poll then Removed(s'.plan, id) else s'.plan
    ensures Orderly(r, b, modeOf, s'', next + got, placed + {id}, gone)
  {
    assert Held(r, b, placed + {id}, gone) == Held(r, b, placed, gone) - {id};
    assert Left(r, b, placed + {id}) == Left(r, b, placed) - {id};
    hide Planned, Gained, Fed, PlacedAt, LostAt, FedAt, Held, Left, LostByReopen;
    ReopenPlacing(r, b, modeOf, s.lost, next, placed, gone, id, got);
    ReopenPlanned(s.plan, r, next, Held(r, b, placed, gone), s.lost, id, got, s'.plan);
    FedBatch(s.points, r.prev, next, Left(r, b, placed), got, s'.points);
  }
}
