/** The incremental reload of internal/core/scheduler.go. */
module Scheduler {
  import opened DeviceJobs
  import opened DriverCalls
  import opened PollPlan
  import opened ReconcileSpec
  import opened ReconcileSteps
  import opened ReloadProgress

  type Handles = map<DeviceID, Conn>

  ghost predicate NewHandles(hs: Handles, desired: Wanted, before: Closes) {
    forall id :: id in hs ==>
      && id in desired && hs[id].deviceID == id
      && hs[id].key == desired[id].key && hs[id].params == desired[id].params && hs[id] !in before
  }

  class Scheduler {
    const modeOf: ConnKey -> Mode   // what a driver's connections can do
    const fnv: DeviceID -> nat      // the hash of device IDs
    var runtimes: Runtimes
    var points: JobPoints
    var plan: Plan                  // the poll scheduler, as the map it stands for
    var log: seq<Call>              // what the drivers were asked to do
    ghost var lost: set<DeviceID>   // polled devices that are off schedule

    /** Nothing of a reload is under way. */
    ghost predicate Valid()
      reads this
    {
      AtRest(modeOf, runtimes, points, plan, log, lost)
    }

    constructor (modeOf: ConnKey -> Mode, fnv: DeviceID -> nat)
      ensures this.modeOf == modeOf && Valid()
      ensures runtimes == map[] && points == map[] && plan == map[] && log == [] && lost == {}
    {
      this.modeOf, this.fnv := modeOf, fnv;
      runtimes, points, plan, log, lost := map[], map[], map[], [], {};
      NothingAtRest(modeOf);
    }

    ghost function Now(): State
      reads this
    {
      State(points, plan, log, lost)
    }

    method StopDevice(rt: Runtime)
      modifies this`plan, this`log
      ensures plan == if rt.mode == Poll && rt.job != null then Removed(old(plan), rt.deviceID) else old(plan)
      ensures log == old(log) + [Closed(rt.conn)]
    {
      if rt.mode == Poll && rt.job != null {
        plan := plan - {rt.deviceID};
      }
      log := log + [Closed(rt.conn)];
    }

    /** openDevice: a failure to parse, look up the driver or connect opens nothing. */
    method OpenDevice(id: DeviceID, d: Desired, opens: bool) returns (c: Conn?)
      modifies this`log
      ensures c == null <==> !opens
      ensures c == null ==> log == old(log)
      ensures c != null ==> c.deviceID == id && c.key == d.key && c.params == d.params
      ensures c != null ==> c !in ClosesOf(old(log)) && log == old(log) + [Opened(c)]
    {
      if !opens {
        return null;
      }
      ClosesOfLog(log);
      c := new Conn(id, d.key, d.params);
      log := log + [Opened(c)];
    }

    /** First half of a batch: open every device's handle. */
    method OpenAll(ids: set<DeviceID>, desired: Wanted, opens: set<DeviceID>, ghost st: Stage)
        returns (handles: Handles)
      requires Steady(log, st, {})
      requires forall id :: id in ids ==> id in desired && desired[id].key in st.keys
      modifies this`log
      ensures Steady(log, st, handles.Values)
      ensures ClosesOf(old(log)).Keys <= ClosesOf(log).Keys
      ensures handles.Keys == ids * opens && NewHandles(handles, desired, ClosesOf(old(log)))
    {
      hide Steady;
      handles := map[];
      var todo := ids;
      assert handles.Values == {};
      while todo != {}
        invariant todo <= ids
        invariant Steady(log, st, handles.Values)
        invariant ClosesOf(old(log)).Keys <= ClosesOf(log).Keys
        invariant handles.Keys == (ids - todo) * opens && NewHandles(handles, desired, ClosesOf(old(log)))
        decreases todo
      {
        var id :| id in todo;
        todo := todo - {id};
        ghost var before := log;
        var c := OpenDevice(id, desired[id], id in opens);
        if c != null {
          SteadyOpen(before, st, handles.Values, c);
          MoreCloses(before, Opened(c));
          ValuesMore(handles, id, c);
          handles := handles[id := c];
        }
      }
    }

    /** Register the collection mode of an open handle; polling cannot fail. */
    method RegisterDevice(c: Conn, d: Desired, registers: bool, now: int) returns (ok: bool, rt: Runtime)
      requires c.key == d.key && c.params == d.params
      modifies this`points, this`plan
      ensures ok <==> modeOf(d.key) == Poll || registers
      ensures ok ==> Shaped(rt, c.deviceID, modeOf) && Collects(rt, d) && rt.conn == c
      ensures ok && rt.job != null ==> rt.job !in old(points) && points == old(points)[rt.job := d.points]
      ensures !ok || rt.job == null ==> points == old(points)
      ensures !ok || rt.mode != Poll ==> plan == old(plan)
      ensures ok && rt.mode == Poll ==> c.deviceID in plan && TimerFits(plan[c.deviceID], rt)
      ensures ok && rt.mode == Poll ==> plan[c.deviceID].next == now + fnv(c.deviceID) % plan[c.deviceID].interval
      ensures forall id :: id != c.deviceID ==> SameAt(plan, old(plan), id)
    {
      var mode := modeOf(d.key);
      rt := Runtime(c.deviceID, c, mode, null, d.key, d.params, d.intervalMs, SigOf(d));
      if mode != Poll {
        ok := registers;
        return;
      }
      var job := new DeviceJob(c.deviceID, c);
      points := points[job := d.points];
      rt := rt.(job := job);
      ok := true;
      plan := Scheduled(plan, c.deviceID, fnv(c.deviceID), IntervalOf(d.intervalMs), job, now);
    }

    /** Register one pending handle, or close it; the handles of rest stay pending. */
    method RegisterOne(got0: Runtimes, c: Conn, desired: Wanted, registers: bool, now: int,
                       ghost st: Stage, ghost rest: set<Conn>, ghost before: Plan, ghost handles: Handles)
        returns (got: Runtimes)
      requires Steady(log, st, ConnsOf(got0) + rest + {c})
      requires c !in ConnsOf(got0) + rest && !Owns(st.next, c)
      requires Registered(got0, handles, desired, modeOf, points) && Gained(plan, before, got0)
      requires var id := c.deviceID;
        && id !in got0 && id in handles && handles[id] == c
        && id in desired && desired[id].key == c.key && desired[id].params == c.params
      modifies this`points, this`plan, this`log
      ensures Steady(log, st, ConnsOf(got) + rest)
      ensures ClosesOf(old(log)).Keys <= ClosesOf(log).Keys
      ensures Registered(got, handles, desired, modeOf, points) && Gained(plan, before, got)
      ensures Extends(points, old(points))
      ensures got.Keys == got0.Keys + if modeOf(c.key) == Poll || registers then {c.deviceID} else {}
    {
      hide Steady, Gained;
      got := got0;
      ghost var pending := ConnsOf(got) + rest;
      var ok, rt := RegisterDevice(c, desired[c.deviceID], registers, now);
      if ok {
        ConnsMore(got, c.deviceID, rt);
        assert ConnsOf(got[c.deviceID := rt]) + rest == pending + {c};
        GainedMore(old(plan), before, got, plan, c.deviceID, rt);
        RegisteredMore(got, handles, desired, modeOf, old(points), c.deviceID, rt, points);
        got := got[c.deviceID := rt];
      } else {
        SteadyDrop(log, st, pending, c);
        MoreCloses(log, Closed(c));
        log := log + [Closed(c)];
      }
    }

    /** Second half of a batch: register the handles, closing those that fail. */
    method RegisterAll(handles: Handles, desired: Wanted, k: ConnKey, registers: set<DeviceID>, now: int,
                       ghost st: Stage)
        returns (got: Runtimes)
      requires Steady(log, st, handles.Values)
      requires forall id :: id in handles ==> id in desired && desired[id].key == k
      requires forall id :: id in handles ==>
        handles[id].deviceID == id && handles[id].key == k && handles[id].params == desired[id].params
      requires forall id :: id in handles ==> !Owns(st.next, handles[id])
      modifies this`points, this`plan, this`log
      ensures Steady(log, st, ConnsOf(got))
      ensures ClosesOf(old(log)).Keys <= ClosesOf(log).Keys
      ensures Registered(got, handles, desired, modeOf, points) && Gained(plan, old(plan), got)
      ensures Extends(points, old(points))
      ensures forall id :: id in got <==> id in handles && (modeOf(k) == Poll || id in registers)
    {
      hide Steady, Gained, FedAt;
      GainedNone(plan);
      got := map[];
      var todo := handles;
      assert ConnsOf(got) + todo.Values == handles.Values;
      while todo.Keys != {}
        invariant todo.Keys <= handles.Keys && forall id :: id in todo ==> todo[id] == handles[id]
        invariant Steady(log, st, ConnsOf(got) + todo.Values)
        invariant ClosesOf(old(log)).Keys <= ClosesOf(log).Keys
        invariant Registered(got, handles, desired, modeOf, points) && Gained(plan, old(plan), got)
        invariant Extends(points, old(points))
        invariant forall id :: id in got <==> id in handles && id !in todo && (modeOf(k) == Poll || id in registers)
        decreases todo.Keys
      {
        var id :| id in todo.Keys;
        var c := todo[id];
        TakeHandle(got, todo, id);
        todo := todo - {id};
        got := RegisterOne(got, c, desired, id in registers, now, st, todo.Values, old(plan), handles);
      }
      assert ConnsOf(got) + todo.Values == ConnsOf(got);
    }

    /** openAndRegisterBatch: what starts comes back in got. */
    method OpenBatch(r: Reload, ids: set<DeviceID>, k: ConnKey, ghost b: Before, ghost st: Stage)
        returns (got: Runtimes)
      requires Steady(log, st, {}) && k in st.keys && b.closes.Keys <= ClosesOf(log).Keys
      requires forall id :: id in ids ==> id in r.desired && r.desired[id].key == k
      modifies this`points, this`plan, this`log
      ensures Batched(r, b, modeOf, old(Now()), st, ids, got, Now())
    {
      hide Steady, Gained, Extends, FedAt;
      ghost var before := log;
      var handles := OpenAll(ids, r.desired, r.opens, st);
      forall id | id in handles ensures !Owns(st.next, handles[id]) {
        PendingUnowned(before, st, handles[id]);
      }
      got := RegisterAll(handles, r.desired, k, r.registers, r.now, st);
    }

    /** Everything kept in the middle of a reload. */
    ghost predicate Mid(r: Reload, b: Before, next: Runtimes, placed: set<DeviceID>, gone: set<DeviceID>,
                        keys: set<ConnKey>)
      reads this
    {
      MidAt(r, b, modeOf, Now(), next, placed, gone, keys)
    }

    /** The previous runtimes of some devices are stopped by their group. */
    method StopAll(r: Reload, ids: set<DeviceID>, ghost b: Before, ghost next: Runtimes, ghost placed: set<DeviceID>,
                   ghost gone: set<DeviceID>, ghost keys: set<ConnKey>)
      requires Mid(r, b, next, placed, gone, keys) && ids <= r.prev.Keys && ids !! gone
      requires forall id :: id in ids && id in placed ==> !OldFirst(r, b, id)
      modifies this`plan, this`log, this`lost
      ensures Mid(r, b, next, placed, gone + ids, keys)
    {
      hide MidAt, OldFirst;
      var todo := ids;
      assert gone + (ids - todo) == gone;
      while todo != {}
        invariant todo <= ids
        invariant Mid(r, b, next, placed, gone + (ids - todo), keys)
        decreases todo
      {
        var id :| id in todo;
        StopOne(r, id, b, next, placed, gone + (ids - todo), keys);
        assert gone + (ids - todo) + {id} == gone + (ids - (todo - {id}));
        todo := todo - {id};
      }
      assert gone + (ids - {}) == gone + ids;
    }

    method StopOne(r: Reload, id: DeviceID, ghost b: Before, ghost next: Runtimes, ghost placed: set<DeviceID>,
                   ghost gone: set<DeviceID>, ghost keys: set<ConnKey>)
      requires Mid(r, b, next, placed, gone, keys) && id in r.prev && id !in gone
      requires id in placed ==> !OldFirst(r, b, id)
      modifies this`plan, this`log, this`lost
      ensures Mid(r, b, next, placed, gone + {id}, keys)
    {
      hide MidAt, Fated, OldFirst, Held, LostByStop;
      GivenAt(r, b, modeOf, Now(), next, placed, gone, keys, id);
      StopDevice(r.prev[id]);
      lost := LostByStop(r, Held(r, b, placed, gone), next, lost, id);
      StopMid(r, b, modeOf, old(Now()), next, placed, gone, keys, id, Now());
    }

    /** updatePollDevice: points and interval change in place, parameters do not. It
        crashes when there is no job to change. */
    method UpdatePollDevice(rt: Runtime, d: Desired, now: int) returns (crashed: bool, ok: bool, rt': Runtime)
      modifies this`points, this`plan, this`lost
      ensures crashed <==> rt.params == d.params && rt.job == null
      ensures ok <==> rt.params == d.params && rt.job != null
      ensures !ok ==> points == old(points) && plan == old(plan) && lost == old(lost)
      ensures ok ==> points == old(points)[rt.job := d.points] && rt' == rt.(intervalMs := d.intervalMs)
      ensures ok && rt.intervalMs == d.intervalMs ==> plan == old(plan) && lost == old(lost)
      ensures ok && rt.intervalMs != d.intervalMs ==>
        && lost == old(lost) - {rt.deviceID}
        && rt.deviceID in plan && TimerFits(plan[rt.deviceID], rt')
        && forall j :: j != rt.deviceID ==> SameAt(plan, old(plan), j)
    {
      if rt.params != d.params {
        return false, false, rt;
      }
      if rt.job == null {
        return true, false, rt;
      }
      points := points[rt.job := d.points];
      if rt.intervalMs != d.intervalMs {
        plan := Scheduled(plan, rt.deviceID, fnv(rt.deviceID), IntervalOf(d.intervalMs), rt.job, now);
        lost := lost - {rt.deviceID};
        return false, true, rt.(intervalMs := d.intervalMs);
      }
      return false, true, rt;
    }

    /** A batch of devices that are to start afresh. */
    method StartAfresh(r: Reload, ids: set<DeviceID>, k: ConnKey, next0: Runtimes,
                       ghost b: Before, ghost placed: set<DeviceID>, ghost gone: set<DeviceID>,
                       ghost keys: set<ConnKey>)
        returns (next: Runtimes)
      requires Mid(r, b, next0, placed, gone, keys) && k in keys && ids !! placed
      requires forall id :: id in ids ==> id in r.desired && r.desired[id].key == k
      requires forall id :: id in ids ==> id in b.fates && b.fates[id].Fresh?
      requires NoneOnSchedule(r, modeOf, Held(r, b, placed, gone), ids)
      modifies this`points, this`plan, this`log
      ensures Mid(r, b, next, placed + ids, gone, keys)
    {
      hide MidAt, Batched, Steady, NoneOnSchedule, Held, ReopenedOf;
      LedgerAt(r, b, modeOf, Now(), next0, placed, gone, keys);
      var got := OpenBatch(r, ids, k, b, Stage(r.prev, next0, gone, ReopenedOf(b, placed), keys));
      BatchMid(r, b, modeOf, old(Now()), next0, placed, gone, keys, ids, got, Now());
      next := next0 + got;
    }

    /** A device whose parameters changed: open the new handle, then stop the old runtime. */
    method ReopenDevice(r: Reload, id: DeviceID, next0: Runtimes,
                        ghost b: Before, ghost placed: set<DeviceID>, ghost gone: set<DeviceID>,
                        ghost keys: set<ConnKey>)
        returns (next: Runtimes)
      requires Mid(r, b, next0, placed, gone, keys) && id in r.prev && id in r.desired && id !in placed
      requires r.desired[id].key in keys && id in b.fates && b.fates[id].Reopen?
      modifies this`points, this`plan, this`log, this`lost
      ensures Mid(r, b, next, placed + {id}, gone, keys)
    {
      hide MidAt, Batched, Steady, Fated, ReopenedOf, LostByReopen;
      LedgerAt(r, b, modeOf, Now(), next0, placed, gone, keys);
      GivenAt(r, b, modeOf, Now(), next0, placed, gone, keys, id);
      var got := OpenBatch(r, {id}, r.desired[id].key, b, Stage(r.prev, next0, gone, ReopenedOf(b, placed), keys));
      ghost var s' := Now();
      StopDevice(r.prev[id]);
      lost := LostByReopen(r, lost, id, got);
      ReopenMid(r, b, modeOf, old(Now()), next0, placed, gone, keys, id, got, s', Now());
      next := next0 + got;
    }

    /** One device of a group that survives: keep, change in place, reopen or add. */
    method ReconcileDevice(r: Reload, id: DeviceID, next0: Runtimes,
                           ghost b: Before, ghost placed: set<DeviceID>, ghost gone: set<DeviceID>,
                           ghost keys: set<ConnKey>)
        returns (crashed: bool, next: Runtimes)
      requires Mid(r, b, next0, placed, gone, keys)
      requires id in r.desired && id !in placed && r.desired[id].key in keys
      requires Survives(r, r.desired[id].key) && !Restarts(r, modeOf, r.desired[id].key)
      requires id in gone ==> OldFirst(r, b, id)
      modifies this`points, this`plan, this`log, this`lost
      ensures crashed ==> Stuck(r, modeOf, id)
      ensures !crashed ==> Mid(r, b, next, placed + {id}, gone, keys)
    {
      hide MidAt, OldFirst, Survives, Restarts, Stuck, FateOf, NoneOnSchedule;
      crashed := false;
      FateAt(r, b, modeOf, Now(), next0, placed, gone, keys, id);
      var d := r.desired[id];
      if id !in r.prev {
        next := StartAfresh(r, {id}, d.key, next0, b, placed, gone, keys);
        return;
      }
      var rt := r.prev[id];
      if rt.sig == SigOf(d) {
        lost := LostByKeep(lost, gone, id, rt);
        KeepMid(r, b, modeOf, old(Now()), next0, placed, gone, keys, id, rt, Now());
        next := next0[id := rt];
        return;
      }
      if rt.params == d.params {
        crashed, next := ChangeDevice(r, id, next0, b, placed, gone, keys);
      } else {
        next := ReopenDevice(r, id, next0, b, placed, gone, keys);
      }
    }

    method ChangeDevice(r: Reload, id: DeviceID, next0: Runtimes,
                        ghost b: Before, ghost placed: set<DeviceID>, ghost gone: set<DeviceID>,
                        ghost keys: set<ConnKey>)
        returns (crashed: bool, next: Runtimes)
      requires Mid(r, b, next0, placed, gone, keys) && id in r.prev && id in r.desired && id !in placed
      requires id in gone ==> OldFirst(r, b, id)
      requires id in b.fates && b.fates[id].Update?
      requires r.prev[id].sig != SigOf(r.desired[id]) && r.prev[id].params == r.desired[id].params
      modifies this`points, this`plan, this`lost
      ensures crashed <==> r.prev[id].job == null
      ensures !crashed ==> Mid(r, b, next, placed + {id}, gone, keys)
    {
      hide MidAt, OldFirst, Fated;
      GivenAt(r, b, modeOf, Now(), next0, placed, gone, keys, id);
      var rt, d := r.prev[id], r.desired[id];
      next := next0;
      var ok, rt';
      crashed, ok, rt' := UpdatePollDevice(rt, d, r.now);
      if !crashed {
        rt' := rt'.(sig := SigOf(d));
        lost := if rt.intervalMs == d.intervalMs then LostByKeep(lost, gone, id, rt) else lost;
        KeepMid(r, b, modeOf, old(Now()), next0, placed, gone, keys, id, rt', Now());
        next := next0[id := rt'];
      }
    }

    /** Does a surviving group reopen as a whole? Its mode is that of any old member. */
    method GroupRestarts(r: Reload, k: ConnKey, oldIDs: set<DeviceID>) returns (restart: bool)
      requires AllShaped(r.prev, modeOf)
      requires oldIDs != {} && oldIDs == GroupOf(r.prev, k)
      ensures restart <==> Restarts(r, modeOf, k)
    {
      restart := false;
      var first :| first in oldIDs;
      if r.prev[first].mode != Poll {
        var todo := oldIDs;
        while todo != {}
          invariant todo <= oldIDs
          invariant restart ==> Restarts(r, modeOf, k)
          invariant !restart ==> forall id :: id in oldIDs - todo ==>
            id in r.desired && r.prev[id].sig == SigOf(r.desired[id])
          decreases todo
        {
          var id :| id in todo;
          todo := todo - {id};
          if id !in r.desired || r.prev[id].sig != SigOf(r.desired[id]) {
            restart := true;
            break;
          }
        }
      }
    }

    /** A group that survives, that is, has old and new members. */
    method ReconcileGroup(r: Reload, k: ConnKey, oldIDs: set<DeviceID>, newIDs: set<DeviceID>, next0: Runtimes,
                          ghost b: Before, ghost placed: set<DeviceID>, ghost gone: set<DeviceID>,
                          ghost keys: set<ConnKey>)
        returns (crashed: bool, next: Runtimes)
      requires Mid(r, b, next0, placed, gone, keys) && AllShaped(r.prev, modeOf)
      requires k in keys && oldIDs != {} && oldIDs == GroupOf(r.prev, k) && newIDs == WantedOf(r.desired, k)
      requires oldIDs !! gone && newIDs !! placed && Turn(r, b, k, placed + newIDs, gone)
      modifies this`points, this`plan, this`log, this`lost
      ensures crashed ==> exists id :: Stuck(r, modeOf, id)
      ensures !crashed ==> Mid(r, b, next, placed + newIDs, gone + LeavingOf(r, modeOf, k), keys)
    {
      var restart := GroupRestarts(r, k, oldIDs);
      GroupSurvives(r, modeOf, k, oldIDs, newIDs);
      if restart {
        hide Mid;
        next := RestartGroup(r, k, oldIDs, newIDs, next0, b, placed, gone, keys);
        return false, next;
      }
      crashed, next := UpdateGroup(r, k, newIDs, next0, b, placed, gone, keys);
      if !crashed {
        StopAll(r, oldIDs - newIDs, b, next, placed + newIDs, gone, keys);
      }
    }

    /** All old runtimes of a group are stopped, then all new ones opened. */
    method RestartGroup(r: Reload, k: ConnKey, oldIDs: set<DeviceID>, newIDs: set<DeviceID>, next0: Runtimes,
                        ghost b: Before, ghost placed: set<DeviceID>, ghost gone: set<DeviceID>,
                        ghost keys: set<ConnKey>)
        returns (next: Runtimes)
      requires Mid(r, b, next0, placed, gone, keys) && Restarts(r, modeOf, k)
      requires k in keys && oldIDs == GroupOf(r.prev, k) && newIDs == WantedOf(r.desired, k)
      requires oldIDs !! gone && newIDs !! placed && Turn(r, b, k, placed + newIDs, gone)
      modifies this`points, this`plan, this`log, this`lost
      ensures Mid(r, b, next, placed + newIDs, gone + oldIDs, keys)
    {
      RestartIsFresh(r, b, modeOf, Now(), next0, placed, gone, gone + oldIDs, keys, k, newIDs);
      hide MidAt, Restarts, NoneOnSchedule, Held, OldFirst;
      StopAll(r, oldIDs, b, next0, placed, gone, keys);
      next := StartAfresh(r, newIDs, k, next0, b, placed, gone + oldIDs, keys);
    }

    /** The wanted devices of a surviving group, one by one. */
    method UpdateGroup(r: Reload, k: ConnKey, newIDs: set<DeviceID>, next0: Runtimes,
                       ghost b: Before, ghost placed: set<DeviceID>, ghost gone: set<DeviceID>,
                       ghost keys: set<ConnKey>)
        returns (crashed: bool, next: Runtimes)
      requires Mid(r, b, next0, placed, gone, keys) && k in keys && Survives(r, k) && !Restarts(r, modeOf, k)
      requires newIDs == WantedOf(r.desired, k) && newIDs !! placed && Turn(r, b, k, placed + newIDs, gone)
      modifies this`points, this`plan, this`log, this`lost
      ensures crashed ==> exists id :: Stuck(r, modeOf, id)
      ensures !crashed ==> Mid(r, b, next, placed + newIDs, gone, keys)
    {
      hide Mid, Restarts, Survives, Stuck, OldFirst;
      crashed, next := false, next0;
      var todo := newIDs;
      assert placed + (newIDs - todo) == placed;
      while todo != {}
        invariant todo <= newIDs
        invariant Mid(r, b, next, placed + (newIDs - todo), gone, keys)
        decreases todo
      {
        var id :| id in todo;
        crashed, next := ReconcileDevice(r, id, next, b, placed + (newIDs - todo), gone, keys);
        if crashed {
          return;
        }
        assert placed + (newIDs - todo) + {id} == placed + (newIDs - (todo - {id}));
        todo := todo - {id};
      }
      assert newIDs - todo == newIDs;
    }

    /** One connection key that some old runtime has. */
    method ReconcileKey(r: Reload, k: ConnKey, next0: Runtimes,
                        ghost b: Before, ghost placed: set<DeviceID>, ghost gone: set<DeviceID>,
                        ghost keys: set<ConnKey>)
        returns (crashed: bool, next: Runtimes)
      requires Mid(r, b, next0, placed, gone, keys) && AllShaped(r.prev, modeOf)
      requires k in keys && GroupOf(r.prev, k) != {}
      requires GroupOf(r.prev, k) !! gone && WantedOf(r.desired, k) !! placed
      requires Turn(r, b, k, placed + WantedOf(r.desired, k), gone)
      modifies this`points, this`plan, this`log, this`lost
      ensures crashed ==> exists id :: Stuck(r, modeOf, id)
      ensures !crashed ==> Mid(r, b, next, placed + WantedOf(r.desired, k), gone + LeavingOf(r, modeOf, k), keys)
    {
      hide Mid, AllShaped, Stuck;
      var oldIDs := set id | id in r.prev && r.prev[id].connKey == k;
      var newIDs := set id | id in r.desired && r.desired[id].key == k;
      if newIDs == {} {
        StopAll(r, oldIDs, b, next0, placed, gone, keys);
        crashed, next := false, next0;
        assert placed + newIDs == placed && LeavingOf(r, modeOf, k) == oldIDs;
      } else {
        crashed, next := ReconcileGroup(r, k, oldIDs, newIDs, next0, b, placed, gone, keys);
      }
    }

    /** The connection keys of the old runtimes, each once, in an order of its own. */
    method OldKeys(rts: Runtimes) returns (order: seq<ConnKey>)
      ensures Lists(order, KeysOfRuntimes(rts))
    {
      order := [];
      var todo := set id | id in rts :: rts[id].connKey;
      while todo != {}
        invariant todo <= KeysOfRuntimes(rts) && Lists(order, KeysOfRuntimes(rts) - todo)
        decreases todo
      {
        var k :| k in todo;
        todo := todo - {k};
        order := order + [k];
      }
      assert KeysOfRuntimes(rts) - todo == KeysOfRuntimes(rts);
    }

    /** The keys of old groups come first: a connection ID whose configuration changed is
        released completely before it is opened anew. */
    method ReconcileOld(r: Reload, order: seq<ConnKey>, ghost b: Before) returns (crashed: bool, next: Runtimes)
      requires Mid(r, b, map[], {}, {}, KeysOfRuntimes(r.prev)) && AllShaped(r.prev, modeOf)
      requires order == b.order && Lists(order, KeysOfRuntimes(r.prev))
      modifies this`points, this`plan, this`log, this`lost
      ensures crashed ==> exists id :: Stuck(r, modeOf, id)
      ensures var seen := KeysOfRuntimes(r.prev);
        !crashed ==> Mid(r, b, next, PlacedBy(r, seen), GoneBy(r, modeOf, seen), seen)
    {
      hide Mid, AllShaped, Stuck, Leaves, OldFirst, Turn, Lists;
      crashed, next := false, map[];
      ghost var keys, seen := KeysOfRuntimes(r.prev), {};
      assert PlacedBy(r, {}) == {} && GoneBy(r, modeOf, {}) == {};
      for n := 0 to |order|
        invariant forall k :: k in seen <==> k in order[..n]
        invariant Mid(r, b, next, PlacedBy(r, seen), GoneBy(r, modeOf, seen), keys)
      {
        TurnAt(r, b, modeOf, n, seen);
        GroupsApart(r, modeOf, order[n], seen);
        ListsKey(order, keys, n);
        crashed, next := ReconcileKey(r, order[n], next, b, PlacedBy(r, seen), GoneBy(r, modeOf, seen), keys);
        if crashed {
          return;
        }
        seen := seen + {order[n]};
      }
      AllListed(order, keys, seen);
    }

    /** The keys no old runtime has: open every new group. */
    method ReconcileNew(r: Reload, next0: Runtimes, ghost b: Before) returns (next: Runtimes)
      requires var seen := KeysOfRuntimes(r.prev);
        Mid(r, b, next0, PlacedBy(r, seen), GoneBy(r, modeOf, seen), KeysOfWanted(r.desired))
      requires Fated(r, b, modeOf)
      modifies this`points, this`plan, this`log, this`lost
      ensures Finished(r, b, modeOf, Now(), next, KeysOfWanted(r.desired))
    {
      hide MidAt, Fated, Leaves, NoneOnSchedule, Held;
      next := next0;
      var oldKeys := set id | id in r.prev :: r.prev[id].connKey;
      var newKeys := set id | id in r.desired :: r.desired[id].key;
      var todo := newKeys - oldKeys;
      assert oldKeys + (newKeys - oldKeys - todo) == oldKeys;
      while todo != {}
        invariant todo <= newKeys - oldKeys
        invariant Mid(r, b, next, PlacedBy(r, oldKeys + (newKeys - oldKeys - todo)), GoneBy(r, modeOf, oldKeys),
                      newKeys)
        decreases todo
      {
        var k :| k in todo;
        ghost var seen := oldKeys + (newKeys - oldKeys - todo);
        var ids := set id | id in r.desired && r.desired[id].key == k;
        NewGroupIsFresh(r, b, modeOf, k, oldKeys, PlacedBy(r, seen));
        GroupsApart(r, modeOf, k, seen);
        next := StartAfresh(r, ids, k, next, b, PlacedBy(r, seen), GoneBy(r, modeOf, oldKeys), newKeys);
        assert oldKeys + (newKeys - oldKeys - (todo - {k})) == seen + {k};
        todo := todo - {k};
      }
      AllSeen(r, oldKeys + (newKeys - oldKeys - todo));
    }

    /** Apply a new configuration. It crashes exactly if a device is stuck. Otherwise every
        desired device is placed as its fate says and no other has a runtime, the schedule
        follows the polled runtimes that are not lost, and the handles are as ownership asks
        exactly if no device goes astray. */
    method Apply(desired: Wanted, opens: set<DeviceID>, registers: set<DeviceID>, now: int)
        returns (crashed: bool, ghost order: seq<ConnKey>)
      requires Valid() && Coherent(KeysOfWanted(desired))
      modifies this
      ensures Lists(order, KeysOfRuntimes(old(runtimes)))
      ensures var r := old(Reload(runtimes, desired, opens, registers, now));
        crashed <==> exists id :: Stuck(r, modeOf, id)
      ensures var r := old(Reload(runtimes, desired, opens, registers, now));
        !crashed ==>
          && (Settled(ClosesOf(log), runtimes) <==> Clean(r, modeOf))
          && forall id :: Astray(r, modeOf, id) ==> Mishandled(r, ClosesOf(log), runtimes, id)
      ensures var r := old(Reload(runtimes, desired, opens, registers, now));
        var b := Before(old(ClosesOf(log)), old(lost), FatesOf(r, modeOf), order);
        !crashed ==>
          && Running(modeOf, runtimes, points, plan, lost)
          && Placing(r, b, modeOf, lost, runtimes, desired.Keys, GoneBy(r, modeOf, KeysOfRuntimes(r.prev)))
      ensures var r := old(Reload(runtimes, desired, opens, registers, now));
        Clean(r, modeOf) ==> !crashed && Valid()
    {
      hide MidAt, Placing, Running, FateOf, AllShaped, Clean, Stuck, Astray, Mishandled, Settled, GoneBy, PlacedBy,
        Lists;
      var r := Reload(runtimes, desired, opens, registers, now);
      var oldKeys := OldKeys(runtimes);
      order := oldKeys;
      ghost var b := Before(ClosesOf(log), lost, FatesOf(r, modeOf), order);
      ghost var seen := KeysOfRuntimes(r.prev);
      Begin(r, b, modeOf, Now());
      CleanIsUnstuck(r, modeOf);
      RestShaped(modeOf, Now(), r.prev);
      var next;
      crashed, next := ReconcileOld(r, oldKeys, b);
      if crashed {
        return;
      }
      Rekey(r, b, modeOf, Now(), next, PlacedBy(r, seen), GoneBy(r, modeOf, seen), seen, KeysOfWanted(desired));
      next := ReconcileNew(r, next, b);
      OwnershipIff(r, b, modeOf, Now(), next, KeysOfWanted(desired));
      AllMishandled(r, b, modeOf, Now(), next, KeysOfWanted(desired));
      NobodyStuck(r, b, modeOf, Now(), next, KeysOfWanted(desired));
      End(r, b, modeOf, Now(), next, KeysOfWanted(desired));
      if Clean(r, modeOf) {
        CleanEnd(r, b, modeOf, Now(), next, KeysOfWanted(desired));
      }
      runtimes := next;
    }
  }

  lemma RestShaped(modeOf: ConnKey -> Mode, s: State, rts: Runtimes)
    requires AtRest(modeOf, rts, s.points, s.plan, s.log, s.lost)
    ensures AllShaped(rts, modeOf)
  {
  }

  lemma ListsKey(order: seq<ConnKey>, keys: set<ConnKey>, n: nat)
    requires Lists(order, keys) && n < |order|
    ensures order[n] in keys
  {
  }

  lemma AllListed(order: seq<ConnKey>, keys: set<ConnKey>, seen: set<ConnKey>)
    requires Lists(order, keys) && forall k :: k in seen <==> k in order[..|order|]
    ensures seen == keys
  {
    assert order[..|order|] == order;
  }

  lemma CleanIsUnstuck(r: Reload, modeOf: ConnKey -> Mode)
    ensures Clean(r, modeOf) ==> forall id :: !Stuck(r, modeOf, id)
  {
  }

  lemma AllSeen(r: Reload, seen: set<ConnKey>)
    requires KeysOfWanted(r.desired) <= seen
    ensures PlacedBy(r, seen) == r.desired.Keys
  {
    forall id | id in r.desired ensures r.desired[id].key in seen {
      assert r.desired[id].key in KeysOfWanted(r.desired);
    }
  }

  lemma LedgerAt(r: Reload, b: Before, modeOf: ConnKey -> Mode, s: State, next: Runtimes,
                 placed: set<DeviceID>, gone: set<DeviceID>, keys: set<ConnKey>)
    requires MidAt(r, b, modeOf, s, next, placed, gone, keys)
    ensures Steady(s.log, Stage(r.prev, next, gone, ReopenedOf(b, placed), keys), {})
    ensures b.closes.Keys <= ClosesOf(s.log).Keys
  {
  }

  lemma GivenAt(r: Reload, b: Before, modeOf: ConnKey -> Mode, s: State, next: Runtimes,
                placed: set<DeviceID>, gone: set<DeviceID>, keys: set<ConnKey>, id: DeviceID)
    requires MidAt(r, b, modeOf, s, next, placed, gone, keys) && id in r.prev
    ensures Fated(r, b, modeOf)
    ensures r.prev[id].deviceID == id && (r.prev[id].mode == Poll <==> r.prev[id].job != null)
    ensures r.prev[id].sig.params == r.prev[id].params && r.prev[id].sig.intervalMs == r.prev[id].intervalMs
  {
    hide Ledger, Orderly, Fated;
    assert Shaped(r.prev[id], id, modeOf);
  }

  /** What the rules of a surviving group make of one of its devices. */
  lemma FateAt(r: Reload, b: Before, modeOf: ConnKey -> Mode, s: State, next: Runtimes,
               placed: set<DeviceID>, gone: set<DeviceID>, keys: set<ConnKey>, id: DeviceID)
    requires MidAt(r, b, modeOf, s, next, placed, gone, keys) && id in r.desired && id !in placed
    requires Survives(r, r.desired[id].key) && !Restarts(r, modeOf, r.desired[id].key)
    ensures id in b.fates && b.fates[id] == FateOf(r, modeOf, id)
    ensures id !in r.prev ==> b.fates[id].Fresh? && NoneOnSchedule(r, modeOf, Held(r, b, placed, gone), {id})
    ensures id in r.prev ==>
      && b.fates[id] == (if r.prev[id].sig == SigOf(r.desired[id]) then Keep
                         else if r.prev[id].params == r.desired[id].params then Update else Reopen)
      && (b.fates[id].Update? && r.prev[id].job == null ==> Stuck(r, modeOf, id))
  {
    hide Ledger, Orderly;
    if id in r.prev {
      assert Shaped(r.prev[id], id, modeOf);
    }
  }

  lemma GroupSurvives(r: Reload, modeOf: ConnKey -> Mode, k: ConnKey, oldIDs: set<DeviceID>, newIDs: set<DeviceID>)
    requires oldIDs != {} && oldIDs == GroupOf(r.prev, k) && newIDs == WantedOf(r.desired, k)
    ensures Survives(r, k)
    ensures LeavingOf(r, modeOf, k) == if Restarts(r, modeOf, k) then oldIDs else oldIDs - newIDs
  {
    var j :| j in oldIDs;
    assert j in r.prev && r.prev[j].connKey == k;
  }

  lemma RestartIsFresh(r: Reload, b: Before, modeOf: ConnKey -> Mode, s: State, next: Runtimes,
                       placed: set<DeviceID>, gone: set<DeviceID>, gone': set<DeviceID>, keys: set<ConnKey>,
                       k: ConnKey, newIDs: set<DeviceID>)
    requires MidAt(r, b, modeOf, s, next, placed, gone, keys) && Restarts(r, modeOf, k)
      && newIDs == WantedOf(r.desired, k)
    ensures forall id :: id in newIDs ==> id in b.fates && b.fates[id].Fresh?
    ensures NoneOnSchedule(r, modeOf, Held(r, b, placed, gone'), newIDs)
  {
    hide Ledger, Orderly;
  }

  lemma ValuesMore(hs: Handles, id: DeviceID, c: Conn)
    requires id !in hs
    ensures hs[id := c].Values == hs.Values + {c}
  {
    var m := hs[id := c];
    assert m[id] == c;
    forall v | v in hs.Values ensures v in m.Values {
      var j :| j in hs && hs[j] == v;
      assert m[j] == v;
    }
  }

  /** One handle leaves the pending ones, all of them of different devices. */
  lemma TakeHandle(got: Runtimes, todo: Handles, id: DeviceID)
    requires id in todo && forall j :: j in todo ==> todo[j].deviceID == j
    requires id !in got && forall j :: j in got ==> got[j].conn.deviceID == j
    ensures var rest := (todo - {id}).Values;
      && ConnsOf(got) + todo.Values == ConnsOf(got) + rest + {todo[id]}
      && todo[id] !in ConnsOf(got) + rest
  {
    var m := todo - {id};
    forall v | v in todo.Values && v != todo[id] ensures v in m.Values {
      var j :| j in todo && todo[j] == v;
      assert m[j] == v;
    }
  }
}
