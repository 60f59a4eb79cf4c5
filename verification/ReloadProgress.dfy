/** A whole reload on plain values: what holds at every point of it, how it begins, and
    what it leaves behind, with and without devices that go astray. */
module ReloadProgress {
  import opened DeviceJobs
  import opened DriverCalls
  import opened PollPlan
  import opened ReconcileSpec
  import opened ReconcileSteps

  /** A list of connection keys, each once. */
  ghost predicate Lists(order: seq<ConnKey>, keys: set<ConnKey>) {
    && (forall i, j :: 0 <= i < j < |order| ==> order[i] != order[j])
    && forall k :: k in order <==> k in keys
  }

  /** What a reload starts from. */
  ghost predicate Given(r: Reload, b: Before, modeOf: ConnKey -> Mode) {
    && AllShaped(r.prev, modeOf) && Fated(r, b, modeOf) && ConnsOf(r.prev) <= b.closes.Keys
    && Lists(b.order, KeysOfRuntimes(r.prev))
  }

  /** In the middle of a reload: the handles are accounted for, runtimes, schedule and
      points are in order. */
  ghost predicate MidAt(r: Reload, b: Before, modeOf: ConnKey -> Mode, s: State, next: Runtimes,
                        placed: set<DeviceID>, gone: set<DeviceID>, keys: set<ConnKey>) {
    && Given(r, b, modeOf)
    && Ledger(r, b, s.log, next, placed, gone, keys)
    && Orderly(r, b, modeOf, s, next, placed, gone)
  }

  lemma GivenOf(r: Reload, b: Before, modeOf: ConnKey -> Mode, id: DeviceID)
    requires Given(r, b, modeOf)
    ensures b.fates.Keys == r.desired.Keys && ConnsOf(r.prev) <= b.closes.Keys
    ensures id in r.prev ==> r.prev[id].deviceID == id == r.prev[id].conn.deviceID
  {
    hide Lists;
  }

  ghost predicate StoppedTo(r: Reload, b: Before, next: Runtimes, placed: set<DeviceID>, gone: set<DeviceID>,
                            id: DeviceID, s: State, s': State)
    requires id in r.prev
  {
    s' == State(s.points, if r.prev[id].mode == Poll then Removed(s.plan, id) else s.plan,
                s.log + [Closed(r.prev[id].conn)], LostByStop(r, Held(r, b, placed, gone), next, s.lost, id))
  }

  /** A device's own group stops its runtime. If another group has placed the device
      already, that group's turn was earlier. */
  lemma StopMid(r: Reload, b: Before, modeOf: ConnKey -> Mode, s: State, next: Runtimes,
                placed: set<DeviceID>, gone: set<DeviceID>, keys: set<ConnKey>, id: DeviceID, s': State)
    requires MidAt(r, b, modeOf, s, next, placed, gone, keys) && id in r.prev && id !in gone
    requires id in placed ==> !OldFirst(r, b, id)
    requires StoppedTo(r, b, next, placed, gone, id, s, s')
    ensures MidAt(r, b, modeOf, s', next, placed, gone + {id}, keys)
  {
    hide Given, Ledger, Orderly, OldFirst, LostByStop, Held;
    GivenOf(r, b, modeOf, id);
    LedgerStop(r, b, s.log, next, placed, gone, keys, id);
    StopOrderly(r, b, modeOf, s, next, placed, gone, id, s');
  }

  /** A device's runtime is kept. If its own group has stopped it already, that group's
      turn was earlier. */
  lemma KeepMid(r: Reload, b: Before, modeOf: ConnKey -> Mode, s: State, next: Runtimes,
                placed: set<DeviceID>, gone: set<DeviceID>, keys: set<ConnKey>, id: DeviceID, rt: Runtime, s': State)
    requires MidAt(r, b, modeOf, s, next, placed, gone, keys)
    requires id in r.prev && id in r.desired && id !in placed && (id in gone ==> OldFirst(r, b, id))
    requires id in b.fates && KeptAs(r, b, gone, id, rt, s, s') && s'.log == s.log
    ensures MidAt(r, b, modeOf, s', next[id := rt], placed + {id}, gone, keys)
  {
    hide Given, Ledger, Orderly, OldFirst;
    GivenOf(r, b, modeOf, id);
    LedgerKeep(r, b, s.log, next, placed, gone, keys, id, rt);
    KeepOrderly(r, b, modeOf, s, next, placed, gone, id, rt, s');
  }

  /** What openAndRegisterBatch does for some devices. */
  ghost predicate Batched(r: Reload, b: Before, modeOf: ConnKey -> Mode, s: State, st: Stage, ids: set<DeviceID>,
                          got: Runtimes, s': State) {
    && BatchResult(r, b, modeOf, ids, got) && Gained(s'.plan, s.plan, got) && s'.lost == s.lost
    && Extends(s'.points, s.points) && (forall id :: id in got ==> FedAt(s'.points, got, id))
    && Steady(s'.log, st, ConnsOf(got)) && b.closes.Keys <= ClosesOf(s'.log).Keys
  }

  lemma BatchMid(r: Reload, b: Before, modeOf: ConnKey -> Mode, s: State, next: Runtimes,
                 placed: set<DeviceID>, gone: set<DeviceID>, keys: set<ConnKey>,
                 ids: set<DeviceID>, got: Runtimes, s': State)
    requires MidAt(r, b, modeOf, s, next, placed, gone, keys) && ids !! placed
    requires forall id :: id in ids ==> id in b.fates && b.fates[id].Fresh?
    requires NoneOnSchedule(r, modeOf, Held(r, b, placed, gone), ids)
    requires Batched(r, b, modeOf, s, Stage(r.prev, next, gone, ReopenedOf(b, placed), keys), ids, got, s')
    ensures MidAt(r, b, modeOf, s', next + got, placed + ids, gone, keys)
  {
    hide Given, Ledger, Orderly, BatchResult, Gained, Extends, FedAt, Steady, NoneOnSchedule, Held;
    GivenOf(r, b, modeOf, DeviceID(""));
    LedgerBatch(r, b, modeOf, s.log, next, placed, gone, keys, ids, got, s'.log);
    BatchOrderly(r, b, modeOf, s, next, placed, gone, ids, got, s');
  }

  lemma ReopenMid(r: Reload, b: Before, modeOf: ConnKey -> Mode, s: State, next: Runtimes,
                  placed: set<DeviceID>, gone: set<DeviceID>, keys: set<ConnKey>,
                  id: DeviceID, got: Runtimes, s': State, s'': State)
    requires MidAt(r, b, modeOf, s, next, placed, gone, keys) && id in r.prev && id !in placed
    requires id in b.fates && b.fates[id].Reopen?
    requires Batched(r, b, modeOf, s, Stage(r.prev, next, gone, ReopenedOf(b, placed), keys), {id}, got, s')
    requires s''.points == s'.points && s''.log == s'.log + [Closed(r.prev[id].conn)]
    requires s''.lost == LostByReopen(r, s.lost, id, got)
    requires s''.plan == if r.prev[id].mode == Poll then Removed(s'.plan, id) else s'.plan
    ensures MidAt(r, b, modeOf, s'', next + got, placed + {id}, gone, keys)
  {
    hide Given, Ledger, Orderly, BatchResult, Gained, Extends, FedAt, Steady, LostByReopen;
    GivenOf(r, b, modeOf, id);
    LedgerReopen(r, b, modeOf, s.log, next, placed, gone, keys, id, got, s'.log);
    ReopenOrderly(r, b, modeOf, s, next, placed, gone, id, got, s', s'');
  }

  // Beginning, middle and end.

  /** The schedule follows the polled runtimes that are not lost, and their jobs collect
      the points they should. */
  ghost predicate Running(modeOf: ConnKey -> Mode, rts: Runtimes, points: JobPoints, plan: Plan, lost: set<DeviceID>) {
    && AllShaped(rts, modeOf)
    && Planned(plan, rts, rts, {}, lost)
    && Fed(points, rts, rts, {})
    && forall id :: id in lost ==> id in rts && rts[id].mode == Poll
  }

  /** What holds between reloads in which no device goes astray. */
  ghost predicate AtRest(modeOf: ConnKey -> Mode, rts: Runtimes, points: JobPoints, plan: Plan, log: seq<Call>,
                         lost: set<DeviceID>) {
    && Running(modeOf, rts, points, plan, lost)
    && Legal(log) && KeysWithin(Live(ClosesOf(log)), KeysOfRuntimes(rts)) && Settled(ClosesOf(log), rts)
  }

  lemma NothingAtRest(modeOf: ConnKey -> Mode)
    ensures AtRest(modeOf, map[], map[], map[], [], {})
  {
    var none: Runtimes := map[];
    assert ClosesOf([]) == map[];
    forall id ensures OnSchedule(map[], none, {}, id) {
    }
  }

  lemma FatesAreSound(r: Reload, b: Before, modeOf: ConnKey -> Mode)
    requires AllShaped(r.prev, modeOf) && ConnsOf(r.prev) <= b.closes.Keys && Fated(r, b, modeOf)
    requires forall id :: id in b.lost ==> id in r.prev && r.prev[id].mode == Poll
    ensures Sound(r, b, modeOf)
  {
    forall id | id in r.prev ensures r.prev[id].conn in b.closes {
      assert r.prev[id].conn in ConnsOf(r.prev);
    }
  }

  lemma BeginSteady(log: seq<Call>, prev: Runtimes)
    requires Legal(log) && KeysWithin(Live(ClosesOf(log)), KeysOfRuntimes(prev)) && Settled(ClosesOf(log), prev)
    ensures Steady(log, Stage(prev, map[], {}, {}, KeysOfRuntimes(prev)), {})
  {
    assert ConnsOf(map[]) == {};
    forall i | 0 <= i < |log| ensures ProperNext(ClosesOf(log[..i]), log[i]) {
      assert LegalNext(ClosesOf(log[..i]), log[i]);
    }
  }

  lemma BeginOthers(points: JobPoints, plan: Plan, prev: Runtimes, lost: set<DeviceID>)
    requires Planned(plan, prev, prev, {}, lost) && Fed(points, prev, prev, {})
    ensures Planned(plan, prev, map[], prev.Keys, lost) && Fed(points, prev, map[], prev.Keys)
  {
    hide FedAt;
    var none: set<DeviceID> := {};
    forall j ensures OnSchedule(plan, prev, lost, j) {
      assert j !in none;
    }
    forall j ensures OnSchedule(plan, if j in prev.Keys then prev else map[], lost, j) {
      assert OnSchedule(plan, prev, lost, j);
    }
  }

  lemma BeginPlacing(r: Reload, b: Before, modeOf: ConnKey -> Mode)
    requires Sound(r, b, modeOf)
    ensures Placing(r, b, modeOf, b.lost, map[], {}, {})
  {
    hide StaysLost;
    forall id ensures LostAt(r, b, modeOf, map[], b.lost, {}, {}, id) {
      assert id in Held(r, b, {}, {}) <==> id in r.prev;
    }
  }

  lemma Begin(r: Reload, b: Before, modeOf: ConnKey -> Mode, s: State)
    requires AtRest(modeOf, r.prev, s.points, s.plan, s.log, s.lost)
    requires b.closes == ClosesOf(s.log) && b.lost == s.lost && b.fates == FatesOf(r, modeOf)
    requires Lists(b.order, KeysOfRuntimes(r.prev))
    ensures MidAt(r, b, modeOf, s, map[], {}, {}, KeysOfRuntimes(r.prev))
  {
    hide Planned, Fed, FateOf, Sound, AllShaped, Placing, Lists, Steady;
    BeginSteady(s.log, r.prev);
    assert ReopenedOf(b, {}) == {};
    FatesAreSound(r, b, modeOf);
    BeginOthers(s.points, s.plan, r.prev, s.lost);
    BeginPlacing(r, b, modeOf);
    assert Left(r, b, {}) == r.prev.Keys && Held(r, b, {}, {}) == r.prev.Keys;
  }

  // Whose turn it is.

  /** At group k's turn, a device it has and another group has placed was placed before, and
      a device it wants and another group has stopped was stopped before. */
  ghost predicate Turn(r: Reload, b: Before, k: ConnKey, placed: set<DeviceID>, gone: set<DeviceID>) {
    && (forall id :: id in placed && id in GroupOf(r.prev, k) ==> !OldFirst(r, b, id))
    && forall id :: id in gone && id in WantedOf(r.desired, k) ==> OldFirst(r, b, id)
  }

  lemma TurnAt(r: Reload, b: Before, modeOf: ConnKey -> Mode, n: nat, seen: set<ConnKey>)
    requires Lists(b.order, KeysOfRuntimes(r.prev)) && n < |b.order|
    requires forall k :: k in seen <==> k in b.order[..n]
    ensures b.order[n] !in seen
    ensures Turn(r, b, b.order[n], PlacedBy(r, seen) + WantedOf(r.desired, b.order[n]), GoneBy(r, modeOf, seen))
  {
    hide Leaves;
    forall id | id in GoneBy(r, modeOf, seen) && id in WantedOf(r.desired, b.order[n]) ensures OldFirst(r, b, id) {
      var i :| 0 <= i < n && b.order[i] == r.prev[id].connKey;
    }
  }

  /** The desired devices of some connection keys, and the devices of before that their
      groups stop. */
  ghost function PlacedBy(r: Reload, seen: set<ConnKey>): set<DeviceID> {
    set id | id in r.desired && r.desired[id].key in seen
  }

  ghost function GoneBy(r: Reload, modeOf: ConnKey -> Mode, seen: set<ConnKey>): set<DeviceID> {
    set id | id in r.prev && r.prev[id].connKey in seen && Leaves(r, modeOf, id)
  }

  ghost function GroupOf(rts: Runtimes, k: ConnKey): set<DeviceID> {
    set id | id in rts && rts[id].connKey == k
  }

  ghost function WantedOf(desired: Wanted, k: ConnKey): set<DeviceID> {
    set id | id in desired && desired[id].key == k
  }

  /** The devices a group stops. */
  ghost function LeavingOf(r: Reload, modeOf: ConnKey -> Mode, k: ConnKey): set<DeviceID> {
    set id | id in GroupOf(r.prev, k) && Leaves(r, modeOf, id)
  }

  lemma GroupsApart(r: Reload, modeOf: ConnKey -> Mode, k: ConnKey, seen: set<ConnKey>)
    requires k !in seen
    ensures GroupOf(r.prev, k) !! GoneBy(r, modeOf, seen) && WantedOf(r.desired, k) !! PlacedBy(r, seen)
    ensures PlacedBy(r, seen + {k}) == PlacedBy(r, seen) + WantedOf(r.desired, k)
    ensures GoneBy(r, modeOf, seen + {k}) == GoneBy(r, modeOf, seen) + LeavingOf(r, modeOf, k)
    ensures k in KeysOfRuntimes(r.prev) ==> GroupOf(r.prev, k) != {}
  {
    if k in KeysOfRuntimes(r.prev) {
      var id :| id in r.prev && r.prev[id].connKey == k;
      assert id in GroupOf(r.prev, k);
    }
  }

  /** A device wanted in a group that no runtime had before starts afresh, and its own
      group has stopped it. */
  lemma NewGroupIsFresh(r: Reload, b: Before, modeOf: ConnKey -> Mode, k: ConnKey, seen: set<ConnKey>,
                        placed: set<DeviceID>)
    requires Fated(r, b, modeOf) && seen == KeysOfRuntimes(r.prev) && k !in seen
    ensures forall id :: id in WantedOf(r.desired, k) ==> id in b.fates && b.fates[id].Fresh?
    ensures NoneOnSchedule(r, modeOf, Held(r, b, placed, GoneBy(r, modeOf, seen)), WantedOf(r.desired, k))
    ensures LeavingOf(r, modeOf, k) == {}
  {
    forall id | id in r.prev ensures r.prev[id].connKey in seen {
    }
  }

  lemma HandleOf(r: Reload, b: Before, log: seq<Call>, next: Runtimes, placed: set<DeviceID>, gone: set<DeviceID>,
                 keys: set<ConnKey>, c: Conn)
    requires Ledger(r, b, log, next, placed, gone, keys) && c in ClosesOf(log)
    ensures ClosesOf(log)[c] == 0 || ClosesOf(log)[c] == 1 || (ClosesOf(log)[c] == 2 && Owns(r.prev, c))
    ensures Owns(r.prev, c) ==>
      ClosesOf(log)[c] == (if c.deviceID in gone then 1 else 0) + if c.deviceID in ReopenedOf(b, placed) then 1 else 0
    ensures !Owns(r.prev, c) ==> (ClosesOf(log)[c] == 0 <==> Owns(next, c))
  {
  }

  lemma PutOf(r: Reload, b: Before, log: seq<Call>, next: Runtimes, placed: set<DeviceID>, gone: set<DeviceID>,
              keys: set<ConnKey>, id: DeviceID)
    requires Ledger(r, b, log, next, placed, gone, keys) && id in placed
    ensures PutAt(r, b, next, id)
  {
  }

  /** Once all groups of before are dealt with, the live handles are those of the next
      runtimes, opened with desired keys. */
  lemma Rekey(r: Reload, b: Before, modeOf: ConnKey -> Mode, s: State, next: Runtimes, placed: set<DeviceID>,
              gone: set<DeviceID>, keys: set<ConnKey>, keys': set<ConnKey>)
    requires MidAt(r, b, modeOf, s, next, placed, gone, keys) && gone == GoneBy(r, modeOf, KeysOfRuntimes(r.prev))
    requires Coherent(keys') && KeysOfWanted(r.desired) <= keys'
    ensures MidAt(r, b, modeOf, s, next, placed, gone, keys')
  {
    hide Orderly, Clean, Fated, Restarts, PutAt, Steady;
    forall c | c in Live(ClosesOf(s.log)) ensures c.key in keys' {
      hide Ledger;
      HandleOf(r, b, s.log, next, placed, gone, keys, c);
      LiveIsWanted(r, b, modeOf, s, next, placed, gone, keys, c);
    }
    SteadyRekey(s.log, Stage(r.prev, next, gone, ReopenedOf(b, placed), keys), keys');
  }

  lemma LiveIsWanted(r: Reload, b: Before, modeOf: ConnKey -> Mode, s: State, next: Runtimes, placed: set<DeviceID>,
                     gone: set<DeviceID>, keys: set<ConnKey>, c: Conn)
    requires MidAt(r, b, modeOf, s, next, placed, gone, keys) && gone == GoneBy(r, modeOf, KeysOfRuntimes(r.prev))
    requires c in ClosesOf(s.log) && ClosesOf(s.log)[c] == 0
    ensures c.key in KeysOfWanted(r.desired)
  {
    HandleOf(r, b, s.log, next, placed, gone, keys, c);
    var id := c.deviceID;
    if Owns(r.prev, c) {
      hide Ledger, Orderly, Clean, Fated, Restarts;
      assert r.prev[id].connKey in KeysOfRuntimes(r.prev) && Shaped(r.prev[id], id, modeOf);
    } else {
      LedgerFacts(r, b, s.log, next, placed, gone, keys);
      PutOf(r, b, s.log, next, placed, gone, keys, id);
      hide Ledger, Orderly, Clean, Fated, Restarts;
      assert r.desired[id].key in KeysOfWanted(r.desired);
    }
  }

  lemma LedgerFacts(r: Reload, b: Before, log: seq<Call>, next: Runtimes, placed: set<DeviceID>, gone: set<DeviceID>,
                    keys: set<ConnKey>)
    requires Ledger(r, b, log, next, placed, gone, keys)
    ensures next.Keys <= placed && ConnsOf(r.prev) + ConnsOf(next) <= ClosesOf(log).Keys
    ensures Proper(log) && KeysWithin(Live(ClosesOf(log)), keys)
  {
  }

  // The end: every group has been dealt with.

  ghost predicate Finished(r: Reload, b: Before, modeOf: ConnKey -> Mode, s: State, next: Runtimes,
                           keys: set<ConnKey>)
  {
    MidAt(r, b, modeOf, s, next, r.desired.Keys, GoneBy(r, modeOf, KeysOfRuntimes(r.prev)), keys)
  }

  /** A device that leaves its group without going astray was stopped once, and its new
      runtime, if any, has another handle; one that stays was stopped if it reopened. */
  lemma HandleIsSettled(r: Reload, b: Before, modeOf: ConnKey -> Mode, s: State, next: Runtimes, keys: set<ConnKey>,
                        c: Conn)
    requires Finished(r, b, modeOf, s, next, keys) && Clean(r, modeOf) && c in ClosesOf(s.log)
    ensures ClosesOf(s.log)[c] <= 1 && (ClosesOf(s.log)[c] == 0 <==> Owns(next, c))
  {
    hide Orderly, Ledger;
    var id := c.deviceID;
    var gone := GoneBy(r, modeOf, KeysOfRuntimes(r.prev));
    HandleOf(r, b, s.log, next, r.desired.Keys, gone, keys, c);
    LedgerFacts(r, b, s.log, next, r.desired.Keys, gone, keys);
    if Owns(r.prev, c) {
      assert r.prev[id].connKey in KeysOfRuntimes(r.prev);
      assert Survives(r, r.prev[id].connKey);
      if id in r.desired {
        PutOf(r, b, s.log, next, r.desired.Keys, gone, keys, id);
        assert !Astray(r, modeOf, id);
      }
    }
  }

  lemma AstrayIsUnsettled(r: Reload, b: Before, modeOf: ConnKey -> Mode, s: State, next: Runtimes, keys: set<ConnKey>,
                          id: DeviceID)
    requires Finished(r, b, modeOf, s, next, keys) && Astray(r, modeOf, id)
    ensures var c := r.prev[id].conn;
      && c in ClosesOf(s.log) && id in b.fates
      && if b.fates[id].Reopen? then ClosesOf(s.log)[c] == 2
         else ClosesOf(s.log)[c] == 1 && id in next && next[id].conn == c
    ensures b.fates[id].Update? ==> r.prev[id].job != null
  {
    hide Orderly, Ledger;
    var c := r.prev[id].conn;
    var gone := GoneBy(r, modeOf, KeysOfRuntimes(r.prev));
    assert Shaped(r.prev[id], id, modeOf);
    assert c in ConnsOf(r.prev) && r.prev[id].connKey in KeysOfRuntimes(r.prev);
    LedgerFacts(r, b, s.log, next, r.desired.Keys, gone, keys);
    HandleOf(r, b, s.log, next, r.desired.Keys, gone, keys, c);
    PutOf(r, b, s.log, next, r.desired.Keys, gone, keys, id);
  }

  /** What becomes of the handle of a device that goes astray: it is closed while its
      runtime is kept, or closed a second time when the device reopens. */
  ghost predicate Mishandled(r: Reload, closes: Closes, next: Runtimes, id: DeviceID) {
    && id in r.prev && id in r.desired && r.prev[id].conn in closes
    && var rt, d := r.prev[id], r.desired[id];
       if rt.sig == SigOf(d) || rt.params == d.params then closes[rt.conn] == 1 && Owns(next, rt.conn)
       else closes[rt.conn] == 2
  }

  lemma AllMishandled(r: Reload, b: Before, modeOf: ConnKey -> Mode, s: State, next: Runtimes, keys: set<ConnKey>)
    requires Finished(r, b, modeOf, s, next, keys)
    ensures forall id :: Astray(r, modeOf, id) ==> Mishandled(r, ClosesOf(s.log), next, id)
  {
    hide Ledger, Orderly, Astray, FateOf;
    forall id | Astray(r, modeOf, id) ensures Mishandled(r, ClosesOf(s.log), next, id) {
      AstrayInBoth(r, modeOf, id);
      AstrayIsUnsettled(r, b, modeOf, s, next, keys, id);
      AstrayFate(r, modeOf, id);
      assert Shaped(r.prev[id], id, modeOf);
    }
  }

  /** Exactly the reloads without a device that goes astray keep ownership. */
  lemma OwnershipIff(r: Reload, b: Before, modeOf: ConnKey -> Mode, s: State, next: Runtimes, keys: set<ConnKey>)
    requires Finished(r, b, modeOf, s, next, keys)
    ensures Settled(ClosesOf(s.log), next) <==> Clean(r, modeOf)
  {
    hide Ledger, Orderly, Astray, Fated;
    if Clean(r, modeOf) {
      forall c | c in ClosesOf(s.log) ensures ClosesOf(s.log)[c] <= 1 && (ClosesOf(s.log)[c] == 0 <==> Owns(next, c)) {
        HandleIsSettled(r, b, modeOf, s, next, keys, c);
      }
      LedgerFacts(r, b, s.log, next, r.desired.Keys, GoneBy(r, modeOf, KeysOfRuntimes(r.prev)), keys);
    } else {
      var id :| id in r.desired && Astray(r, modeOf, id);
      AstrayInBoth(r, modeOf, id);
      AstrayIsUnsettled(r, b, modeOf, s, next, keys, id);
      var c := r.prev[id].conn;
      assert Shaped(r.prev[id], id, modeOf);
      assert b.fates[id].Reopen? || Owns(next, c);
    }
  }

  lemma AstrayInBoth(r: Reload, modeOf: ConnKey -> Mode, id: DeviceID)
    requires Astray(r, modeOf, id)
    ensures id in r.prev && id in r.desired
  {
  }

  lemma NobodyStuck(r: Reload, b: Before, modeOf: ConnKey -> Mode, s: State, next: Runtimes, keys: set<ConnKey>)
    requires Finished(r, b, modeOf, s, next, keys)
    ensures forall id :: !Stuck(r, modeOf, id)
  {
    hide Ledger, Orderly, Astray;
    forall id ensures !Stuck(r, modeOf, id) {
      if Stuck(r, modeOf, id) {
        AstrayInBoth(r, modeOf, id);
        AstrayIsUnsettled(r, b, modeOf, s, next, keys, id);
        AstrayFate(r, modeOf, id);
      }
    }
  }

  lemma AstrayFate(r: Reload, modeOf: ConnKey -> Mode, id: DeviceID)
    requires Astray(r, modeOf, id)
    ensures var rt, d := r.prev[id], r.desired[id];
      FateOf(r, modeOf, id) == if rt.sig == SigOf(d) then Keep else if rt.params == d.params then Update else Reopen
  {
  }

  lemma NobodyHeld(r: Reload, b: Before, modeOf: ConnKey -> Mode)
    requires Fated(r, b, modeOf)
    ensures Held(r, b, r.desired.Keys, GoneBy(r, modeOf, KeysOfRuntimes(r.prev))) == {}
  {
    forall id | id in r.prev && !Leaves(r, modeOf, id) ensures id in r.desired && !b.fates[id].Fresh? {
      assert Survives(r, r.desired[id].key);
    }
    forall id | id in r.prev ensures r.prev[id].connKey in KeysOfRuntimes(r.prev) {
    }
  }

  lemma PlacedFacts(r: Reload, b: Before, modeOf: ConnKey -> Mode, lost: set<DeviceID>, next: Runtimes,
                    gone: set<DeviceID>)
    requires Placing(r, b, modeOf, lost, next, r.desired.Keys, gone) && Held(r, b, r.desired.Keys, gone) == {}
    ensures AllShaped(next, modeOf) && next.Keys <= r.desired.Keys
    ensures forall id :: id in lost ==> id in next && next[id].mode == Poll
    ensures forall id :: id in next && (b.fates[id].Fresh? || b.fates[id].Reopen?) ==>
      next[id].connKey == r.desired[id].key
  {
    hide Shaped, SigOf, OldFirst, Retimed, FateFits, Held;
    forall id | id in next
      ensures Shaped(next[id], id, modeOf)
      ensures b.fates[id].Fresh? || b.fates[id].Reopen? ==> next[id].connKey == r.desired[id].key
    {
      assert PlacedAt(r, b, modeOf, next, id);
    }
    forall id | id in lost ensures id in next && next[id].mode == Poll {
      assert LostAt(r, b, modeOf, next, lost, r.desired.Keys, gone, id);
      assert PlacedAt(r, b, modeOf, next, id);
      ModeOf(next[id], id, modeOf);
    }
  }

  lemma ModeOf(rt: Runtime, id: DeviceID, modeOf: ConnKey -> Mode)
    requires Shaped(rt, id, modeOf)
    ensures rt.mode == modeOf(rt.connKey)
  {
  }

  lemma KeysAtEnd(r: Reload, b: Before, modeOf: ConnKey -> Mode, s: State, next: Runtimes)
    requires Fated(r, b, modeOf) && Clean(r, modeOf) && Settled(ClosesOf(s.log), next)
    requires Coherent(KeysOfWanted(r.desired)) && AllShaped(next, modeOf) && next.Keys <= r.desired.Keys
    requires forall id :: id in next && (b.fates[id].Fresh? || b.fates[id].Reopen?) ==>
      next[id].connKey == r.desired[id].key
    requires forall id :: id in next && (b.fates[id].Keep? || b.fates[id].Update?) ==>
      id in r.prev && next[id].connKey == r.prev[id].connKey
    ensures KeysWithin(Live(ClosesOf(s.log)), KeysOfRuntimes(next))
  {
    hide Restarts;
    forall id | id in next ensures next[id].connKey == r.desired[id].key {
      assert !Astray(r, modeOf, id);
    }
    forall c | c in Live(ClosesOf(s.log)) ensures c.key in KeysOfRuntimes(next) {
      assert Owns(next, c) && Shaped(next[c.deviceID], c.deviceID, modeOf);
    }
    assert KeysOfRuntimes(next) <= KeysOfWanted(r.desired);
  }

  lemma OthersAtEnd(points: JobPoints, plan: Plan, prev: Runtimes, next: Runtimes, left: set<DeviceID>,
                    lost: set<DeviceID>)
    requires Planned(plan, prev, next, {}, lost) && Fed(points, prev, next, left)
    ensures Planned(plan, next, next, {}, lost) && Fed(points, next, next, {})
  {
    var none: set<DeviceID> := {};
    forall j ensures OnSchedule(plan, next, lost, j) {
      assert OnSchedule(plan, if j in none then prev else next, lost, j);
    }
  }

  /** However the reload went, runtimes, schedule and points are in order at its end, */
  lemma End(r: Reload, b: Before, modeOf: ConnKey -> Mode, s: State, next: Runtimes, keys: set<ConnKey>)
    requires Finished(r, b, modeOf, s, next, keys)
    ensures Running(modeOf, next, s.points, s.plan, s.lost)
    ensures Placing(r, b, modeOf, s.lost, next, r.desired.Keys, GoneBy(r, modeOf, KeysOfRuntimes(r.prev)))
  {
    var gone := GoneBy(r, modeOf, KeysOfRuntimes(r.prev));
    hide Ledger, Planned, Fed, Placing, AllShaped, Fated, GoneBy, Held, Left, Lists;
    NobodyHeld(r, b, modeOf);
    PlacedFacts(r, b, modeOf, s.lost, next, gone);
    OthersAtEnd(s.points, s.plan, r.prev, next, Left(r, b, r.desired.Keys), s.lost);
  }

  /** and if no device went astray, it is at rest. */
  lemma CleanEnd(r: Reload, b: Before, modeOf: ConnKey -> Mode, s: State, next: Runtimes, keys: set<ConnKey>)
    requires Finished(r, b, modeOf, s, next, keys) && Clean(r, modeOf) && Coherent(KeysOfWanted(r.desired))
    ensures AtRest(modeOf, next, s.points, s.plan, s.log, s.lost)
  {
    var gone := GoneBy(r, modeOf, KeysOfRuntimes(r.prev));
    hide Ledger, Planned, Fed, Sound, Clean, Fated, GoneBy, Held, Left, Lists, LostAt, Shaped, SigOf, Settled;
    End(r, b, modeOf, s, next, keys);
    OwnershipIff(r, b, modeOf, s, next, keys);
    NobodyHeld(r, b, modeOf);
    PlacedFacts(r, b, modeOf, s.lost, next, gone);
    LedgerFacts(r, b, s.log, next, r.desired.Keys, gone, keys);
    forall id | id in next && (b.fates[id].Keep? || b.fates[id].Update?)
      ensures id in r.prev && next[id].connKey == r.prev[id].connKey
    {
      assert PlacedAt(r, b, modeOf, next, id);
    }
    KeysAtEnd(r, b, modeOf, s, next);
    ClosedOnce(s.log, next);
  }

  lemma ClosedOnce(log: seq<Call>, rts: Runtimes)
    requires Proper(log) && Settled(ClosesOf(log), rts)
    ensures Legal(log)
  {
    LegalIfClosedOnce(log);
  }
}
