/** The desired devices of a configuration (buildDesired of internal/core/scheduler.go). */
module DesiredPlan {
  import opened DeviceJobs
  import opened DriverCalls
  import opened PollPlan
  import opened ReconcileSpec
  import opened ReconcileSteps
  import opened ReloadProgress
  import opened ReloadTheorems
  import S = Scheduler

  datatype Device = Device(id: DeviceID, enabled: bool, connectionID: ConnID, params: Params, points: Points,
                           intervalMs: int)

  datatype Connection = Connection(driver: DriverName, config: ConnConfig)

  /** Enabled, with points, and its connection can be read. */
  predicate Collectable(d: Device, conns: map<ConnID, Connection>) {
    d.enabled && |d.points.list| > 0 && d.connectionID in conns
  }

  function DesiredOf(d: Device, conns: map<ConnID, Connection>): Desired
    requires d.connectionID in conns
  {
    var c := conns[d.connectionID];
    Desired(ConnKey(d.connectionID, c.driver, c.config), d.params, d.intervalMs, d.points)
  }

  /** The stored device's own connection, parameters, interval and points. */
  predicate Wants(w: Desired, d: Device, conns: map<ConnID, Connection>) {
    && d.connectionID in conns
    && w.key.connectionID == d.connectionID
    && w.key.driver == conns[d.connectionID].driver && w.key.config == conns[d.connectionID].config
    && w.params == d.params && w.intervalMs == d.intervalMs && w.points == d.points
  }

  /** conns are the connections as the store returns them, each read once and cached;
      offline lists the devices marked offline because theirs cannot be read. */
  method BuildDesired(devices: seq<Device>, conns: map<ConnID, Connection>)
      returns (desired: Wanted, offline: set<DeviceID>)
    requires forall i, j :: 0 <= i < j < |devices| ==> devices[i].id != devices[j].id
    ensures forall i :: 0 <= i < |devices| ==>
      (devices[i].id in desired <==>
        devices[i].enabled && |devices[i].points.list| > 0 && devices[i].connectionID in conns)
    ensures forall i :: 0 <= i < |devices| && devices[i].id in desired ==>
      Wants(desired[devices[i].id], devices[i], conns)
    ensures forall id :: id in desired ==> exists i :: 0 <= i < |devices| && devices[i].id == id
    ensures forall i :: 0 <= i < |devices| ==>
      (devices[i].id in offline <==>
        devices[i].enabled && |devices[i].points.list| > 0 && devices[i].connectionID !in conns)
    ensures Coherent(KeysOfWanted(desired))
  {
    desired, offline := map[], {};
    for n := 0 to |devices|
      invariant forall id :: id in desired || id in offline ==> exists i :: 0 <= i < n && devices[i].id == id
      invariant forall i :: 0 <= i < n ==> (devices[i].id in desired <==> Collectable(devices[i], conns))
      invariant forall i :: 0 <= i < n && devices[i].id in desired ==> Wants(desired[devices[i].id], devices[i], conns)
      invariant forall i :: 0 <= i < n ==>
        (devices[i].id in offline <==>
          devices[i].enabled && |devices[i].points.list| > 0 && devices[i].connectionID !in conns)
    {
      var d := devices[n];
      if !d.enabled || |d.points.list| == 0 {
        continue;
      }
      if d.connectionID !in conns {
        offline := offline + {d.id};
        continue;
      }
      desired := desired[d.id := DesiredOf(d, conns)];
    }
    forall k | k in KeysOfWanted(desired)
      ensures k.connectionID in conns
        && k == ConnKey(k.connectionID, conns[k.connectionID].driver, conns[k.connectionID].config)
    {
      var id :| id in desired && desired[id].key == k;
      var i :| 0 <= i < |devices| && devices[i].id == id;
    }
  }

  /** Two configurations ask for a device on the same connection if and only if its ID,
      driver and configuration are equal, and for the same spec if and only if the
      parameters, interval and points are. */
  lemma SameWantedIff(w: Desired, d: Device, conns: map<ConnID, Connection>,
                      w': Desired, d': Device, conns': map<ConnID, Connection>)
    requires Wants(w, d, conns) && Wants(w', d', conns')
    ensures w.key == w'.key <==>
      d.connectionID == d'.connectionID && conns[d.connectionID] == conns'[d'.connectionID]
    ensures SigOf(w) == SigOf(w') <==>
      d.params == d'.params && d.intervalMs == d'.intervalMs && d.points == d'.points
  {
  }

  /** The runtime collects what the stored device asks for, on a handle opened with the
      stored connection, or goes on with the handle it had since it went astray. */
  ghost predicate Serves(rt: Runtime, d: Device, conns: map<ConnID, Connection>, points: JobPoints, stray: bool) {
    && Collectable(d, conns)
    && rt.deviceID == rt.conn.deviceID == d.id && rt.conn.params == d.params && rt.intervalMs == d.intervalMs
    && (rt.job != null ==> rt.job.conn == rt.conn && rt.job in points && points[rt.job] == d.points)
    && (stray ||
         (rt.conn.key.connectionID == d.connectionID && rt.conn.key.driver == conns[d.connectionID].driver
          && rt.conn.key.config == conns[d.connectionID].config))
  }

  ghost predicate ServesOne(rt: Runtime, devices: seq<Device>, conns: map<ConnID, Connection>, points: JobPoints,
                            stray: bool)
  {
    exists i :: 0 <= i < |devices| && Serves(rt, devices[i], conns, points, stray)
  }

  /** reload: build the desired devices from the stored ones and apply them. After a reload
      that ends, each runtime serves its stored device. */
  method Reconfigure(s: S.Scheduler, devices: seq<Device>, conns: map<ConnID, Connection>,
                     opens: set<DeviceID>, registers: set<DeviceID>, now: int)
      returns (crashed: bool, ghost desired: Wanted)
    requires s.Valid() && forall i, j :: 0 <= i < j < |devices| ==> devices[i].id != devices[j].id
    modifies s
    ensures var r := Reload(old(s.runtimes), desired, opens, registers, now);
      && (crashed <==> exists id :: Stuck(r, s.modeOf, id))
      && (Clean(r, s.modeOf) ==> s.Valid())
      && (!crashed ==> forall id :: id in s.runtimes ==>
            ServesOne(s.runtimes[id], devices, conns, s.points, Astray(r, s.modeOf, id)))
  {
    var wanted, offline := BuildDesired(devices, conns);
    desired := wanted;
    ghost var r := Reload(s.runtimes, wanted, opens, registers, now);
    ghost var closes, lost := ClosesOf(s.log), s.lost;
    hide *;
    ghost var order;
    crashed, order := s.Apply(wanted, opens, registers, now);
    if !crashed {
      ghost var b := Before(closes, lost, FatesOf(r, s.modeOf), order);
      forall id | id in s.runtimes
        ensures ServesOne(s.runtimes[id], devices, conns, s.points, Astray(r, s.modeOf, id))
      {
        RunsAsAsked(r, b, s.modeOf, s.runtimes, s.points, s.plan, s.lost, id);
        var i :| 0 <= i < |devices| && devices[i].id == id;
        AskedServes(s.runtimes[id], wanted[id], devices[i], conns, s.points, s.plan, Astray(r, s.modeOf, id));
      }
    }
  }

  lemma AskedServes(rt: Runtime, w: Desired, d: Device, conns: map<ConnID, Connection>, points: JobPoints, plan: Plan,
                    stray: bool)
    requires AsAsked(rt, w, points, plan, d.id) && Wants(w, d, conns) && Collectable(d, conns)
    requires stray || rt.conn.key == w.key
    ensures Serves(rt, d, conns, points, stray)
  {
  }
}
