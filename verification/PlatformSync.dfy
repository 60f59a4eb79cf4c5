/** Bringing the platform's configuration into the gateway's tables (syncToGateway and
    deleteOrphanSynced of internal/output/smardaten/sync.go over the connection and device
    tables of internal/store/sqlite.go). Converting a controller or a device is a function
    given from outside. Store operations succeed. */
module PlatformSync {
  import opened Wrappers

  datatype ConnID = ConnID(text: string)

  datatype DevID = DevID(text: string)

  datatype Manager = Manager(text: string)

  datatype Content = Content(text: string)

  /** Edge-processing rules of a device's points; a save replaces the points without any. */
  datatype Extra = NoExtra | Extra(text: string)

  datatype Conn = Conn(content: Content, managedBy: Manager)

  datatype Dev = Dev(content: Content, connection: ConnID, managedBy: Manager, extra: Extra)

  /** converted is what the controller's type and configuration make, if they can be converted. */
  datatype Controller = Controller(id: ConnID, enabled: bool, converted: Option<Content>)

  datatype PlatformDevice = PlatformDevice(id: DevID, controller: ConnID, properties: Content)

  datatype Config = Config(controllers: seq<Controller>, devices: seq<PlatformDevice>)

  ghost predicate UniqueIDs(cfg: Config) {
    && (forall i, j :: 0 <= i < j < |cfg.controllers| ==> cfg.controllers[i].id != cfg.controllers[j].id)
    && (forall i, j :: 0 <= i < j < |cfg.devices| ==> cfg.devices[i].id != cfg.devices[j].id)
  }

  // What the tables should hold for the configuration.

  predicate Syncs(c: Controller) {
    c.enabled && c.converted.Some?
  }

  /** The first controller with an ID. */
  function FindController(cs: seq<Controller>, id: ConnID): Option<Controller> {
    if cs == [] then None else if cs[0].id == id then Some(cs[0]) else FindController(cs[1..], id)
  }

  predicate SyncedID(cs: seq<Controller>, id: ConnID) {
    exists i :: 0 <= i < |cs| && cs[i].id == id && Syncs(cs[i])
  }

  function TargetConn(c: Controller, m: Manager): Option<Conn> {
    if Syncs(c) then Some(Conn(c.converted.value, m)) else None
  }

  /** The row of a device, if its controller is synced and it can be converted. */
  function TargetDev(cs: seq<Controller>, d: PlatformDevice, m: Manager,
                     convert: (PlatformDevice, Controller) -> Option<Content>): Option<Dev>
  {
    match FindController(cs, d.controller)
    case None => None
    case Some(c) =>
      if SyncedID(cs, d.controller) && convert(d, c).Some?
      then Some(Dev(convert(d, c).value, c.id, m, NoExtra)) else None
  }

  /** A stored device says what the target says, its processing rules aside. */
  predicate SameDev(cur: Dev, target: Dev) {
    cur.content == target.content && cur.connection == target.connection && cur.managedBy == target.managedBy
  }

  function ConnTarget(cs: seq<Controller>, n: nat, id: ConnID, m: Manager): Option<Conn>
    requires n <= |cs|
  {
    if n == 0 then None
    else if cs[n - 1].id == id && Syncs(cs[n - 1]) then TargetConn(cs[n - 1], m)
    else ConnTarget(cs, n - 1, id, m)
  }

  function Put<R>(cur: Option<R>, target: Option<R>): Option<R> {
    if target.Some? then target else cur
  }

  /** A device row after an upsert: one that says the same is left alone. */
  function PutDev(cur: Option<Dev>, target: Option<Dev>): Option<Dev> {
    if target.None? then cur
    else if cur.Some? && SameDev(cur.value, target.value) then cur
    else target
  }

  /** A device row after the first n devices of the configuration. */
  function DevAfter(cfg: Config, n: nat, id: DevID, m: Manager,
                    convert: (PlatformDevice, Controller) -> Option<Content>, cur: Option<Dev>): Option<Dev>
    requires n <= |cfg.devices|
  {
    if n == 0 then cur
    else
      var before := DevAfter(cfg, n - 1, id, m, convert, cur);
      if cfg.devices[n - 1].id == id
      then PutDev(before, TargetDev(cfg.controllers, cfg.devices[n - 1], m, convert)) else before
  }

  datatype Tables = Tables(conns: map<ConnID, Conn>, devs: map<DevID, Dev>)

  predicate NamesConn(cfg: Config, id: ConnID) {
    exists i :: 0 <= i < |cfg.controllers| && cfg.controllers[i].id == id
  }

  predicate NamesDev(cfg: Config, id: DevID) {
    exists i :: 0 <= i < |cfg.devices| && cfg.devices[i].id == id
  }

  predicate Referenced(devs: map<DevID, Dev>, id: ConnID) {
    exists d :: d in devs && devs[d].connection == id
  }

  /** The tables after the upserts. */
  ghost predicate Upserted(cfg: Config, m: Manager, convert: (PlatformDevice, Controller) -> Option<Content>,
                           t0: Tables, t: Tables)
  {
    && (forall id: ConnID ::
      Get(t.conns, id) == Put(Get(t0.conns, id), ConnTarget(cfg.controllers, |cfg.controllers|, id, m)))
    && (forall id: DevID :: Get(t.devs, id) == DevAfter(cfg, |cfg.devices|, id, m, convert, Get(t0.devs, id)))
  }

  predicate OrphanDev(cfg: Config, m: Manager, id: DevID, d: Dev) {
    d.managedBy == m && !NamesDev(cfg, id)
  }

  predicate OrphanConn(cfg: Config, m: Manager, id: ConnID, c: Conn) {
    c.managedBy == m && !NamesConn(cfg, id)
  }

  function CleanDev(cfg: Config, m: Manager, t0: Tables, id: DevID): Option<Dev> {
    if id in t0.devs && OrphanDev(cfg, m, id, t0.devs[id]) then None else Get(t0.devs, id)
  }

  function CleanConn(cfg: Config, m: Manager, t0: Tables, devs: map<DevID, Dev>, id: ConnID): Option<Conn> {
    if id in t0.conns && OrphanConn(cfg, m, id, t0.conns[id]) && !Referenced(devs, id) then None else Get(t0.conns, id)
  }

  /** The tables after the orphans are deleted: a device goes if it is an orphan, a connection
      if it is an orphan and no remaining device refers to it. */
  ghost predicate Cleaned(cfg: Config, m: Manager, t0: Tables, t: Tables) {
    && (forall id: DevID :: Get(t.devs, id) == CleanDev(cfg, m, t0, id))
    && (forall id: ConnID :: Get(t.conns, id) == CleanConn(cfg, m, t0, t.devs, id))
  }

  /** t is what a sync makes of t0. */
  ghost predicate Synced(cfg: Config, m: Manager, convert: (PlatformDevice, Controller) -> Option<Content>,
                         t0: Tables, t: Tables)
  {
    exists t1 :: Upserted(cfg, m, convert, t0, t1) && Cleaned(cfg, m, t1, t)
  }

  /** Nothing for a sync to do: every target is in place and no orphan can be deleted. */
  ghost predicate InPlace(cfg: Config, m: Manager, convert: (PlatformDevice, Controller) -> Option<Content>,
                          t: Tables)
  {
    && (forall i :: 0 <= i < |cfg.controllers| && Syncs(cfg.controllers[i]) ==>
      Get(t.conns, cfg.controllers[i].id) == TargetConn(cfg.controllers[i], m))
    && (forall i :: 0 <= i < |cfg.devices| ==>
      DevInPlace(TargetDev(cfg.controllers, cfg.devices[i], m, convert), Get(t.devs, cfg.devices[i].id)))
    && (forall id :: id in t.devs ==> !OrphanDev(cfg, m, id, t.devs[id]))
    && (forall id :: id in t.conns && OrphanConn(cfg, m, id, t.conns[id]) ==> Referenced(t.devs, id))
  }

  /** The stored row is the target, but for processing rules kept with it. */
  predicate DevInPlace(target: Option<Dev>, cur: Option<Dev>) {
    target.Some? ==> cur.Some? && cur.value.(extra := NoExtra) == target.value.(extra := NoExtra)
  }

  // The targets of a configuration with unique IDs.

  lemma {:induction false} ConnTargetIs(cs: seq<Controller>, n: nat, i: nat, m: Manager)
    requires i < n <= |cs| && forall a, b :: 0 <= a < b < |cs| ==> cs[a].id != cs[b].id
    ensures ConnTarget(cs, n, cs[i].id, m) == TargetConn(cs[i], m)
  {
    if i == n - 1 {
      if !Syncs(cs[i]) {
        ConnTargetNone(cs, n - 1, cs[i].id, m);
      }
    } else {
      ConnTargetIs(cs, n - 1, i, m);
    }
  }

  lemma {:induction false} ConnTargetNone(cs: seq<Controller>, n: nat, id: ConnID, m: Manager)
    requires n <= |cs| && forall a :: 0 <= a < n ==> cs[a].id != id
    ensures ConnTarget(cs, n, id, m) == None
  {
    if n > 0 {
      ConnTargetNone(cs, n - 1, id, m);
    }
  }

  lemma {:induction false} DevAfterIs(cfg: Config, n: nat, i: nat, m: Manager,
                                      convert: (PlatformDevice, Controller) -> Option<Content>, cur: Option<Dev>)
    requires i < n <= |cfg.devices| && UniqueIDs(cfg)
    ensures DevAfter(cfg, n, cfg.devices[i].id, m, convert, cur)
      == PutDev(cur, TargetDev(cfg.controllers, cfg.devices[i], m, convert))
  {
    if i == n - 1 {
      DevAfterNone(cfg, n - 1, cfg.devices[i].id, m, convert, cur);
    } else {
      DevAfterIs(cfg, n - 1, i, m, convert, cur);
    }
  }

  lemma {:induction false} DevAfterNone(cfg: Config, n: nat, id: DevID, m: Manager,
                                        convert: (PlatformDevice, Controller) -> Option<Content>, cur: Option<Dev>)
    requires n <= |cfg.devices| && forall a :: 0 <= a < n ==> cfg.devices[a].id != id
    ensures DevAfter(cfg, n, id, m, convert, cur) == cur
  {
    if n > 0 {
      DevAfterNone(cfg, n - 1, id, m, convert, cur);
    }
  }

  // What a sync guarantees.

  /** With unique IDs a sync leaves nothing for the next one to do. */
  lemma SyncedInPlace(cfg: Config, m: Manager, convert: (PlatformDevice, Controller) -> Option<Content>,
                      t0: Tables, t: Tables)
    requires UniqueIDs(cfg) && Synced(cfg, m, convert, t0, t)
    ensures InPlace(cfg, m, convert, t)
  {
    var t1 :| Upserted(cfg, m, convert, t0, t1) && Cleaned(cfg, m, t1, t);
    hide TargetDev;
    forall i | 0 <= i < |cfg.controllers| && Syncs(cfg.controllers[i])
      ensures Get(t.conns, cfg.controllers[i].id) == TargetConn(cfg.controllers[i], m)
    {
      var id := cfg.controllers[i].id;
      ConnTargetIs(cfg.controllers, |cfg.controllers|, i, m);
      assert NamesConn(cfg, id);
      assert Get(t1.conns, id) == TargetConn(cfg.controllers[i], m);
    }
    forall i | 0 <= i < |cfg.devices|
      ensures DevInPlace(TargetDev(cfg.controllers, cfg.devices[i], m, convert), Get(t.devs, cfg.devices[i].id))
    {
      var id := cfg.devices[i].id;
      DevAfterIs(cfg, |cfg.devices|, i, m, convert, Get(t0.devs, id));
      assert NamesDev(cfg, id);
      assert Get(t1.devs, id) == DevAfter(cfg, |cfg.devices|, id, m, convert, Get(t0.devs, id));
    }
    forall id | id in t.devs ensures !OrphanDev(cfg, m, id, t.devs[id]) {
      assert Get(t.devs, id).Some?;
    }
    forall id | id in t.conns && OrphanConn(cfg, m, id, t.conns[id]) ensures Referenced(t.devs, id) {
      assert Get(t.conns, id).Some?;
    }
  }

  /** What a sync stores: every controller that is enabled and can be converted has exactly
      its row, and the row of any other in the configuration is as it was. */
  lemma SyncedConns(cfg: Config, m: Manager, convert: (PlatformDevice, Controller) -> Option<Content>,
                    t0: Tables, t: Tables, i: nat)
    requires UniqueIDs(cfg) && Synced(cfg, m, convert, t0, t) && i < |cfg.controllers|
    ensures var c := cfg.controllers[i];
      Get(t.conns, c.id) ==
        if c.enabled && c.converted.Some? then Some(Conn(c.converted.value, m)) else Get(t0.conns, c.id)
  {
    var t1 :| Upserted(cfg, m, convert, t0, t1) && Cleaned(cfg, m, t1, t);
    var id := cfg.controllers[i].id;
    ConnTargetIs(cfg.controllers, |cfg.controllers|, i, m);
    assert NamesConn(cfg, id);
    assert Get(t1.conns, id) == Put(Get(t0.conns, id), ConnTarget(cfg.controllers, |cfg.controllers|, id, m));
    assert Get(t.conns, id) == CleanConn(cfg, m, t1, t.devs, id);
  }

  /** A device whose controller has its row, and that can be converted with it, has its own
      row, with the processing rules it had if nothing else changed and without any if
      something did; the row of any other in the configuration is as it was. */
  lemma SyncedDevs(cfg: Config, m: Manager, convert: (PlatformDevice, Controller) -> Option<Content>,
                   t0: Tables, t: Tables, j: nat)
    requires UniqueIDs(cfg) && Synced(cfg, m, convert, t0, t) && j < |cfg.devices|
    ensures var d := cfg.devices[j];
      (forall i :: 0 <= i < |cfg.controllers| && cfg.controllers[i].id == d.controller ==>
         var c := cfg.controllers[i];
         if c.enabled && c.converted.Some? && convert(d, c).Some? then
           && d.id in t.devs && t.devs[d.id].content == convert(d, c).value
           && t.devs[d.id].connection == c.id && t.devs[d.id].managedBy == m
           && t.devs[d.id].extra ==
                if d.id in t0.devs && t0.devs[d.id].(extra := NoExtra) == t.devs[d.id].(extra := NoExtra)
                then t0.devs[d.id].extra else NoExtra
         else Get(t.devs, d.id) == Get(t0.devs, d.id))
      && ((forall i :: 0 <= i < |cfg.controllers| ==> cfg.controllers[i].id != d.controller) ==>
            Get(t.devs, d.id) == Get(t0.devs, d.id))
  {
    var t1 :| Upserted(cfg, m, convert, t0, t1) && Cleaned(cfg, m, t1, t);
    var d := cfg.devices[j];
    DevAfterIs(cfg, |cfg.devices|, j, m, convert, Get(t0.devs, d.id));
    assert NamesDev(cfg, d.id);
    assert Get(t1.devs, d.id) == DevAfter(cfg, |cfg.devices|, d.id, m, convert, Get(t0.devs, d.id));
    assert Get(t.devs, d.id) == CleanDev(cfg, m, t1, d.id);
    hide Upserted, Cleaned, CleanDev, DevAfter;
    FoundIs(cfg.controllers, d.controller);
  }

  /** With unique IDs the controller found is the one there is. */
  lemma {:induction false} FoundIs(cs: seq<Controller>, id: ConnID)
    requires forall a, b :: 0 <= a < b < |cs| ==> cs[a].id != cs[b].id
    ensures forall i :: 0 <= i < |cs| && cs[i].id == id ==>
      FindController(cs, id) == Some(cs[i]) && (SyncedID(cs, id) <==> Syncs(cs[i]))
    ensures (forall i :: 0 <= i < |cs| ==> cs[i].id != id) ==> FindController(cs, id) == None
  {
    if cs != [] {
      assert forall i :: 0 < i < |cs| ==> cs[i] == cs[1..][i - 1];
      FoundIs(cs[1..], id);
    }
  }

  /** A sync touches no row of another manager that the configuration does not name. */
  lemma OthersUnchanged(cfg: Config, m: Manager, convert: (PlatformDevice, Controller) -> Option<Content>,
                        t0: Tables, t: Tables)
    requires Synced(cfg, m, convert, t0, t)
    ensures forall id: ConnID :: id in t0.conns && t0.conns[id].managedBy != m && !NamesConn(cfg, id) ==>
      Get(t.conns, id) == Get(t0.conns, id)
    ensures forall id: DevID :: id in t0.devs && t0.devs[id].managedBy != m && !NamesDev(cfg, id) ==>
      Get(t.devs, id) == Get(t0.devs, id)
  {
    var t1 :| Upserted(cfg, m, convert, t0, t1) && Cleaned(cfg, m, t1, t);
    forall id: ConnID | id in t0.conns && t0.conns[id].managedBy != m && !NamesConn(cfg, id)
      ensures Get(t.conns, id) == Get(t0.conns, id)
    {
      ConnTargetNone(cfg.controllers, |cfg.controllers|, id, m);
      assert Get(t1.conns, id) == Get(t0.conns, id);
    }
    forall id: DevID | id in t0.devs && t0.devs[id].managedBy != m && !NamesDev(cfg, id)
      ensures Get(t.devs, id) == Get(t0.devs, id)
    {
      DevAfterNone(cfg, |cfg.devices|, id, m, convert, Get(t0.devs, id));
      assert Get(t1.devs, id) == Get(t0.devs, id);
    }
  }

  /** Afterwards every managed device is in the configuration, and a managed connection that
      is not survives if and only if some device still refers to it. */
  lemma OrphansGone(cfg: Config, m: Manager, convert: (PlatformDevice, Controller) -> Option<Content>,
                    t0: Tables, t: Tables)
    requires Synced(cfg, m, convert, t0, t)
    ensures forall id :: id in t.devs && t.devs[id].managedBy == m ==>
      exists i :: 0 <= i < |cfg.devices| && cfg.devices[i].id == id
    ensures forall id :: id in t0.conns && t0.conns[id].managedBy == m ==>
      || (exists i :: 0 <= i < |cfg.controllers| && cfg.controllers[i].id == id)
      || (id in t.conns <==> exists d :: d in t.devs && t.devs[d].connection == id)
  {
    var t1 :| Upserted(cfg, m, convert, t0, t1) && Cleaned(cfg, m, t1, t);
    hide Upserted;
    forall id | id in t.devs && t.devs[id].managedBy == m ensures NamesDev(cfg, id) {
      assert Get(t.devs, id).Some?;
    }
    forall id | id in t0.conns && t0.conns[id].managedBy == m && !NamesConn(cfg, id)
      ensures id in t.conns <==> Referenced(t.devs, id)
    {
      ConnTargetNone(cfg.controllers, |cfg.controllers|, id, m);
      assert Get(t.conns, id).Some? <==> id in t.conns;
    }
  }

  // The operations.

  class Store {
    var conns: map<ConnID, Conn>
    var devs: map<DevID, Dev>
    /** How often a table was written, and consumers were notified. */
    var writes: nat

    constructor (conns: map<ConnID, Conn>, devs: map<DevID, Dev>)
      ensures this.conns == conns && this.devs == devs && writes == 0
    {
      this.conns, this.devs, writes := conns, devs, 0;
    }

    method SaveConnection(id: ConnID, c: Conn)
      modifies this
      ensures conns == old(conns)[id := c] && devs == old(devs) && writes == old(writes) + 1
    {
      conns, writes := conns[id := c], writes + 1;
    }

    method SaveDevice(id: DevID, d: Dev)
      modifies this
      ensures devs == old(devs)[id := d] && conns == old(conns) && writes == old(writes) + 1
    {
      devs, writes := devs[id := d], writes + 1;
    }

    method DeleteDevice(id: DevID)
      modifies this
      ensures devs == old(devs) - {id} && conns == old(conns) && writes == old(writes) + 1
    {
      devs, writes := devs - {id}, writes + 1;
    }

    /** Refused while a device refers to the connection. */
    method DeleteConnection(id: ConnID) returns (ok: bool)
      modifies this
      ensures devs == old(devs) && (ok <==> forall d :: d in devs ==> devs[d].connection != id)
      ensures conns == (if ok then old(conns) - {id} else old(conns)) && writes == old(writes) + if ok then 1 else 0
    {
      ok := !Referenced(devs, id);
      if ok {
        conns, writes := conns - {id}, writes + 1;
      }
    }
  }

  class PlatformOutput {
    const store: Store
    const manager: Manager
    const convert: (PlatformDevice, Controller) -> Option<Content>

    constructor (store: Store, manager: Manager, convert: (PlatformDevice, Controller) -> Option<Content>)
      ensures this.store == store && this.manager == manager && this.convert == convert
    {
      this.store, this.manager, this.convert := store, manager, convert;
    }

    /** The tables become what the sync should make of them, and when everything is in place
        already nothing is written. */
    method SyncToGateway(cfg: Config)
      modifies store
      ensures Synced(cfg, manager, convert, old(Tables(store.conns, store.devs)), Tables(store.conns, store.devs))
      ensures UniqueIDs(cfg) ==> InPlace(cfg, manager, convert, Tables(store.conns, store.devs))
      ensures UniqueIDs(cfg) && old(InPlace(cfg, manager, convert, Tables(store.conns, store.devs))) ==>
        store.writes == old(store.writes)
    {
      ghost var t0 := Tables(store.conns, store.devs);
      hide *;
      SyncControllers(cfg);
      SyncDevices(cfg);
      ghost var t1 := Tables(store.conns, store.devs);
      if UniqueIDs(cfg) && InPlace(cfg, manager, convert, t0) {
        UpsertedInPlace(cfg, manager, convert, t0, t1);
      }
      DeleteOrphans(cfg);
      ghost var t := Tables(store.conns, store.devs);
      if UniqueIDs(cfg) {
        SyncedInPlace(cfg, manager, convert, t0, t);
      }
    }

    method SyncControllers(cfg: Config)
      modifies store
      ensures ConnsUpserted(cfg.controllers, |cfg.controllers|, manager, old(store.conns), store.conns)
      ensures store.devs == old(store.devs)
      ensures UniqueIDs(cfg) ==>
        store.writes == old(store.writes) + ConnsToWrite(cfg, |cfg.controllers|, manager, old(store.conns))
      ensures UniqueIDs(cfg) && ConnsInPlace(cfg, manager, old(store.conns)) ==> store.writes == old(store.writes)
    {
      ghost var c0 := store.conns;
      for n := 0 to |cfg.controllers|
        invariant ConnsUpserted(cfg.controllers, n, manager, c0, store.conns) && store.devs == old(store.devs)
        invariant UniqueIDs(cfg) ==> store.writes == old(store.writes) + ConnsToWrite(cfg, n, manager, c0)
        invariant UniqueIDs(cfg) && ConnsInPlace(cfg, manager, c0) ==> store.writes == old(store.writes)
      {
        var c := cfg.controllers[n];
        ConnsMore(cfg, n, manager, c0, store.conns);
        hide ConnsUpserted, ConnsInPlace, UniqueIDs;
        if Syncs(c) {
          var target := Conn(c.converted.value, manager);
          if Get(store.conns, c.id) != Some(target) {
            store.SaveConnection(c.id, target);
          }
        }
      }
    }

    method SyncDevices(cfg: Config)
      modifies store
      ensures DevsUpserted(cfg, |cfg.devices|, manager, convert, old(store.devs), store.devs)
      ensures store.conns == old(store.conns)
      ensures UniqueIDs(cfg) ==>
        store.writes == old(store.writes) + DevsToWrite(cfg, |cfg.devices|, manager, convert, old(store.devs))
      ensures UniqueIDs(cfg) && DevsInPlace(cfg, manager, convert, old(store.devs)) ==>
        store.writes == old(store.writes)
    {
      ghost var d0 := store.devs;
      for n := 0 to |cfg.devices|
        invariant DevsUpserted(cfg, n, manager, convert, d0, store.devs) && store.conns == old(store.conns)
        invariant UniqueIDs(cfg) ==> store.writes == old(store.writes) + DevsToWrite(cfg, n, manager, convert, d0)
        invariant UniqueIDs(cfg) && DevsInPlace(cfg, manager, convert, d0) ==> store.writes == old(store.writes)
      {
        var d := cfg.devices[n];
        DevsMore(cfg, n, manager, convert, d0, store.devs);
        hide DevsUpserted, DevsInPlace, UniqueIDs, TargetDev;
        var target := TargetDev(cfg.controllers, d, manager, convert);
        if target.Some? && !(d.id in store.devs && SameDev(store.devs[d.id], target.value)) {
          store.SaveDevice(d.id, target.value);
        }
      }
    }

    /** Devices first, then connections: one that is still referred to stays. */
    method DeleteOrphans(cfg: Config)
      modifies store
      ensures Cleaned(cfg, manager, old(Tables(store.conns, store.devs)), Tables(store.conns, store.devs))
      ensures old(NoOrphans(cfg, manager, Tables(store.conns, store.devs))) ==>
        store.writes == old(store.writes) && store.conns == old(store.conns) && store.devs == old(store.devs)
    {
      ghost var t0 := Tables(store.conns, store.devs);
      hide Cleaned, NoOrphans;
      DeleteOrphanDevices(cfg);
      ghost var devs := store.devs;
      DeleteOrphanConns(cfg);
      var none: set<DevID>, nothing: set<ConnID> := {}, {};
      assert forall id :: id !in none;
      assert forall id :: id !in nothing;
    }

    method DeleteOrphanDevices(cfg: Config)
      modifies store
      ensures store.conns == old(store.conns)
      ensures DevsCleaned(cfg, manager, old(store.devs), {}, store.devs)
      ensures DevsClean(cfg, manager, old(store.devs)) ==>
        store.writes == old(store.writes) && store.devs == old(store.devs)
    {
      ghost var d0 := store.devs;
      var todo := set id | id in store.devs && store.devs[id].managedBy == manager;
      while todo != {}
        invariant store.conns == old(store.conns) && DevsCleaned(cfg, manager, d0, todo, store.devs)
        invariant DevsClean(cfg, manager, d0) ==> store.writes == old(store.writes) && store.devs == d0
        invariant forall id :: id in todo ==> id in d0 && d0[id].managedBy == manager
      {
        var id :| id in todo;
        DevCleaned(cfg, manager, d0, todo, id, store.devs);
        hide DevsCleaned;
        if !NamesDev(cfg, id) {
          store.DeleteDevice(id);
        }
        todo := todo - {id};
      }
    }

    method DeleteOrphanConns(cfg: Config)
      modifies store
      ensures store.devs == old(store.devs)
      ensures ConnsCleaned(cfg, manager, store.devs, old(store.conns), {}, store.conns)
      ensures ConnsClean(cfg, manager, store.devs, old(store.conns)) ==>
        store.writes == old(store.writes) && store.conns == old(store.conns)
    {
      ghost var c0 := store.conns;
      var todo := set id | id in store.conns && store.conns[id].managedBy == manager;
      while todo != {}
        invariant store.devs == old(store.devs) && ConnsCleaned(cfg, manager, store.devs, c0, todo, store.conns)
        invariant ConnsClean(cfg, manager, store.devs, c0) ==> store.writes == old(store.writes) && store.conns == c0
        invariant forall id :: id in todo ==> id in c0 && c0[id].managedBy == manager
      {
        var id :| id in todo;
        ConnCleaned(cfg, manager, store.devs, c0, todo, id, store.conns);
        hide ConnsCleaned;
        if !NamesConn(cfg, id) {
          var ok := store.DeleteConnection(id);
        }
        todo := todo - {id};
      }
    }
  }

  /** The connection table after the first n controllers. */
  ghost predicate ConnsUpserted(cs: seq<Controller>, n: nat, m: Manager, c0: map<ConnID, Conn>, c: map<ConnID, Conn>)
    requires n <= |cs|
  {
    forall id: ConnID :: Get(c, id) == Put(Get(c0, id), ConnTarget(cs, n, id, m))
  }

  /** How many of the first n controllers have rows that differ. */
  ghost function ConnsToWrite(cfg: Config, n: nat, m: Manager, c0: map<ConnID, Conn>): nat
    requires n <= |cfg.controllers|
  {
    if n == 0 then 0
    else
      var c := cfg.controllers[n - 1];
      ConnsToWrite(cfg, n - 1, m, c0) +
        if c.enabled && c.converted.Some? && Get(c0, c.id) != Some(Conn(c.converted.value, m)) then 1 else 0
  }

  /** How many of the first n devices have rows that do not say what they should. */
  ghost function DevsToWrite(cfg: Config, n: nat, m: Manager,
                             convert: (PlatformDevice, Controller) -> Option<Content>, d0: map<DevID, Dev>): nat
    requires n <= |cfg.devices|
  {
    if n == 0 then 0
    else
      var d := cfg.devices[n - 1];
      var target := TargetDev(cfg.controllers, d, m, convert);
      DevsToWrite(cfg, n - 1, m, convert, d0) +
        if target.Some? && !(d.id in d0 && SameDev(d0[d.id], target.value)) then 1 else 0
  }

  ghost predicate ConnsInPlace(cfg: Config, m: Manager, c: map<ConnID, Conn>) {
    forall i :: 0 <= i < |cfg.controllers| && Syncs(cfg.controllers[i]) ==>
      Get(c, cfg.controllers[i].id) == TargetConn(cfg.controllers[i], m)
  }

  lemma ConnsMore(cfg: Config, n: nat, m: Manager, c0: map<ConnID, Conn>, c: map<ConnID, Conn>)
    requires n < |cfg.controllers| && ConnsUpserted(cfg.controllers, n, m, c0, c)
    ensures var x := cfg.controllers[n];
      ConnsUpserted(cfg.controllers, n + 1, m, c0, if Syncs(x) then c[x.id := Conn(x.converted.value, m)] else c)
    ensures Syncs(cfg.controllers[n]) && Get(c, cfg.controllers[n].id) == TargetConn(cfg.controllers[n], m) ==>
      ConnsUpserted(cfg.controllers, n + 1, m, c0, c)
    ensures UniqueIDs(cfg) ==> Get(c, cfg.controllers[n].id) == Get(c0, cfg.controllers[n].id)
    ensures UniqueIDs(cfg) && ConnsInPlace(cfg, m, c0) && Syncs(cfg.controllers[n]) ==>
      Get(c, cfg.controllers[n].id) == TargetConn(cfg.controllers[n], m)
  {
    var x := cfg.controllers[n];
    if Syncs(x) && Get(c, x.id) == TargetConn(x, m) {
      assert c[x.id := Conn(x.converted.value, m)] == c;
    }
    if UniqueIDs(cfg) {
      ConnTargetNone(cfg.controllers, n, x.id, m);
      assert Get(c, x.id) == Get(c0, x.id);
    }
  }

  /** The device table after the first n devices. */
  ghost predicate DevsUpserted(cfg: Config, n: nat, m: Manager,
                               convert: (PlatformDevice, Controller) -> Option<Content>,
                               d0: map<DevID, Dev>, d: map<DevID, Dev>)
    requires n <= |cfg.devices|
  {
    forall id: DevID :: Get(d, id) == DevAfter(cfg, n, id, m, convert, Get(d0, id))
  }

  ghost predicate DevsInPlace(cfg: Config, m: Manager, convert: (PlatformDevice, Controller) -> Option<Content>,
                              d: map<DevID, Dev>)
  {
    forall i :: 0 <= i < |cfg.devices| ==>
      DevInPlace(TargetDev(cfg.controllers, cfg.devices[i], m, convert), Get(d, cfg.devices[i].id))
  }

  lemma DevsMore(cfg: Config, n: nat, m: Manager, convert: (PlatformDevice, Controller) -> Option<Content>,
                 d0: map<DevID, Dev>, d: map<DevID, Dev>)
    requires n < |cfg.devices| && DevsUpserted(cfg, n, m, convert, d0, d)
    ensures var id, target := cfg.devices[n].id, TargetDev(cfg.controllers, cfg.devices[n], m, convert);
      var same := id in d && target.Some? && SameDev(d[id], target.value);
      && DevsUpserted(cfg, n + 1, m, convert, d0, if target.Some? && !same then d[id := target.value] else d)
      && (UniqueIDs(cfg) && DevsInPlace(cfg, m, convert, d0) && target.Some? ==> same)
      && (UniqueIDs(cfg) ==> Get(d, id) == Get(d0, id))
  {
    var x := cfg.devices[n];
    var target := TargetDev(cfg.controllers, x, m, convert);
    hide TargetDev;
    if UniqueIDs(cfg) {
      DevAfterNone(cfg, n, x.id, m, convert, Get(d0, x.id));
      assert Get(d, x.id) == Get(d0, x.id);
      assert DevsInPlace(cfg, m, convert, d0) ==> DevInPlace(target, Get(d0, x.id));
    }
    var d' := if target.Some? && !(x.id in d && SameDev(d[x.id], target.value)) then d[x.id := target.value] else d;
    forall id: DevID ensures Get(d', id) == DevAfter(cfg, n + 1, id, m, convert, Get(d0, id)) {
      assert Get(d, id) == DevAfter(cfg, n, id, m, convert, Get(d0, id));
    }
  }

  /** No orphan can be deleted. */
  ghost predicate NoOrphans(cfg: Config, m: Manager, t: Tables) {
    DevsClean(cfg, m, t.devs) && ConnsClean(cfg, m, t.devs, t.conns)
  }

  ghost predicate DevsClean(cfg: Config, m: Manager, d: map<DevID, Dev>) {
    forall id :: id in d ==> !OrphanDev(cfg, m, id, d[id])
  }

  ghost predicate ConnsClean(cfg: Config, m: Manager, d: map<DevID, Dev>, c: map<ConnID, Conn>) {
    forall id :: id in c && OrphanConn(cfg, m, id, c[id]) ==> Referenced(d, id)
  }

  /** Orphaned devices are gone, except those still to do. */
  ghost predicate DevsCleaned(cfg: Config, m: Manager, d0: map<DevID, Dev>, todo: set<DevID>, d: map<DevID, Dev>) {
    forall id: DevID :: Get(d, id) ==
      (if id in d0 && OrphanDev(cfg, m, id, d0[id]) && id !in todo then None else Get(d0, id))
  }

  ghost predicate ConnsCleaned(cfg: Config, m: Manager, devs: map<DevID, Dev>, c0: map<ConnID, Conn>, todo: set<ConnID>,
                               c: map<ConnID, Conn>)
  {
    forall id: ConnID :: Get(c, id) ==
      (if id in c0 && OrphanConn(cfg, m, id, c0[id]) && !Referenced(devs, id) && id !in todo then None else Get(c0, id))
  }

  lemma DevCleaned(cfg: Config, m: Manager, d0: map<DevID, Dev>, todo: set<DevID>, id: DevID, d: map<DevID, Dev>)
    requires DevsCleaned(cfg, m, d0, todo, d) && id in todo && id in d0 && d0[id].managedBy == m
    ensures DevsCleaned(cfg, m, d0, todo - {id}, if NamesDev(cfg, id) then d else d - {id})
    ensures DevsClean(cfg, m, d0) ==> NamesDev(cfg, id)
  {
    hide NamesDev;
    var d' := if NamesDev(cfg, id) then d else d - {id};
    forall j: DevID ensures Get(d', j) ==
      (if j in d0 && OrphanDev(cfg, m, j, d0[j]) && j !in todo - {id} then None else Get(d0, j))
    {
      assert Get(d, j) == if j in d0 && OrphanDev(cfg, m, j, d0[j]) && j !in todo then None else Get(d0, j);
    }
    assert DevsClean(cfg, m, d0) ==> !OrphanDev(cfg, m, id, d0[id]);
  }

  lemma ConnCleaned(cfg: Config, m: Manager, devs: map<DevID, Dev>, c0: map<ConnID, Conn>, todo: set<ConnID>,
                    id: ConnID, c: map<ConnID, Conn>)
    requires ConnsCleaned(cfg, m, devs, c0, todo, c) && id in todo && id in c0 && c0[id].managedBy == m
    ensures ConnsCleaned(cfg, m, devs, c0, todo - {id},
                         if NamesConn(cfg, id) || Referenced(devs, id) then c else c - {id})
    ensures ConnsClean(cfg, m, devs, c0) ==> NamesConn(cfg, id) || Referenced(devs, id)
  {
    hide NamesConn, Referenced;
    var c' := if NamesConn(cfg, id) || Referenced(devs, id) then c else c - {id};
    forall j: ConnID ensures Get(c', j) ==
      (if j in c0 && OrphanConn(cfg, m, j, c0[j]) && !Referenced(devs, j) && j !in todo - {id}
       then None else Get(c0, j))
    {
      assert Get(c, j) ==
        if j in c0 && OrphanConn(cfg, m, j, c0[j]) && !Referenced(devs, j) && j !in todo then None else Get(c0, j);
    }
    assert ConnsClean(cfg, m, devs, c0) && OrphanConn(cfg, m, id, c0[id]) ==> Referenced(devs, id);
  }

  /** Upserting what is in place changes nothing. */
  lemma UpsertedInPlace(cfg: Config, m: Manager, convert: (PlatformDevice, Controller) -> Option<Content>,
                        t0: Tables, t1: Tables)
    requires UniqueIDs(cfg) && InPlace(cfg, m, convert, t0) && Upserted(cfg, m, convert, t0, t1)
    ensures t1 == t0
  {
    hide TargetDev;
    forall id: ConnID ensures Get(t1.conns, id) == Get(t0.conns, id) {
      if i :| 0 <= i < |cfg.controllers| && cfg.controllers[i].id == id {
        ConnTargetIs(cfg.controllers, |cfg.controllers|, i, m);
      } else {
        ConnTargetNone(cfg.controllers, |cfg.controllers|, id, m);
      }
    }
    forall id: DevID ensures Get(t1.devs, id) == Get(t0.devs, id) {
      assert Get(t1.devs, id) == DevAfter(cfg, |cfg.devices|, id, m, convert, Get(t0.devs, id));
      if i :| 0 <= i < |cfg.devices| && cfg.devices[i].id == id {
        DevAfterIs(cfg, |cfg.devices|, i, m, convert, Get(t0.devs, id));
        assert DevInPlace(TargetDev(cfg.controllers, cfg.devices[i], m, convert), Get(t0.devs, id));
      } else {
        DevAfterNone(cfg, |cfg.devices|, id, m, convert, Get(t0.devs, id));
      }
    }
    SameMap(t1.conns, t0.conns);
    SameMap(t1.devs, t0.devs);
  }

  lemma SameMap<K, V>(a: map<K, V>, b: map<K, V>)
    requires forall k :: Get(a, k) == Get(b, k)
    ensures a == b
  {
    forall k ensures k in a <==> k in b {
      assert Get(a, k) == Get(b, k);
    }
    forall k | k in a ensures a[k] == b[k] {
      assert Get(a, k) == Get(b, k);
    }
  }
}
