/** The connection pool of a driver (acquire and release of
    internal/driver/modbus/modbus.go): handles on one connection ID share one
    physical connection, counted by reference. */
module ConnPool {
  import opened DeviceJobs
  import opened DriverCalls

  /** A physical connection, shared by the handles of one connection ID. */
  class SharedConn {
    const key: PoolKey
    const config: ConnConfig  // what its handler was built from
    var refCount: int
    var closed: bool

    constructor (key: PoolKey, config: ConnConfig)
      ensures this.key == key && this.config == config && refCount == 1 && !closed
    {
      this.key, this.config := key, config;
      refCount, closed := 1, false;
    }
  }

  /** The live handles on a pooled connection. */
  ghost function Users(live: set<Conn>, k: PoolKey): set<Conn> {
    set c | c in live && PoolOf(c.key) == k
  }

  lemma UsersMore(live: set<Conn>, c: Conn)
    requires c !in live
    ensures forall k :: |Users(live + {c}, k)| == |Users(live, k)| + if k == PoolOf(c.key) then 1 else 0
  {
    forall k ensures |Users(live + {c}, k)| == |Users(live, k)| + if k == PoolOf(c.key) then 1 else 0 {
      if k == PoolOf(c.key) {
        assert Users(live + {c}, k) == Users(live, k) + {c};
      } else {
        assert Users(live + {c}, k) == Users(live, k);
      }
    }
  }

  class Pool {
    var pool: map<PoolKey, SharedConn>
    var attached: map<Conn, SharedConn>  // the shared connection each handle points to
    ghost var shareds: set<SharedConn>  // every connection this pool has built

    constructor ()
      ensures Represents({}) && shareds == {}
    {
      pool, attached := map[], map[];
      shareds := {};
    }

    /** The pool is what the live handles need: each connection open, built from the
        configuration its users asked for, and counted once per user. */
    ghost predicate Represents(live: set<Conn>)
      reads this, shareds
    {
      Counts(live, {}) && Serves(live)
    }

    /** Pooled connections are open and counted once per user, those of extra once more. */
    ghost predicate Counts(live: set<Conn>, extra: set<PoolKey>)
      reads this, shareds
    {
      && pool.Values <= shareds
      && (forall k :: k in pool ==> pool[k].key == k && !pool[k].closed && 0 < pool[k].refCount)
      && (forall k :: k in pool ==> pool[k].refCount == |Users(live, k)| + if k in extra then 1 else 0)
    }

    ghost predicate Serves(live: set<Conn>)
      reads this
    {
      forall c :: c in live ==>
        && c in attached && PoolOf(c.key) in pool && pool[PoolOf(c.key)] == attached[c]
        && attached[c].config == c.key.config
    }

    lemma CountsMore(live: set<Conn>, c: Conn)
      requires c !in live && Counts(live, {PoolOf(c.key)})
      ensures Counts(live + {c}, {})
    {
      UsersMore(live, c);
    }

    /** Reuse the pooled connection of the key, or build and pool a new one. */
    method Acquire(k: ConnKey, connects: bool) returns (shared: SharedConn?)
      requires pool.Values <= shareds
      modifies this`pool, this`shareds, shareds
      ensures shareds == old(shareds) + if shared == null then {} else {shared}
      ensures shared == null <==> !connects && PoolOf(k) !in old(pool)
      ensures shared == null ==> pool == old(pool)
      ensures shared != null ==> pool == old(pool)[PoolOf(k) := shared]
      ensures PoolOf(k) in old(pool) ==>
        shared == old(pool)[PoolOf(k)] && shared.refCount == old(pool[PoolOf(k)].refCount) + 1
      ensures shared != null && PoolOf(k) !in old(pool) ==>
        fresh(shared) && shared.key == PoolOf(k) && shared.config == k.config && shared.refCount == 1 && !shared.closed
      ensures forall s :: s in old(shareds) ==>
        s.closed == old(s.closed) && (s != shared ==> s.refCount == old(s.refCount))
    {
      if PoolOf(k) in pool {
        shared := pool[PoolOf(k)];
        shared.refCount := shared.refCount + 1;
      } else if !connects {
        return null;
      } else {
        shared := new SharedConn(PoolOf(k), k.config);
        pool := pool[PoolOf(k) := shared];
        shareds := shareds + {shared};
      }
    }

    /** Drop one reference; the last one closes the connection and leaves the pool. */
    method Release(shared: SharedConn)
      requires shared in shareds
      modifies this`pool, shared
      ensures shared.refCount == old(shared.refCount) - 1
      ensures shared.closed == (old(shared.closed) || shared.refCount <= 0)
      ensures pool == if shared.refCount > 0 then old(pool) else old(pool) - {shared.key}
    {
      shared.refCount := shared.refCount - 1;
      if shared.refCount > 0 {
        return;
      }
      pool := pool - {shared.key};
      shared.closed := true;
    }

    /** The pooled connection was built from the configuration now asked for. */
    lemma PooledConfig(live: set<Conn>, k: ConnKey)
      requires Represents(live) && Coherent(KeysOf(live) + {k}) && PoolOf(k) in pool
      ensures pool[PoolOf(k)].config == k.config
    {
      assert Users(live, PoolOf(k)) != {};
      var c :| c in Users(live, PoolOf(k));
      assert c.key in KeysOf(live);
    }

    /** Acquire, as the live handles see it: they are served as before, and the
        connection acquired is counted once more than it has users. */
    method Lease(k: ConnKey, ghost live: set<Conn>) returns (shared: SharedConn)
      requires Represents(live) && Coherent(KeysOf(live) + {k})
      modifies this`pool, this`shareds, shareds
      ensures fresh(shareds - old(shareds)) && old(shareds) <= shareds
      ensures Counts(live, {PoolOf(k)}) && Serves(live)
      ensures PoolOf(k) in pool && pool[PoolOf(k)] == shared && shared.config == k.config
    {
      if PoolOf(k) in pool { PooledConfig(live, k); }
      assert PoolOf(k) !in pool ==> Users(live, PoolOf(k)) == {};
      shared := Acquire(k, true);
    }

    method Open(c: Conn, ghost live: set<Conn>)
      requires Represents(live) && c !in live && Coherent(KeysOf(live) + {c.key})
      modifies this, shareds
      ensures fresh(shareds - old(shareds)) && old(shareds) <= shareds
      ensures Represents(live + {c})
    {
      var shared := Lease(c.key, live);
      attached := attached[c := shared];
      CountsMore(live, c);
    }

    method Close(c: Conn, ghost live: set<Conn>)
      requires Represents(live) && c in live
      modifies this, shareds
      ensures shareds == old(shareds)
      ensures Represents(live - {c})
    {
      Release(attached[c]);
      UsersMore(live - {c}, c);
      assert live - {c} + {c} == live;
    }

    method Answer(call: Call, ghost closes: Closes)
      requires LegalNext(closes, call) && Represents(Live(closes))
      modifies this, shareds
      ensures fresh(shareds - old(shareds)) && old(shareds) <= shareds
      ensures Represents(Live(After(closes, call)))
    {
      LiveAfter(closes, call);
      match call
      case Opened(c) => Open(c, Live(closes));
      case Closed(c) => Close(c, Live(closes));
    }
  }

  /** A driver serves any legal sequence of calls: after each, every live handle is on
      an open connection built from its own configuration, and every pooled connection
      counts exactly its live handles. */
  method Serve(log: seq<Call>) returns (driver: Pool)
    requires Legal(log)
    ensures driver.Represents(Live(ClosesOf(log)))
  {
    driver := new Pool();
    assert Live(ClosesOf([])) == {};
    for i := 0 to |log|
      invariant fresh(driver) && fresh(driver.shareds)
      invariant driver.Represents(Live(ClosesOf(log[..i])))
    {
      assert log[..i + 1][..i] == log[..i];
      driver.Answer(log[i], ClosesOf(log[..i]));
    }
    assert log[..|log|] == log;
  }
}
