/** What a driver sees of the scheduler: the sequence of its successful opens and its
    closes. */
module DriverCalls {
  import opened DeviceJobs

  datatype Call = Opened(c: Conn) | Closed(c: Conn)

  /** How often each handle opened so far has been closed. */
  type Closes = map<Conn, nat>

  function After(closes: Closes, call: Call): Closes {
    match call
    case Opened(c) => closes[c := 0]
    case Closed(c) => if c in closes then closes[c := closes[c] + 1] else closes
  }

  function ClosesOf(log: seq<Call>): Closes {
    if log == [] then map[] else After(ClosesOf(log[..|log| - 1]), log[|log| - 1])
  }

  ghost function Live(closes: Closes): set<Conn> {
    set c | c in closes && closes[c] == 0
  }

  ghost function KeysOf(live: set<Conn>): set<ConnKey> {
    set c | c in live :: c.key
  }

  /** No two of the keys ask for different configurations of one pooled connection. */
  ghost predicate Coherent(keys: set<ConnKey>) {
    forall k, l :: k in keys && l in keys && PoolOf(k) == PoolOf(l) ==> k == l
  }

  /** A handle is opened only once, and not beside live ones of another configuration of
      its pooled connection; only opened handles are closed. */
  ghost predicate ProperNext(closes: Closes, call: Call) {
    match call
    case Opened(c) => c !in closes && Coherent(KeysOf(Live(closes)) + {c.key})
    case Closed(c) => c in closes
  }

  ghost predicate Proper(log: seq<Call>) {
    forall i :: 0 <= i < |log| ==> ProperNext(ClosesOf(log[..i]), log[i])
  }

  /** A proper log in which, besides, no handle is closed twice. */
  ghost predicate LegalNext(closes: Closes, call: Call) {
    ProperNext(closes, call) && (call.Closed? ==> closes[call.c] == 0)
  }

  ghost predicate Legal(log: seq<Call>) {
    forall i :: 0 <= i < |log| ==> LegalNext(ClosesOf(log[..i]), log[i])
  }

  lemma ProperMore(log: seq<Call>, call: Call)
    requires Proper(log) && ProperNext(ClosesOf(log), call)
    ensures Proper(log + [call])
    ensures ClosesOf(log + [call]) == After(ClosesOf(log), call)
  {
    var log' := log + [call];
    assert log'[..|log|] == log;
    forall i | 0 <= i < |log'| ensures ProperNext(ClosesOf(log'[..i]), log'[i]) {
      assert i < |log| ==> log'[..i] == log[..i];
    }
  }

  lemma LiveAfter(closes: Closes, call: Call)
    requires ProperNext(closes, call)
    ensures call.Opened? ==> Live(After(closes, call)) == Live(closes) + {call.c}
    ensures call.Closed? ==> Live(After(closes, call)) == Live(closes) - {call.c}
  {
  }

  /** The closes of a handle are never forgotten. */
  lemma {:induction false} ClosesGrow(log: seq<Call>, i: nat, c: Conn)
    requires Proper(log) && i <= |log| && c in ClosesOf(log[..i])
    ensures c in ClosesOf(log) && ClosesOf(log[..i])[c] <= ClosesOf(log)[c]
  {
    if i == |log| {
      assert log[..i] == log;
    } else {
      var init := log[..|log| - 1];
      assert init[..i] == log[..i];
      forall j | 0 <= j < |init| ensures ProperNext(ClosesOf(init[..j]), init[j]) {
        assert init[..j] == log[..j];
      }
      ClosesGrow(init, i, c);
      assert ProperNext(ClosesOf(log[..|log| - 1]), log[|log| - 1]);
    }
  }

  lemma LegalIfClosedOnce(log: seq<Call>)
    requires Proper(log) && forall c :: c in ClosesOf(log) ==> ClosesOf(log)[c] <= 1
    ensures Legal(log)
  {
    forall i | 0 <= i < |log| ensures LegalNext(ClosesOf(log[..i]), log[i]) {
      assert ProperNext(ClosesOf(log[..i]), log[i]);
      if log[i].Closed? {
        assert log[..i + 1][..i] == log[..i];
        ClosesGrow(log, i + 1, log[i].c);
      }
    }
  }

  /** The counted handles are those of the log. */
  lemma {:induction false} ClosesOfLog(log: seq<Call>)
    ensures forall c :: c in ClosesOf(log) ==> exists i :: 0 <= i < |log| && log[i].c == c
  {
    if log != [] {
      var init := log[..|log| - 1];
      ClosesOfLog(init);
      forall c | c in ClosesOf(log) ensures exists i :: 0 <= i < |log| && log[i].c == c {
        if c in ClosesOf(init) {
          var i :| 0 <= i < |init| && init[i].c == c;
          assert log[i].c == c;
        } else {
          assert log[|log| - 1].c == c;
        }
      }
    }
  }
}
