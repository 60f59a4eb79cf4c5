/** Point filters (passFiltersLocked, passDeadbandLocked and passThreshold of
    internal/processing/engine.go), over exact reals. */
module Filters {
  import opened Wrappers

  datatype Quality = Good | Bad | Uncertain

  /** A point's value: a number, or something that filters let through. */
  datatype Val = Num(v: real) | NotNumeric

  datatype Op = Gt | Ge | Lt | Le | Eq | Ne | Between | Outside

  datatype Filter = Deadband(delta: real) | Threshold(op: Op, value: real, min: real, max: real)
    | QualityFilter(dropBad: bool)

  function Abs(x: real): real {
    if x < 0.0 then -x else x
  }

  predicate PassThreshold(v: real, f: Filter)
    requires f.Threshold?
  {
    match f.op
    case Gt => v > f.value
    case Ge => v >= f.value
    case Lt => v < f.value
    case Le => v <= f.value
    case Eq => v == f.value
    case Ne => v != f.value
    case Between => v >= f.min && v <= f.max
    case Outside => v < f.min || v > f.max
  }

  function Opposite(op: Op): Op {
    match op
    case Gt => Le
    case Le => Gt
    case Ge => Lt
    case Lt => Ge
    case Eq => Ne
    case Ne => Eq
    case Between => Outside
    case Outside => Between
  }

  /** Of two opposite thresholds every number passes exactly one. */
  lemma OppositesSplit(v: real, f: Filter)
    requires f.Threshold?
    ensures PassThreshold(v, f) != PassThreshold(v, f.(op := Opposite(f.op)))
  {
  }

  /** A filter's verdict and the deadband baseline afterwards. */
  datatype Verdict = Verdict(pass: bool, last: Option<real>)

  function PassDeadband(v: real, delta: real, last: Option<real>): Verdict {
    match last
    case None => Verdict(true, Some(v))
    case Some(baseline) =>
      if v != baseline && Abs(v - baseline) >= delta then Verdict(true, Some(v)) else Verdict(false, last)
  }

  function PassOne(f: Filter, x: Val, q: Quality, last: Option<real>): Verdict {
    match f
    case Deadband(delta) => if x.Num? then PassDeadband(x.v, delta, last) else Verdict(true, last)
    case Threshold(_, _, _, _) => Verdict(x.Num? ==> PassThreshold(x.v, f), last)
    case QualityFilter(dropBad) => Verdict(!(dropBad && q != Good), last)
  }

  /** Filters apply in order until one rejects. */
  function PassAll(fs: seq<Filter>, x: Val, q: Quality, last: Option<real>): Verdict
    decreases |fs|
  {
    if fs == [] then Verdict(true, last)
    else
      var r := PassOne(fs[0], x, q, last);
      if r.pass then PassAll(fs[1..], x, q, r.last) else r
  }

  method PassFilters(fs: seq<Filter>, x: Val, q: Quality, last: Option<real>) returns (r: Verdict)
    ensures r == PassAll(fs, x, q, last)
  {
    r := Verdict(true, last);
    for i := 0 to |fs|
      invariant r.pass && PassAll(fs[i..], x, q, r.last) == PassAll(fs, x, q, last)
    {
      var one := PassOne(fs[i], x, q, r.last);
      assert fs[i..][1..] == fs[i + 1..];
      if !one.pass {
        return one;
      }
      r := one;
    }
  }

  /** What each filter alone does: thresholds compare numbers only, quality filters quality
      only, and the deadband passes a first number and then one that is another and at least
      delta from the baseline, which it becomes. */
  lemma OneFilter(f: Filter, x: Val, q: Quality, last: Option<real>)
    ensures var r := PassAll([f], x, q, last);
      match f
      case Threshold(op, value, min, max) =>
        && r.last == last
        && (r.pass <==> x.Num? ==>
              match op
              case Gt => value < x.v
              case Ge => value <= x.v
              case Lt => x.v < value
              case Le => x.v <= value
              case Eq => value == x.v
              case Ne => value != x.v
              case Between => min <= x.v <= max
              case Outside => !(min <= x.v <= max))
      case QualityFilter(dropBad) => r.last == last && (r.pass <==> dropBad ==> q == Good)
      case Deadband(delta) =>
        && (x.NotNumeric? ==> r == Verdict(true, last))
        && (x.Num? ==>
              && r.last == (if r.pass then Some(x.v) else last)
              && (r.pass <==> last.Some? ==>
                    x.v != last.value && (x.v - last.value >= delta || last.value - x.v >= delta)))
  {
    assert [f][1..] == [];
    assert forall l :: PassAll([], x, q, l) == Verdict(true, l);
  }

  // The deadband.

  predicate HasDeadband(fs: seq<Filter>) {
    exists i :: 0 <= i < |fs| && fs[i].Deadband?
  }

  /** Filters without a deadband leave the baseline alone. */
  lemma {:induction false} NoDeadbandKeepsLast(fs: seq<Filter>, x: Val, q: Quality, last: Option<real>)
    requires !HasDeadband(fs)
    ensures PassAll(fs, x, q, last).last == last
    ensures forall l :: PassAll(fs, x, q, l).pass == PassAll(fs, x, q, last).pass
    decreases |fs|
  {
    if fs != [] {
      assert !fs[0].Deadband?;
      forall i | 0 <= i < |fs[1..]| ensures !fs[1..][i].Deadband? {
        assert fs[1..][i] == fs[i + 1];
      }
      NoDeadbandKeepsLast(fs[1..], x, q, last);
    }
  }

  lemma {:induction false} PassConcat(a: seq<Filter>, b: seq<Filter>, x: Val, q: Quality, last: Option<real>)
    ensures PassAll(a + b, x, q, last) ==
      var r := PassAll(a, x, q, last); if r.pass then PassAll(b, x, q, r.last) else r
    decreases |a|
  {
    if a == [] {
      assert a + b == b;
    } else {
      assert (a + b)[1..] == a[1..] + b && (a + b)[0] == a[0];
      var r := PassOne(a[0], x, q, last);
      if r.pass {
        PassConcat(a[1..], b, x, q, r.last);
      }
    }
  }

  datatype Sample = Sample(x: Val, q: Quality)

  /** The baseline after a sequence of samples. */
  function Baseline(fs: seq<Filter>, inputs: seq<Sample>, last: Option<real>): Option<real> {
    if inputs == [] then last
    else
      var s := inputs[|inputs| - 1];
      PassAll(fs, s.x, s.q, Baseline(fs, inputs[..|inputs| - 1], last)).last
  }

  predicate Passed(fs: seq<Filter>, inputs: seq<Sample>, last: Option<real>, n: nat)
    requires n < |inputs|
  {
    PassAll(fs, inputs[n].x, inputs[n].q, Baseline(fs, inputs[..n], last)).pass
  }

  /** The numbers that passed, in order. */
  function PassedValues(fs: seq<Filter>, inputs: seq<Sample>, last: Option<real>): seq<real> {
    if inputs == [] then []
    else
      var n := |inputs| - 1;
      var init := PassedValues(fs, inputs[..n], last);
      if inputs[n].x.Num? && Passed(fs, inputs, last, n) then init + [inputs[n].x.v] else init
  }

  predicate Apart(v: real, w: real, delta: real) {
    v != w && Abs(w - v) >= delta
  }

  /** Filters without a deadband: their verdict on a sample. */
  predicate Accepts(fs: seq<Filter>, s: Sample) {
    PassAll(fs, s.x, s.q, None).pass
  }

  function Around(pre: seq<Filter>, delta: real, post: seq<Filter>): seq<Filter> {
    pre + [Deadband(delta)] + post
  }

  /** One sample through filters around the only deadband. */
  lemma AroundOne(pre: seq<Filter>, delta: real, post: seq<Filter>, s: Sample, last: Option<real>)
    requires !HasDeadband(pre) && !HasDeadband(post)
    ensures var r := PassAll(Around(pre, delta, post), s.x, s.q, last);
      if !Accepts(pre, s) then r == Verdict(false, last)
      else if !s.x.Num? then r.last == last
      else if last.None? || Apart(last.value, s.x.v, delta) then r == Verdict(Accepts(post, s), Some(s.x.v))
      else r == Verdict(false, last)
  {
    var x, q := s.x, s.q;
    PassConcat(pre + [Deadband(delta)], post, x, q, last);
    PassConcat(pre, [Deadband(delta)], x, q, last);
    NoDeadbandKeepsLast(pre, x, q, last);
    NoDeadbandKeepsLast(pre, x, q, None);
    NoDeadbandKeepsLast(post, x, q, None);
    assert [Deadband(delta)][1..] == [];
    var r := PassAll(pre + [Deadband(delta)], x, q, last);
    NoDeadbandKeepsLast(post, x, q, r.last);
  }

  /** Over any inputs, from any baseline, with one deadband placed last: consecutive passed
      numbers differ by at least delta, and the baseline is the last of them. */
  lemma {:induction false} DeadbandSpaces(pre: seq<Filter>, delta: real, inputs: seq<Sample>, last: Option<real>)
    requires !HasDeadband(pre)
    ensures var fs := pre + [Deadband(delta)];
      var vs := PassedValues(fs, inputs, last);
      && (forall i :: 0 < i < |vs| ==> Apart(vs[i - 1], vs[i], delta))
      && Baseline(fs, inputs, last) == (if vs == [] then last else Some(vs[|vs| - 1]))
      && (vs != [] && last.Some? ==> Apart(last.value, vs[0], delta))
  {
    var fs := pre + [Deadband(delta)];
    if inputs != [] {
      var n := |inputs| - 1;
      var s, before := inputs[n], Baseline(fs, inputs[..n], last);
      DeadbandSpaces(pre, delta, inputs[..n], last);
      AroundOne(pre, delta, [], s, before);
      assert Around(pre, delta, []) == fs;
      hide PassAll, HasDeadband, Around;
    }
  }

  /** Every number that reaches the deadband is within delta of the baseline afterwards:
      strictly if delta > 0, and equal to it if delta is 0. */
  lemma DeadbandBound(pre: seq<Filter>, delta: real, s: Sample, before: Option<real>)
    requires !HasDeadband(pre) && delta >= 0.0 && s.x.Num? && PassAll(pre, s.x, s.q, before).pass
    ensures var r := PassAll(pre + [Deadband(delta)], s.x, s.q, before);
      && r.last.Some? && (delta > 0.0 ==> Abs(s.x.v - r.last.value) < delta)
      && (delta == 0.0 ==> s.x.v == r.last.value)
  {
    AroundOne(pre, delta, [], s, before);
    assert Around(pre, delta, []) == pre + [Deadband(delta)];
    NoDeadbandKeepsLast(pre, s.x, s.q, before);
  }

  /** All deadbands of a rule share one baseline, so a rule with two passes no number: the
      second compares the number with itself. */
  lemma TwoDeadbandsPassNothing(a: seq<Filter>, d1: real, b: seq<Filter>, d2: real, c: seq<Filter>,
                                v: real, q: Quality, last: Option<real>)
    requires !HasDeadband(b)
    ensures !PassAll(a + [Deadband(d1)] + b + [Deadband(d2)] + c, Num(v), q, last).pass
  {
    var x := Num(v);
    PassConcat(a + [Deadband(d1)] + b + [Deadband(d2)], c, x, q, last);
    PassConcat(a + [Deadband(d1)] + b, [Deadband(d2)], x, q, last);
    PassConcat(a + [Deadband(d1)], b, x, q, last);
    PassConcat(a, [Deadband(d1)], x, q, last);
    var r1 := PassAll(a, x, q, last);
    if r1.pass {
      OneDeadband(d1, v, q, r1.last);
      var r2 := PassAll([Deadband(d1)], x, q, r1.last);
      if r2.pass {
        NoDeadbandKeepsLast(b, x, q, r2.last);
        OneDeadband(d2, v, q, r2.last);
      }
    }
  }

  lemma OneDeadband(delta: real, v: real, q: Quality, last: Option<real>)
    ensures var r := PassAll([Deadband(delta)], Num(v), q, last);
      (r.pass ==> r.last == Some(v)) && (last == Some(v) ==> !r.pass)
  {
    assert [Deadband(delta)][1..] == [];
  }

  // Filters after the deadband.

  ghost predicate DeltaApart(vs: seq<real>, delta: real) {
    forall i :: 0 < i < |vs| ==> Apart(vs[i - 1], vs[i], delta)
  }

  /** Whatever comes in and whatever the baseline was, the numbers that pass are delta apart. */
  ghost predicate AlwaysSpaced(pre: seq<Filter>, delta: real, post: seq<Filter>) {
    forall inputs: seq<Sample>, last: Option<real> ::
      DeltaApart(PassedValues(Around(pre, delta, post), inputs, last), delta)
  }

  /** After number a has passed, number b becomes the baseline without passing. */
  predicate Overrides(pre: seq<Filter>, delta: real, post: seq<Filter>, a: Sample, b: Sample) {
    && a.x.Num? && b.x.Num? && Apart(a.x.v, b.x.v, delta)
    && Accepts(pre, a) && Accepts(pre, b) && Accepts(post, a) && !Accepts(post, b)
  }

  /** With other filters around the deadband, passed numbers are always delta apart if and
      only if no number that the later filters reject can override one that passed. */
  lemma DeadbandSpacesIff(pre: seq<Filter>, delta: real, post: seq<Filter>)
    requires !HasDeadband(pre) && !HasDeadband(post)
    ensures AlwaysSpaced(pre, delta, post) <==> forall a, b :: !Overrides(pre, delta, post, a, b)
  {
    if forall a, b :: !Overrides(pre, delta, post, a, b) {
      forall inputs: seq<Sample>, last: Option<real>
        ensures DeltaApart(PassedValues(Around(pre, delta, post), inputs, last), delta)
      {
        NoOverrideSpaces(pre, delta, post, inputs, last);
      }
    } else {
      var a, b :| Overrides(pre, delta, post, a, b);
      OverridePassesTwice(pre, delta, post, a, b);
      var vs := [a.x.v, a.x.v];
      assert !Apart(vs[0], vs[1], delta);
    }
  }

  lemma {:induction false} NoOverrideSpaces(pre: seq<Filter>, delta: real, post: seq<Filter>, inputs: seq<Sample>,
                                            last: Option<real>)
    requires !HasDeadband(pre) && !HasDeadband(post) && forall a, b :: !Overrides(pre, delta, post, a, b)
    ensures var fs := Around(pre, delta, post);
      var vs := PassedValues(fs, inputs, last);
      && DeltaApart(vs, delta)
      && (vs != [] ==> exists a :: a in inputs && a.x == Num(vs[|vs| - 1]) && Accepts(pre, a) && Accepts(post, a))
      && (vs != [] ==> Baseline(fs, inputs, last) == Some(vs[|vs| - 1]))
  {
    var fs := Around(pre, delta, post);
    if inputs != [] {
      var n := |inputs| - 1;
      var s, before := inputs[n], Baseline(fs, inputs[..n], last);
      NoOverrideSpaces(pre, delta, post, inputs[..n], last);
      AroundOne(pre, delta, post, s, before);
      hide PassAll, HasDeadband, Around;
      var vs := PassedValues(fs, inputs[..n], last);
      if vs != [] {
        var a :| a in inputs[..n] && a.x == Num(vs[|vs| - 1]) && Accepts(pre, a) && Accepts(post, a);
        assert !Overrides(pre, delta, post, a, s);
      }
    }
  }

  lemma OverridePassesTwice(pre: seq<Filter>, delta: real, post: seq<Filter>, a: Sample, b: Sample)
    requires !HasDeadband(pre) && !HasDeadband(post) && Overrides(pre, delta, post, a, b)
    ensures PassedValues(Around(pre, delta, post), [a, b, a], None) == [a.x.v, a.x.v]
  {
    var fs := Around(pre, delta, post);
    AroundOne(pre, delta, post, a, None);
    AroundOne(pre, delta, post, b, Some(a.x.v));
    AroundOne(pre, delta, post, a, Some(b.x.v));
    hide PassAll, HasDeadband, Around;
    assert [a, b, a][..2] == [a, b] && [a, b][..1] == [a] && [a][..0] == [];
    assert Baseline(fs, [a], None) == Some(a.x.v) && Baseline(fs, [a, b], None) == Some(b.x.v);
    assert PassedValues(fs, [a], None) == [a.x.v];
    assert PassedValues(fs, [a, b], None) == [a.x.v];
  }

  /** A threshold after the deadband fails: 20 is rejected but becomes the baseline, so the
      second 5 passes like the first. */
  lemma DeadbandNotLast()
    ensures var post := [Threshold(Lt, 10.0, 0.0, 0.0)];
      var five, twenty := Sample(Num(5.0), Good), Sample(Num(20.0), Good);
      && !AlwaysSpaced([], 1.0, post)
      && PassedValues(Around([], 1.0, post), [five, twenty, five], None) == [5.0, 5.0]
  {
    var post := [Threshold(Lt, 10.0, 0.0, 0.0)];
    var five, twenty := Sample(Num(5.0), Good), Sample(Num(20.0), Good);
    assert post[1..] == [];
    assert Overrides([], 1.0, post, five, twenty);
    OverridePassesTwice([], 1.0, post, five, twenty);
    DeadbandSpacesIff([], 1.0, post);
  }
}
