/** One Mamdani inference pass, as pure functions of the engine's
    configuration and its two inputs: rule firing (min), aggregation per
    consequent (max), clipped output sets, and the discretised centroid. */
module Inference {
  import opened FuzzyLogic

  /** (input-1 set, input-2 set) => output set. */
  datatype Rule = Rule(in1: string, in2: string, out: string)

  /** What an engine is configured with: the two input variables, the output
      variable (with the order in which its sets are enumerated) and the rules. */
  datatype Engine = Engine(in1: Ling, in2: Ling, out: Ling, outOrder: seq<string>, rules: seq<Rule>)

  /** Microseconds per second: the delay input arrives in seconds and the
      output universe is in microseconds. */
  const MICROS: real := 1000000.0

  /** The centroid scan's step over the output universe. */
  const STEP: int := 1

  /** Both antecedent memberships of rule `r` are defined at (x1, x2). */
  predicate RuleDefined(e: Engine, r: Rule, x1: real, x2: real)
  {
    && !DividesByZero(e.in1.lo, e.in1.hi, Lookup(e.in1.sets, r.in1), x1)
    && !DividesByZero(e.in2.lo, e.in2.hi, Lookup(e.in2.sets, r.in2), x2)
  }

  predicate RulesDefined(e: Engine, rules: seq<Rule>, x1: real, x2: real)
  {
    forall r :: r in rules ==> RuleDefined(e, r, x1, x2)
  }

  /** No integer sample point of [lo, hi) hits a zero-width falling slope of `t`. */
  predicate ScanSafe(lo: int, hi: int, t: Triangle)
  {
    !(t.b == t.c && t.a <= t.b && lo <= t.b < hi)
  }

  predicate OutputScanSafe(out: Ling, names: seq<string>)
  {
    forall s :: s in names ==> ScanSafe(out.lo, out.hi, Lookup(out.sets, s))
  }

  /** Every membership an evaluation at (x1, x2), x2 already in microseconds, computes is defined. */
  predicate Evaluable(e: Engine, x1: real, x2: real)
  {
    RulesDefined(e, e.rules, x1, x2) && OutputScanSafe(e.out, e.outOrder)
  }

  /** A configuration free of every division by zero, whatever the inputs:
      rules name defined sets, all falling slopes have positive width, and
      the enumeration order lists exactly the output sets. */
  predicate WellConfigured(e: Engine)
  {
    && Sharp(e.in1) && Sharp(e.in2) && Sharp(e.out)
    && (forall r :: r in e.rules ==> r.in1 in e.in1.sets && r.in2 in e.in2.sets)
    && (forall s :: s in e.outOrder ==> s in e.out.sets)
    && (forall s :: s in e.out.sets ==> s in e.outOrder)
  }

  lemma WellConfiguredIsEvaluable(e: Engine, x1: real, x2: real)
    requires WellConfigured(e)
    ensures Evaluable(e, x1, x2)
  {
    forall s | s in e.outOrder
      ensures ScanSafe(e.out.lo, e.out.hi, Lookup(e.out.sets, s))
    {
      assert s in e.out.sets;
    }
  }

  /** Firing strength of one rule: fuzzy AND of its two antecedents. */
  function Strength(e: Engine, r: Rule, x1: real, x2: real): (u: real)
    requires RuleDefined(e, r, x1, x2)
    ensures 0.0 <= u <= 1.0
    ensures u <= Degree(e.in1, r.in1, x1) && u <= Degree(e.in2, r.in2, x2)
    ensures u == Degree(e.in1, r.in1, x1) || u == Degree(e.in2, r.in2, x2)
  {
    OpAnd(Degree(e.in1, r.in1, x1), Degree(e.in2, r.in2, x2))
  }

  /** The accumulator of `c` after firing `rules` in order, starting from
      `u0`: each rule whose consequent is `c` raises it to the rule's strength. */
  function AccumulateFrom(e: Engine, rules: seq<Rule>, x1: real, x2: real, c: string, u0: real): (u: real)
    requires RulesDefined(e, rules, x1, x2)
    ensures u >= u0
    ensures u0 <= 1.0 ==> u <= 1.0
    decreases |rules|
  {
    if rules == [] then u0
    else
      var last := rules[|rules| - 1];
      var before := AccumulateFrom(e, rules[..|rules| - 1], x1, x2, c, u0);
      if last.out == c then OpAgg(Strength(e, last, x1, x2), before) else before
  }

  /** The accumulator of output set `c` after the reset to 0 and the rule pass. */
  function Aggregate(e: Engine, rules: seq<Rule>, x1: real, x2: real, c: string): (u: real)
    requires RulesDefined(e, rules, x1, x2)
    ensures 0.0 <= u <= 1.0
  {
    AccumulateFrom(e, rules, x1, x2, c, 0.0)
  }

  /** The accumulator of every output set after the rule pass. */
  function Accumulators(e: Engine, x1: real, x2: real): (acc: map<string, real>)
    requires RulesDefined(e, e.rules, x1, x2)
    ensures acc.Keys == e.out.sets.Keys
    ensures forall c :: c in acc ==> 0.0 <= acc[c] <= 1.0
  {
    map c | c in e.out.sets :: Aggregate(e, e.rules, x1, x2, c)
  }

  /** Output set `s` at sample point `i`, clipped at its accumulator. */
  function Clipped(out: Ling, acc: map<string, real>, s: string, i: int): real
    requires out.lo <= i < out.hi && ScanSafe(out.lo, out.hi, Lookup(out.sets, s))
  {
    Min(Get(acc, s), Degree(out, s, i as real))
  }

  /** The aggregated output at sample point `i`: the largest clipped set, from 0. */
  function Sample(out: Ling, acc: map<string, real>, names: seq<string>, i: int): (u: real)
    requires out.lo <= i < out.hi && OutputScanSafe(out, names)
    ensures 0.0 <= u <= 1.0
    decreases |names|
  {
    if names == [] then 0.0
    else
      var prefix := names[..|names| - 1];
      OpAgg(Sample(out, acc, prefix, i), Clipped(out, acc, names[|names| - 1], i))
  }

  /** The samples at lo, lo + 1, ..., k - 1, in scan order. */
  function Scan(out: Ling, acc: map<string, real>, names: seq<string>, k: int): (us: seq<real>)
    requires (k <= out.hi || k <= out.lo) && OutputScanSafe(out, names)
    ensures |us| == if k <= out.lo then 0 else k - out.lo
    decreases k - out.lo
  {
    if k <= out.lo then [] else Scan(out, acc, names, k - 1) + [Sample(out, acc, names, k - 1)]
  }

  /** Every sample of the scan is at least 0. */
  lemma {:induction false} ScanNonNegative(out: Ling, acc: map<string, real>, names: seq<string>, k: int)
    requires (k <= out.hi || k <= out.lo) && OutputScanSafe(out, names)
    ensures NonNegative(Scan(out, acc, names, k))
    decreases k - out.lo
  {
    if k > out.lo {
      ScanNonNegative(out, acc, names, k - 1);
    }
  }

  /** The j-th sample of the scan is the aggregated output at lo + j. */
  lemma {:induction false} ScanElements(out: Ling, acc: map<string, real>, names: seq<string>, k: int)
    requires (k <= out.hi || k <= out.lo) && OutputScanSafe(out, names)
    ensures forall j :: 0 <= j < |Scan(out, acc, names, k)| ==>
              Scan(out, acc, names, k)[j] == Sample(out, acc, names, out.lo + j)
    decreases k - out.lo
  {
    if k > out.lo {
      ScanElements(out, acc, names, k - 1);
    }
  }

  /** `a` of `eval`: the sum of the samples. */
  function Mass(us: seq<real>): real
  {
    if us == [] then 0.0 else Mass(us[..|us| - 1]) + us[|us| - 1]
  }

  /** `weight` of `eval`: the sum of the samples, each times its position
      when the scan starts at `lo`. */
  function Moment(us: seq<real>, lo: int): real
  {
    if us == [] then 0.0 else Moment(us[..|us| - 1], lo) + us[|us| - 1] * (lo + |us| - 1) as real
  }

  predicate NonNegative(us: seq<real>)
  {
    forall j :: 0 <= j < |us| ==> us[j] >= 0.0
  }

  /** The last steps of `eval`: weight / mass in IEEE terms (x / 0 is +inf,
      -inf or NaN by the sign of x), then `max(., lo)` and `min(., hi)`, whose
      comparisons are false on NaN, then back from microseconds to seconds. */
  function Finish(weight: real, mass: real, lo: int, hi: int): (r: real)
    requires mass >= 0.0
    ensures lo <= hi ==> lo as real / MICROS <= r <= hi as real / MICROS
    ensures mass == 0.0 && weight <= 0.0 ==> r == Min(lo as real, hi as real) / MICROS
  {
    var clamped :=
      if mass == 0.0 then
        (if weight > 0.0 then hi as real  // +inf: max gives +inf, min gives hi
         else Min(lo as real, hi as real))  // -inf or NaN: max gives lo
      else Min(Max(weight / mass, lo as real), hi as real);
    clamped / MICROS
  }

  /** The crisp output of one evaluation, in seconds; `x2` is the delay in seconds. */
  function EvalSpec(e: Engine, x1: real, x2: real): (r: real)
    requires Evaluable(e, x1, x2 * MICROS)
    ensures e.out.lo <= e.out.hi ==> e.out.lo as real / MICROS <= r <= e.out.hi as real / MICROS
  {
    var us := Scan(e.out, Accumulators(e, x1, x2 * MICROS), e.outOrder, e.out.hi);
    ScanNonNegative(e.out, Accumulators(e, x1, x2 * MICROS), e.outOrder, e.out.hi);
    MassIsNonNegative(us);
    Finish(Moment(us, e.out.lo), Mass(us), e.out.lo, e.out.hi)
  }

  // ---------------------------------------------------------------------
  // Aggregation

  /** The accumulator is the maximum of the strengths of the rules whose
      consequent is `c`, and 0 when no rule names `c`. */
  lemma {:induction false} AggregateIsMaximum(e: Engine, rules: seq<Rule>, x1: real, x2: real, c: string)
    requires RulesDefined(e, rules, x1, x2)
    ensures forall j :: 0 <= j < |rules| && rules[j].out == c ==>
              Strength(e, rules[j], x1, x2) <= Aggregate(e, rules, x1, x2, c)
    ensures Aggregate(e, rules, x1, x2, c) == 0.0 ||
            exists j :: 0 <= j < |rules| && rules[j].out == c &&
              Aggregate(e, rules, x1, x2, c) == Strength(e, rules[j], x1, x2)
    ensures (forall j :: 0 <= j < |rules| ==> rules[j].out != c) ==> Aggregate(e, rules, x1, x2, c) == 0.0
  {
    if rules != [] {
      var n := |rules| - 1;
      var prefix := rules[..n];
      assert forall r :: r in prefix ==> r in rules;
      AggregateIsMaximum(e, prefix, x1, x2, c);
      assert forall j :: 0 <= j < n ==> prefix[j] == rules[j];
      var before := Aggregate(e, prefix, x1, x2, c);
      if before != 0.0 && Aggregate(e, rules, x1, x2, c) == before {
        var j :| 0 <= j < n && prefix[j].out == c && before == Strength(e, prefix[j], x1, x2);
        assert rules[j] == prefix[j];
      }
    }
  }

  /** No rule fires: every accumulator stays at its initial 0. */
  lemma {:induction false} AggregateOfSilentRules(e: Engine, rules: seq<Rule>, x1: real, x2: real, c: string)
    requires RulesDefined(e, rules, x1, x2)
    requires forall r :: r in rules ==> Strength(e, r, x1, x2) == 0.0
    ensures Aggregate(e, rules, x1, x2, c) == 0.0
    decreases |rules|
  {
    if rules != [] {
      var prefix := rules[..|rules| - 1];
      assert forall r :: r in prefix ==> r in rules;
      AggregateOfSilentRules(e, prefix, x1, x2, c);
      assert rules[|rules| - 1] in rules;
    }
  }

  /** Two values that are each the maximum of {0} and the same set of strengths coincide. */
  lemma AggregateUnique(e: Engine, r1: seq<Rule>, r2: seq<Rule>, x1: real, x2: real, c: string)
    requires RulesDefined(e, r1, x1, x2) && RulesDefined(e, r2, x1, x2)
    requires forall r :: r in r1 <==> r in r2
    ensures Aggregate(e, r1, x1, x2, c) == Aggregate(e, r2, x1, x2, c)
  {
    AggregateIsMaximum(e, r1, x1, x2, c);
    AggregateIsMaximum(e, r2, x1, x2, c);
    var u1 := Aggregate(e, r1, x1, x2, c);
    var u2 := Aggregate(e, r2, x1, x2, c);
    if u1 != 0.0 {
      var j :| 0 <= j < |r1| && r1[j].out == c && u1 == Strength(e, r1[j], x1, x2);
      assert r1[j] in r2;
      var k :| 0 <= k < |r2| && r2[k] == r1[j];
      assert u1 <= u2;
    }
    if u2 != 0.0 {
      var j :| 0 <= j < |r2| && r2[j].out == c && u2 == Strength(e, r2[j], x1, x2);
      assert r2[j] in r1;
      var k :| 0 <= k < |r1| && r1[k] == r2[j];
      assert u2 <= u1;
    }
  }

  /** Reordering the rule list does not change the result of an evaluation. */
  lemma EvalOrderIndependent(e: Engine, rules: seq<Rule>, x1: real, x2: real)
    requires multiset(rules) == multiset(e.rules)
    requires Evaluable(e, x1, x2 * MICROS)
    ensures Evaluable(e.(rules := rules), x1, x2 * MICROS)
    ensures EvalSpec(e.(rules := rules), x1, x2) == EvalSpec(e, x1, x2)
  {
    var e' := e.(rules := rules);
    var x2us := x2 * MICROS;
    forall r ensures r in rules <==> r in e.rules {
      assert r in rules <==> r in multiset(rules);
      assert r in e.rules <==> r in multiset(e.rules);
    }
    assert RulesDefined(e', rules, x1, x2us);
    forall c | c in e.out.sets
      ensures Aggregate(e', rules, x1, x2us, c) == Aggregate(e, e.rules, x1, x2us, c)
    {
      AggregateUnique(e, rules, e.rules, x1, x2us, c);
      AggregateSameLing(e, e', rules, x1, x2us, c);
    }
    assert Accumulators(e', x1, x2us) == Accumulators(e, x1, x2us);
  }

  /** Aggregate reads only the input variables of the engine. */
  lemma {:induction false} AggregateSameLing(e: Engine, e': Engine, rules: seq<Rule>, x1: real, x2: real, c: string)
    requires e.in1 == e'.in1 && e.in2 == e'.in2
    requires RulesDefined(e, rules, x1, x2)
    ensures RulesDefined(e', rules, x1, x2)
    ensures Aggregate(e', rules, x1, x2, c) == Aggregate(e, rules, x1, x2, c)
    decreases |rules|
  {
    if rules != [] {
      var prefix := rules[..|rules| - 1];
      assert forall r :: r in prefix ==> r in rules;
      AggregateSameLing(e, e', prefix, x1, x2, c);
    }
  }

  // ---------------------------------------------------------------------
  // Defuzzification

  /** The aggregated output is the largest clipped set at that point (or 0). */
  lemma {:induction false} SampleIsMaximum(out: Ling, acc: map<string, real>, names: seq<string>, i: int)
    requires out.lo <= i < out.hi && OutputScanSafe(out, names)
    ensures forall j :: 0 <= j < |names| ==> Clipped(out, acc, names[j], i) <= Sample(out, acc, names, i)
    ensures Sample(out, acc, names, i) == 0.0 ||
            exists j :: 0 <= j < |names| && Sample(out, acc, names, i) == Clipped(out, acc, names[j], i)
    decreases |names|
  {
    if names != [] {
      var n := |names| - 1;
      var prefix := names[..n];
      assert forall s :: s in prefix ==> s in names;
      SampleIsMaximum(out, acc, prefix, i);
      assert forall j :: 0 <= j < n ==> prefix[j] == names[j];
      var before := Sample(out, acc, prefix, i);
      if before != 0.0 && Sample(out, acc, names, i) == before {
        var j :| 0 <= j < n && before == Clipped(out, acc, prefix[j], i);
        assert names[j] == prefix[j];
      }
    }
  }

  /** When every accumulator is 0, every sample is 0. */
  lemma {:induction false} SampleOfSilentRules(out: Ling, acc: map<string, real>, names: seq<string>, i: int)
    requires out.lo <= i < out.hi && OutputScanSafe(out, names)
    requires forall s :: s in acc ==> acc[s] == 0.0
    ensures Sample(out, acc, names, i) == 0.0
    decreases |names|
  {
    if names != [] {
      var prefix := names[..|names| - 1];
      assert forall s :: s in prefix ==> s in names;
      SampleOfSilentRules(out, acc, prefix, i);
    }
  }

  lemma {:induction false} MassIsNonNegative(us: seq<real>)
    requires NonNegative(us)
    ensures Mass(us) >= 0.0
  {
    if us != [] {
      MassIsNonNegative(us[..|us| - 1]);
    }
  }

  /** One more step of the scan appends the sample at `k`. */
  lemma ScanStep(out: Ling, acc: map<string, real>, names: seq<string>, k: int)
    requires out.lo <= k < out.hi && OutputScanSafe(out, names)
    ensures Scan(out, acc, names, k + 1) == Scan(out, acc, names, k) + [Sample(out, acc, names, k)]
    ensures out.lo + |Scan(out, acc, names, k)| == k
  {
  }

  /** Appending a sample `x` at position `p`. */
  lemma Append(us: seq<real>, x: real, lo: int, p: int)
    requires p == lo + |us|
    ensures Mass(us + [x]) == Mass(us) + x
    ensures Moment(us + [x], lo) == Moment(us, lo) + x * p as real
  {
    assert (us + [x])[..|us|] == us;
  }

  /** One more step of the scan appends the sample `u` at `k`: it adds `u`
      to the mass and `u` times `k` to the weighted sum. */
  lemma ScanGrows(out: Ling, acc: map<string, real>, names: seq<string>, k: int, us: seq<real>, u: real)
    requires out.lo <= k < out.hi && OutputScanSafe(out, names)
    requires us == Scan(out, acc, names, k) && u == Sample(out, acc, names, k)
    ensures Scan(out, acc, names, k + 1) == us + [u]
    ensures Mass(us + [u]) == Mass(us) + u
    ensures Moment(us + [u], out.lo) == Moment(us, out.lo) + u * k as real
  {
    ScanStep(out, acc, names, k);
    Append(us, u, out.lo, k);
  }

  /** The weighted sum lies between lo and the last position times the mass:
      the centroid is an average of the scanned positions. */
  lemma {:induction false} MomentBetweenEnds(us: seq<real>, lo: int)
    requires us != [] && NonNegative(us)
    ensures lo as real * Mass(us) <= Moment(us, lo)
    ensures Moment(us, lo) <= (lo + |us| - 1) as real * Mass(us)
  {
    // The factors are passed as the very terms of the goal: naming them with
    // local variables would leave the solver to match products of equal terms.
    if |us| > 1 {
      MassIsNonNegative(us[..|us| - 1]);
      MomentBetweenEnds(us[..|us| - 1], lo);
      StepBounds(lo as real, (lo + |us[..|us| - 1]| - 1) as real, (lo + |us| - 1) as real,
                 Mass(us[..|us| - 1]), Moment(us[..|us| - 1], lo), us[|us| - 1], Mass(us), Moment(us, lo));
    } else {
      assert us[..|us| - 1] == [];
      assert Mass(us) == Mass(us[..|us| - 1]) + us[|us| - 1] == us[|us| - 1];
      assert Moment(us, lo) == Moment(us[..|us| - 1], lo) + us[|us| - 1] * (lo + |us| - 1) as real;
      StepBounds(lo as real, lo as real, (lo + |us| - 1) as real,
                 0.0, 0.0, us[|us| - 1], Mass(us), Moment(us, lo));
    }
  }

  /** One more sample point x, with weight u, keeps the weighted sum between the ends. */
  lemma StepBounds(lo: real, prev: real, x: real, m: real, w: real, u: real, m': real, w': real)
    requires u >= 0.0 && m >= 0.0 && lo <= x && prev <= x
    requires lo * m <= w <= prev * m
    requires m' == m + u && w' == w + u * x
    ensures lo * m' <= w' <= x * m'
  {
    ScaleMonotone(u, lo, x);
    ScaleMonotone(m, prev, x);
    assert lo * (m + u) == lo * m + lo * u;
    assert x * (m + u) == x * m + x * u;
  }

  lemma ScaleMonotone(u: real, x: real, y: real)
    requires u >= 0.0 && x <= y
    ensures u * x <= u * y && x * u <= y * u
  {
    assert u * y - u * x == u * (y - x);
  }

  /** With all samples 0 the mass and the weighted sum are both 0. */
  lemma {:induction false} SilentScan(us: seq<real>, lo: int)
    requires forall j :: 0 <= j < |us| ==> us[j] == 0.0
    ensures Mass(us) == 0.0 && Moment(us, lo) == 0.0
  {
    if us != [] {
      SilentScan(us[..|us| - 1], lo);
    }
  }

  /** A zero mass forces a zero weighted sum (all samples are non-negative). */
  lemma {:induction false} ZeroMassZeroMoment(us: seq<real>, lo: int)
    requires NonNegative(us) && Mass(us) == 0.0
    ensures Moment(us, lo) == 0.0
  {
    if us != [] {
      MassIsNonNegative(us[..|us| - 1]);
      ZeroMassZeroMoment(us[..|us| - 1], lo);
    }
  }

  /** The last steps of `eval` on a scan of the whole output universe: with
      a positive mass the centroid lies within the scanned points, so the
      clamp leaves it unchanged; with a zero mass the result is lo. */
  lemma FinishOfScan(us: seq<real>, lo: int, hi: int)
    requires NonNegative(us) && |us| == (if hi <= lo then 0 else hi - lo)
    ensures Mass(us) >= 0.0
    ensures Mass(us) > 0.0 ==>
              && lo as real <= Moment(us, lo) / Mass(us) <= (hi - 1) as real
              && Finish(Moment(us, lo), Mass(us), lo, hi) == Moment(us, lo) / Mass(us) / MICROS
    ensures Mass(us) == 0.0 ==> Finish(Moment(us, lo), Mass(us), lo, hi) == Min(lo as real, hi as real) / MICROS
  {
    MassIsNonNegative(us);
    if Mass(us) > 0.0 {
      assert us != [];
      MomentBetweenEnds(us, lo);
      QuotientBetween(Moment(us, lo), Mass(us), lo as real, (lo + |us| - 1) as real);
    } else {
      ZeroMassZeroMoment(us, lo);
    }
  }

  /** `EvalSpec` is the centroid of the scanned output when the mass is
      positive, and the bottom of the output universe otherwise. */
  lemma EvalCentroid(e: Engine, x1: real, x2: real)
    requires Evaluable(e, x1, x2 * MICROS)
    ensures var us := Scan(e.out, Accumulators(e, x1, x2 * MICROS), e.outOrder, e.out.hi);
            && Mass(us) >= 0.0
            && (Mass(us) > 0.0 ==>
                  && e.out.lo as real <= Moment(us, e.out.lo) / Mass(us) <= (e.out.hi - 1) as real
                  && EvalSpec(e, x1, x2) == Moment(us, e.out.lo) / Mass(us) / MICROS)
            && (Mass(us) == 0.0 ==> EvalSpec(e, x1, x2) == Min(e.out.lo as real, e.out.hi as real) / MICROS)
  {
    var us := Scan(e.out, Accumulators(e, x1, x2 * MICROS), e.outOrder, e.out.hi);
    ScanNonNegative(e.out, Accumulators(e, x1, x2 * MICROS), e.outOrder, e.out.hi);
    FinishOfScan(us, e.out.lo, e.out.hi);
  }

  lemma QuotientBetween(w: real, m: real, lo: real, hi: real)
    requires m > 0.0 && lo * m <= w <= hi * m
    ensures lo <= w / m <= hi
  {
    assert (w / m) * m == w;
    if w / m < lo {
      ScaleMonotone(m, w / m, lo);
    }
    if w / m > hi {
      ScaleMonotone(m, hi, w / m);
    }
  }

  /** With every accumulator at 0, every sample of the scan is 0. */
  lemma SilentAccumulatorsSilentScan(out: Ling, acc: map<string, real>, names: seq<string>)
    requires OutputScanSafe(out, names)
    requires forall c :: c in acc ==> acc[c] == 0.0
    ensures var us := Scan(out, acc, names, out.hi); Mass(us) == 0.0 && Moment(us, out.lo) == 0.0
  {
    var us := Scan(out, acc, names, out.hi);
    ScanElements(out, acc, names, out.hi);
    forall j | 0 <= j < |us| ensures us[j] == 0.0 {
      SampleOfSilentRules(out, acc, names, out.lo + j);
    }
    SilentScan(us, out.lo);
  }

  /** If no rule fires, every accumulator is 0, the mass is 0 and the result
      is the bottom of the output universe. */
  lemma NoRuleFiresGivesFloor(e: Engine, x1: real, x2: real)
    requires Evaluable(e, x1, x2 * MICROS)
    requires forall r :: r in e.rules ==> Strength(e, r, x1, x2 * MICROS) == 0.0
    requires e.out.lo <= e.out.hi
    ensures var us := Scan(e.out, Accumulators(e, x1, x2 * MICROS), e.outOrder, e.out.hi);
            Mass(us) == 0.0 && Moment(us, e.out.lo) == 0.0
    ensures EvalSpec(e, x1, x2) == e.out.lo as real / MICROS
  {
    var x2us := x2 * MICROS;
    var acc := Accumulators(e, x1, x2us);
    forall c | c in acc ensures acc[c] == 0.0 {
      AggregateOfSilentRules(e, e.rules, x1, x2us, c);
    }
    SilentAccumulatorsSilentScan(e.out, acc, e.outOrder);
  }

  // ---------------------------------------------------------------------
  // The uninitialised accumulator

  /** `eval` as written: `weight` is declared without a value, so the sum
      starts from whatever `w0` the storage held. */
  function EvalFromWeight(e: Engine, x1: real, x2: real, w0: real): (r: real)
    requires Evaluable(e, x1, x2 * MICROS)
    ensures e.out.lo <= e.out.hi ==> e.out.lo as real / MICROS <= r <= e.out.hi as real / MICROS
    ensures w0 == 0.0 ==> r == EvalSpec(e, x1, x2)
  {
    var us := Scan(e.out, Accumulators(e, x1, x2 * MICROS), e.outOrder, e.out.hi);
    ScanNonNegative(e.out, Accumulators(e, x1, x2 * MICROS), e.outOrder, e.out.hi);
    MassIsNonNegative(us);
    Finish(w0 + Moment(us, e.out.lo), Mass(us), e.out.lo, e.out.hi)
  }

  /** When no rule fires and the stale value is positive, the code as written
      returns the top of the output universe (the slowest rate). The corrected
      `EvalSpec`, which starts the sum at 0, returns the bottom. */
  lemma UninitialisedWeightMatters(e: Engine, x1: real, x2: real, w0: real)
    requires Evaluable(e, x1, x2 * MICROS)
    requires forall r :: r in e.rules ==> Strength(e, r, x1, x2 * MICROS) == 0.0
    requires e.out.lo < e.out.hi && w0 > 0.0
    ensures EvalSpec(e, x1, x2) == e.out.lo as real / MICROS
    ensures EvalFromWeight(e, x1, x2, 0.0) == EvalSpec(e, x1, x2)
    ensures EvalFromWeight(e, x1, x2, w0) == e.out.hi as real / MICROS
  {
    NoRuleFiresGivesFloor(e, x1, x2);
  }
}
