/** The inference engine as an object: it is wired to two input variables
    and one output variable, collects rules, and evaluates them by updating
    the output variable's accumulators and scanning its universe. */
module FuzzyEngine {
  import opened FuzzyLogic
  import opened Variables
  import opened Inference

  /** A name that no rule uses as its consequent keeps its starting value. */
  lemma {:induction false} AccumulateUntouched(e: Engine, rules: seq<Rule>, x1: real, x2: real, c: string, u0: real)
    requires RulesDefined(e, rules, x1, x2)
    requires forall r :: r in rules ==> r.out != c
    ensures AccumulateFrom(e, rules, x1, x2, c, u0) == u0
    decreases |rules|
  {
    if rules != [] {
      var prefix := rules[..|rules| - 1];
      assert forall r :: r in prefix ==> r in rules;
      AccumulateUntouched(e, prefix, x1, x2, c, u0);
      assert rules[|rules| - 1] in rules;
    }
  }

  /** The consequents named by `rules`. */
  ghost function Consequents(rules: seq<Rule>): set<string>
  {
    set r | r in rules :: r.out
  }

  /** Taking one more rule of the pass: the rules so far stay defined, the
      accumulators follow the last rule and its consequent joins the names. */
  lemma RulePrefixStep(e: Engine, rules: seq<Rule>, k: nat, x1: real, x2: real)
    requires k < |rules| && RulesDefined(e, rules, x1, x2)
    ensures RulesDefined(e, rules[..k + 1], x1, x2) && RulesDefined(e, rules[..k], x1, x2)
    ensures forall c, u0 :: AccumulateFrom(e, rules[..k + 1], x1, x2, c, u0) ==
              var before := AccumulateFrom(e, rules[..k], x1, x2, c, u0);
              if rules[k].out == c then OpAgg(Strength(e, rules[k], x1, x2), before) else before
    ensures Consequents(rules[..k + 1]) == Consequents(rules[..k]) + {rules[k].out}
  {
    assert rules[..k + 1][..k] == rules[..k];
    assert rules[..k + 1] == rules[..k] + [rules[k]];
    assert forall r :: r in rules[..k + 1] ==> r in rules;
  }

  class Fuzzy {
    var in1: FuzzyVar?
    var in2: FuzzyVar?
    var out: FuzzyVarOut?
    var rules: seq<Rule>

    constructor()
      ensures in1 == null && in2 == null && out == null && rules == []
    {
      in1 := null;
      in2 := null;
      out := null;
      rules := [];
    }

    /** set_vars: wires the engine to its variables; the pointers are not checked. */
    method SetVars(i1: FuzzyVar?, i2: FuzzyVar?, o: FuzzyVarOut?)
      modifies this`in1, this`in2, this`out
      ensures in1 == i1 && in2 == i2 && out == o
    {
      in1 := i1;
      in2 := i2;
      out := o;
    }

    /** add_rule: appends, so rules fire in the order they were added. */
    method AddRule(a: string, b: string, c: string)
      modifies this`rules
      ensures rules == old(rules) + [Rule(a, b, c)]
    {
      rules := rules + [Rule(a, b, c)];
    }

    /** All three variables are wired. */
    predicate Wired()
      reads this
    {
      in1 != null && in2 != null && out != null
    }

    /** The engine's configuration as a value. The output's definition lives
        in `out.base`, which an evaluation does not change. */
    function Config(): Engine
      reads this, in1, in2, if out != null then {out.base} else {}
      requires Wired()
    {
      Engine(in1.View(), in2.View(), out.base.View(), out.base.order, rules)
    }

    /** eval(x1, x2): fires every rule into the output's accumulators, then
        returns the clamped centroid of the clipped output sets, in seconds.
        `x2` arrives in seconds and is scaled to microseconds first. The sum
        of weighted samples starts at 0 here; see `EvalFromWeight`. */
    method Eval(x1: real, x2: real) returns (r: real)
      requires Wired() && out.Valid()
      requires Evaluable(Config(), x1, x2 * MICROS)
      modifies out
      ensures out.Valid() && Config() == old(Config())
      ensures r == EvalSpec(Config(), x1, x2)
      ensures forall c :: c in out.base.sets ==> out.GetUMax(c) == Aggregate(Config(), rules, x1, x2 * MICROS, c)
      ensures forall c :: c !in out.base.sets ==>
                out.GetUMax(c) == AccumulateFrom(Config(), rules, x1, x2 * MICROS, c, old(out.GetUMax(c)))
      ensures out.uMax.Keys == old(out.uMax.Keys) + Consequents(rules)
    {
      ghost var e := Config();
      var x2us := x2 * MICROS;
      out.Reset();
      FireRules(e, x1, x2us);
      ghost var acc := Accumulators(e, x1, x2us);
      var weight, a := Centroid(e, acc);
      ghost var us := Scan(e.out, acc, e.outOrder, e.out.hi);
      ScanNonNegative(e.out, acc, e.outOrder, e.out.hi);
      MassIsNonNegative(us);
      r := Finish(weight, a, out.base.lo, out.base.hi);
    }

    /** The rule pass of `eval`: each rule raises its consequent's accumulator
        to the rule's strength. */
    method FireRules(ghost e: Engine, x1: real, x2: real)
      requires Wired() && out.Valid() && Config() == e
      requires RulesDefined(e, e.rules, x1, x2)
      modifies out
      ensures out.Valid() && Config() == e
      ensures forall c :: out.GetUMax(c) == AccumulateFrom(e, rules, x1, x2, c, old(out.GetUMax(c)))
      ensures out.uMax.Keys == old(out.uMax.Keys) + Consequents(rules)
    {
      var k := 0;
      while k < |rules|
        invariant 0 <= k <= |rules|
        invariant out.Valid() && Config() == e
        invariant forall c :: out.GetUMax(c) == AccumulateFrom(e, rules[..k], x1, x2, c, old(out.GetUMax(c)))
        invariant out.uMax.Keys == old(out.uMax.Keys) + Consequents(rules[..k])
      {
        assert rules[k] in rules;
        Fire(e, rules[k], x1, x2);
        RulePrefixStep(e, rules, k, x1, x2);
        k := k + 1;
      }
      assert rules[..k] == rules;
    }

    /** One rule of the pass: its consequent's accumulator is raised to the
        rule's strength; no other accumulator changes. */
    method Fire(ghost e: Engine, rule: Rule, x1: real, x2: real)
      requires Wired() && out.Valid() && Config() == e
      requires RuleDefined(e, rule, x1, x2)
      modifies out
      ensures out.Valid() && Config() == e
      ensures out.uMax == old(out.uMax)[rule.out := OpAgg(Strength(e, rule, x1, x2), old(out.GetUMax(rule.out)))]
    {
      var u1 := in1.Activation(rule.in1, x1);
      var u2 := in2.Activation(rule.in2, x2);
      var s := OpAnd(u1, u2);
      var uMax := out.GetUMax(rule.out);
      out.SetUMax(rule.out, OpAgg(s, uMax));
    }

    /** The centroid scan of `eval`: the sum of the aggregated output over the
        integer points of [lo, hi), and the sum of each point times its value. */
    method Centroid(ghost e: Engine, ghost acc: map<string, real>) returns (weight: real, a: real)
      requires out != null && out.Valid() && out.base.View() == e.out && out.base.order == e.outOrder
      requires OutputScanSafe(e.out, e.outOrder)
      requires forall c :: c in out.base.sets ==> out.GetUMax(c) == Get(acc, c)
      ensures a == Mass(Scan(e.out, acc, e.outOrder, e.out.hi))
      ensures weight == Moment(Scan(e.out, acc, e.outOrder, e.out.hi), e.out.lo)
    {
      weight := 0.0;
      a := 0.0;
      var lo, hi := out.base.lo, out.base.hi;
      var i := lo;
      ghost var us: seq<real> := [];
      while i < hi
        invariant lo <= i && (i <= hi || i == lo)
        invariant us == Scan(e.out, acc, e.outOrder, i)
        invariant a == Mass(us) && weight == Moment(us, lo)
      {
        var u := Aggregated(e, acc, i);
        ScanGrows(e.out, acc, e.outOrder, i, us, u);
        weight, a := weight + u * i as real, a + u;
        us := us + [u];
        i := i + STEP;
      }
    }

    /** The inner loop of the scan: the largest clipped output set at `i`. */
    method Aggregated(ghost e: Engine, ghost acc: map<string, real>, i: int) returns (u: real)
      requires out != null && out.Valid() && out.base.View() == e.out && out.base.order == e.outOrder
      requires OutputScanSafe(e.out, e.outOrder) && e.out.lo <= i < e.out.hi
      requires forall c :: c in out.base.sets ==> out.GetUMax(c) == Get(acc, c)
      ensures u == Sample(e.out, acc, e.outOrder, i)
    {
      u := 0.0;
      var names := out.base.GetSets();
      var j := 0;
      while j < |names|
        invariant 0 <= j <= |names|
        invariant forall s :: s in names[..j] ==> s in names
        invariant u == Sample(e.out, acc, names[..j], i)
      {
        var u' := out.Activation(names[j], i as real);
        assert names[..j + 1][..j] == names[..j];
        u := OpAgg(u, u');
        j := j + 1;
      }
      assert names[..j] == names;
    }
  }
}
