/** Triangular fuzzy sets, their membership function and the min/max
    operators of the engine, as pure functions. */
module FuzzyLogic {

  /** A triangular set: zero outside [a, c], rising on [a, b), falling on [b, c].
      The breakpoints are 32-bit integers in udp-client.cc; here they are unbounded. */
  datatype Triangle = Triangle(a: int, b: int, c: int)

  /** The definition of a linguistic variable as a value: its universe
      [lo, hi] and its sets by name. */
  datatype Ling = Ling(lo: int, hi: int, sets: map<string, Triangle>)

  /** The `min` macro: `x <= y ? x : y`. */
  function Min(x: real, y: real): (r: real)
    ensures r <= x && r <= y
    ensures r == x || r == y
  {
    if x <= y then x else y
  }

  /** The `max` macro: `x >= y ? x : y`. */
  function Max(x: real, y: real): (r: real)
    ensures r >= x && r >= y
    ensures r == x || r == y
  {
    if x >= y then x else y
  }

  /** Fuzzy AND: the smaller of the two degrees. */
  function OpAnd(x1: real, x2: real): (r: real)
    ensures r <= x1 && r <= x2
    ensures r == x1 || r == x2
  {
    Min(x1, x2)
  }

  /** Aggregation across rules: the larger of the two degrees. */
  function OpAgg(x1: real, x2: real): (r: real)
    ensures r >= x1 && r >= x2
    ensures r == x1 || r == x2
  {
    Max(x1, x2)
  }

  /** Reading a set by name. udp-client.cc reads through `operator[]`, which
      yields a zero-initialised triangle for a name never added. */
  function Lookup(sets: map<string, Triangle>, name: string): (t: Triangle)
    ensures name in sets ==> t == sets[name]
    ensures name !in sets ==> t.a == 0 && t.b == 0 && t.c == 0
  {
    if name in sets then sets[name] else Triangle(0, 0, 0)
  }

  /** A value looked up through `operator[]` in a map of reals: 0.0 when absent. */
  function Get(m: map<string, real>, name: string): (u: real)
    ensures name in m ==> u == m[name]
    ensures name !in m ==> u == 0.0
  {
    if name in m then m[name] else 0.0
  }

  /** `std::map::insert`: adds the entry only when the key is new; an
      existing entry is never overwritten. */
  function InsertNew<V>(m: map<string, V>, k: string, v: V): (r: map<string, V>)
    ensures r.Keys == m.Keys + {k}
    ensures forall j :: j in m ==> r[j] == m[j]
    ensures k !in m ==> r[k] == v
  {
    if k in m then m else m[k := v]
  }

  /** The one case where the membership formula divides by zero: the falling
      branch is reached with a zero-width falling slope (b == c, v == b). */
  predicate DividesByZero(lo: int, hi: int, t: Triangle, v: real)
  {
    lo as real <= v <= hi as real && t.a as real <= v && v == t.b as real && t.b == t.c
  }

  /** Membership of `v` in the triangle `t`, inside a universe [lo, hi]. */
  function Membership(lo: int, hi: int, t: Triangle, v: real): (m: real)
    requires !DividesByZero(lo, hi, t, v)
    ensures 0.0 <= m <= 1.0
    ensures !(lo as real <= v <= hi as real && t.a as real <= v <= t.c as real) ==> m == 0.0
    ensures m == 1.0 <==> lo as real <= v <= hi as real && t.a <= t.b < t.c && v == t.b as real
  {
    if v < lo as real || v > hi as real then 0.0
    else if v < t.a as real || v > t.c as real then 0.0
    else if v < t.b as real then
      Fraction(v - t.a as real, (t.b - t.a) as real);
      (v - t.a as real) / ((t.b - t.a) as real)
    else
      var m := (v - t.c as real) / ((t.b - t.c) as real);
      Negated(t.c as real - v, (t.c - t.b) as real);
      Fraction(t.c as real - v, (t.c - t.b) as real);
      m
  }

  /** A part `x` of a positive whole `w` is a fraction in [0, 1], and the
      whole of it exactly when `x` is all of `w`. */
  lemma Fraction(x: real, w: real)
    requires w > 0.0 && 0.0 <= x <= w
    ensures 0.0 <= x / w <= 1.0
    ensures x / w == 1.0 <==> x == w
  {
    assert x / w * w == x;
  }

  /** Negating both sides of a ratio leaves it unchanged. */
  lemma Negated(x: real, w: real)
    requires w != 0.0
    ensures (-x) / (-w) == x / w
  {
    assert (-x) / (-w) * w == x;
  }

  /** Degree of `v` in the set called `name` of variable `l`. */
  function Degree(l: Ling, name: string, v: real): (m: real)
    requires !DividesByZero(l.lo, l.hi, Lookup(l.sets, name), v)
    ensures 0.0 <= m <= 1.0
    ensures !(l.lo as real <= v <= l.hi as real) ==> m == 0.0
    ensures name !in l.sets ==> m == 0.0
  {
    Membership(l.lo, l.hi, Lookup(l.sets, name), v)
  }

  /** Every set of `l` has a falling slope of positive width. */
  predicate Sharp(l: Ling)
  {
    forall s :: s in l.sets ==> l.sets[s].b < l.sets[s].c
  }

  /** On the rising side [a, b) the membership grows strictly. */
  lemma MembershipRises(lo: int, hi: int, t: Triangle, v1: real, v2: real)
    requires lo as real <= v1 && v2 <= hi as real
    requires t.a as real <= v1 < v2 < t.b as real && t.b <= t.c
    ensures Membership(lo, hi, t, v1) < Membership(lo, hi, t, v2)
  {
    var w := (t.b - t.a) as real;
    assert w > 0.0;
    assert Membership(lo, hi, t, v1) == (v1 - t.a as real) / w;
    assert Membership(lo, hi, t, v2) == (v2 - t.a as real) / w;
    DivideStrictlyMonotone(v1 - t.a as real, v2 - t.a as real, w);
  }

  /** On the falling side [b, c] the membership shrinks strictly. */
  lemma MembershipFalls(lo: int, hi: int, t: Triangle, v1: real, v2: real)
    requires lo as real <= v1 && v2 <= hi as real
    requires t.a <= t.b && t.b as real <= v1 < v2 <= t.c as real
    ensures Membership(lo, hi, t, v1) > Membership(lo, hi, t, v2)
  {
    var w := (t.c - t.b) as real;
    assert w > 0.0;
    assert Membership(lo, hi, t, v1) == (t.c as real - v1) / w;
    assert Membership(lo, hi, t, v2) == (t.c as real - v2) / w;
    DivideStrictlyMonotone(t.c as real - v2, t.c as real - v1, w);
  }

  lemma DivideStrictlyMonotone(x: real, y: real, w: real)
    requires w > 0.0 && x < y
    ensures x / w < y / w
  {
    assert y / w - x / w == (y - x) / w;
  }
}
