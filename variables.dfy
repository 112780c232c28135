/** Linguistic variables as objects: an input variable holds its named
    triangular sets; the output variable adds a per-set accumulator. */
module Variables {
  import opened FuzzyLogic

  /** A linguistic variable (FuzzyVar; FuzzyVarIn adds nothing to it). */
  class FuzzyVar {
    const name: string
    const lo: int   // limits[0]
    const hi: int   // limits[1]
    var sets: map<string, Triangle>
    /** The names of `sets` without repetition, in the order they were added. */
    var order: seq<string>

    ghost predicate Valid()
      reads this
    {
      && (forall s :: s in order <==> s in sets)
      && (forall i, j :: 0 <= i < j < |order| ==> order[i] != order[j])
    }

    /** The variable's definition as a value. */
    function View(): Ling
      reads this
    {
      Ling(lo, hi, sets)
    }

    constructor(name: string, lo: int, hi: int)
      ensures Valid()
      ensures this.name == name && this.lo == lo && this.hi == hi
      ensures sets == map[] && order == []
    {
      this.name := name;
      this.lo := lo;
      this.hi := hi;
      sets := map[];
      order := [];
    }

    /** Registers a set; a name that is already present keeps its first definition. */
    method AddSet(n: string, a: int, b: int, c: int)
      requires Valid()
      modifies this`sets, this`order
      ensures Valid()
      ensures sets == InsertNew(old(sets), n, Triangle(a, b, c))
      ensures order == if n in old(sets) then old(order) else old(order) + [n]
    {
      if n !in sets {
        order := order + [n];
      }
      sets := InsertNew(sets, n, Triangle(a, b, c));
    }

    /** Membership of `v` in the set called `s`. */
    function Activation(s: string, v: real): (m: real)
      reads this
      requires !DividesByZero(lo, hi, Lookup(sets, s), v)
      ensures m == Degree(View(), s, v)
      ensures 0.0 <= m <= 1.0
      ensures !(lo as real <= v <= hi as real) ==> m == 0.0
      ensures s !in sets ==> m == 0.0
    {
      Degree(View(), s, v)
    }

    /** The names of all sets, each once. */
    function GetSets(): (names: seq<string>)
      reads this
      requires Valid()
      ensures forall s :: s in names <==> s in sets
      ensures forall i, j :: 0 <= i < j < |names| ==> names[i] != names[j]
    {
      order
    }
  }

  /** The output variable: a linguistic variable plus, per set, the clipping
      level `uMax` accumulated during one inference pass. */
  class FuzzyVarOut {
    const base: FuzzyVar
    var uMax: map<string, real>

    ghost predicate Valid()
      reads this, base
    {
      base.Valid() && base.sets.Keys <= uMax.Keys
    }

    constructor(name: string, lo: int, hi: int)
      ensures Valid() && fresh(base)
      ensures base.name == name && base.lo == lo && base.hi == hi
      ensures base.sets == map[] && base.order == [] && uMax == map[]
    {
      base := new FuzzyVar(name, lo, hi);
      uMax := map[];
    }

    /** Registers a set and gives it a zero accumulator; neither map is
        overwritten when the name is already present. */
    method AddSet(n: string, a: int, b: int, c: int)
      requires Valid()
      modifies this`uMax, base`sets, base`order
      ensures Valid()
      ensures base.sets == InsertNew(old(base.sets), n, Triangle(a, b, c))
      ensures base.order == if n in old(base.sets) then old(base.order) else old(base.order) + [n]
      ensures uMax == InsertNew(old(uMax), n, 0.0)
    {
      base.AddSet(n, a, b, c);
      uMax := InsertNew(uMax, n, 0.0);
    }

    /** get_u_max: the accumulator of `s`, 0 for a name without one. */
    function GetUMax(s: string): (u: real)
      reads this
      ensures s in uMax ==> u == uMax[s]
      ensures s !in uMax ==> u == 0.0
    {
      Get(uMax, s)
    }

    method SetUMax(s: string, u: real)
      requires Valid()
      modifies this`uMax
      ensures Valid()
      ensures uMax == old(uMax)[s := u]
    {
      uMax := uMax[s := u];
    }

    /** Mamdani implication: the set's membership clipped at its accumulator. */
    function Activation(s: string, v: real): (m: real)
      reads this, base
      requires !DividesByZero(base.lo, base.hi, Lookup(base.sets, s), v)
      ensures m <= GetUMax(s) && m <= base.Activation(s, v)
      ensures m == GetUMax(s) || m == base.Activation(s, v)
      ensures m <= 1.0
    {
      Min(GetUMax(s), base.Activation(s, v))
    }

    /** reset(set): only that set's accumulator changes, to 0. */
    method ResetSet(s: string)
      requires Valid()
      modifies this`uMax
      ensures Valid()
      ensures GetUMax(s) == 0.0
      ensures forall t :: t != s ==> GetUMax(t) == old(GetUMax(t))
      ensures uMax.Keys == old(uMax.Keys) + {s}
    {
      SetUMax(s, 0.0);
    }

    /** reset(): every set's accumulator becomes 0; entries for names that
        are not sets are left alone. */
    method Reset()
      requires Valid()
      modifies this`uMax
      ensures Valid()
      ensures forall s :: s in base.sets ==> GetUMax(s) == 0.0
      ensures forall s :: s !in base.sets ==> GetUMax(s) == old(GetUMax(s))
      ensures uMax.Keys == old(uMax.Keys)
    {
      var names := base.GetSets();
      var k := 0;
      while k < |names|
        invariant 0 <= k <= |names|
        invariant Valid()
        invariant uMax.Keys == old(uMax.Keys)
        invariant forall j :: 0 <= j < k ==> GetUMax(names[j]) == 0.0
        invariant forall s :: s !in names[..k] ==> GetUMax(s) == old(GetUMax(s))
      {
        ResetSet(names[k]);
        k := k + 1;
      }
      assert names[..k] == names;
    }
  }
}
