/** The internal-coordinate containers of chemistry/molecule/coor.cc:
    SetIntCoor, an ordered list of coordinates, and SumIntCoor, a linear
    combination of coordinates that merges equivalent terms and unfolds
    nested sums as they are added. */
module IntCoor {

  /** An internal coordinate, by value.  Stre and Out are the simple
      coordinates the generator creates (atoms numbered from 1); Other
      stands for any other simple coordinate; Sum is a SumIntCoor with its
      terms in order. */
  datatype Coor =
    | Stre(name: string, a: nat, b: nat)
    | Out(name: string, a: nat, b: nat, c: nat, d: nat)
    | Other(id: nat)
    | Sum(terms: seq<Term>)

  /** One term of a sum: its coefficient and its coordinate. */
  datatype Term = Term(coef: real, coor: Coor)

  class SetIntCoor {
    /** The coordinates, in the order they were added. */
    var coors: seq<Coor>

    constructor ()
      ensures coors == []
    {
      coors := [];
    }

    /** n(): the number of coordinates. */
    function N(): (n: nat)
      reads this
      ensures n == |coors|
    {
      |coors|
    }

    /** coor(i): the i-th coordinate. */
    function CoorAt(i: nat): (c: Coor)
      reads this
      requires i < |coors|
      ensures c in coors
    {
      coors[i]
    }

    /** add(coor): appends one coordinate. */
    method Add(c: Coor)
      modifies this
      ensures coors == old(coors) + [c]
      ensures N() == old(N()) + 1 && CoorAt(N() - 1) == c
    {
      coors := coors + [c];
    }

    /** add(set): appends the other set's coordinates in their order.  The
        count is taken before the loop, so a set added to itself is
        doubled (see SelfAdd for the loop as written). */
    method AddSet(other: SetIntCoor)
      modifies this
      ensures coors == old(coors) + old(other.coors)
    {
      var theirs := other.coors;
      var n := |theirs|;
      for i := 0 to n
        invariant coors == old(coors) + theirs[..i]
      {
        assert theirs[..i + 1] == theirs[..i] + [theirs[i]];
        coors := coors + [theirs[i]];
      }
      assert theirs[..n] == theirs;
    }

    /** pop(): removes the last coordinate. */
    method Pop()
      requires |coors| > 0
      modifies this
      ensures coors == old(coors)[..|old(coors)| - 1]
      ensures N() == old(N()) - 1
    {
      coors := coors[..|coors| - 1];
    }

    /** clear(): removes every coordinate. */
    method Clear()
      modifies this
      ensures coors == [] && N() == 0
    {
      coors := [];
    }
  }

  /** A pop undoes an add. */
  method AddThenPop(s: SetIntCoor, c: Coor)
    modifies s
    ensures s.coors == old(s.coors)
  {
    s.Add(c);
    s.Pop();
    assert (old(s.coors) + [c])[..|old(s.coors)|] == old(s.coors);
  }

  /** The as-written add(set) loop re-reads other->n() on every round.
      When the set is added to itself, the list after k rounds is the
      original followed by k copied entries, each round copying the entry
      at the round's index. */
  function SelfAdd(c: seq<Coor>, k: nat): (v: seq<Coor>)
    requires |c| > 0
    ensures |v| == |c| + k
    ensures v[..|c|] == c
  {
    if k == 0 then c
    else
      var w := SelfAdd(c, k - 1);
      w + [w[k - 1]]
  }

  /** With a non-empty set added to itself, the loop condition i < n()
      still holds after any number k of rounds, so the loop never ends and
      the list keeps growing as the original repeated over and over: every
      entry past the original equals the one |c| places before it. */
  lemma {:induction false} SelfAddNeverStops(c: seq<Coor>, k: nat)
    requires |c| > 0
    ensures k < |SelfAdd(c, k)|
    ensures forall j :: |c| <= j < |c| + k ==> SelfAdd(c, k)[j] == SelfAdd(c, k)[j - |c|]
  {
    if k > 0 {
      SelfAddNeverStops(c, k - 1);
      assert SelfAdd(c, k) == SelfAdd(c, k - 1) + [SelfAdd(c, k - 1)[k - 1]];
    }
  }

  /** SumIntCoor::equivalent answers no; any other stored coordinate is
      asked through equiv, its own equivalence test. */
  predicate Equivalent(stored: Coor, c: Coor, equiv: (Coor, Coor) -> bool)
  {
    !stored.Sum? && equiv(stored, c)
  }

  /** The index of the first stored coordinate equivalent to c, from i on,
      or |coors| when there is none. */
  function FirstEquivalent(coors: seq<Coor>, c: Coor, equiv: (Coor, Coor) -> bool, i: nat): (k: nat)
    requires i <= |coors|
    ensures i <= k <= |coors|
    ensures k < |coors| ==> Equivalent(coors[k], c, equiv)
    ensures forall m :: i <= m < k ==> !Equivalent(coors[m], c, equiv)
    decreases |coors| - i
  {
    if i == |coors| then i
    else if Equivalent(coors[i], c, equiv) then i
    else FirstEquivalent(coors, c, equiv, i + 1)
  }

  /** The parallel coefficient and coordinate lists of a sum. */
  datatype Terms = Terms(coefs: seq<real>, coors: seq<Coor>)

  /** Adding a coordinate that is not a sum: the first equivalent term
      gets coef added to its coefficient; without one, (coef, c) is
      appended. */
  function Merge(t: Terms, c: Coor, coef: real, equiv: (Coor, Coor) -> bool): (r: Terms)
    requires |t.coefs| == |t.coors|
  {
    var k := FirstEquivalent(t.coors, c, equiv, 0);
    if k < |t.coors| then Terms(t.coefs[k := t.coefs[k] + coef], t.coors)
    else Terms(t.coefs + [coef], t.coors + [c])
  }

  /** SumIntCoor::add(coor, coef): a sum is unfolded, each of its terms
      added in order with its coefficient scaled by coef; anything else is
      merged. */
  function AddTerm(t: Terms, c: Coor, coef: real, equiv: (Coor, Coor) -> bool): (r: Terms)
    requires |t.coefs| == |t.coors|
    ensures |r.coefs| == |r.coors|
    decreases c, if c.Sum? then |c.terms| + 1 else 0
  {
    if c.Sum? then AddPrefix(t, c, |c.terms|, coef, equiv)
    else Merge(t, c, coef, equiv)
  }

  /** The first m terms of the sum s added in order. */
  function AddPrefix(t: Terms, s: Coor, m: nat, coef: real, equiv: (Coor, Coor) -> bool): (r: Terms)
    requires s.Sum? && m <= |s.terms| && |t.coefs| == |t.coors|
    ensures |r.coefs| == |r.coors|
    decreases s, m
  {
    if m == 0 then t
    else AddTerm(AddPrefix(t, s, m - 1, coef, equiv), s.terms[m - 1].coor, coef * s.terms[m - 1].coef, equiv)
  }

  /** One more term of the sum, added to what the earlier ones left. */
  lemma AddPrefixStep(t: Terms, s: Coor, m: nat, coef: real, equiv: (Coor, Coor) -> bool)
    requires s.Sum? && 0 < m <= |s.terms| && |t.coefs| == |t.coors|
    ensures AddPrefix(t, s, m, coef, equiv)
         == AddTerm(AddPrefix(t, s, m - 1, coef, equiv), s.terms[m - 1].coor, coef * s.terms[m - 1].coef, equiv)
  {
  }

  /** The merge rule: with a first equivalent term at k, only coefs[k]
      changes, by coef; without one, the length grows by one and the new
      last term is (coef, c). */
  lemma {:induction false} MergeRule(t: Terms, c: Coor, coef: real, equiv: (Coor, Coor) -> bool, k: nat)
    requires |t.coefs| == |t.coors| && k <= |t.coors|
    requires k < |t.coors| ==> Equivalent(t.coors[k], c, equiv)
    requires forall m :: 0 <= m < k ==> !Equivalent(t.coors[m], c, equiv)
    ensures k < |t.coors| ==> Merge(t, c, coef, equiv) == Terms(t.coefs[k := t.coefs[k] + coef], t.coors)
    ensures k == |t.coors| ==> Merge(t, c, coef, equiv) == Terms(t.coefs + [coef], t.coors + [c])
  {
    assert FirstEquivalent(t.coors, c, equiv, 0) == k;
  }

  /** Whether no stored coordinate is a sum. */
  predicate Flat(coors: seq<Coor>)
  {
    forall i :: 0 <= i < |coors| ==> !coors[i].Sum?
  }

  /** add never stores a sum: a flat list stays flat. */
  lemma {:induction false} AddTermFlat(t: Terms, c: Coor, coef: real, equiv: (Coor, Coor) -> bool)
    requires |t.coefs| == |t.coors| && Flat(t.coors)
    ensures Flat(AddTerm(t, c, coef, equiv).coors)
    decreases c, if c.Sum? then |c.terms| + 1 else 0
  {
    if c.Sum? {
      AddPrefixFlat(t, c, |c.terms|, coef, equiv);
    }
  }

  lemma {:induction false} AddPrefixFlat(t: Terms, s: Coor, m: nat, coef: real, equiv: (Coor, Coor) -> bool)
    requires s.Sum? && m <= |s.terms| && |t.coefs| == |t.coors| && Flat(t.coors)
    ensures Flat(AddPrefix(t, s, m, coef, equiv).coors)
    decreases s, m
  {
    if m > 0 {
      AddPrefixStep(t, s, m, coef, equiv);
      AddPrefixFlat(t, s, m - 1, coef, equiv);
      AddTermFlat(AddPrefix(t, s, m - 1, coef, equiv), s.terms[m - 1].coor, coef * s.terms[m - 1].coef, equiv);
    }
  }

  /** Whether none of a sum's terms is itself a sum, as holds for every
      sum that add builds (AddTermFlat). */
  predicate FlatSum(s: Coor)
    requires s.Sum?
  {
    forall i :: 0 <= i < |s.terms| ==> !s.terms[i].coor.Sum?
  }

  /** The weighted total of the first m terms of the sum s, val giving
      the value of each simple coordinate. */
  function SumValue(s: Coor, m: nat, val: Coor -> real): real
    requires s.Sum? && m <= |s.terms|
  {
    if m == 0 then 0.0 else SumValue(s, m - 1, val) + s.terms[m - 1].coef * val(s.terms[m - 1].coor)
  }

  /** The value of a simple coordinate or of a sum of simple ones. */
  function Value(c: Coor, val: Coor -> real): real
  {
    if c.Sum? then SumValue(c, |c.terms|, val) else val(c)
  }

  /** The weighted total of the first m stored terms (update_value). */
  function ListValue(t: Terms, m: nat, val: Coor -> real): real
    requires m <= |t.coefs| == |t.coors|
  {
    if m == 0 then 0.0 else ListValue(t, m - 1, val) + t.coefs[m - 1] * val(t.coors[m - 1])
  }

  /** The value of a sum held as parallel lists. */
  function Total(t: Terms, val: Coor -> real): real
    requires |t.coefs| == |t.coors|
  {
    ListValue(t, |t.coefs|, val)
  }

  /** x and y, when equivalent, have the same value. */
  predicate SameValue(equiv: (Coor, Coor) -> bool, val: Coor -> real, x: Coor, y: Coor)
  {
    equiv(x, y) ==> val(x) == val(y)
  }

  /** Equivalent coordinates have equal values. */
  ghost predicate Compatible(equiv: (Coor, Coor) -> bool, val: Coor -> real)
  {
    forall x: Coor, y: Coor {:trigger SameValue(equiv, val, x, y)} :: SameValue(equiv, val, x, y)
  }

  /** Adding coef times c to a sum, by merging or appending when c is
      simple and by unfolding when it is a sum of simple coordinates,
      raises the sum's value by coef times the value of c. */
  lemma {:induction false} AddTermValue(t: Terms, c: Coor, coef: real, equiv: (Coor, Coor) -> bool, val: Coor -> real)
    requires |t.coefs| == |t.coors| && Compatible(equiv, val)
    requires c.Sum? ==> FlatSum(c)
    ensures Total(AddTerm(t, c, coef, equiv), val) == Total(t, val) + coef * Value(c, val)
  {
    if c.Sum? {
      AddPrefixValue(t, c, |c.terms|, coef, equiv, val);
      ScaledValueIsScaled(c, |c.terms|, coef, val);
    } else {
      MergeValue(t, c, coef, equiv, val);
    }
  }

  lemma {:induction false} MergeValue(t: Terms, c: Coor, coef: real, equiv: (Coor, Coor) -> bool, val: Coor -> real)
    requires |t.coefs| == |t.coors| && Compatible(equiv, val) && !c.Sum?
    ensures Total(Merge(t, c, coef, equiv), val) == Total(t, val) + coef * val(c)
  {
    var k := FirstEquivalent(t.coors, c, equiv, 0);
    var n := |t.coefs|;
    if k < |t.coors| {
      var r := Terms(t.coefs[k := t.coefs[k] + coef], t.coors);
      assert Merge(t, c, coef, equiv) == r;
      assert SameValue(equiv, val, t.coors[k], c);
      ListValueBump(t, r, k, coef, n, val);
    } else {
      var r := Terms(t.coefs + [coef], t.coors + [c]);
      assert Merge(t, c, coef, equiv) == r;
      ListValuePrefix(t, r, n, val);
      assert ListValue(r, n + 1, val) == ListValue(r, n, val) + coef * val(c);
    }
  }

  lemma {:induction false} AddPrefixValue(t: Terms, s: Coor, m: nat, coef: real, equiv: (Coor, Coor) -> bool, val: Coor -> real)
    requires s.Sum? && FlatSum(s) && m <= |s.terms| && |t.coefs| == |t.coors| && Compatible(equiv, val)
    ensures Total(AddPrefix(t, s, m, coef, equiv), val) == Total(t, val) + ScaledValue(s, m, coef, val)
  {
    if m > 0 {
      AddPrefixValue(t, s, m - 1, coef, equiv, val);
      PrefixStepValue(t, s, m, coef, equiv, val);
    }
  }

  /** The first m terms of s with every coefficient scaled by coef, as
      add places them. */
  function ScaledValue(s: Coor, m: nat, coef: real, val: Coor -> real): real
    requires s.Sum? && m <= |s.terms|
  {
    if m == 0 then 0.0 else ScaledValue(s, m - 1, coef, val) + (coef * s.terms[m - 1].coef) * val(s.terms[m - 1].coor)
  }

  lemma {:induction false} ScaledValueIsScaled(s: Coor, m: nat, coef: real, val: Coor -> real)
    requires s.Sum? && m <= |s.terms|
    ensures ScaledValue(s, m, coef, val) == coef * SumValue(s, m, val)
  {
    if m > 0 {
      ScaledValueIsScaled(s, m - 1, coef, val);
      Distribute(coef, SumValue(s, m - 1, val), s.terms[m - 1].coef, val(s.terms[m - 1].coor));
    }
  }

  /** One more simple term of a flat sum raises the value by its scaled
      coefficient times its value. */
  lemma {:induction false} PrefixStepValue(t: Terms, s: Coor, m: nat, coef: real, equiv: (Coor, Coor) -> bool, val: Coor -> real)
    requires s.Sum? && FlatSum(s) && 0 < m <= |s.terms| && |t.coefs| == |t.coors| && Compatible(equiv, val)
    ensures Total(AddPrefix(t, s, m, coef, equiv), val) - Total(AddPrefix(t, s, m - 1, coef, equiv), val)
         == ScaledValue(s, m, coef, val) - ScaledValue(s, m - 1, coef, val)
  {
    AddPrefixStep(t, s, m, coef, equiv);
    MergeValue(AddPrefix(t, s, m - 1, coef, equiv), s.terms[m - 1].coor, coef * s.terms[m - 1].coef, equiv, val);
  }

  /** Scaling distributes over one more term. */
  lemma {:induction false} Distribute(c: real, a: real, b: real, v: real)
    ensures c * (a + b * v) == c * a + (c * b) * v
  {
  }

  /** Raising coefs[k] by coef raises the total of any prefix holding k by
      coef times the value of coors[k]. */
  lemma {:induction false} ListValueBump(t: Terms, r: Terms, k: nat, coef: real, m: nat, val: Coor -> real)
    requires |t.coefs| == |t.coors| && k < |t.coors| && m <= |t.coefs|
    requires r == Terms(t.coefs[k := t.coefs[k] + coef], t.coors)
    ensures ListValue(r, m, val) == ListValue(t, m, val) + (if k < m then coef * val(t.coors[k]) else 0.0)
  {
    if m > 0 {
      ListValueBump(t, r, k, coef, m - 1, val);
    }
  }

  /** A list's prefix totals do not see what is appended after them. */
  lemma {:induction false} ListValuePrefix(t: Terms, r: Terms, m: nat, val: Coor -> real)
    requires m <= |t.coefs| == |t.coors| <= |r.coefs| == |r.coors|
    requires r.coefs[..|t.coefs|] == t.coefs && r.coors[..|t.coors|] == t.coors
    ensures ListValue(r, m, val) == ListValue(t, m, val)
  {
    if m > 0 {
      assert r.coefs[m - 1] == t.coefs[m - 1] && r.coors[m - 1] == t.coors[m - 1];
      ListValuePrefix(t, r, m - 1, val);
    }
  }

  class SumIntCoor {
    /** The coefficients and the coordinates, index for index. */
    var coefs: seq<real>
    var coors: seq<Coor>

    /** coef_ and coor_ have the same length, and no term is a sum. */
    predicate Valid()
      reads this
    {
      |coefs| == |coors| && Flat(coors)
    }

    constructor ()
      ensures Valid() && coefs == [] && coors == []
    {
      coefs := [];
      coors := [];
    }

    /** n(): the number of terms. */
    function N(): (n: nat)
      reads this
      requires Valid()
      ensures n == |coefs| == |coors|
    {
      |coefs|
    }

    /** add(coor, coef): the terms become AddTerm of the old ones. */
    method Add(c: Coor, coef: real, equiv: (Coor, Coor) -> bool)
      requires Valid()
      modifies this
      ensures Valid()
      ensures Terms(coefs, coors) == AddTerm(old(Terms(coefs, coors)), c, coef, equiv)
      decreases c
    {
      if c.Sum? {
        var l := |c.terms|;
        for i := 0 to l
          invariant Valid()
          invariant Terms(coefs, coors) == AddPrefix(old(Terms(coefs, coors)), c, i, coef, equiv)
        {
          Add(c.terms[i].coor, coef * c.terms[i].coef, equiv);
          AddPrefixStep(old(Terms(coefs, coors)), c, i + 1, coef, equiv);
        }
      } else {
        var l := |coefs|;
        for i := 0 to l
          invariant forall m :: 0 <= m < i ==> !Equivalent(coors[m], c, equiv)
        {
          if Equivalent(coors[i], c, equiv) {
            MergeRule(Terms(coefs, coors), c, coef, equiv, i);
            coefs := coefs[i := coefs[i] + coef];
            return;
          }
        }
        MergeRule(Terms(coefs, coors), c, coef, equiv, l);
        coefs := coefs + [coef];
        coors := coors + [c];
      }
    }
  }
}
