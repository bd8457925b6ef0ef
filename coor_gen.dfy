/** The internal-coordinate generator of chemistry/molecule/coor.cc
    (IntCoorGen): the bond relation over the atoms, its completion so that
    every atom is connected to atom 0, and the stretch and out-of-plane
    coordinates read off it. */
module IntCoorGen {
  import opened IntCoor

  /** An entry (j, i) of the lower triangle, j <= i. */
  datatype Pair = Pair(j: nat, i: nat)

  /** The bond relation over n atoms as the set of its lower-triangle
      entries. */
  type Bonds = set<Pair>

  predicate Shape(b: Bonds, n: nat)
  {
    forall p :: p in b ==> p.j <= p.i < n
  }

  /** The entry holding the pair of atoms i and j. */
  function Entry(i: nat, j: nat): Pair
  {
    if j <= i then Pair(j, i) else Pair(i, j)
  }

  /** bonds(i, j): whether the entry of the pair is set, whichever order
      the atoms are given in. */
  predicate Bonded(b: Bonds, i: nat, j: nat)
  {
    Entry(i, j) in b
  }

  lemma {:induction false} BondedSymmetric(b: Bonds, i: nat, j: nat)
    ensures Bonded(b, i, j) == Bonded(b, j, i)
  {
    assert Entry(i, j) == Entry(j, i);
  }

  /** bonds.set(i, j): the pair becomes bonded and nothing else changes. */
  function SetBond(b: Bonds, n: nat, i: nat, j: nat): (r: Bonds)
    requires Shape(b, n) && i < n && j < n
    ensures Shape(r, n)
    ensures forall x: nat, y: nat :: Bonded(r, x, y) <==> Bonded(b, x, y) || Entry(x, y) == Entry(i, j)
  {
    b + {Entry(i, j)}
  }

  /** The number of atoms j < m bonded to i. */
  function CountBonded(b: Bonds, i: nat, m: nat): nat
  {
    if m == 0 then 0 else CountBonded(b, i, m - 1) + (if Bonded(b, i, m - 1) then 1 else 0)
  }

  /** bonds.degree(i): the number of atoms bonded to i. */
  function Degree(b: Bonds, n: nat, i: nat): nat
  {
    CountBonded(b, i, n)
  }

  // ---------------------------------------------------------------------
  // Labels

  function Digit(d: nat): char
    requires d < 10
  {
    "0123456789"[d]
  }

  /** The decimal digits of k, as "%d" prints them. */
  function Decimal(k: nat): (s: string)
    ensures |s| > 0
  {
    if k < 10 then [Digit(k)] else Decimal(k / 10) + [Digit(k % 10)]
  }

  /** The label of the k-th coordinate of a kind: "s1", "s2", ... or
      "o1", "o2", .... */
  function Label(kind: char, k: nat): string
  {
    [kind] + Decimal(k)
  }

  // ---------------------------------------------------------------------
  // add_bonds

  /** The set entries (j, i) of row i with j < m, in order. */
  function RowPairs(b: Bonds, i: nat, m: nat): seq<Pair>
  {
    if m == 0 then []
    else if Pair(m - 1, i) in b then RowPairs(b, i, m - 1) + [Pair(m - 1, i)]
    else RowPairs(b, i, m - 1)
  }

  /** The set entries of rows 0 .. m-1, row by row. */
  function Pairs(b: Bonds, m: nat): seq<Pair>
  {
    if m == 0 then [] else Pairs(b, m - 1) + RowPairs(b, m - 1, m)
  }

  /** The stretches for pairs, labelled from off + 1 on, over the atoms
      numbered from 1. */
  function Stretches(ps: seq<Pair>, off: nat): (r: seq<Coor>)
  {
    seq(|ps|, k requires 0 <= k < |ps| => Stre(Label('s', off + k + 1), ps[k].j + 1, ps[k].i + 1))
  }

  lemma {:induction false} StretchesSnoc(ps: seq<Pair>, p: Pair)
    ensures Stretches(ps + [p], 0) == Stretches(ps, 0) + [Stre(Label('s', |ps| + 1), p.j + 1, p.i + 1)]
  {
  }

  /** Entries before row-major order: an earlier row, or the same row and
      an earlier column. */
  predicate PairBefore(p: Pair, q: Pair)
  {
    p.i < q.i || (p.i == q.i && p.j < q.j)
  }

  /** Entries in strictly increasing row-major order. */
  predicate Ordered(ps: seq<Pair>)
  {
    forall x, y {:trigger PairBefore(ps[x], ps[y])} :: 0 <= x < y < |ps| ==> PairBefore(ps[x], ps[y])
  }

  lemma {:induction false} OrderedAppend(a: seq<Pair>, c: seq<Pair>)
    requires Ordered(a) && Ordered(c)
    requires forall p, q :: p in a && q in c ==> PairBefore(p, q)
    ensures Ordered(a + c)
  {
    forall x, y | 0 <= x < y < |a + c|
      ensures PairBefore((a + c)[x], (a + c)[y])
    {
      if x < |a| && y >= |a| {
        assert (a + c)[x] in a;
        assert (a + c)[y] in c;
      }
    }
  }

  /** The entries of row i below column m are its set ones. */
  lemma {:induction false} RowPairsMember(b: Bonds, i: nat, m: nat, p: Pair)
    ensures p in RowPairs(b, i, m) <==> p.i == i && p.j < m && p in b
  {
    if m > 0 {
      RowPairsMember(b, i, m - 1, p);
    }
  }

  lemma {:induction false} RowPairsOrdered(b: Bonds, i: nat, m: nat)
    ensures Ordered(RowPairs(b, i, m))
  {
    if m > 0 {
      RowPairsOrdered(b, i, m - 1);
      var prev := RowPairs(b, i, m - 1);
      forall p | p in prev
        ensures PairBefore(p, Pair(m - 1, i))
      {
        RowPairsMember(b, i, m - 1, p);
      }
      if Pair(m - 1, i) in b {
        OrderedAppend(prev, [Pair(m - 1, i)]);
      }
    }
  }

  /** add_bonds meets each set entry of the rows below m, and no other. */
  lemma {:induction false} PairsMember(b: Bonds, m: nat, p: Pair)
    ensures p in Pairs(b, m) <==> p.j <= p.i < m && p in b
  {
    if m > 0 {
      PairsMember(b, m - 1, p);
      RowPairsMember(b, m - 1, m, p);
    }
  }

  /** ... once each, row by row and column by column. */
  lemma {:induction false} PairsOrdered(b: Bonds, m: nat)
    ensures Ordered(Pairs(b, m))
  {
    if m > 0 {
      PairsOrdered(b, m - 1);
      RowPairsOrdered(b, m - 1, m);
      var prev := Pairs(b, m - 1);
      var row := RowPairs(b, m - 1, m);
      forall p, q | p in prev && q in row
        ensures PairBefore(p, q)
      {
        PairsMember(b, m - 1, p);
        RowPairsMember(b, m - 1, m, q);
      }
      OrderedAppend(prev, row);
    }
  }

  /** add_bonds: a stretch for each set entry of the triangle, in
      row-major order over (i, j <= i), between atoms j+1 and i+1,
      labelled s1, s2, ... consecutively.  The source walks the flat bit
      index ij alongside (i, j); it addresses entry (j, i). */
  method AddBonds(list: SetIntCoor, b: Bonds, n: nat)
    modifies list
    ensures list.coors == old(list.coors) + Stretches(Pairs(b, n), 0)
  {
    var labelc := 0;
    for i := 0 to n
      invariant labelc == |Pairs(b, i)|
      invariant list.coors == old(list.coors) + Stretches(Pairs(b, i), 0)
    {
      for j := 0 to i + 1
        invariant labelc == |Pairs(b, i) + RowPairs(b, i, j)|
        invariant list.coors == old(list.coors) + Stretches(Pairs(b, i) + RowPairs(b, i, j), 0)
      {
        ghost var done := Pairs(b, i) + RowPairs(b, i, j);
        if Pair(j, i) in b {
          labelc := labelc + 1;
          StretchesSnoc(done, Pair(j, i));
          AppendAssoc(old(list.coors), Stretches(done, 0), [Stre(Label('s', labelc), j + 1, i + 1)]);
          PairAssoc(Pairs(b, i), RowPairs(b, i, j), [Pair(j, i)]);
          list.Add(Stre(Label('s', labelc), j + 1, i + 1));
        }
      }
    }
  }

  lemma {:induction false} PairAssoc(a: seq<Pair>, c: seq<Pair>, d: seq<Pair>)
    ensures (a + c) + d == a + (c + d)
  {
  }

  // ---------------------------------------------------------------------
  // hterminal

  /** Atom j is a heavy (Z > 1) neighbour of i; z holds the atomic
      numbers. */
  predicate HeavyNeighbour(b: Bonds, z: seq<nat>, i: nat, j: nat)
    requires j < |z|
  {
    Bonded(b, i, j) && z[j] > 1
  }

  /** The number of heavy neighbours of i among atoms j < m. */
  function HeavyCount(b: Bonds, z: seq<nat>, i: nat, m: nat): nat
    requires m <= |z|
  {
    if m == 0 then 0 else HeavyCount(b, z, i, m - 1) + (if HeavyNeighbour(b, z, i, m - 1) then 1 else 0)
  }

  /** hterminal: whether exactly one bonded neighbour of i has Z > 1. */
  method HTerminal(b: Bonds, z: seq<nat>, i: nat) returns (t: bool)
    ensures t <==> HeavyCount(b, z, i, |z|) == 1
  {
    var nh := 0;
    for j := 0 to |z|
      invariant nh == HeavyCount(b, z, i, j)
    {
      if Bonded(b, i, j) && z[j] > 1 {
        nh := nh + 1;
      }
    }
    t := nh == 1;
  }

  /** No heavy neighbour below m exactly when the count is 0. */
  lemma {:induction false} HeavyCountNone(b: Bonds, z: seq<nat>, i: nat, m: nat)
    requires m <= |z|
    ensures HeavyCount(b, z, i, m) == 0 <==> forall k :: 0 <= k < m ==> !HeavyNeighbour(b, z, i, k)
  {
    if m > 0 {
      HeavyCountNone(b, z, i, m - 1);
    }
  }

  /** Given a heavy neighbour j below m, the count is 1 exactly when j is
      the only one: with HeavyCountNone, hterminal holds exactly when i has
      one heavy neighbour. */
  lemma {:induction false} HeavyCountSingle(b: Bonds, z: seq<nat>, i: nat, m: nat, j: nat)
    requires m <= |z|
    requires j < m && HeavyNeighbour(b, z, i, j)
    ensures HeavyCount(b, z, i, m) == 1 <==> forall k :: 0 <= k < m && HeavyNeighbour(b, z, i, k) ==> k == j
  {
    if m - 1 == j {
      HeavyCountNone(b, z, i, m - 1);
    } else {
      HeavyCountSingle(b, z, i, m - 1, j);
      HeavyCountNone(b, z, i, m - 1);
    }
  }

  // ---------------------------------------------------------------------
  // add_out

  /** An out-of-plane coordinate's atoms: the terminal atom j, the centre
      i, and the centre's two other partners l < k. */
  datatype Quad = Quad(j: nat, i: nat, l: nat, k: nat)

  /** i is a centre: it has three bonds. */
  predicate Centre(b: Bonds, n: nat, i: nat)
  {
    Degree(b, n, i) == 3
  }

  /** j is a terminal neighbour of i: bonded to i and to nothing else. */
  predicate Terminal(b: Bonds, n: nat, i: nat, j: nat)
  {
    Bonded(b, i, j) && Degree(b, n, j) == 1
  }

  /** k is a neighbour of i other than the terminal j. */
  predicate Partner(b: Bonds, i: nat, j: nat, k: nat)
  {
    k != j && Bonded(b, i, k)
  }

  /** The partners l < m of centre i, for terminal j and partner k. */
  function LUpTo(b: Bonds, i: nat, j: nat, k: nat, m: nat): seq<Quad>
  {
    if m == 0 then []
    else if Partner(b, i, j, m - 1) then LUpTo(b, i, j, k, m - 1) + [Quad(j, i, m - 1, k)]
    else LUpTo(b, i, j, k, m - 1)
  }

  /** ... over the partners k < m of centre i, for terminal j. */
  function KUpTo(b: Bonds, i: nat, j: nat, m: nat): seq<Quad>
  {
    if m == 0 then []
    else if Partner(b, i, j, m - 1) then KUpTo(b, i, j, m - 1) + LUpTo(b, i, j, m - 1, m - 1)
    else KUpTo(b, i, j, m - 1)
  }

  /** ... over the terminal neighbours j < m of centre i. */
  function JUpTo(b: Bonds, n: nat, i: nat, m: nat): seq<Quad>
  {
    if m == 0 then []
    else if Terminal(b, n, i, m - 1) then JUpTo(b, n, i, m - 1) + KUpTo(b, i, m - 1, n)
    else JUpTo(b, n, i, m - 1)
  }

  /** The quadruples of add_out for the centres i < m, in loop order. */
  function Quads(b: Bonds, n: nat, m: nat): seq<Quad>
  {
    if m == 0 then []
    else if Centre(b, n, m - 1) then Quads(b, n, m - 1) + JUpTo(b, n, m - 1, n)
    else Quads(b, n, m - 1)
  }

  /** q is an entry of the innermost loop for centre i, terminal j and
      partner k: l < k is another neighbour of i than j. */
  predicate LCand(b: Bonds, i: nat, j: nat, k: nat, q: Quad)
  {
    q.j == j && q.i == i && q.k == k && q.l < k && Partner(b, i, j, q.l)
  }

  /** ... for centre i and terminal j, over every partner k < n. */
  predicate KCand(b: Bonds, n: nat, i: nat, j: nat, q: Quad)
  {
    q.k < n && Partner(b, i, j, q.k) && LCand(b, i, j, q.k, q)
  }

  /** ... for centre i, over every terminal neighbour j < n. */
  predicate JCand(b: Bonds, n: nat, i: nat, q: Quad)
  {
    q.j < n && Terminal(b, n, i, q.j) && KCand(b, n, i, q.j, q)
  }

  /** What add_out asks of a quadruple (j, i, l, k): a centre i of degree
      3, a neighbour j of degree 1, and two further neighbours l < k of i,
      both other than j. */
  predicate OutCandidate(b: Bonds, n: nat, q: Quad)
  {
    q.i < n && Centre(b, n, q.i) && JCand(b, n, q.i, q)
  }

  /** The out-of-plane coordinates for quadruples, labelled from off + 1
      on; the atoms are given as j+1, i+1, l+1, k+1. */
  function Outs(qs: seq<Quad>, off: nat): seq<Coor>
  {
    seq(|qs|, x requires 0 <= x < |qs| => Out(Label('o', off + x + 1), qs[x].j + 1, qs[x].i + 1, qs[x].l + 1, qs[x].k + 1))
  }

  /** Concatenation regrouped, stated once so that the loops below need
      not compare the coordinate lists element by element. */
  lemma {:induction false} AppendAssoc(a: seq<Coor>, c: seq<Coor>, d: seq<Coor>)
    ensures (a + c) + d == a + (c + d)
  {
  }

  lemma {:induction false} OutsAppend(a: seq<Quad>, c: seq<Quad>, off: nat)
    ensures Outs(a + c, off) == Outs(a, off) + Outs(c, off + |a|)
  {
  }

  lemma {:induction false} LUpToMember(b: Bonds, i: nat, j: nat, k: nat, m: nat, q: Quad)
    requires m <= k
    ensures q in LUpTo(b, i, j, k, m) <==> q.l < m && LCand(b, i, j, k, q)
  {
    if m > 0 {
      LUpToMember(b, i, j, k, m - 1, q);
    }
  }

  lemma {:induction false} KUpToMember(b: Bonds, n: nat, i: nat, j: nat, m: nat, q: Quad)
    requires m <= n
    ensures q in KUpTo(b, i, j, m) <==> q.k < m && KCand(b, n, i, j, q)
  {
    if m > 0 {
      KUpToMember(b, n, i, j, m - 1, q);
      if Partner(b, i, j, m - 1) {
        LUpToMember(b, i, j, m - 1, m - 1, q);
      }
    }
  }

  lemma {:induction false} JUpToMember(b: Bonds, n: nat, i: nat, m: nat, q: Quad)
    requires m <= n
    ensures q in JUpTo(b, n, i, m) <==> q.j < m && JCand(b, n, i, q)
  {
    if m > 0 {
      JUpToMember(b, n, i, m - 1, q);
      if Terminal(b, n, i, m - 1) {
        KUpToMember(b, n, i, m - 1, n, q);
      }
    }
  }

  /** add_out emits exactly the candidate quadruples with centre below m. */
  lemma {:induction false} QuadsMember(b: Bonds, n: nat, m: nat, q: Quad)
    requires m <= n
    ensures q in Quads(b, n, m) <==> q.i < m && OutCandidate(b, n, q)
  {
    if m > 0 {
      QuadsMember(b, n, m - 1, q);
      if Centre(b, n, m - 1) {
        JUpToMember(b, n, m - 1, n, q);
      }
    }
  }

  /** No quadruple occurs twice. */
  predicate Distinct(qs: seq<Quad>)
  {
    forall x, y :: 0 <= x < y < |qs| ==> qs[x] != qs[y]
  }

  lemma {:induction false} DistinctAppend(a: seq<Quad>, c: seq<Quad>)
    requires Distinct(a) && Distinct(c)
    requires forall x :: 0 <= x < |a| ==> a[x] !in c
    ensures Distinct(a + c)
  {
    forall x, y | 0 <= x < y < |a + c|
      ensures (a + c)[x] != (a + c)[y]
    {
      if y < |a| {
        assert (a + c)[x] == a[x] && (a + c)[y] == a[y];
      } else if x >= |a| {
        assert (a + c)[x] == c[x - |a|] && (a + c)[y] == c[y - |a|];
      } else {
        assert (a + c)[x] == a[x] && (a + c)[y] == c[y - |a|];
      }
    }
  }

  /** The l loop emits each quadruple once. */
  lemma {:induction false} LUpToDistinct(b: Bonds, i: nat, j: nat, k: nat, m: nat)
    requires m <= k
    ensures Distinct(LUpTo(b, i, j, k, m))
  {
    if m > 0 {
      LUpToDistinct(b, i, j, k, m - 1);
      if Partner(b, i, j, m - 1) {
        var earlier := LUpTo(b, i, j, k, m - 1);
        forall x | 0 <= x < |earlier|
          ensures earlier[x] !in [Quad(j, i, m - 1, k)]
        {
          assert earlier[x] in earlier;
          LUpToMember(b, i, j, k, m - 1, earlier[x]);
        }
        DistinctAppend(earlier, [Quad(j, i, m - 1, k)]);
      }
    }
  }

  /** The k loop emits each quadruple once: the partner k tells the l
      loops apart. */
  lemma {:induction false} KUpToDistinct(b: Bonds, n: nat, i: nat, j: nat, m: nat)
    requires m <= n
    ensures Distinct(KUpTo(b, i, j, m))
  {
    if m > 0 {
      KUpToDistinct(b, n, i, j, m - 1);
      if Partner(b, i, j, m - 1) {
        LUpToDistinct(b, i, j, m - 1, m - 1);
        var earlier := KUpTo(b, i, j, m - 1);
        forall x | 0 <= x < |earlier|
          ensures earlier[x] !in LUpTo(b, i, j, m - 1, m - 1)
        {
          assert earlier[x] in earlier;
          KUpToMember(b, n, i, j, m - 1, earlier[x]);
          LUpToMember(b, i, j, m - 1, m - 1, earlier[x]);
        }
        DistinctAppend(earlier, LUpTo(b, i, j, m - 1, m - 1));
      }
    }
  }

  /** The j loop emits each quadruple once: the terminal j tells the k
      loops apart. */
  lemma {:induction false} JUpToDistinct(b: Bonds, n: nat, i: nat, m: nat)
    requires m <= n
    ensures Distinct(JUpTo(b, n, i, m))
  {
    if m > 0 {
      JUpToDistinct(b, n, i, m - 1);
      if Terminal(b, n, i, m - 1) {
        KUpToDistinct(b, n, i, m - 1, n);
        var earlier := JUpTo(b, n, i, m - 1);
        forall x | 0 <= x < |earlier|
          ensures earlier[x] !in KUpTo(b, i, m - 1, n)
        {
          assert earlier[x] in earlier;
          JUpToMember(b, n, i, m - 1, earlier[x]);
          KUpToMember(b, n, i, m - 1, n, earlier[x]);
        }
        DistinctAppend(earlier, KUpTo(b, i, m - 1, n));
      }
    }
  }

  /** add_out emits each quadruple at most once: the centre i tells the j
      loops apart. */
  lemma {:induction false} QuadsDistinct(b: Bonds, n: nat, m: nat)
    requires m <= n
    ensures Distinct(Quads(b, n, m))
  {
    if m > 0 {
      QuadsDistinct(b, n, m - 1);
      if Centre(b, n, m - 1) {
        JUpToDistinct(b, n, m - 1, n);
        var earlier := Quads(b, n, m - 1);
        forall x | 0 <= x < |earlier|
          ensures earlier[x] !in JUpTo(b, n, m - 1, n)
        {
          assert earlier[x] in earlier;
          QuadsMember(b, n, m - 1, earlier[x]);
          JUpToMember(b, n, m - 1, n, earlier[x]);
        }
        DistinctAppend(earlier, JUpTo(b, n, m - 1, n));
      }
    }
  }

  /** add_out: for every atom i of degree 3, every neighbour j of degree
      1, every other neighbour k and every neighbour l < k other than j,
      in that loop order, an out-of-plane coordinate labelled o1, o2, .... */
  method AddOut(list: SetIntCoor, b: Bonds, n: nat)
    modifies list
    ensures list.coors == old(list.coors) + Outs(Quads(b, n, n), 0)
  {
    var labelc := 0;
    for i := 0 to n
      invariant labelc == |Quads(b, n, i)|
      invariant list.coors == old(list.coors) + Outs(Quads(b, n, i), 0)
    {
      if !Centre(b, n, i) {
        continue;
      }
      OutsAppend(Quads(b, n, i), JUpTo(b, n, i, n), 0);
      AppendAssoc(old(list.coors), Outs(Quads(b, n, i), 0), Outs(JUpTo(b, n, i, n), labelc));
      labelc := OutsForCentre(list, b, n, i, labelc);
    }
  }

  method OutsForCentre(list: SetIntCoor, b: Bonds, n: nat, i: nat, labelc0: nat) returns (labelc: nat)
    modifies list
    ensures labelc == labelc0 + |JUpTo(b, n, i, n)|
    ensures list.coors == old(list.coors) + Outs(JUpTo(b, n, i, n), labelc0)
  {
    labelc := labelc0;
    for j := 0 to n
      invariant labelc == labelc0 + |JUpTo(b, n, i, j)|
      invariant list.coors == old(list.coors) + Outs(JUpTo(b, n, i, j), labelc0)
    {
      if Terminal(b, n, i, j) {
        OutsAppend(JUpTo(b, n, i, j), KUpTo(b, i, j, n), labelc0);
        AppendAssoc(old(list.coors), Outs(JUpTo(b, n, i, j), labelc0), Outs(KUpTo(b, i, j, n), labelc));
        labelc := OutsForTerminal(list, b, n, i, j, labelc);
      }
    }
  }

  method OutsForTerminal(list: SetIntCoor, b: Bonds, n: nat, i: nat, j: nat, labelc0: nat) returns (labelc: nat)
    modifies list
    ensures labelc == labelc0 + |KUpTo(b, i, j, n)|
    ensures list.coors == old(list.coors) + Outs(KUpTo(b, i, j, n), labelc0)
  {
    labelc := labelc0;
    for k := 0 to n
      invariant labelc == labelc0 + |KUpTo(b, i, j, k)|
      invariant list.coors == old(list.coors) + Outs(KUpTo(b, i, j, k), labelc0)
    {
      if Partner(b, i, j, k) {
        OutsAppend(KUpTo(b, i, j, k), LUpTo(b, i, j, k, k), labelc0);
        AppendAssoc(old(list.coors), Outs(KUpTo(b, i, j, k), labelc0), Outs(LUpTo(b, i, j, k, k), labelc));
        labelc := OutsForPair(list, b, i, j, k, labelc);
      }
    }
  }

  method OutsForPair(list: SetIntCoor, b: Bonds, i: nat, j: nat, k: nat, labelc0: nat) returns (labelc: nat)
    modifies list
    ensures labelc == labelc0 + |LUpTo(b, i, j, k, k)|
    ensures list.coors == old(list.coors) + Outs(LUpTo(b, i, j, k, k), labelc0)
  {
    labelc := labelc0;
    for l := 0 to k
      invariant labelc == labelc0 + |LUpTo(b, i, j, k, l)|
      invariant list.coors == old(list.coors) + Outs(LUpTo(b, i, j, k, l), labelc0)
    {
      if Partner(b, i, j, l) {
        OutsAppend(LUpTo(b, i, j, k, l), [Quad(j, i, l, k)], labelc0);
        AppendAssoc(old(list.coors), Outs(LUpTo(b, i, j, k, l), labelc0), Outs([Quad(j, i, l, k)], labelc));
        labelc := labelc + 1;
        list.Add(Out(Label('o', labelc), j + 1, i + 1, l + 1, k + 1));
      }
    }
  }
}
