/** find_bonds of chemistry/molecule/coor.cc: the close contacts of the
    geometry become bonds, and then groups of atoms not connected to atom
    0 are attached, one nearest atom at a time, until every atom is
    reached from atom 0. */
module IntCoorBonds {
  import opened IntCoorGen

  /** The atoms 0 .. n-1. */
  function Atoms(n: nat): (s: set<nat>)
    ensures forall x: nat :: x in s <==> x < n
  {
    if n == 0 then {} else Atoms(n - 1) + {n - 1}
  }

  // ---------------------------------------------------------------------
  // The close contacts

  /** Atoms i and j < i are closer than the scaled sum of their atomic
      radii; dist is the interatomic distance of the geometry. */
  predicate Near(dist: (nat, nat) -> real, rad: seq<real>, scale: real, i: nat, j: nat)
    requires i < |rad| && j < |rad|
  {
    dist(i, j) < scale * (rad[i] + rad[j])
  }

  /** The contacts (j, i) of row i with j < m. */
  function RowContacts(dist: (nat, nat) -> real, rad: seq<real>, scale: real, i: nat, m: nat): set<Pair>
    requires i < |rad| && m <= i
  {
    if m == 0 then {}
    else if Near(dist, rad, scale, i, m - 1) then RowContacts(dist, rad, scale, i, m - 1) + {Pair(m - 1, i)}
    else RowContacts(dist, rad, scale, i, m - 1)
  }

  /** b with the contacts of the rows below k added. */
  function ContactsUpTo(b: Bonds, dist: (nat, nat) -> real, rad: seq<real>, scale: real, k: nat): set<Pair>
    requires k <= |rad|
  {
    if k == 0 then b else ContactsUpTo(b, dist, rad, scale, k - 1) + RowContacts(dist, rad, scale, k - 1, k - 1)
  }

  /** The bond relation after the first pass of find_bonds. */
  function Contacts(b: Bonds, dist: (nat, nat) -> real, rad: seq<real>, scale: real): Bonds
  {
    ContactsUpTo(b, dist, rad, scale, |rad|)
  }

  lemma {:induction false} RowContactsMember(dist: (nat, nat) -> real, rad: seq<real>, scale: real, i: nat, m: nat, p: Pair)
    requires i < |rad| && m <= i
    ensures p in RowContacts(dist, rad, scale, i, m) <==> p.i == i && p.j < m && Near(dist, rad, scale, i, p.j)
  {
    if m > 0 {
      RowContactsMember(dist, rad, scale, i, m - 1, p);
    }
  }

  /** The first pass adds exactly the entries (j, i), j < i, of atoms
      that are near each other. */
  lemma {:induction false} ContactsMember(b: Bonds, dist: (nat, nat) -> real, rad: seq<real>, scale: real, k: nat, p: Pair)
    requires k <= |rad|
    ensures p in ContactsUpTo(b, dist, rad, scale, k) <==>
              p in b || (p.j < p.i < k && Near(dist, rad, scale, p.i, p.j))
  {
    if k > 0 {
      ContactsMember(b, dist, rad, scale, k - 1, p);
      RowContactsMember(dist, rad, scale, k - 1, k - 1, p);
    }
  }

  lemma {:induction false} ContactsShape(b: Bonds, dist: (nat, nat) -> real, rad: seq<real>, scale: real)
    requires Shape(b, |rad|)
    ensures Shape(Contacts(b, dist, rad, scale), |rad|)
  {
    forall p | p in Contacts(b, dist, rad, scale)
      ensures p.j <= p.i < |rad|
    {
      ContactsMember(b, dist, rad, scale, |rad|, p);
    }
  }

  /** The bonds part-way through the first pass stay within the atoms. */
  lemma {:induction false} ShapeUpTo(b: Bonds, dist: (nat, nat) -> real, rad: seq<real>, scale: real, i: nat, j: nat)
    requires Shape(b, |rad|) && j <= i < |rad|
    ensures Shape(ContactsUpTo(b, dist, rad, scale, i) + RowContacts(dist, rad, scale, i, j), |rad|)
  {
    forall p | p in ContactsUpTo(b, dist, rad, scale, i) + RowContacts(dist, rad, scale, i, j)
      ensures p.j <= p.i < |rad|
    {
      ContactsMember(b, dist, rad, scale, i, p);
      RowContactsMember(dist, rad, scale, i, j, p);
    }
  }

  /** The first pass of find_bonds: every pair j < i of near atoms is
      bonded. */
  method CloseContacts(b0: Bonds, dist: (nat, nat) -> real, rad: seq<real>, scale: real) returns (b: Bonds)
    requires Shape(b0, |rad|)
    ensures b == Contacts(b0, dist, rad, scale)
  {
    b := b0;
    for i := 0 to |rad|
      invariant b == ContactsUpTo(b0, dist, rad, scale, i)
    {
      for j := 0 to i
        invariant b == ContactsUpTo(b0, dist, rad, scale, i) + RowContacts(dist, rad, scale, i, j)
      {
        if dist(i, j) < scale * (rad[i] + rad[j]) {
          ShapeUpTo(b0, dist, rad, scale, i, j);
          b := SetBond(b, |rad|, i, j);
        }
      }
    }
  }

  // ---------------------------------------------------------------------
  // Connection to atom 0

  /** A walk along bonds. */
  ghost predicate IsPath(b: Bonds, p: seq<nat>)
  {
    |p| > 0 && forall k :: 0 <= k < |p| - 1 ==> Bonded(b, p[k], p[k + 1])
  }

  /** x is reached from atom 0 along bonds. */
  ghost predicate Reached(b: Bonds, x: nat)
  {
    exists p :: IsPath(b, p) && p[0] == 0 && p[|p| - 1] == x
  }

  /** Every atom is reached from atom 0. */
  ghost predicate Connected(b: Bonds, n: nat)
  {
    forall x: nat :: x < n ==> Reached(b, x)
  }

  /** No bond leaves s except into t. */
  predicate Closed(b: Bonds, n: nat, s: set<nat>, t: set<nat>)
  {
    forall a: nat, y: nat :: a in s && y < n && Bonded(b, a, y) ==> y in s + t
  }

  lemma {:induction false} ReachedZero(b: Bonds)
    ensures Reached(b, 0)
  {
    assert IsPath(b, [0]);
  }

  lemma {:induction false} ReachedStep(b: Bonds, x: nat, y: nat)
    requires Reached(b, x) && Bonded(b, x, y)
    ensures Reached(b, y)
  {
    var p :| IsPath(b, p) && p[0] == 0 && p[|p| - 1] == x;
    assert IsPath(b, p + [y]);
    assert (p + [y])[0] == 0;
  }

  lemma {:induction false} ReachedMono(b: Bonds, c: Bonds, x: nat)
    requires b <= c && Reached(b, x)
    ensures Reached(c, x)
  {
    var p :| IsPath(b, p) && p[0] == 0 && p[|p| - 1] == x;
    assert IsPath(c, p);
  }

  /** A walk from a member of a closed set stays in it. */
  lemma {:induction false} ClosedPath(b: Bonds, n: nat, s: set<nat>, p: seq<nat>, k: nat)
    requires Shape(b, n) && Closed(b, n, s, {}) && IsPath(b, p) && p[0] in s && k < |p|
    ensures p[k] in s
  {
    if k > 0 {
      ClosedPath(b, n, s, p, k - 1);
      var e := Entry(p[k - 1], p[k]);
      assert e in b;
      assert p[k] < n;
    }
  }

  /** A closed set holding atom 0 holds every atom reached from it. */
  lemma {:induction false} ClosedReach(b: Bonds, n: nat, s: set<nat>, x: nat)
    requires Shape(b, n) && Closed(b, n, s, {}) && 0 in s && Reached(b, x)
    ensures x in s
  {
    var p :| IsPath(b, p) && p[0] == 0 && p[|p| - 1] == x;
    ClosedPath(b, n, s, p, |p| - 1);
  }

  /** Atom i is bonded to a member of s. */
  predicate Adjacent(b: Bonds, s: set<nat>, i: nat)
  {
    exists a: nat :: a in s && Bonded(b, i, a)
  }

  /** One round of the inner loop of find_bonds: the atoms bonded to a
      new atom that are not bound yet. */
  method NextAtoms(b: Bonds, n: nat, bound: set<nat>, newatoms: set<nat>) returns (next: set<nat>)
    ensures forall x: nat :: x in next <==> x < n && x !in bound && Adjacent(b, newatoms, x)
  {
    next := {};
    var rest := newatoms;
    while rest != {}
      invariant rest <= newatoms
      invariant forall x: nat :: x in next <==> x < n && x !in bound && Adjacent(b, newatoms - rest, x)
      decreases rest
    {
      var atom :| atom in rest;
      ghost var done := newatoms - rest;
      for i := 0 to n
        invariant forall x: nat :: x in next <==>
                    x < n && x !in bound && (Adjacent(b, done, x) || (x < i && Bonded(b, x, atom)))
      {
        if Bonded(b, i, atom) && i !in bound {
          next := next + {i};
        }
      }
      rest := rest - {atom};
      forall x: nat | x < n && x !in bound
        ensures Adjacent(b, newatoms - rest, x) <==> Adjacent(b, done, x) || Bonded(b, x, atom)
      {
        if Adjacent(b, newatoms - rest, x) {
          var a :| a in newatoms - rest && Bonded(b, x, a);
          if a != atom {
            assert a in done;
          }
        }
        if Bonded(b, x, atom) {
          assert atom in newatoms - rest;
        }
      }
    }
  }

  /** The inner loop of find_bonds: the bound set grows by the new atoms
      and then by their unbound neighbours until nothing new is met.  The
      result is closed under bonds and reached from atom 0. */
  method Spread(b: Bonds, n: nat, bound0: set<nat>, new0: set<nat>) returns (bound: set<nat>)
    requires Shape(b, n) && bound0 <= Atoms(n) && new0 <= Atoms(n) && bound0 !! new0
    requires Closed(b, n, bound0, new0)
    requires forall x :: x in bound0 + new0 ==> Reached(b, x)
    ensures bound0 + new0 <= bound <= Atoms(n)
    ensures Closed(b, n, bound, {})
    ensures forall x :: x in bound ==> Reached(b, x)
  {
    bound := bound0;
    var newatoms := new0;
    while newatoms != {}
      invariant bound <= Atoms(n) && newatoms <= Atoms(n) && bound !! newatoms
      invariant bound0 + new0 <= bound + newatoms
      invariant Closed(b, n, bound, newatoms)
      invariant forall x: nat :: x in bound + newatoms ==> Reached(b, x)
      decreases Atoms(n) - bound
    {
      var a0 :| a0 in newatoms;
      ghost var before := bound;
      bound := bound + newatoms;
      var next := NextAtoms(b, n, bound, newatoms);
      forall x | x in next
        ensures Reached(b, x)
      {
        var a :| a in newatoms && Bonded(b, x, a);
        BondedSymmetric(b, x, a);
        ReachedStep(b, a, x);
      }
      forall a: nat, y: nat | a in bound && y < n && Bonded(b, a, y)
        ensures y in bound + next
      {
        if a in newatoms && y !in bound {
          BondedSymmetric(b, a, y);
          assert Adjacent(b, newatoms, y);
        }
      }
      newatoms := next;
      assert a0 in Atoms(n) - before && a0 !in Atoms(n) - bound;
    }
  }

  /** The unbound atom i and the bound atom j, both below n. */
  predicate Candidate(n: nat, bound: set<nat>, i: nat, j: nat)
  {
    i < n && i !in bound && j in bound
  }

  /** (i, j) comes before (x, y) in the search order of find_bonds:
      unbound atoms ascending, and for each the bound atoms ascending. */
  predicate SearchedBefore(i: nat, j: nat, x: nat, y: nat)
  {
    i < x || (i == x && j < y)
  }

  /** The search for the nearest pair of an unbound atom nu and a bound
      atom nb: the first pair of least distance in search order, or -1
      for both when there is no pair. */
  method Nearest(n: nat, bound: set<nat>, dist: (nat, nat) -> real) returns (nb: int, nu: int, nd: real)
    requires bound <= Atoms(n)
    ensures nb == -1 <==> nu == -1
    ensures nb == -1 <==> bound == {} || bound == Atoms(n)
    ensures nb != -1 ==> nb >= 0 && nu >= 0 && Candidate(n, bound, nu, nb) && nd == dist(nu, nb)
    ensures nb != -1 ==> forall i: nat, j: nat :: Candidate(n, bound, i, j) ==> nd <= dist(i, j)
    ensures nb != -1 ==> forall i: nat, j: nat :: Candidate(n, bound, i, j) && SearchedBefore(i, j, nu, nb) ==> nd < dist(i, j)
  {
    nb, nu, nd := -1, -1, 0.0;
    for i := 0 to n
      invariant nb == -1 <==> nu == -1
      invariant nb == -1 ==> forall x: nat, y: nat :: Candidate(n, bound, x, y) ==> !SearchedBefore(x, y, i, 0)
      invariant nb != -1 ==> nb >= 0 && nu >= 0 && Candidate(n, bound, nu, nb) && SearchedBefore(nu, nb, i, 0)
      invariant nb != -1 ==> nd == dist(nu, nb)
      invariant nb != -1 ==> forall x: nat, y: nat :: Candidate(n, bound, x, y) && SearchedBefore(x, y, i, 0) ==>
                  nd <= dist(x, y) && (SearchedBefore(x, y, nu, nb) ==> nd < dist(x, y))
    {
      if i !in bound {
        for j := 0 to n
          invariant nb == -1 <==> nu == -1
          invariant nb == -1 ==> forall x: nat, y: nat :: Candidate(n, bound, x, y) ==> !SearchedBefore(x, y, i, j)
          invariant nb != -1 ==> nb >= 0 && nu >= 0 && Candidate(n, bound, nu, nb) && SearchedBefore(nu, nb, i, j)
          invariant nb != -1 ==> nd == dist(nu, nb)
          invariant nb != -1 ==> forall x: nat, y: nat :: Candidate(n, bound, x, y) && SearchedBefore(x, y, i, j) ==>
                      nd <= dist(x, y) && (SearchedBefore(x, y, nu, nb) ==> nd < dist(x, y))
        {
          if j in bound {
            var d := dist(i, j);
            if nu == -1 || d < nd {
              nd := d;
              nb := j;
              nu := i;
            }
          }
        }
      }
    }
    if nb == -1 && bound != {} {
      var y: nat :| y in bound;
      forall x: nat | x < n
        ensures x in bound
      {
        assert !Candidate(n, bound, x, y);
      }
      assert bound == Atoms(n);
    }
  }

  /** The bound atoms a attached to nu: nb itself, and every bound atom
      closer to nu than 1.1 times the nearest distance. */
  predicate Joins(dist: (nat, nat) -> real, bound: set<nat>, nb: nat, nu: nat, nd: real, a: nat)
  {
    a in bound && (a == nb || dist(nu, a) < 1.1 * nd)
  }

  /** The bonds from nu to the joining atoms below k. */
  function JoinedUpTo(dist: (nat, nat) -> real, bound: set<nat>, nb: nat, nu: nat, nd: real, k: nat): set<Pair>
  {
    if k == 0 then {}
    else if Joins(dist, bound, nb, nu, nd, k - 1) then JoinedUpTo(dist, bound, nb, nu, nd, k - 1) + {Entry(k - 1, nu)}
    else JoinedUpTo(dist, bound, nb, nu, nd, k - 1)
  }

  /** The new bonds are exactly those between nu and a joining atom. */
  lemma {:induction false} JoinedMember(dist: (nat, nat) -> real, bound: set<nat>, nb: nat, nu: nat, nd: real, k: nat, a: nat)
    ensures Entry(a, nu) in JoinedUpTo(dist, bound, nb, nu, nd, k) <==> a < k && Joins(dist, bound, nb, nu, nd, a)
  {
    if k > 0 {
      JoinedMember(dist, bound, nb, nu, nd, k - 1, a);
      EntryInjective(a, nu, k - 1, nu);
    }
  }

  /** Every new bond touches nu. */
  lemma {:induction false} JoinedTouch(dist: (nat, nat) -> real, bound: set<nat>, nb: nat, nu: nat, nd: real, k: nat, p: Pair)
    requires p in JoinedUpTo(dist, bound, nb, nu, nd, k)
    ensures exists a: nat :: a < k && Joins(dist, bound, nb, nu, nd, a) && p == Entry(a, nu)
  {
    if p !in JoinedUpTo(dist, bound, nb, nu, nd, k - 1) {
      assert p == Entry(k - 1, nu);
    } else {
      JoinedTouch(dist, bound, nb, nu, nd, k - 1, p);
    }
  }

  /** An entry names its two atoms. */
  lemma {:induction false} EntryInjective(a: nat, b: nat, c: nat, d: nat)
    ensures Entry(a, b) == Entry(c, d) <==> (a == c && b == d) || (a == d && b == c)
  {
  }

  /** The attachment of find_bonds: nu is bonded to nb and to every bound
      atom within 1.1 times the nearest distance of it. */
  method Attach(b0: Bonds, n: nat, bound: set<nat>, nb: nat, nu: nat, nd: real, dist: (nat, nat) -> real) returns (b: Bonds)
    requires Shape(b0, n) && bound <= Atoms(n) && nu < n
    ensures b == b0 + JoinedUpTo(dist, bound, nb, nu, nd, n)
  {
    b := b0;
    for a := 0 to n
      invariant b == b0 + JoinedUpTo(dist, bound, nb, nu, nd, a)
      invariant Shape(b, n)
    {
      if a in bound {
        if a == nb || dist(nu, a) < 1.1 * nd {
          b := SetBond(b, n, a, nu);
        }
      }
    }
  }

  /** find_bonds: the close contacts are bonded, then while some atom is
      not reached from atom 0 the nearest unbound atom is bonded to the
      bound atoms near it.  ok is false when there are no atoms, where the
      source aborts on finding no nearest pair.  Every atom ends up
      reached, and a geometry whose contacts already connect it gets no
      further bonds. */
  method FindBonds(b0: Bonds, dist: (nat, nat) -> real, rad: seq<real>, scale: real) returns (ok: bool, b: Bonds)
    requires Shape(b0, |rad|)
    ensures ok <==> |rad| > 0
    ensures Shape(b, |rad|)
    ensures Contacts(b0, dist, rad, scale) <= b
    ensures ok ==> Connected(b, |rad|)
    ensures Connected(Contacts(b0, dist, rad, scale), |rad|) ==> b == Contacts(b0, dist, rad, scale)
  {
    var n := |rad|;
    b := CloseContacts(b0, dist, rad, scale);
    ContactsShape(b0, dist, rad, scale);
    ghost var b1 := b;
    if n == 0 {
      return false, b;
    }
    var bound: set<nat> := {};
    var newatoms: set<nat> := {0};
    ReachedZero(b);
    while newatoms != {}
      invariant Shape(b, n) && b1 <= b
      invariant bound <= Atoms(n) && newatoms <= Atoms(n) && bound !! newatoms
      invariant 0 in bound + newatoms
      invariant Closed(b, n, bound, newatoms)
      invariant forall x: nat :: x in bound + newatoms ==> Reached(b, x)
      invariant newatoms == {} ==> bound == Atoms(n)
      invariant Connected(b1, n) ==> b == b1
      decreases Atoms(n) - bound
    {
      var a0 :| a0 in newatoms;
      ghost var before := bound;
      bound := Spread(b, n, bound, newatoms);
      assert a0 in Atoms(n) - before && a0 !in Atoms(n) - bound;
      newatoms := {};
      if Connected(b1, n) && b == b1 {
        forall x | x in Atoms(n)
          ensures x in bound
        {
          ClosedReach(b, n, bound, x);
        }
      }
      if bound != Atoms(n) {
        var nb, nu, nd := Nearest(n, bound, dist);
        if nb == -1 {
          assert false;
        }
        ghost var old_b := b;
        b := Attach(b, n, bound, nb, nu, nd, dist);
        AttachKeeps(old_b, b, n, bound, nb, nu, nd, dist);
        newatoms := {nu};
      }
    }
    ok := true;
  }

  /** What the attachment keeps: the old bonds, the shape, reachability of
      the bound atoms, and closure of the bound set into {nu}; and nu is
      reached through nb. */
  lemma {:induction false} AttachKeeps(b0: Bonds, b: Bonds, n: nat, bound: set<nat>, nb: nat, nu: nat, nd: real, dist: (nat, nat) -> real)
    requires Shape(b0, n) && bound <= Atoms(n) && nb in bound && nu < n && nu !in bound
    requires Closed(b0, n, bound, {})
    requires forall x :: x in bound ==> Reached(b0, x)
    requires b == b0 + JoinedUpTo(dist, bound, nb, nu, nd, n)
    ensures Shape(b, n) && b0 <= b
    ensures Closed(b, n, bound, {nu})
    ensures forall x :: x in bound + {nu} ==> Reached(b, x)
  {
    forall p | p in b
      ensures p.j <= p.i < n
    {
      if p !in b0 {
        JoinedTouch(dist, bound, nb, nu, nd, n, p);
      }
    }
    forall a: nat, y: nat | a in bound && y < n && Bonded(b, a, y)
      ensures y in bound + {nu}
    {
      if !Bonded(b0, a, y) {
        var p := Entry(a, y);
        JoinedTouch(dist, bound, nb, nu, nd, n, p);
        var c: nat :| c < n && Joins(dist, bound, nb, nu, nd, c) && p == Entry(c, nu);
        EntryInjective(a, y, c, nu);
      }
    }
    forall x | x in bound
      ensures Reached(b, x)
    {
      ReachedMono(b0, b, x);
    }
    JoinedMember(dist, bound, nb, nu, nd, n, nb);
    ReachedStep(b, nb, nu);
  }
}
