/** The closed-shell SCF occupation bookkeeping (chemistry/qc/scf/clscf.cc):
    the count of doubly occupied orbitals per irreducible representation,
    its defaults from the input, the aufbau update, the single Fock
    matrix, and the element operation that zeroes virtual rows of the
    Lagrangian. */
module ClSCF {
  import opened Wrappers
  import opened Aufbau

  /** C++ integer division, which truncates toward zero. */
  function TruncDiv(a: int, b: int): (q: int)
    requires b > 0
    ensures a >= 0 ==> q == a / b
    ensures a < 0 ==> q == -((-a) / b)
  {
    if a >= 0 then a / b else -((-a) / b)
  }

  /** The Fock matrices an SCF object hands out. */
  datatype FockMatrix = ClosedFock | FockA | FockB | KA | KB

  /** fock(n): a matrix, or the abort of an out-of-range request. */
  datatype FockResult = Aborted | Matrix(m: FockMatrix)

  /** docc[i] as read from the input: absent entries are 0. */
  function DoccAt(docc: seq<Option<int>>, i: nat): int
  {
    if i < |docc| && docc[i].Some? then docc[i].value else 0
  }

  class CLSCF {
    /** The total number of doubly occupied orbitals. */
    var tndocc: int
    /** The number of irreducible representations of the point group. */
    const nirrep: nat
    /** Doubly occupied orbitals per irrep; None until they are set. */
    var ndocc: Option<seq<int>>
    /** Whether the input fixed the occupations. */
    var userOccupations: bool
    var maxiter: int

    /** The keyval constructor.  Znuc is the nuclear charge, charge the
        total_charge keyword (0 when absent), ndoccKey and doccKey the
        ndocc and docc keywords, maxiterKey a maxiter keyword (read by the
        base class), and evals the initial guess's orbital energies per
        irrep, which set_occupations uses when docc is absent. */
    constructor (Znuc: int, charge: int, ndoccKey: Option<int>, doccKey: Option<seq<Option<int>>>,
                 nirrep: nat, maxiterKey: Option<int>, evals: seq<seq<real>>)
      requires |evals| == nirrep
      ensures this.nirrep == nirrep
      ensures tndocc == if ndoccKey.Some? then ndoccKey.value else TruncDiv(Znuc - charge, 2)
      ensures userOccupations <==> doccKey.Some?
      ensures doccKey.Some? ==> ndocc == Some(seq(nirrep, i requires 0 <= i => DoccAt(doccKey.value, i)))
      ensures doccKey.None? && nirrep == 1 ==> ndocc == Some([tndocc])
      ensures doccKey.None? && nirrep != 1 ==>
                match Fill(evals, tndocc, seq(nirrep, _ => 0))
                case Filled(_, occ) => ndocc == Some(occ)
                case Exhausted => ndocc == None
      ensures maxiter == if maxiterKey.Some? then maxiterKey.value else 40
    {
      tndocc := if ndoccKey.Some? then ndoccKey.value else TruncDiv(Znuc - charge, 2);
      this.nirrep := nirrep;
      maxiter := if maxiterKey.Some? then maxiterKey.value else 40;
      ndocc := None;
      userOccupations := false;
      new;
      if doccKey.Some? {
        var d := new int[nirrep];
        userOccupations := true;
        for i := 0 to nirrep
          modifies d
          invariant forall k :: 0 <= k < i ==> d[k] == DoccAt(doccKey.value, k)
        {
          d[i] := 0;
          if i < |doccKey.value| && doccKey.value[i].Some? {
            d[i] := doccKey.value[i].value;
          }
        }
        assert d[..] == seq(nirrep, i requires 0 <= i => DoccAt(doccKey.value, i));
        ndocc := Some(d[..]);
      } else {
        var ok := SetOccupations(evals);
      }
    }

    /** occupation(ir, i): 2 for a doubly occupied orbital, 0 otherwise. */
    function Occupation(ir: nat, i: int): (r: real)
      reads this
      requires ndocc.Some? && ir < |ndocc.value|
      ensures r == 2.0 || r == 0.0
      ensures r == 2.0 <==> i < ndocc.value[ir]
    {
      if i < ndocc.value[ir] then 2.0 else 0.0
    }

    /** The electrons in the first nf orbitals of irrep ir. */
    function Electrons(ir: nat, nf: nat): real
      reads this
      requires ndocc.Some? && ir < |ndocc.value|
    {
      if nf == 0 then 0.0 else Electrons(ir, nf - 1) + Occupation(ir, nf - 1)
    }

    function NFockMatrices(): (n: nat)
      ensures n == 1
    {
      1
    }

    /** fock(n): the one closed-shell Fock matrix; any n above 0 aborts
        (a negative n is not checked and also yields it). */
    function Fock(n: int): (r: FockResult)
      ensures r.Aborted? <==> n >= NFockMatrices()
      ensures r.Matrix? ==> r.m == ClosedFock
    {
      if n > 0 then Aborted else Matrix(ClosedFock)
    }

    /** set_occupations(ev): nothing when the input fixed the occupations;
        with one irrep every pair goes to it (once, when nothing is set
        yet); otherwise the aufbau pass over the orbital energies decides
        the counts, which replace the current ones.  ok is false when the
        pass runs out of orbitals, where the source reads an uninitialised
        irrep index; the model then changes nothing. */
    method SetOccupations(evals: seq<seq<real>>) returns (ok: bool)
      requires |evals| == nirrep
      modifies this
      ensures tndocc == old(tndocc) && userOccupations == old(userOccupations) && maxiter == old(maxiter)
      ensures old(userOccupations) ==> ok && ndocc == old(ndocc)
      ensures !old(userOccupations) && nirrep == 1 ==>
                ok && ndocc == (if old(ndocc).None? then Some([tndocc]) else old(ndocc))
      ensures !old(userOccupations) && nirrep != 1 ==>
                (ok <==> Fill(evals, tndocc, seq(nirrep, _ => 0)).Filled?) &&
                ndocc == (if ok then Some(Fill(evals, tndocc, seq(nirrep, _ => 0)).occ) else old(ndocc))
    {
      if userOccupations {
        return true;
      }
      if nirrep == 1 {
        if ndocc.None? {
          ndocc := Some([tndocc]);
        }
        return true;
      }
      var r := FillLoop(evals, tndocc);
      if r.Exhausted? {
        return false;
      }
      // Adopted on the first call, copied over on later ones: either way
      // the new counts replace the old.
      ndocc := Some(r.occ);
      ok := true;
    }
  }

  /** The electrons of an irrep: two per doubly occupied orbital among the
      first nf. */
  lemma {:induction false} ElectronsInIrrep(scf: CLSCF, ir: nat, nf: nat)
    requires scf.ndocc.Some? && ir < |scf.ndocc.value| && scf.ndocc.value[ir] >= 0
    ensures scf.Electrons(ir, nf) == 2.0 * (if nf < scf.ndocc.value[ir] then nf else scf.ndocc.value[ir]) as real
  {
    if nf > 0 {
      ElectronsInIrrep(scf, ir, nf - 1);
    }
  }

  /** What set_occupations computes for several irreps: tndocc pairs in
      total, no irrep given more pairs than it has orbitals below the
      sentinel (the orbitals filled are the lowest by
      Aufbau.FillTakesLowest). */
  lemma {:induction false} AufbauOccupations(evals: seq<seq<real>>, tndocc: int, a: nat)
    requires a < |evals|
    requires Fill(evals, tndocc, seq(|evals|, _ => 0)).Filled?
    ensures var r := Fill(evals, tndocc, seq(|evals|, _ => 0));
      && |r.occ| == |evals|
      && Sum(r.occ) == Max0(tndocc)
      && 0 <= r.occ[a] <= RowAvail(evals[a]) <= |evals[a]|
  {
    var zeros := seq(|evals|, _ => 0);
    SumZeros(|evals|);
    FillCounts(evals, tndocc, zeros);
    FillPerIrrep(evals, tndocc, zeros, a);
    assert zeros[a] == 0;
    RowAvailBound(evals[a]);
    RowAvailBound(Fill(evals, tndocc, zeros).vals[a]);
  }

  lemma {:induction false} SumZeros(n: nat)
    ensures Sum(seq(n, _ => 0)) == 0
  {
    if n > 0 {
      assert seq(n, _ => 0)[..n - 1] == seq(n - 1, _ => 0);
      SumZeros(n - 1);
    }
  }

  /** Exactly tndocc pairs are placed by the pass when there are enough
      orbitals, and the pass fails exactly when there are not. */
  lemma {:induction false} AufbauSucceeds(evals: seq<seq<real>>, tndocc: int)
    ensures Fill(evals, tndocc, seq(|evals|, _ => 0)).Filled? <==> tndocc <= Avail(evals)
  {
    FillSucceeds(evals, tndocc, seq(|evals|, _ => 0));
  }

  /** The Lagrangian block after CLLag::process, for an irrep with nd
      doubly occupied orbitals: rows[k] is the row index of element k. */
  function Lag(nd: int, rows: seq<nat>, vals: seq<real>): (r: seq<real>)
    requires |rows| == |vals|
  {
    seq(|vals|, k requires 0 <= k < |vals| => if rows[k] < nd then vals[k] else 0.0)
  }

  /** CLLag::process over one block: the elements of rows whose orbital is
      unoccupied (occupation 0) become 0, the rest are kept. */
  method LagProcess(scf: CLSCF, ir: nat, rows: seq<nat>, vals: array<real>)
    requires scf.ndocc.Some? && ir < |scf.ndocc.value| && |rows| == vals.Length
    modifies vals
    ensures vals[..] == Lag(scf.ndocc.value[ir], rows, old(vals[..]))
  {
    for k := 0 to vals.Length
      invariant forall j :: 0 <= j < k ==> vals[j] == if rows[j] < scf.ndocc.value[ir] then old(vals[j]) else 0.0
      invariant forall j :: k <= j < vals.Length ==> vals[j] == old(vals[j])
    {
      var occi := scf.Occupation(ir, rows[k]);
      if occi == 0.0 {
        vals[k] := 0.0;
      }
    }
  }

  /** The operation keeps the occupied rows, zeroes the rest, and applying
      it a second time changes nothing. */
  lemma {:induction false} LagZeroesVirtuals(nd: int, rows: seq<nat>, vals: seq<real>)
    requires |rows| == |vals|
    ensures |Lag(nd, rows, vals)| == |vals|
    ensures forall k :: 0 <= k < |vals| && rows[k] < nd ==> Lag(nd, rows, vals)[k] == vals[k]
    ensures forall k :: 0 <= k < |vals| && rows[k] >= nd ==> Lag(nd, rows, vals)[k] == 0.0
    ensures Lag(nd, rows, Lag(nd, rows, vals)) == Lag(nd, rows, vals)
  {
  }
}
