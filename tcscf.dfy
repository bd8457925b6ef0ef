/** The two-configuration SCF occupation bookkeeping
    (chemistry/qc/scf/tcscf.cc): doubly occupied orbitals per irreducible
    representation plus two open shells osa and osb, each the lowest
    virtual orbital of its irrep, with occupations occa and occb. */
module TcSCF {
  import opened Wrappers
  import opened Aufbau
  import opened ClSCF

  /** The open shells read from a socc keyword, scanning irreps from i:
      the first irrep with a nonzero entry becomes osa, the second osb, and
      a third aborts (None). */
  function ShellsFrom(socc: seq<Option<int>>, i: nat, n: nat, osa: int, osb: int): (r: Option<(int, int)>)
    requires i <= n
    decreases n - i
  {
    if i == n then Some((osa, osb))
    else
      var nsi := DoccAt(socc, i);
      if nsi != 0 && osa < 0 then ShellsFrom(socc, i + 1, n, i, osb)
      else if nsi != 0 && osb < 0 then ShellsFrom(socc, i + 1, n, osa, i)
      else if nsi != 0 then None
      else ShellsFrom(socc, i + 1, n, osa, osb)
  }

  /** The irreps, below n, whose socc entry is nonzero, in order. */
  function Opens(socc: seq<Option<int>>, n: nat): (r: seq<nat>)
  {
    if n == 0 then [] else Opens(socc, n - 1) + seq(if DoccAt(socc, n - 1) != 0 then 1 else 0, _ => n - 1)
  }

  /** The pair (osa, osb) that records a list of at most two irreps, -1
      standing for "none". */
  function Enc(o: seq<nat>): (int, int)
  {
    (if |o| > 0 then o[0] else -1, if |o| > 1 then o[1] else -1)
  }

  lemma {:induction false} OpensGrow(socc: seq<Option<int>>, i: nat, n: nat)
    requires i <= n
    ensures |Opens(socc, i)| <= |Opens(socc, n)|
    decreases n - i
  {
    if i < n {
      OpensGrow(socc, i, n - 1);
    }
  }

  lemma {:induction false} ShellsFromOpens(socc: seq<Option<int>>, i: nat, n: nat, osa: int, osb: int)
    requires i <= n && |Opens(socc, i)| <= 2 && (osa, osb) == Enc(Opens(socc, i))
    ensures ShellsFrom(socc, i, n, osa, osb) == if |Opens(socc, n)| > 2 then None else Some(Enc(Opens(socc, n)))
    decreases n - i
  {
    if i < n {
      var o := Opens(socc, i);
      var o' := Opens(socc, i + 1);
      assert o' == o + seq(if DoccAt(socc, i) != 0 then 1 else 0, _ => i);
      if DoccAt(socc, i) != 0 && osa >= 0 && osb >= 0 {
        OpensGrow(socc, i + 1, n);
      } else if DoccAt(socc, i) != 0 && osa < 0 {
        ShellsFromOpens(socc, i + 1, n, i, osb);
      } else if DoccAt(socc, i) != 0 {
        ShellsFromOpens(socc, i + 1, n, osa, i);
      } else {
        ShellsFromOpens(socc, i + 1, n, osa, osb);
      }
    }
  }

  /** The constructor's socc scan aborts exactly when more than two irreps
      have open shells; otherwise osa is the first such irrep and osb the
      second, -1 where there is none. */
  lemma {:induction false} UserShells(socc: seq<Option<int>>, n: nat)
    ensures ShellsFrom(socc, 0, n, -1, -1) == if |Opens(socc, n)| > 2 then None else Some(Enc(Opens(socc, n)))
  {
    ShellsFromOpens(socc, 0, n, -1, -1);
  }

  /** The listed irreps are exactly the nonzero socc entries, in
      increasing order. */
  lemma {:induction false} OpensMembers(socc: seq<Option<int>>, n: nat)
    ensures forall k :: 0 <= k < |Opens(socc, n)| ==> Opens(socc, n)[k] < n && DoccAt(socc, Opens(socc, n)[k]) != 0
    ensures forall k, m :: 0 <= k < m < |Opens(socc, n)| ==> Opens(socc, n)[k] < Opens(socc, n)[m]
    ensures forall x :: 0 <= x < n && DoccAt(socc, x) != 0 ==> x in Opens(socc, n)
  {
    if n > 0 {
      OpensMembers(socc, n - 1);
      if DoccAt(socc, n - 1) != 0 {
        OpensSnoc(socc, n, Opens(socc, n - 1));
      } else {
        assert Opens(socc, n) == Opens(socc, n - 1);
      }
    }
  }

  /** The step of OpensMembers when irrep n - 1 is open: the facts for
      o carry over to o + [n - 1]. */
  lemma {:induction false} OpensSnoc(socc: seq<Option<int>>, n: nat, o: seq<nat>)
    requires n > 0 && DoccAt(socc, n - 1) != 0 && o == Opens(socc, n - 1)
    requires forall k :: 0 <= k < |o| ==> o[k] < n - 1 && DoccAt(socc, o[k]) != 0
    requires forall k, m :: 0 <= k < m < |o| ==> o[k] < o[m]
    requires forall x :: 0 <= x < n - 1 && DoccAt(socc, x) != 0 ==> x in o
    ensures forall k :: 0 <= k < |Opens(socc, n)| ==> Opens(socc, n)[k] < n && DoccAt(socc, Opens(socc, n)[k]) != 0
    ensures forall k, m :: 0 <= k < m < |Opens(socc, n)| ==> Opens(socc, n)[k] < Opens(socc, n)[m]
    ensures forall x :: 0 <= x < n && DoccAt(socc, x) != 0 ==> x in Opens(socc, n)
  {
    var r := o + [n - 1];
    assert Opens(socc, n) == r;
    assert r[|o|] == n - 1;
    assert forall k :: 0 <= k < |o| ==> r[k] == o[k];
  }

  /** What the aufbau path of set_occupations settles: the doubly occupied
      counts and the two open shells, or None where the source would read
      an uninitialised irrep index. */
  function AutoOccupations(evals: seq<seq<real>>, tndocc: int): (r: Option<(seq<int>, nat, nat)>)
  {
    match Fill(evals, tndocc, seq(|evals|, _ => 0))
    case Exhausted => None
    case Filled(v, occ) =>
      match OpenPass(v)
      case None => None
      case Some(shells) => Some((occ, shells.0, shells.1))
  }

  /** A later set_occupations keeps the open shells unless one of the new
      ones is in neither old position. */
  predicate ShellsChanged(a: int, b: int, osa: int, osb: int)
  {
    (a != osa && a != osb) || (b != osb && b != osa)
  }

  /** When set_occupations keeps the old open shells, they are the same
      two irreps as the new ones. */
  lemma {:induction false} KeptShellsAgree(a: int, b: int, osa: int, osb: int)
    requires a < b && !ShellsChanged(a, b, osa, osb)
    ensures {a, b} == {osa, osb}
  {
  }

  /** The aufbau path gives two different open-shell irreps in increasing
      order, each a real irrep, and tndocc pairs in total. */
  lemma {:induction false} AutoOccupationsFacts(evals: seq<seq<real>>, tndocc: int)
    requires AutoOccupations(evals, tndocc).Some?
    ensures var r := AutoOccupations(evals, tndocc).value;
      && r.1 < r.2 < |evals|
      && |r.0| == |evals| && Sum(r.0) == Max0(tndocc)
  {
    var zeros := seq(|evals|, _ => 0);
    SumZeros(|evals|);
    FillCounts(evals, tndocc, zeros);
    OpenPassFacts(Fill(evals, tndocc, zeros).vals);
  }

  /** occa from the input: the occa keyword, else twice the square of
      the ci1 keyword, else 1.  occb is always 2 - occa. */
  function Occa(ci1Key: Option<real>, occaKey: Option<real>): real
  {
    if occaKey.Some? then occaKey.value
    else if ci1Key.Some? then 2.0 * ci1Key.value * ci1Key.value
    else 1.0
  }

  class TCSCF {
    var tndocc: int
    const nirrep: nat
    var ndocc: Option<seq<int>>
    /** The two open-shell irreps; -1 when not set. */
    var osa: int
    var osb: int
    const occa: real
    const occb: real
    var userOccupations: bool
    var maxiter: int
    var levelShift: real

    constructor Init(tndocc: int, nirrep: nat, occa: real, occb: real, maxiter: int, levelShift: real)
      ensures this.tndocc == tndocc && this.nirrep == nirrep && this.occa == occa && this.occb == occb
      ensures this.maxiter == maxiter && this.levelShift == levelShift
      ensures ndocc == None && osa == -1 && osb == -1 && !userOccupations
    {
      this.tndocc := tndocc;
      this.nirrep := nirrep;
      this.occa := occa;
      this.occb := occb;
      this.maxiter := maxiter;
      this.levelShift := levelShift;
      ndocc := None;
      osa := -1;
      osb := -1;
      userOccupations := false;
    }

    /** occupation(ir, i): 2 below the irrep's doubly occupied count, occa
        or occb at the first orbital above it in the irrep of osa or osb,
        0 elsewhere. */
    function Occupation(ir: nat, i: int): (r: real)
      reads this
      requires ndocc.Some? && ir < |ndocc.value|
      ensures i < ndocc.value[ir] ==> r == 2.0
      ensures i > ndocc.value[ir] ==> r == 0.0
      ensures i == ndocc.value[ir] ==> r == (if ir == osa then occa else if ir == osb then occb else 0.0)
    {
      if i < ndocc.value[ir] then 2.0
      else if ir == osa && i == ndocc.value[ir] then occa
      else if ir == osb && i == ndocc.value[ir] then occb
      else 0.0
    }

    /** alpha_occupation: 1 for a doubly occupied orbital, half of occa at
        the osa open shell, 0 elsewhere. */
    function AlphaOccupation(ir: nat, i: int): (r: real)
      reads this
      requires ndocc.Some? && ir < |ndocc.value|
      ensures i < ndocc.value[ir] ==> r == 1.0
      ensures i >= ndocc.value[ir] && (i > ndocc.value[ir] || ir != osa) ==> r == 0.0
      ensures ir == osa && i == ndocc.value[ir] ==> r == 0.5 * occa
    {
      if i < ndocc.value[ir] then 1.0
      else if ir == osa && i == ndocc.value[ir] then 0.5 * occa
      else 0.0
    }

    /** beta_occupation: as alpha, with osb and occb. */
    function BetaOccupation(ir: nat, i: int): (r: real)
      reads this
      requires ndocc.Some? && ir < |ndocc.value|
      ensures i < ndocc.value[ir] ==> r == 1.0
      ensures i >= ndocc.value[ir] && (i > ndocc.value[ir] || ir != osb) ==> r == 0.0
      ensures ir == osb && i == ndocc.value[ir] ==> r == 0.5 * occb
    {
      if i < ndocc.value[ir] then 1.0
      else if ir == osb && i == ndocc.value[ir] then 0.5 * occb
      else 0.0
    }

    /** The electrons in the first nf orbitals of irrep ir. */
    function Electrons(ir: nat, nf: nat): real
      reads this
      requires ndocc.Some? && ir < |ndocc.value|
    {
      if nf == 0 then 0.0 else Electrons(ir, nf - 1) + Occupation(ir, nf - 1)
    }

    /** The alpha electrons in the first nf orbitals of irrep ir. */
    function AlphaElectrons(ir: nat, nf: nat): real
      reads this
      requires ndocc.Some? && ir < |ndocc.value|
    {
      if nf == 0 then 0.0 else AlphaElectrons(ir, nf - 1) + AlphaOccupation(ir, nf - 1)
    }

    /** The beta electrons in the first nf orbitals of irrep ir. */
    function BetaElectrons(ir: nat, nf: nat): real
      reads this
      requires ndocc.Some? && ir < |ndocc.value|
    {
      if nf == 0 then 0.0 else BetaElectrons(ir, nf - 1) + BetaOccupation(ir, nf - 1)
    }

    function NFockMatrices(): (n: nat)
      ensures n == 4
    {
      4
    }

    /** fock(n): 0 the alpha Fock matrix, 1 the beta one, 2 the alpha
        exchange matrix, and any other n up to 3 (negative ones included)
        the beta exchange matrix; above 3 it aborts. */
    function Fock(n: int): (r: FockResult)
      ensures r.Aborted? <==> n >= NFockMatrices()
      ensures n < 0 ==> r == Matrix(KB)
    {
      if n > 3 then Aborted
      else if n == 0 then Matrix(FockA)
      else if n == 1 then Matrix(FockB)
      else if n == 2 then Matrix(KA)
      else Matrix(KB)
    }

    /** set_occupations(ev): nothing when the input fixed the occupations;
        otherwise the doubly-occupied aufbau pass, then the open-shell
        pass.  The first call adopts the result; a later one copies the
        counts and replaces the open shells only when they changed.  ok is
        false where the source would read an uninitialised irrep index; the
        model then changes nothing. */
    method SetOccupations(evals: seq<seq<real>>) returns (ok: bool)
      requires |evals| == nirrep
      modifies this
      ensures tndocc == old(tndocc) && userOccupations == old(userOccupations)
      ensures maxiter == old(maxiter) && levelShift == old(levelShift)
      ensures old(userOccupations) ==> ok && ndocc == old(ndocc) && osa == old(osa) && osb == old(osb)
      ensures !old(userOccupations) ==> (ok <==> AutoOccupations(evals, tndocc).Some?)
      ensures !ok ==> ndocc == old(ndocc) && osa == old(osa) && osb == old(osb)
      ensures !old(userOccupations) && ok ==>
                var r := AutoOccupations(evals, tndocc).value;
                && ndocc == Some(r.0)
                && (if old(ndocc).None? || ShellsChanged(r.1, r.2, old(osa), old(osb))
                    then osa == r.1 && osb == r.2
                    else osa == old(osa) && osb == old(osb))
    {
      if userOccupations {
        return true;
      }
      var filled := FillLoop(evals, tndocc);
      if filled.Exhausted? {
        return false;
      }
      var shells := OpenShellLoop(filled.vals);
      if shells.None? {
        return false;
      }
      var a := shells.value.0;
      var b := shells.value.1;
      if ndocc.None? {
        osa := a;
        osb := b;
      } else if ShellsChanged(a, b, osa, osb) {
        osa := a;
        osb := b;
      }
      ndocc := Some(filled.occ);
      ok := true;
    }
  }

  /** The electrons of an irrep: two per doubly occupied orbital among the
      first nf, plus occa or occb when the irrep holds an open shell that
      lies among them. */
  lemma {:induction false} ElectronsInIrrep(scf: TCSCF, ir: nat, nf: nat)
    requires scf.ndocc.Some? && ir < |scf.ndocc.value| && scf.ndocc.value[ir] >= 0
    ensures var nd := scf.ndocc.value[ir];
      scf.Electrons(ir, nf) ==
        2.0 * (if nf < nd then nf else nd) as real
        + (if nd < nf && ir == scf.osa then scf.occa else 0.0)
        + (if nd < nf && ir == scf.osb && ir != scf.osa then scf.occb else 0.0)
  {
    if nf > 0 {
      ElectronsInIrrep(scf, ir, nf - 1);
    }
  }

  /** The alpha electrons of an irrep: one per doubly occupied orbital
      among the first nf, plus half of occa at the osa open shell. */
  lemma {:induction false} AlphaElectronsInIrrep(scf: TCSCF, ir: nat, nf: nat)
    requires scf.ndocc.Some? && ir < |scf.ndocc.value| && scf.ndocc.value[ir] >= 0
    ensures var nd := scf.ndocc.value[ir];
      scf.AlphaElectrons(ir, nf) ==
        (if nf < nd then nf else nd) as real + (if nd < nf && ir == scf.osa then 0.5 * scf.occa else 0.0)
  {
    if nf > 0 {
      AlphaElectronsInIrrep(scf, ir, nf - 1);
    }
  }

  /** The beta electrons of an irrep: one per doubly occupied orbital
      among the first nf, plus half of occb at the osb open shell. */
  lemma {:induction false} BetaElectronsInIrrep(scf: TCSCF, ir: nat, nf: nat)
    requires scf.ndocc.Some? && ir < |scf.ndocc.value| && scf.ndocc.value[ir] >= 0
    ensures var nd := scf.ndocc.value[ir];
      scf.BetaElectrons(ir, nf) ==
        (if nf < nd then nf else nd) as real + (if nd < nf && ir == scf.osb then 0.5 * scf.occb else 0.0)
  {
    if nf > 0 {
      BetaElectronsInIrrep(scf, ir, nf - 1);
    }
  }

  /** Away from the open-shell orbital the total occupation is the alpha
      plus the beta one. */
  lemma {:induction false} OccupationSplits(scf: TCSCF, ir: nat, i: int)
    requires scf.ndocc.Some? && ir < |scf.ndocc.value| && i != scf.ndocc.value[ir]
    ensures scf.Occupation(ir, i) == scf.AlphaOccupation(ir, i) + scf.BetaOccupation(ir, i)
  {
  }

  /** The four Fock matrices are told apart by their indices 0 to 3. */
  lemma {:induction false} FockIndicesDistinct(scf: TCSCF, m: int, n: int)
    requires 0 <= m < n < scf.NFockMatrices()
    ensures scf.Fock(m).Matrix? && scf.Fock(n).Matrix? && scf.Fock(m) != scf.Fock(n)
  {
  }

  /** The keyval constructor.  nirrep 1 aborts, as does a socc naming more
      than two open-shell irreps (both give None).  With docc and socc the
      input fixes the occupations; otherwise set_occupations runs on evals,
      the initial guess's orbital energies.  The default tndocc is
      (electrons - 2) / 2, truncated; maxiter defaults to 200 and
      level_shift to 0.25. */
  method Create(Znuc: int, charge: int, ndoccKey: Option<int>, doccKey: Option<seq<Option<int>>>,
                soccKey: Option<seq<Option<int>>>, nirrep: nat, ci1Key: Option<real>, occaKey: Option<real>,
                maxiterKey: Option<int>, levelShiftKey: Option<real>, evals: seq<seq<real>>)
    returns (r: Option<TCSCF>)
    requires |evals| == nirrep
    ensures r.None? <==>
              (nirrep == 1 || (doccKey.Some? && soccKey.Some? && ShellsFrom(soccKey.value, 0, nirrep, -1, -1).None?))
    ensures r.Some? ==> fresh(r.value)
    ensures r.Some? ==>
              var t := r.value;
              && t.nirrep == nirrep
              && t.tndocc == (if ndoccKey.Some? then ndoccKey.value else TruncDiv(Znuc - charge - 2, 2))
              && t.occa == Occa(ci1Key, occaKey) && t.occb == 2.0 - t.occa
              && t.maxiter == (if maxiterKey.Some? then maxiterKey.value else 200)
              && t.levelShift == (if levelShiftKey.Some? then levelShiftKey.value else 0.25)
              && (t.userOccupations <==> doccKey.Some? && soccKey.Some?)
    ensures r.Some? && doccKey.Some? && soccKey.Some? ==>
              var t := r.value;
              && t.ndocc == Some(seq(nirrep, i requires 0 <= i => DoccAt(doccKey.value, i)))
              && Some((t.osa, t.osb)) == ShellsFrom(soccKey.value, 0, nirrep, -1, -1)
    ensures r.Some? && !(doccKey.Some? && soccKey.Some?) ==>
              var t := r.value;
              match AutoOccupations(evals, t.tndocc)
              case None => t.ndocc == None && t.osa == -1 && t.osb == -1
              case Some(auto) => t.ndocc == Some(auto.0) && t.osa == auto.1 && t.osb == auto.2
  {
    if nirrep == 1 {
      return None;
    }
    var tndocc := if ndoccKey.Some? then ndoccKey.value else TruncDiv(Znuc - charge - 2, 2);
    var occa := Occa(ci1Key, occaKey);
    var maxiter := if maxiterKey.Some? then maxiterKey.value else 200;
    var levelShift := if levelShiftKey.Some? then levelShiftKey.value else 0.25;
    var t := new TCSCF.Init(tndocc, nirrep, occa, 2.0 - occa, maxiter, levelShift);
    if doccKey.Some? && soccKey.Some? {
      var d := new int[nirrep];
      var sa := -1;
      var sb := -1;
      for i := 0 to nirrep
        modifies d
        invariant forall k :: 0 <= k < i ==> d[k] == DoccAt(doccKey.value, k)
        invariant ShellsFrom(soccKey.value, i, nirrep, sa, sb) == ShellsFrom(soccKey.value, 0, nirrep, -1, -1)
      {
        d[i] := DoccAt(doccKey.value, i);
        var nsi := DoccAt(soccKey.value, i);
        if nsi != 0 && sa < 0 {
          sa := i;
        } else if nsi != 0 && sb < 0 {
          sb := i;
        } else if nsi != 0 {
          return None;
        }
      }
      assert d[..] == seq(nirrep, i requires 0 <= i => DoccAt(doccKey.value, i));
      t.ndocc := Some(d[..]);
      t.osa := sa;
      t.osb := sb;
      t.userOccupations := true;
    } else {
      var ok := t.SetOccupations(evals);
    }
    r := Some(t);
  }
}
