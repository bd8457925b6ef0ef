/** GenericFockContribution: the J, K and density matrices of one Fock
    build, the storage-mode guards of its setters, the merge of thread
    copies, and the density screening table (fockbuild.cc). */
module FockContribution {
  import opened ShellLayout
  import opened Wrappers
  import opened FockElemOp
  import opened FockMatrix

  const SCharMin: int := -128
  const SCharMax: int := 127

  /** 2^-126: a block maximum at or below it is raised to it before its
      exponent is taken. */
  const PmaxFloor: real := 1.0 / 0x4000_0000_0000_0000_0000_0000_0000_0000 as real

  function Abs(x: real): real
  {
    if x < 0.0 then -x else x
  }

  function Max(a: int, b: int): int
  {
    if a < b then b else a
  }

  /** The running maximum of fabs over a block, started at 0 and replaced
      only by a strictly larger value: the largest magnitude, or 0 for an
      empty block. */
  function MaxAbs(s: seq<real>): (r: real)
    ensures r >= 0.0
    ensures forall k :: 0 <= k < |s| ==> Abs(s[k]) <= r
    ensures r == 0.0 || exists k :: 0 <= k < |s| && Abs(s[k]) == r
  {
    if |s| == 0 then 0.0
    else
      var m := MaxAbs(s[..|s| - 1]);
      assert forall k :: 0 <= k < |s| - 1 ==> s[..|s| - 1][k] == s[k];
      if Abs(s[|s| - 1]) > m then Abs(s[|s| - 1]) else m
  }

  /** The conversion of a long exponent to signed char: values outside
      [SCHAR_MIN, SCHAR_MAX] saturate at the nearer bound. */
  function Clamp(power: int): (r: int)
    ensures SCharMin <= r <= SCharMax
    ensures SCharMin <= power <= SCharMax ==> r == power
    ensures power < SCharMin ==> r == SCharMin
    ensures power > SCharMax ==> r == SCharMax
  {
    if power < SCharMin then SCharMin else if power > SCharMax then SCharMax else power
  }

  /** The signed-char exponent pmax_contrib computes for one block.
      expo(x) stands for long(ceil(log(x) / log(2))) in floating point. */
  function BlockExponent(expo: real -> int, vals: seq<real>): (r: int)
    ensures SCharMin <= r <= SCharMax
  {
    var maxp := MaxAbs(vals);
    Clamp(expo(if maxp <= PmaxFloor then PmaxFloor else maxp))
  }

  /** With a monotone exponent, a block of larger magnitude never gets a
      smaller screening exponent, and every block small enough gets the
      same one. */
  lemma {:induction false} BlockExponentMonotone(expo: real -> int, s: seq<real>, t: seq<real>)
    requires forall x: real, y: real :: x <= y ==> expo(x) <= expo(y)
    requires MaxAbs(s) <= MaxAbs(t)
    ensures BlockExponent(expo, s) <= BlockExponent(expo, t)
    ensures MaxAbs(t) <= PmaxFloor ==> BlockExponent(expo, s) == BlockExponent(expo, t)
  {
    var ms := if MaxAbs(s) <= PmaxFloor then PmaxFloor else MaxAbs(s);
    var mt := if MaxAbs(t) <= PmaxFloor then PmaxFloor else MaxAbs(t);
    assert expo(ms) <= expo(mt);
  }

  /** The values of block (I, J) of a symmetric-layout arena, row-major. */
  function BlockOf(b: seq<nat>, d: seq<real>, I: nat, J: nat): (r: seq<real>)
    requires J <= I < |b| && |d| == NData(b)
    ensures |r| == b[I] * b[J]
  {
    BlockFits(b, I, J);
    d[SymOffset(b, I, J) .. SymOffset(b, I, J) + b[I] * b[J]]
  }

  /** Entry (I, J) of the screening table once the first q density
      matrices have contributed: SCHAR_MIN raised to each block exponent.
      It is the largest of those exponents, or SCHAR_MIN when there are
      none. */
  function PmaxAfter(expo: real -> int, b: seq<nat>, dens: seq<seq<real>>, q: nat, I: nat, J: nat): (r: int)
    requires q <= |dens| && J <= I < |b|
    requires forall m :: 0 <= m < |dens| ==> |dens[m]| == NData(b)
    ensures SCharMin <= r <= SCharMax
  {
    if q == 0 then SCharMin
    else Max(PmaxAfter(expo, b, dens, q - 1, I, J), BlockExponent(expo, BlockOf(b, dens[q - 1], I, J)))
  }

  /** t holds, at the pair index of every shell pair (I, J), the entry
      compute_pmax has for it after the first q density matrices. */
  ghost predicate PmaxTable(expo: real -> int, b: seq<nat>, dens: seq<seq<real>>, q: nat, t: seq<int>)
    requires q <= |dens|
    requires forall m :: 0 <= m < |dens| ==> |dens[m]| == NData(b)
  {
    forall I: nat, J: nat :: J <= I < |b| ==>
      PairIndex(I, J) < |t| && t[PairIndex(I, J)] == PmaxAfter(expo, b, dens, q, I, J)
  }

  /** The table entry is the largest exponent of block (I, J) over the
      first q density matrices, or SCHAR_MIN when there are none. */
  lemma {:induction false} PmaxAfterIsMax(expo: real -> int, b: seq<nat>, dens: seq<seq<real>>, q: nat, I: nat, J: nat)
    requires q <= |dens| && J <= I < |b|
    requires forall m :: 0 <= m < |dens| ==> |dens[m]| == NData(b)
    ensures forall m :: 0 <= m < q ==> BlockExponent(expo, BlockOf(b, dens[m], I, J)) <= PmaxAfter(expo, b, dens, q, I, J)
    ensures PmaxAfter(expo, b, dens, q, I, J) == SCharMin ||
            exists m :: 0 <= m < q && PmaxAfter(expo, b, dens, q, I, J) == BlockExponent(expo, BlockOf(b, dens[m], I, J))
  {
    if q > 0 {
      PmaxAfterIsMax(expo, b, dens, q - 1, I, J);
    }
  }

  /** A matrix as the FockBuildMatrix constructor leaves it. */
  ghost predicate Unset(m: FockBuildMatrix)
    reads m
  {
    m.Valid() && !m.ownsData && !m.hasData && m.ndata == 0 && m.nI == 0 && m.nJ == 0 &&
    m.symmmat == None && m.rectmat == null && m.bs1 == None && m.bs2 == None
  }

  /** n fresh, distinct, unset matrices: the elements of a
      std::vector<FockBuildMatrix>(n). */
  method NewMatrices(n: nat) returns (ms: seq<FockBuildMatrix>)
    ensures |ms| == n
    ensures forall a :: 0 <= a < n ==> fresh(ms[a]) && Unset(ms[a])
    ensures forall a, c :: 0 <= a < n && 0 <= c < n && a != c ==> ms[a] != ms[c]
  {
    ms := [];
    while |ms| < n
      invariant |ms| <= n
      invariant forall a :: 0 <= a < |ms| ==> fresh(ms[a]) && Unset(ms[a])
      invariant forall a, c :: 0 <= a < |ms| && 0 <= c < |ms| && a != c ==> ms[a] != ms[c]
    {
      var m := new FockBuildMatrix();
      ms := ms + [m];
    }
  }

  /** A matrix after copy_data then zero_data: it owns an arena whose
      ndata_ values are 0, and its block layout is the one it had.  A
      borrower's new arena is exactly ndata_ long; an owner's keeps its
      values past ndata_. */
  twostate predicate Zeroed(m: FockBuildMatrix)
    reads m
  {
    m.Valid() && m.ownsData && m.hasData &&
    (forall p :: 0 <= p < m.ndata ==> m.data[p] == 0.0) &&
    (old(m.ownsData) ==> |m.data| == |old(m.data)| &&
                          forall p :: m.ndata <= p < |m.data| ==> m.data[p] == old(m.data[p])) &&
    (!old(m.ownsData) ==> |m.data| == m.ndata) &&
    m.blockOffsets == old(m.blockOffsets) &&
    m.nI == old(m.nI) && m.nJ == old(m.nJ) && m.ndata == old(m.ndata) &&
    m.symmmat == old(m.symmmat) && m.rectmat == old(m.rectmat) &&
    m.bs1 == old(m.bs1) && m.bs2 == old(m.bs2)
  }

  /** A matrix after accum from src: every one of its ndata_ values has
      the matching value of src added, and nothing else of it changed. */
  twostate predicate Added(m: FockBuildMatrix, src: FockBuildMatrix)
    reads m, src
  {
    m.Valid() && m.SameShape() && m.hasData &&
    old(src.ndata) == m.ndata && old(src.ndata) <= |old(src.data)| &&
    |m.data| == |old(m.data)| &&
    (forall k :: 0 <= k < m.ndata ==> m.data[k] == old(m.data[k]) + old(src.data[k])) &&
    (forall k :: m.ndata <= k < |m.data| ==> m.data[k] == old(m.data[k]))
  }

  /** The exponent block (I, J) of a density arena d contributes. */
  ghost function PairExponent(expo: real -> int, b: seq<nat>, d: seq<real>, I: nat, J: nat): int
    requires J <= I < |b| && |d| == NData(b)
  {
    BlockExponent(expo, BlockOf(b, d, I, J))
  }

  /** A matrix after accum_remote: every one of its ndata_ values has
      the other processes' values added. */
  twostate predicate Summed(m: FockBuildMatrix, others: seq<seq<real>>)
    reads m
  {
    m.Valid() && m.SameShape() && m.hasData && |m.data| == |old(m.data)| &&
    (forall q :: 0 <= q < |others| ==> |others[q]| == m.ndata) &&
    (forall k :: 0 <= k < m.ndata ==> m.data[k] == old(m.data[k]) + SumAt(others, k)) &&
    (forall k :: m.ndata <= k < |m.data| ==> m.data[k] == old(m.data[k]))
  }

  /** A symmetric matrix after fix_diagonal_blocks and data_to_scmat: its
      diagonal blocks are symmetric averages of what they held, and every
      lower-triangle element of its SCMatrix has the matching block value
      added. */
  twostate predicate Updated(m: FockBuildMatrix)
    reads m
  {
    UpdatedSnap(SnapOf(m), old(SnapOf(m)))
  }

  /** What update reads and writes of one matrix: its shape, its arena
      and the values of its SCMatrix (none when it has no symmetric
      SCMatrix). */
  datatype Snap = Snap(shape: Shape, data: seq<real>, vals: seq<real>)

  ghost function SnapOf(m: FockBuildMatrix): Snap
    reads m
  {
    Snap(m.ShapeOf(), m.data, if m.symmmat.Some? then m.symmmat.value.vals else [])
  }

  lemma {:induction false} SnapLayout(m: FockBuildMatrix)
    ensures m.SymLayout() <==> SymSnap(SnapOf(m))
  {
  }

  /** SymLayout, read off a snapshot. */
  ghost predicate SymSnap(s: Snap)
  {
    var sh := s.shape;
    (!sh.hasData ==> sh.ndata == 0 && s.data == []) && (sh.hasData ==> sh.ndata <= |s.data|) &&
    |sh.blockOffsets| == (if sh.symmDim.Some? then Tri(sh.nI) else sh.nI * sh.nJ) &&
    sh.symmDim.Some? && sh.rectmat == null && |s.vals| == Tri(sh.symmDim.value) &&
    sh.bs1.Some? && sh.bs2 == sh.bs1 &&
    var b := sh.bs1.value.shells;
    sh.nI == |b| && sh.nJ == |b| && sh.ndata == NData(b) && sh.symmDim.value == Total(b) &&
    sh.hasData && |s.data| == sh.ndata &&
    forall I: nat, J: nat :: J <= I < sh.nI ==>
      PairIndex(I, J) < |sh.blockOffsets| && sh.blockOffsets[PairIndex(I, J)] == SymOffset(b, I, J)
  }

  /** The snapshot after of a matrix that update took from the snapshot
      before: same shape, diagonal blocks made symmetric, and every
      lower-triangle element of the SCMatrix raised by its block value. */
  ghost predicate UpdatedSnap(after: Snap, before: Snap)
  {
    SymSnap(after) && after.shape == before.shape &&
    |before.data| == |after.data| && |before.vals| == |after.vals| &&
    var b := after.shape.bs1.value.shells;
    var n := after.shape.symmDim.value;
    after.data == FixDiag(b, before.data) &&
    forall i: nat, j: nat :: j <= i < n ==>
      LowerGet(after.vals, n, i, j) == LowerGet(before.vals, n, i, j) + after.data[PosOf(b, i, j)]
  }

  class GenericFockContribution {
    const nfmat: nat
    const npmat: nat
    const jmats: seq<FockBuildMatrix>
    const kmats: seq<FockBuildMatrix>
    const pmats: seq<FockBuildMatrix>
    /** k_is_j_[i]: kmats_[i] is a copy of jmats_[i] (set by set_fmat). */
    var kIsJ: seq<bool>
    const fb1: Basis
    const fb2: Basis
    const pb: Basis
    /** f_b1_equiv_f_b2, GaussianBasisSet::equiv of the two Fock bases. */
    const basesEquiv: bool
    /** nint_ of FockContribution: the count of integrals processed. */
    var nint: real

    /** The vectors have their sizes and hold distinct matrix objects. */
    ghost predicate Valid()
      reads this, jmats, kmats, pmats
    {
      Distinct() && |kIsJ| == nfmat &&
      (forall a :: 0 <= a < nfmat ==> jmats[a].Valid() && kmats[a].Valid()) &&
      (forall a :: 0 <= a < npmat ==> pmats[a].Valid())
    }

    /** The matrix objects themselves never change: the vectors have their
        sizes and no object is held twice. */
    ghost predicate Distinct()
    {
      |jmats| == nfmat && |kmats| == nfmat && |pmats| == npmat &&
      (forall a, c :: 0 <= a < nfmat && 0 <= c < nfmat && a != c ==> jmats[a] != jmats[c] && kmats[a] != kmats[c]) &&
      (forall a, c :: 0 <= a < nfmat && 0 <= c < nfmat ==> jmats[a] != kmats[c]) &&
      (forall a, c :: 0 <= a < npmat && 0 <= c < npmat && a != c ==> pmats[a] != pmats[c]) &&
      (forall a, c :: 0 <= a < npmat && 0 <= c < nfmat ==> pmats[a] != jmats[c] && pmats[a] != kmats[c])
    }

    constructor (nfmat: nat, npmat: nat, fb1: Basis, fb2: Basis, pb: Basis, basesEquiv: bool)
      ensures Valid()
      ensures this.nfmat == nfmat && this.npmat == npmat
      ensures this.fb1 == fb1 && this.fb2 == fb2 && this.pb == pb && this.basesEquiv == basesEquiv
      ensures kIsJ == seq(nfmat, _ => false) && nint == 0.0
      ensures forall a :: 0 <= a < nfmat ==> fresh(jmats[a]) && Unset(jmats[a]) && fresh(kmats[a]) && Unset(kmats[a])
      ensures forall a :: 0 <= a < npmat ==> fresh(pmats[a]) && Unset(pmats[a])
    {
      var js := NewMatrices(nfmat);
      var ks := NewMatrices(nfmat);
      var ps := NewMatrices(npmat);
      this.nfmat := nfmat;
      this.npmat := npmat;
      jmats := js;
      kmats := ks;
      pmats := ps;
      kIsJ := seq(nfmat, _ => false);
      this.fb1 := fb1;
      this.fb2 := fb2;
      this.pb := pb;
      this.basesEquiv := basesEquiv;
      nint := 0.0;
    }

    /** set_fmat (symmetric): bases that are not equivalent throw; else J
        is bound to m without copying, K becomes a copy of J and
        k_is_j_[i] is set. */
    method SetFmatSym(i: nat, m: SymmMatrix) returns (out: Outcome)
      requires Valid() && i < nfmat && m.Valid() && |fb1.shells| > 0
      modifies this`kIsJ, jmats[i], kmats[i]
      ensures Valid() && nint == old(nint)
      ensures !basesEquiv ==>
                out == Thrown(ProgrammingError("set_fmat: symm but bases not equiv")) &&
                unchanged(jmats[i]) && unchanged(kmats[i]) && kIsJ == old(kIsJ)
      ensures basesEquiv ==> (out.Thrown? <==> Total(fb1.shells) != m.n)
      ensures basesEquiv && out.Thrown? ==>
                out.err.InvalidArgument? && !jmats[i].hasData && unchanged(kmats[i]) && kIsJ == old(kIsJ)
      ensures out.Done? ==>
                jmats[i].SymLayout() && jmats[i].symmmat == Some(m) && jmats[i].Shells() == fb1.shells &&
                (forall p :: 0 <= p < jmats[i].ndata ==> jmats[i].data[p] == ZeroCharFill) &&
                kmats[i].SameAs(jmats[i]) && kIsJ == old(kIsJ)[i := true]
    {
      if !basesEquiv {
        return Thrown(ProgrammingError("set_fmat: symm but bases not equiv"));
      }
      var j := jmats[i];
      out := j.ScmatToDataSym(m, fb1, false);
      if out.Thrown? {
        return;
      }
      kmats[i].Assign(j);
      kIsJ := kIsJ[i := true];
    }

    /** set_fmat (rectangular): equivalent bases throw; otherwise J is
        bound through the rectangular scmat_to_data, which always throws,
        so K and k_is_j_ are never reached. */
    method SetFmatRect(i: nat, m: RectMatrix) returns (out: Outcome)
      requires Valid() && i < nfmat
      modifies jmats[i]
      ensures Valid() && out.Thrown?
      ensures out.err.ProgrammingError? <==> basesEquiv
      ensures basesEquiv ==> out.err.what == "set_fmat: rect but bases equiv" && unchanged(jmats[i])
      ensures !basesEquiv ==>
                (out.err.InvalidArgument? <==> fb1.shells != m.rowBlocks || fb2.shells != m.colBlocks)
      ensures !basesEquiv && !out.err.InvalidArgument? ==>
                out.err.RuntimeError? && jmats[i].rectmat == m && jmats[i].bs1 == Some(fb1) && jmats[i].bs2 == Some(fb2)
    {
      if basesEquiv {
        return Thrown(ProgrammingError("set_fmat: rect but bases equiv"));
      }
      out := jmats[i].ScmatToDataRect(m, fb1, fb2, false);
    }

    /** set_jmat (symmetric): bases that are not equivalent throw; else J
        is bound to m without copying and k_is_j_[i] is cleared. */
    method SetJmatSym(i: nat, m: SymmMatrix) returns (out: Outcome)
      requires Valid() && i < nfmat && m.Valid() && |fb1.shells| > 0
      modifies this`kIsJ, jmats[i]
      ensures Valid() && nint == old(nint)
      ensures !basesEquiv ==>
                out == Thrown(ProgrammingError("set_jmat: symm but bases not equiv")) &&
                unchanged(jmats[i]) && kIsJ == old(kIsJ)
      ensures basesEquiv ==> (out.Thrown? <==> Total(fb1.shells) != m.n)
      ensures basesEquiv && out.Thrown? ==>
                out.err.InvalidArgument? && !jmats[i].hasData && kIsJ == old(kIsJ)
      ensures out.Done? ==>
                jmats[i].SymLayout() && jmats[i].symmmat == Some(m) && jmats[i].Shells() == fb1.shells &&
                (forall p :: 0 <= p < jmats[i].ndata ==> jmats[i].data[p] == ZeroCharFill) &&
                kIsJ == old(kIsJ)[i := false]
    {
      if !basesEquiv {
        return Thrown(ProgrammingError("set_jmat: symm but bases not equiv"));
      }
      out := jmats[i].ScmatToDataSym(m, fb1, false);
      if out.Thrown? {
        return;
      }
      kIsJ := kIsJ[i := false];
    }

    /** set_jmat (rectangular): equivalent bases throw; otherwise the
        rectangular scmat_to_data throws. */
    method SetJmatRect(i: nat, m: RectMatrix) returns (out: Outcome)
      requires Valid() && i < nfmat
      modifies jmats[i]
      ensures Valid() && out.Thrown?
      ensures out.err.ProgrammingError? <==> basesEquiv
      ensures basesEquiv ==> out.err.what == "set_jmat: rect but bases equiv" && unchanged(jmats[i])
      ensures !basesEquiv ==>
                (out.err.InvalidArgument? <==> fb1.shells != m.rowBlocks || fb2.shells != m.colBlocks)
      ensures !basesEquiv && !out.err.InvalidArgument? ==>
                out.err.RuntimeError? && jmats[i].rectmat == m && jmats[i].bs1 == Some(fb1) && jmats[i].bs2 == Some(fb2)
    {
      if basesEquiv {
        return Thrown(ProgrammingError("set_jmat: rect but bases equiv"));
      }
      out := jmats[i].ScmatToDataRect(m, fb1, fb2, false);
    }

    /** set_kmat (symmetric): bases that are not equivalent throw; else K
        is bound to m without copying and k_is_j_[i] is cleared. */
    method SetKmatSym(i: nat, m: SymmMatrix) returns (out: Outcome)
      requires Valid() && i < nfmat && m.Valid() && |fb1.shells| > 0
      modifies this`kIsJ, kmats[i]
      ensures Valid() && nint == old(nint)
      ensures !basesEquiv ==>
                out == Thrown(ProgrammingError("set_kmat: symm but bases not equiv")) &&
                unchanged(kmats[i]) && kIsJ == old(kIsJ)
      ensures basesEquiv ==> (out.Thrown? <==> Total(fb1.shells) != m.n)
      ensures basesEquiv && out.Thrown? ==>
                out.err.InvalidArgument? && !kmats[i].hasData && kIsJ == old(kIsJ)
      ensures out.Done? ==>
                kmats[i].SymLayout() && kmats[i].symmmat == Some(m) && kmats[i].Shells() == fb1.shells &&
                (forall p :: 0 <= p < kmats[i].ndata ==> kmats[i].data[p] == ZeroCharFill) &&
                kIsJ == old(kIsJ)[i := false]
    {
      if !basesEquiv {
        return Thrown(ProgrammingError("set_kmat: symm but bases not equiv"));
      }
      out := kmats[i].ScmatToDataSym(m, fb1, false);
      if out.Thrown? {
        return;
      }
      kIsJ := kIsJ[i := false];
    }

    /** set_kmat (rectangular): equivalent bases throw; otherwise the
        rectangular scmat_to_data throws. */
    method SetKmatRect(i: nat, m: RectMatrix) returns (out: Outcome)
      requires Valid() && i < nfmat
      modifies kmats[i]
      ensures Valid() && out.Thrown?
      ensures out.err.ProgrammingError? <==> basesEquiv
      ensures basesEquiv ==> out.err.what == "set_kmat: rect but bases equiv" && unchanged(kmats[i])
      ensures !basesEquiv ==>
                (out.err.InvalidArgument? <==> fb1.shells != m.rowBlocks || fb2.shells != m.colBlocks)
      ensures !basesEquiv && !out.err.InvalidArgument? ==>
                out.err.RuntimeError? && kmats[i].rectmat == m && kmats[i].bs1 == Some(fb1) && kmats[i].bs2 == Some(fb2)
    {
      if basesEquiv {
        return Thrown(ProgrammingError("set_kmat: rect but bases equiv"));
      }
      out := kmats[i].ScmatToDataRect(m, fb1, fb2, false);
    }

    /** set_pmat: the density matrix is bound to m over the density basis
        and copied in. */
    method SetPmat(i: nat, m: SymmMatrix) returns (out: Outcome)
      requires Valid() && i < npmat && m.Valid() && |pb.shells| > 0
      modifies pmats[i]
      ensures Valid()
      ensures out.Thrown? <==> Total(pb.shells) != m.n
      ensures out.Thrown? ==> out.err.InvalidArgument? && !pmats[i].hasData
      ensures out.Done? ==>
                pmats[i].SymLayout() && pmats[i].symmmat == Some(m) && pmats[i].Shells() == pb.shells &&
                pmats[i].data == Packed(pb.shells, m.vals)
    {
      out := pmats[i].ScmatToDataSym(m, pb, true);
    }

    /** The matrices copy(), accum(), accum_remote() and update() write:
        every J matrix, and the K matrix of each slot whose K is not its
        J.  Each of them holds an arena. */
    ghost predicate Written()
      reads this, jmats, kmats, pmats
      requires Valid()
    {
      forall a :: 0 <= a < nfmat ==> jmats[a].hasData && (!kIsJ[a] ==> kmats[a].hasData)
    }

    /** Slot a after copy: its J, and its K unless K is J, zeroed. */
    twostate predicate SlotCopied(a: nat)
      requires Distinct() && |kIsJ| == nfmat && a < nfmat
      reads this`kIsJ, jmats[a], kmats[a]
    {
      Zeroed(jmats[a]) && if kIsJ[a] then unchanged(kmats[a]) else Zeroed(kmats[a])
    }

    /** One pass of the loop of copy. */
    method CopySlot(i: nat, uninit: nat -> real)
      requires Distinct() && |kIsJ| == nfmat && i < nfmat
      requires jmats[i].Valid() && jmats[i].hasData
      requires kmats[i].Valid() && (!kIsJ[i] ==> kmats[i].hasData)
      modifies jmats[i], kmats[i]
      ensures SlotCopied(i)
    {
      var j := jmats[i];
      j.CopyData(uninit);
      j.ZeroData();
      if !kIsJ[i] {
        var k := kmats[i];
        k.CopyData(uninit);
        k.ZeroData();
      }
    }

    /** copy: every written matrix gets an arena of its own (copy_data)
        whose ndata_ values are then zeroed; the density matrices, and
        each K matrix that is its J, are left alone.  uninit stands for
        the contents of newly allocated memory. */
    method Copy(uninit: nat -> real)
      requires Valid() && Written()
      modifies jmats, kmats
      ensures Valid() && Written()
      ensures forall a :: 0 <= a < nfmat ==> SlotCopied(a)
    {
      var i := 0;
      while i < nfmat
        invariant 0 <= i <= nfmat
        invariant forall a :: 0 <= a < i ==> SlotCopied(a)
        invariant forall a :: i <= a < nfmat ==> unchanged(jmats[a]) && unchanged(kmats[a])
      {
        CopySlot(i, uninit);
        i := i + 1;
      }
      forall a | 0 <= a < nfmat
        ensures jmats[a].Valid() && jmats[a].hasData
        ensures kmats[a].Valid() && (!kIsJ[a] ==> kmats[a].hasData)
      {
        assert SlotCopied(a);
      }
    }
  
    /** c is another contribution, and none of its matrix objects is one
        of this one's. */
    ghost predicate Apart(c: GenericFockContribution)
    {
      c != this && Distinct() && c.Distinct() &&
      (forall a, b :: 0 <= a < nfmat && 0 <= b < c.nfmat ==>
         jmats[a] != c.jmats[b] && jmats[a] != c.kmats[b] && kmats[a] != c.jmats[b] && kmats[a] != c.kmats[b]) &&
      (forall a, b :: 0 <= a < npmat && 0 <= b < c.npmat ==> pmats[a] != c.pmats[b]) &&
      (forall a, b :: 0 <= a < nfmat && 0 <= b < c.npmat ==> jmats[a] != c.pmats[b] && kmats[a] != c.pmats[b]) &&
      (forall a, b :: 0 <= a < npmat && 0 <= b < c.nfmat ==> pmats[a] != c.jmats[b] && pmats[a] != c.kmats[b])
    }

    /** What accum reads of c is there: when the counts agree, c's J
        matrices, its K matrices where this K is not its J, and its
        density matrices hold arenas, as do this one's. */
    ghost predicate Mergeable(c: GenericFockContribution)
      reads this, jmats, kmats, pmats, c, c.jmats, c.kmats, c.pmats
      requires Valid() && c.Valid()
    {
      Written() && (forall a :: 0 <= a < npmat ==> pmats[a].hasData) &&
      (nfmat == c.nfmat && npmat == c.npmat ==>
         (forall a :: 0 <= a < nfmat ==> c.jmats[a].hasData && (!kIsJ[a] ==> c.kmats[a].hasData)) &&
         (forall a :: 0 <= a < npmat ==> c.pmats[a].hasData))
    }

    /** Slot a's written matrices have the sizes of c's. */
    ghost predicate SlotFits(c: GenericFockContribution, a: nat)
      requires Distinct() && |kIsJ| == nfmat && c.Distinct() && a < nfmat && a < c.nfmat
      reads this`kIsJ, jmats[a], kmats[a], c.jmats[a], c.kmats[a]
    {
      jmats[a].ndata == c.jmats[a].ndata && (!kIsJ[a] ==> kmats[a].ndata == c.kmats[a].ndata)
    }

    /** The counts agree and every matrix accum writes has the size of the
        matching matrix of c. */
    ghost predicate Compatible(c: GenericFockContribution)
      reads this, jmats, kmats, pmats, c, c.jmats, c.kmats, c.pmats
      requires Valid() && c.Valid()
    {
      nfmat == c.nfmat && npmat == c.npmat &&
      (forall a :: 0 <= a < nfmat ==> SlotFits(c, a)) &&
      (forall a :: 0 <= a < npmat ==> pmats[a].ndata == c.pmats[a].ndata)
    }

    /** Slot a after accum: its J, and its K unless K is J, hold the sums. */
    twostate predicate SlotAdded(c: GenericFockContribution, a: nat)
      requires Distinct() && |kIsJ| == nfmat && c.Distinct() && a < nfmat && a < c.nfmat
      reads this`kIsJ, jmats[a], kmats[a], c.jmats[a], c.kmats[a]
    {
      Added(jmats[a], c.jmats[a]) && if kIsJ[a] then unchanged(kmats[a]) else Added(kmats[a], c.kmats[a])
    }

    /** One pass of accum's first loop. */
    method AccumSlot(c: GenericFockContribution, i: nat) returns (out: Outcome)
      requires Apart(c) && |kIsJ| == nfmat && i < nfmat && i < c.nfmat
      requires jmats[i].Valid() && jmats[i].hasData && c.jmats[i].Valid() && c.jmats[i].hasData
      requires kmats[i].Valid() && c.kmats[i].Valid()
      requires !kIsJ[i] ==> kmats[i].hasData && c.kmats[i].hasData
      modifies jmats[i], kmats[i]
      ensures out.Done? <==> old(SlotFits(c, i))
      ensures out.Thrown? ==> out.err.InvalidArgument?
      ensures out.Done? ==> SlotAdded(c, i)
    {
      var j := jmats[i];
      out := j.Accum(c.jmats[i]);
      if out.Thrown? {
        return;
      }
      if !kIsJ[i] {
        var k := kmats[i];
        out := k.Accum(c.kmats[i]);
      }
    }

    /** The first loop of accum: every written J and K matrix. */
    method AccumFock(c: GenericFockContribution) returns (out: Outcome)
      requires Valid() && c.Valid() && Apart(c) && Mergeable(c) && nfmat == c.nfmat && npmat == c.npmat
      modifies jmats, kmats
      ensures out.Done? <==> old(forall a :: 0 <= a < nfmat ==> SlotFits(c, a))
      ensures out.Thrown? ==> out.err.InvalidArgument?
      ensures out.Done? ==> forall a :: 0 <= a < nfmat ==> SlotAdded(c, a)
    {
      var i := 0;
      while i < nfmat
        invariant 0 <= i <= nfmat
        invariant forall a :: 0 <= a < i ==> old(SlotFits(c, a))
        invariant forall a :: 0 <= a < i ==> SlotAdded(c, a)
        invariant forall a :: i <= a < nfmat ==> unchanged(jmats[a]) && unchanged(kmats[a])
      {
        out := AccumSlot(c, i);
        if out.Thrown? {
          return;
        }
        i := i + 1;
      }
      return Done;
    }
  
    /** The second loop of accum: every density matrix. */
    method AccumDensity(c: GenericFockContribution) returns (out: Outcome)
      requires Apart(c) && npmat == c.npmat
      requires forall a :: 0 <= a < npmat ==> pmats[a].Valid() && pmats[a].hasData
      requires forall a :: 0 <= a < npmat ==> c.pmats[a].Valid() && c.pmats[a].hasData
      modifies pmats
      ensures out.Done? <==> old(forall a :: 0 <= a < npmat ==> pmats[a].ndata == c.pmats[a].ndata)
      ensures out.Thrown? ==> out.err.InvalidArgument?
      ensures out.Done? ==> forall a :: 0 <= a < npmat ==> Added(pmats[a], c.pmats[a])
      ensures forall a :: 0 <= a < nfmat ==> unchanged(jmats[a], kmats[a])
      ensures forall a :: 0 <= a < c.nfmat ==> unchanged(c.jmats[a], c.kmats[a])
    {
      var i := 0;
      while i < npmat
        invariant 0 <= i <= npmat
        invariant forall a :: 0 <= a < i ==> old(pmats[a].ndata) == old(c.pmats[a].ndata)
        invariant forall a :: 0 <= a < i ==> Added(pmats[a], c.pmats[a])
        invariant forall a :: i <= a < npmat ==> unchanged(pmats[a])
      {
        var p := pmats[i];
        out := p.Accum(c.pmats[i]);
        if out.Thrown? {
          return;
        }
        i := i + 1;
      }
      return Done;
    }

    /** accum: contributions with different numbers of Fock or density
        matrices throw invalid_argument before anything changes; otherwise
        the written J and K matrices, then the density matrices, have c's
        values added (a size mismatch throws invalid_argument), and c's
        integral count is added to this one's. */
    method Accum(c: GenericFockContribution) returns (out: Outcome)
      requires Valid() && c.Valid() && Apart(c) && Mergeable(c)
      modifies this`nint, jmats, kmats, pmats
      ensures out.Thrown? ==> out.err.InvalidArgument?
      ensures nfmat != c.nfmat || npmat != c.npmat ==>
                out == Thrown(InvalidArgument("merging incompatible fock contributions")) &&
                nint == old(nint) && unchanged(jmats) && unchanged(kmats) && unchanged(pmats)
      ensures out.Done? <==> old(Compatible(c))
      ensures out.Done? ==> nint == old(nint) + c.nint
      ensures out.Done? ==> forall a :: 0 <= a < nfmat ==> SlotAdded(c, a)
      ensures out.Done? ==> forall a :: 0 <= a < npmat ==> Added(pmats[a], c.pmats[a])
    {
      if nfmat != c.nfmat || npmat != c.npmat {
        return Thrown(InvalidArgument("merging incompatible fock contributions"));
      }
      out := AccumFock(c);
      if out.Thrown? {
        return;
      }
      out := AccumDensity(c);
      if out.Thrown? {
        return;
      }
      nint := nint + c.nint;
    }
  
    /** Slot a after accum_remote: its J, and its K unless K is J, hold
        the sums over all processes. */
    twostate predicate SlotSummed(a: nat, jOthers: seq<seq<real>>, kOthers: seq<seq<real>>)
      requires Distinct() && |kIsJ| == nfmat && a < nfmat
      reads this`kIsJ, jmats[a], kmats[a]
    {
      Summed(jmats[a], jOthers) && if kIsJ[a] then unchanged(kmats[a]) else Summed(kmats[a], kOthers)
    }

    /** accum_remote: every written matrix is summed over the processes;
        jOthers[a] and kOthers[a] are the other processes' arenas of slot
        a's J and K matrices. */
    method AccumRemote(jOthers: seq<seq<seq<real>>>, kOthers: seq<seq<seq<real>>>)
      requires Valid() && Written() && |jOthers| == nfmat && |kOthers| == nfmat
      requires forall a, q :: 0 <= a < nfmat && 0 <= q < |jOthers[a]| ==> |jOthers[a][q]| == jmats[a].ndata
      requires forall a, q :: 0 <= a < nfmat && !kIsJ[a] && 0 <= q < |kOthers[a]| ==> |kOthers[a][q]| == kmats[a].ndata
      modifies jmats, kmats
      ensures forall a :: 0 <= a < nfmat ==> SlotSummed(a, jOthers[a], kOthers[a])
    {
      var i := 0;
      while i < nfmat
        invariant 0 <= i <= nfmat
        invariant forall a :: 0 <= a < i ==> SlotSummed(a, jOthers[a], kOthers[a])
        invariant forall a :: i <= a < nfmat ==> unchanged(jmats[a]) && unchanged(kmats[a])
      {
        var j := jmats[i];
        j.AccumRemote(jOthers[i]);
        if !kIsJ[i] {
          var k := kmats[i];
          k.AccumRemote(kOthers[i]);
        }
        i := i + 1;
      }
    }

    /** Slot a after update, against the snapshots sj of its J matrix and
        sk of its K matrix before it: both updated, or K left as it was
        when it is J. */
    ghost predicate SlotDone(a: nat, sj: Snap, sk: Snap)
      requires Distinct() && |kIsJ| == nfmat && a < nfmat
      reads this`kIsJ, jmats[a], kmats[a]
    {
      UpdatedSnap(SnapOf(jmats[a]), sj) &&
      if kIsJ[a] then SnapOf(kmats[a]) == sk else UpdatedSnap(SnapOf(kmats[a]), sk)
    }

    /** Slot a before update: laid out for it and still as its snapshot. */
    ghost predicate SlotReady(a: nat, sj: Snap, sk: Snap)
      requires Distinct() && |kIsJ| == nfmat && a < nfmat
      reads this`kIsJ, jmats[a], kmats[a]
    {
      SnapOf(jmats[a]) == sj && SymSnap(sj) && SnapOf(kmats[a]) == sk && (!kIsJ[a] ==> SymSnap(sk))
    }

    /** Slot a after update. */
    twostate predicate SlotUpdated(a: nat)
      requires Distinct() && |kIsJ| == nfmat && a < nfmat
      reads this`kIsJ, jmats[a], kmats[a]
    {
      SlotDone(a, old(SnapOf(jmats[a])), old(SnapOf(kmats[a])))
    }

    /** One pass of the loop of update. */
    method UpdateSlot(i: nat)
      requires Distinct() && |kIsJ| == nfmat && i < nfmat
      requires SymSnap(SnapOf(jmats[i])) && (!kIsJ[i] ==> SymSnap(SnapOf(kmats[i])))
      modifies jmats[i], kmats[i]
      ensures SlotUpdated(i)
      ensures forall a :: 0 <= a < nfmat && a != i ==>
        SnapOf(jmats[a]) == old(SnapOf(jmats[a])) && SnapOf(kmats[a]) == old(SnapOf(kmats[a]))
    {
      SnapLayout(jmats[i]);
      SnapLayout(kmats[i]);
      var j := jmats[i];
      UpdateMatrix(j);
      if !kIsJ[i] {
        var k := kmats[i];
        UpdateMatrix(k);
      }
    }

    /** update: every written matrix (J, and K unless it is J) has its
        diagonal blocks made symmetric and is then added into its SCMatrix. */
    method Update()
      requires Distinct() && |kIsJ| == nfmat
      requires forall a :: 0 <= a < nfmat ==> jmats[a].SymLayout() && (!kIsJ[a] ==> kmats[a].SymLayout())
      modifies jmats, kmats
      ensures forall a :: 0 <= a < nfmat ==> SlotUpdated(a)
    {
      forall a | 0 <= a < nfmat
        ensures SymSnap(SnapOf(jmats[a])) && (!kIsJ[a] ==> SymSnap(SnapOf(kmats[a])))
      {
        SnapLayout(jmats[a]);
        SnapLayout(kmats[a]);
      }
      var i := 0;
      while i < nfmat
        invariant 0 <= i <= nfmat
        invariant forall a :: 0 <= a < i ==> SlotDone(a, old(SnapOf(jmats[a])), old(SnapOf(kmats[a])))
        invariant forall a :: i <= a < nfmat ==> SlotReady(a, old(SnapOf(jmats[a])), old(SnapOf(kmats[a])))
      {
        UpdateSlot(i);
        i := i + 1;
      }
    }

    /** The arenas of the first q density matrices. */
    ghost function Densities(q: nat): (r: seq<seq<real>>)
      reads this, pmats
      requires Distinct() && q <= npmat
      ensures |r| == q && forall a :: 0 <= a < q ==> r[a] == pmats[a].data
    {
      if q == 0 then [] else Densities(q - 1) + [pmats[q - 1].data]
    }

    /** The largest magnitude in block (I, J) of a density matrix: the
        loop over the block in pmax_contrib. */
    method BlockMax(mat: FockBuildMatrix, I: nat, J: nat) returns (maxp: real)
      requires mat.SymLayout() && J <= I < |mat.Shells()|
      ensures maxp == MaxAbs(BlockOf(mat.Shells(), mat.data, I, J))
    {
      var b := mat.bs1.value.shells;
      ghost var blk := BlockOf(b, mat.data, I, J);
      TriPairIndex(|b|, I, J);
      BlockFits(b, I, J);
      var dat := mat.blockOffsets[PairIndex(I, J)];
      var nij := b[I] * b[J];
      maxp := 0.0;
      var k := 0;
      while k < nij
        invariant 0 <= k <= nij
        invariant maxp == MaxAbs(blk[..k])
      {
        assert blk[..k + 1][..k] == blk[..k];
        var tmp := Abs(mat.data[dat + k]);
        if tmp > maxp {
          maxp := tmp;
        }
        k := k + 1;
      }
      assert blk[..nij] == blk;
    }

    /** pmax_contrib: entry ij = (ish, jsh <= ish) of the table is raised
        to the exponent of block (ish, jsh) of mat when that is larger. */
    method PmaxContrib(expo: real -> int, mat: FockBuildMatrix, pmax: array<int>)
      requires mat.SymLayout() && mat.Shells() == pb.shells && pmax.Length == Tri(|pb.shells|)
      modifies pmax
      ensures forall I: nat, J: nat :: J <= I < |pb.shells| ==>
                PairIndex(I, J) < pmax.Length &&
                pmax[PairIndex(I, J)] == Max(old(pmax[PairIndex(I, J)]), PairExponent(expo, pb.shells, mat.data, I, J))
    {
      var nb := |pb.shells|;
      var ij := 0;
      var ish := 0;
      while ish < nb
        invariant 0 <= ish <= nb && ij == Tri(ish)
        invariant forall I: nat, J: nat :: J <= I < ish ==>
                    PairIndex(I, J) < ij &&
                    pmax[PairIndex(I, J)] == Max(old(pmax[PairIndex(I, J)]), PairExponent(expo, pb.shells, mat.data, I, J))
        invariant forall e :: ij <= e < pmax.Length ==> pmax[e] == old(pmax[e])
      {
        TriMonotone(ish + 1, nb);
        PmaxRow(expo, mat, pmax, ish);
        ij := ij + ish + 1;
        ish := ish + 1;
      }
    }

    /** The inner loop of pmax_contrib: row ish of the table. */
    method PmaxRow(expo: real -> int, mat: FockBuildMatrix, pmax: array<int>, ish: nat)
      requires mat.SymLayout() && mat.Shells() == pb.shells && pmax.Length == Tri(|pb.shells|)
      requires ish < |pb.shells| && Tri(ish + 1) <= pmax.Length
      modifies pmax
      ensures forall J: nat :: J <= ish ==>
                pmax[PairIndex(ish, J)] == Max(old(pmax[PairIndex(ish, J)]), PairExponent(expo, pb.shells, mat.data, ish, J))
      ensures forall e :: 0 <= e < pmax.Length && !(Tri(ish) <= e < Tri(ish + 1)) ==> pmax[e] == old(pmax[e])
    {
      var ij := Tri(ish);
      var jsh := 0;
      while jsh <= ish
        invariant 0 <= jsh <= ish + 1 && ij == Tri(ish) + jsh
        invariant forall J: nat :: J < jsh ==>
                    pmax[PairIndex(ish, J)] == Max(old(pmax[PairIndex(ish, J)]), PairExponent(expo, pb.shells, mat.data, ish, J))
        invariant forall e :: 0 <= e < pmax.Length && !(Tri(ish) <= e < Tri(ish) + jsh) ==> pmax[e] == old(pmax[e])
      {
        var maxp := BlockMax(mat, ish, jsh);
        if maxp <= PmaxFloor {
          maxp := PmaxFloor;
        }
        var power := expo(maxp);
        var pmaxij := Clamp(power);
        assert pmaxij == PairExponent(expo, pb.shells, mat.data, ish, jsh);
        if pmaxij > pmax[ij] {
          pmax[ij] := pmaxij;
        }
        jsh := jsh + 1;
        ij := ij + 1;
      }
    }

    /** compute_pmax: a table of the n(n+1)/2 shell pairs of the density
        basis, started at SCHAR_MIN and raised by every density matrix in
        turn: entry (I, J) ends as PmaxAfter over all of them. */
    method ComputePmax(expo: real -> int) returns (pmax: array<int>)
      requires Distinct()
      requires forall a :: 0 <= a < npmat ==> pmats[a].SymLayout() && pmats[a].Shells() == pb.shells
      requires forall a :: 0 <= a < npmat ==> |pmats[a].data| == NData(pb.shells)
      ensures fresh(pmax) && pmax.Length == Tri(|pb.shells|)
      ensures forall I: nat, J: nat :: J <= I < |pb.shells| ==>
                PairIndex(I, J) < pmax.Length &&
                pmax[PairIndex(I, J)] == PmaxAfter(expo, pb.shells, Densities(npmat), npmat, I, J)
    {
      var b := pb.shells;
      var nb1 := |b|;
      pmax := NewPmax(nb1);
      ghost var dens := Densities(npmat);
      forall m | 0 <= m < |dens|
        ensures |dens[m]| == NData(b)
      {
        assert dens[m] == pmats[m].data;
      }
      forall I: nat, J: nat | J <= I < nb1
        ensures PairIndex(I, J) < pmax.Length && pmax[PairIndex(I, J)] == PmaxAfter(expo, b, dens, 0, I, J)
      {
        TriPairIndex(nb1, I, J);
      }
      RaiseAll(expo, pmax, dens);
    }

    /** The loop of compute_pmax over the density matrices. */
    method RaiseAll(expo: real -> int, pmax: array<int>, ghost dens: seq<seq<real>>)
      requires Distinct() && |dens| == npmat && pmax.Length == Tri(|pb.shells|)
      requires forall a :: 0 <= a < npmat ==> pmats[a].SymLayout() && pmats[a].Shells() == pb.shells
      requires forall a :: 0 <= a < npmat ==> dens[a] == pmats[a].data && |dens[a]| == NData(pb.shells)
      requires PmaxTable(expo, pb.shells, dens, 0, pmax[..])
      modifies pmax
      ensures PmaxTable(expo, pb.shells, dens, npmat, pmax[..])
    {
      var q := 0;
      while q < npmat
        invariant 0 <= q <= npmat
        invariant PmaxTable(expo, pb.shells, dens, q, pmax[..])
      {
        PmaxStep(expo, pmats[q], pmax, dens, q);
        q := q + 1;
      }
    }

    /** One turn of the loop of compute_pmax: pmax_contrib of density
        matrix q takes the table from PmaxTable at q to PmaxTable at q + 1. */
    method PmaxStep(expo: real -> int, mat: FockBuildMatrix, pmax: array<int>, ghost dens: seq<seq<real>>, ghost q: nat)
      requires mat.SymLayout() && mat.Shells() == pb.shells && pmax.Length == Tri(|pb.shells|)
      requires q < |dens| && dens[q] == mat.data
      requires forall m :: 0 <= m < |dens| ==> |dens[m]| == NData(pb.shells)
      requires PmaxTable(expo, pb.shells, dens, q, pmax[..])
      modifies pmax
      ensures PmaxTable(expo, pb.shells, dens, q + 1, pmax[..])
    {
      ghost var before := pmax[..];
      PmaxContrib(expo, mat, pmax);
      forall I: nat, J: nat | J <= I < |pb.shells|
        ensures PairIndex(I, J) < |pmax[..]| && pmax[..][PairIndex(I, J)] == PmaxAfter(expo, pb.shells, dens, q + 1, I, J)
      {
        assert before[PairIndex(I, J)] == PmaxAfter(expo, pb.shells, dens, q, I, J);
      }
    }
  }

  /** fix_diagonal_blocks then data_to_scmat on one symmetric matrix. */
  method UpdateMatrix(m: FockBuildMatrix)
    requires m.SymLayout()
    modifies m
    ensures Updated(m)
  {
    SnapLayout(m);
    m.FixDiagonalBlocks();
    var out := m.DataToScmat();
    assert out.Done?;
    SnapLayout(m);
  }

  /** The table of compute_pmax before any density matrix: n(n+1)/2
      entries of SCHAR_MIN for a basis of n shells. */
  method NewPmax(nb1: nat) returns (pmax: array<int>)
    ensures fresh(pmax) && pmax.Length == Tri(nb1)
    ensures forall e :: 0 <= e < pmax.Length ==> pmax[e] == SCharMin
  {
    TriClosedForm(nb1);
    var n12 := (nb1 * (nb1 + 1)) / 2;
    pmax := new int[n12];
    var i := 0;
    while i < n12
      invariant 0 <= i <= n12
      invariant forall e :: 0 <= e < i ==> pmax[e] == SCharMin
    {
      pmax[i] := SCharMin;
      i := i + 1;
    }
  }
}
