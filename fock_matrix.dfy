/** FockBuildMatrix: a matrix held as one flat buffer of shell-block pairs,
    and the element operation that moves values between an SCMatrix and
    that buffer (fockbuild.cc). */
module FockMatrix {
  import opened ShellLayout
  import opened Wrappers
  import opened FockElemOp

  /** The exceptions thrown by the Fock build. */
  datatype Error =
    | InvalidArgument(what: string)
    | RuntimeError(what: string)
    | ProgrammingError(what: string)

  /** Normal return, or the exception a call threw. */
  datatype Outcome = Done | Thrown(err: Error)

  /** A Gaussian basis set, reduced to the sizes of its shells: basisdim()
      has Total(shells) functions blocked by shell. */
  datatype Basis = Basis(shells: seq<nat>)

  /** A symmetric SCMatrix of dimension n, its lower triangle stored row by
      row: element (i, j), j <= i, at PairIndex(i, j). */
  datatype SymmMatrix = SymmMatrix(n: nat, vals: seq<real>)
  {
    ghost predicate Valid()
    {
      |vals| == Tri(n)
    }
  }

  /** A rectangular SCMatrix, reduced to the blockings of its dimensions. */
  class RectMatrix {
    const rowBlocks: seq<nat>
    const colBlocks: seq<nat>

    constructor (rowBlocks: seq<nat>, colBlocks: seq<nat>)
      ensures this.rowBlocks == rowBlocks && this.colBlocks == colBlocks
    {
      this.rowBlocks := rowBlocks;
      this.colBlocks := colBlocks;
    }
  }

  /** The real number the IEEE double with all eight bytes equal to the
      character '0' (0x30) stands for: 0x3030303030303030 has biased
      exponent 0x303 and mantissa 0x0303030303030, so its value is
      0x10303030303030 * 2^-304. */
  const ZeroCharFill: real :=
    (0x10303030303030 as real) /
    (0x1_0000_0000_0000_0000_0000_0000_0000_0000_0000_0000_0000_0000_0000_0000_0000_0000_0000_0000_0000 as real)

  /** Every field of a FockBuildMatrix other than the contents of its arena. */
  datatype Shape = Shape(ownsData: bool, hasData: bool, blockOffsets: seq<nat>, nI: nat, nJ: nat, ndata: nat,
                         symmDim: Option<nat>, rectmat: RectMatrix?, bs1: Option<Basis>, bs2: Option<Basis>)

  /** FockBuildMatrix: owns_data_, blockpointers_ (an arena and the offset of
      every block pair in it), nI_, nJ_, ndata_, symmmat_, rectmat_, bs1_, bs2_.
      The arena is held as a value: hasData says whether blockpointers_ is
      set, data is the contents of blockpointers_[0]. */
  class FockBuildMatrix {
    var ownsData: bool
    var hasData: bool
    var data: seq<real>
    /** blockpointers_[ij] - blockpointers_[0] for every block pair ij. */
    var blockOffsets: seq<nat>
    var nI: nat
    var nJ: nat
    var ndata: nat
    /** The symmetric SCMatrix the matrix is bound to, held by value. */
    var symmmat: Option<SymmMatrix>
    var rectmat: RectMatrix?
    var bs1: Option<Basis>
    var bs2: Option<Basis>

    /** The block table has nblock() entries and the arena holds ndata_ values. */
    ghost predicate Valid()
      reads this
    {
      (!hasData ==> ndata == 0 && data == []) &&
      (hasData ==> ndata <= |data|) &&
      |blockOffsets| == NBlock()
    }

    /** symmetric(): the matrix was bound to a symmetric SCMatrix. */
    predicate Symmetric()
      reads this
    {
      symmmat.Some?
    }

    /** nblock(): a lower triangle of block pairs, or the full rectangle. */
    function NBlock(): nat
      reads this
    {
      if symmmat.Some? then Tri(nI) else nI * nJ
    }

    ghost function Shells(): seq<nat>
      reads this
      requires bs1.Some?
    {
      bs1.value.shells
    }

    /** The state the symmetric scmat_to_data leaves behind: one arena of
        exactly ndata_ values, blocks laid out contiguously in
        (I, J <= I) order. */
    ghost predicate SymLayout()
      reads this
    {
      Valid() && symmmat.Some? && rectmat == null && symmmat.value.Valid() &&
      bs1.Some? && bs2 == bs1 &&
      var b := bs1.value.shells;
      nI == |b| && nJ == |b| && ndata == NData(b) && symmmat.value.n == Total(b) &&
      hasData && |data| == ndata &&
      forall I: nat, J: nat :: J <= I < nI ==>
        PairIndex(I, J) < |blockOffsets| && blockOffsets[PairIndex(I, J)] == SymOffset(b, I, J)
    }

    constructor ()
      ensures Valid()
      ensures !ownsData && !hasData && data == [] && blockOffsets == []
      ensures nI == 0 && nJ == 0 && ndata == 0
      ensures symmmat == None && rectmat == null && bs1 == None && bs2 == None
    {
      ownsData := false;
      hasData := false;
      data := [];
      blockOffsets := [];
      nI := 0;
      nJ := 0;
      ndata := 0;
      symmmat := None;
      rectmat := null;
      bs1 := None;
      bs2 := None;
    }

    /** make_reference: take the other matrix's arena and block table
        without owning them; the basis sets are not copied. */
    method MakeReference(fbm: FockBuildMatrix)
      requires fbm.Valid()
      modifies this
      ensures Valid()
      ensures !ownsData && hasData == old(fbm.hasData) && data == old(fbm.data)
      ensures blockOffsets == old(fbm.blockOffsets)
      ensures rectmat == old(fbm.rectmat) && symmmat == old(fbm.symmmat)
      ensures nI == old(fbm.nI) && nJ == old(fbm.nJ) && ndata == old(fbm.ndata)
      ensures bs1 == old(bs1) && bs2 == old(bs2)
    {
      var h, d, offs, rm, sm, i, j, n := fbm.hasData, fbm.data, fbm.blockOffsets, fbm.rectmat, fbm.symmmat, fbm.nI, fbm.nJ, fbm.ndata;
      ownsData := false;
      hasData := h;
      data := d;
      blockOffsets := offs;
      rectmat := rm;
      symmmat := sm;
      nI := i;
      nJ := j;
      ndata := n;
    }

    /** Every field but the arena and the values of the symmetric SCMatrix,
        as one value. */
    function ShapeOf(): (s: Shape)
      reads this
      ensures s.symmDim.Some? <==> symmmat.Some?
      ensures symmmat.Some? ==> s.symmDim.value == symmmat.value.n
      ensures s.ndata == ndata && s.blockOffsets == blockOffsets && s.bs1 == bs1
    {
      Shape(ownsData, hasData, blockOffsets, nI, nJ, ndata,
            if symmmat.Some? then Some(symmmat.value.n) else None, rectmat, bs1, bs2)
    }

    /** Every field but the arena's contents as it was. */
    twostate predicate SameShape()
      reads this
    {
      ownsData == old(ownsData) && hasData == old(hasData) && blockOffsets == old(blockOffsets) &&
      nI == old(nI) && nJ == old(nJ) && ndata == old(ndata) &&
      symmmat == old(symmmat) && rectmat == old(rectmat) && bs1 == old(bs1) && bs2 == old(bs2)
    }

    /** Every field equal to those of o: what the member-wise copy
        assignment leaves behind. */
    ghost predicate SameAs(o: FockBuildMatrix)
      reads this, o
    {
      ownsData == o.ownsData && hasData == o.hasData && data == o.data &&
      blockOffsets == o.blockOffsets && nI == o.nI && nJ == o.nJ && ndata == o.ndata &&
      symmmat == o.symmmat && rectmat == o.rectmat && bs1 == o.bs1 && bs2 == o.bs2
    }

    /** The implicit copy assignment (kmats_[i] = jmats_[i]): every field,
        the ownership flag included, is copied. */
    method Assign(fbm: FockBuildMatrix)
      requires fbm.Valid()
      modifies this
      ensures Valid() && SameAs(fbm)
      ensures ownsData == old(fbm.ownsData) && hasData == old(fbm.hasData) && data == old(fbm.data)
      ensures blockOffsets == old(fbm.blockOffsets)
      ensures nI == old(fbm.nI) && nJ == old(fbm.nJ) && ndata == old(fbm.ndata)
      ensures symmmat == old(fbm.symmmat) && rectmat == old(fbm.rectmat)
      ensures bs1 == old(fbm.bs1) && bs2 == old(fbm.bs2)
    {
      var o, h, d, offs, i, j, n := fbm.ownsData, fbm.hasData, fbm.data, fbm.blockOffsets, fbm.nI, fbm.nJ, fbm.ndata;
      var sm, rm, b1, b2 := fbm.symmmat, fbm.rectmat, fbm.bs1, fbm.bs2;
      ownsData, hasData, data, blockOffsets, nI, nJ, ndata := o, h, d, offs, i, j, n;
      symmmat, rectmat, bs1, bs2 := sm, rm, b1, b2;
    }

    /** clear: drop the arena and every reference; owns_data_ is left as it was. */
    method Clear()
      modifies this
      ensures Valid()
      ensures ownsData == old(ownsData)
      ensures !hasData && data == [] && blockOffsets == [] && nI == 0 && nJ == 0 && ndata == 0
      ensures symmmat == None && rectmat == null && bs1 == None && bs2 == None
    {
      nI, nJ, ndata := 0, 0, 0;
      hasData := false;
      data := [];
      blockOffsets := [];
      symmmat := None;
      rectmat := null;
      bs1 := None;
      bs2 := None;
    }

    /** copy_data: an owner keeps its arena; a borrower gets a private arena
        of ndata_ values with the same relative block offsets.  The borrowed
        values are not copied: the new arena holds whatever the allocation
        returned, given here as uninit. */
    method CopyData(uninit: nat -> real)
      requires Valid() && (ownsData || hasData)
      modifies this
      ensures Valid() && ownsData
      ensures old(ownsData) ==> hasData == old(hasData) && data == old(data)
      ensures !old(ownsData) ==> hasData && |data| == ndata
      ensures !old(ownsData) ==> forall k: nat :: k < ndata ==> data[k] == uninit(k)
      ensures blockOffsets == old(blockOffsets)
      ensures nI == old(nI) && nJ == old(nJ) && ndata == old(ndata)
      ensures symmmat == old(symmmat) && rectmat == old(rectmat)
      ensures bs1 == old(bs1) && bs2 == old(bs2)
    {
      if ownsData {
        return;
      }
      var nIJ := NBlock();
      var offs := blockOffsets;
      var tmp := new nat[nIJ];
      var ij := 0;
      while ij < nIJ
        invariant 0 <= ij <= nIJ
        invariant forall k :: 0 <= k < ij ==> tmp[k] == offs[k]
        modifies tmp
      {
        tmp[ij] := offs[ij];
        ij := ij + 1;
      }
      blockOffsets := tmp[..];
      data := seq(ndata, k requires 0 <= k => uninit(k));
      ownsData := true;
    }

    /** zero_data: the first ndata_ values of the arena become 0. */
    method ZeroData()
      requires Valid() && hasData
      modifies this
      ensures Valid() && hasData && |data| == old(|data|)
      ensures forall k :: 0 <= k < ndata ==> data[k] == 0.0
      ensures forall k :: ndata <= k < |data| ==> data[k] == old(data[k])
      ensures SameShape()
    {
      data := seq(ndata, _ => 0.0) + data[ndata..];
    }

    /** fix_diagonal_blocks: nothing for a rectangular matrix; otherwise
        every pair (i, j), (j, i) of each diagonal block is replaced by its
        average. */
    method FixDiagonalBlocks()
      requires Valid() && (Symmetric() ==> SymLayout())
      modifies this
      ensures Valid() && (Symmetric() ==> SymLayout()) && |data| == |old(data)|
      ensures !Symmetric() ==> data == old(data)
      ensures Symmetric() ==> data == FixDiag(Shells(), old(data))
      ensures SameShape()
    {
      if symmmat.None? {
        return;
      }
      var b := bs1.value.shells;
      ghost var buf0 := data;
      FixStart(b, buf0);
      var I := 0;
      while I < nI
        invariant 0 <= I <= nI
        invariant SymLayout() && bs1.value.shells == b
        invariant FixInv(b, buf0, data, I, 0, 0)
        invariant SameShape()
      {
        FixDiagonalBlock(I, buf0);
        I := I + 1;
      }
      FixEnd(b, buf0, data);
    }

    /** One pass of the loop of fix_diagonal_blocks: the square block
        (I, I) made symmetric row by row. */
    method FixDiagonalBlock(I: nat, ghost buf0: seq<real>)
      requires SymLayout() && I < nI
      requires FixInv(Shells(), buf0, data, I, 0, 0)
      modifies this
      ensures SymLayout()
      ensures FixInv(Shells(), buf0, data, I + 1, 0, 0)
      ensures SameShape()
    {
      var b := bs1.value.shells;
      var n := b[I];
      var i := 0;
      while i < n
        invariant 0 <= i <= n
        invariant SymLayout() && bs1.value.shells == b
        invariant FixInv(b, buf0, data, I, i, 0)
        invariant SameShape()
      {
        FixDiagonalRow(I, i, buf0);
        i := i + 1;
      }
      FixBlockEnd(b, buf0, data, I);
    }

    /** Row i of diagonal block (I, I) made symmetric against column i. */
    method FixDiagonalRow(I: nat, i: nat, ghost buf0: seq<real>)
      requires SymLayout() && I < nI && i < Shells()[I]
      requires FixInv(Shells(), buf0, data, I, i, 0)
      modifies this
      ensures SymLayout()
      ensures FixInv(Shells(), buf0, data, I, i + 1, 0)
      ensures SameShape()
    {
      TriPairIndex(nI, I, I);
      var buf := FixRow(bs1.value.shells, blockOffsets[PairIndex(I, I)], I, i, buf0, data);
      data := buf;
    }

    /** scmat_to_data for a symmetric matrix: after clear(), a matrix whose
        dimension differs from the basis throws invalid_argument; otherwise
        the arena of Σ_{J<=I} size(I)size(J) values gets its blocks in
        (I, J <= I) order from offset 0, and is filled by copy-in when copy
        is set, or with bytes of the character '0' when it is not. */
    method ScmatToDataSym(m: SymmMatrix, b: Basis, copy: bool) returns (out: Outcome)
      requires m.Valid() && |b.shells| > 0
      modifies this
      ensures ownsData == (old(ownsData) || out.Done?)
      ensures symmmat == Some(m) && bs1 == Some(b) && bs2 == Some(b) && rectmat == null
      ensures out.Thrown? <==> Total(b.shells) != m.n
      ensures out.Thrown? ==> out.err.InvalidArgument? && Valid() && !hasData && ndata == 0
      ensures out.Done? ==> SymLayout()
      ensures out.Done? && copy ==> data == Packed(b.shells, m.vals)
      ensures out.Done? && !copy ==> forall p :: 0 <= p < ndata ==> data[p] == ZeroCharFill
    {
      Clear();
      symmmat := Some(m);
      bs1 := Some(b);
      bs2 := Some(b);
      if Total(b.shells) != m.n {
        return Thrown(InvalidArgument("scmat_to_data: bad dimension (sym)"));
      }
      AllocateBlocks();
      if copy {
        CopyIn();
      } else {
        FillCharZero();
      }
      return Done;
    }

    /** The allocation part of the symmetric scmat_to_data: nI_ = nJ_ =
        shell count, ndata_ from the block sizes, a new arena and the
        block pointer loop. */
    method AllocateBlocks()
      requires symmmat.Some? && symmmat.value.Valid() && rectmat == null
      requires bs1.Some? && bs2 == bs1 && |Shells()| > 0 && Total(Shells()) == symmmat.value.n
      modifies this
      ensures SymLayout() && ownsData
      ensures symmmat == old(symmmat) && bs1 == old(bs1)
    {
      var sizes := bs1.value.shells;
      nI := |sizes|;
      nJ := |sizes|;
      var count := DataCount(sizes);
      ndata := count;
      var offs := BlockTable(sizes);
      blockOffsets := offs;
      data := seq(count, _ => 0.0);
      hasData := true;
      ownsData := true;
    }

    /** memset of the arena with the character '0'. */
    method FillCharZero()
      requires SymLayout()
      modifies this
      ensures SymLayout()
      ensures forall p :: 0 <= p < ndata ==> data[p] == ZeroCharFill
      ensures SameShape()
    {
      data := seq(ndata, _ => ZeroCharFill);
    }

    /** FockBuildMatrixRectElemOp with data_to_mat false, run over the
        lower triangle of the symmetric matrix: the constructor zeroes the
        arena, then element (i, j) goes to its block position and, in a
        diagonal block, also to the transposed position. */
    method CopyIn()
      requires SymLayout()
      modifies this
      ensures SymLayout()
      ensures data == Packed(Shells(), symmmat.value.vals)
      ensures SameShape()
    {
      var b := bs1.value.shells;
      var mv := symmmat.value.vals;
      var arena := data;
      var k := 0;
      while k < ndata
        invariant 0 <= k <= ndata == |arena|
        invariant forall q :: 0 <= q < k ==> arena[q] == 0.0
        modifies {}
      {
        arena := arena[k := 0.0];
        k := k + 1;
      }
      assert arena == seq(NData(b), _ => 0.0);
      CopyInStart(b, mv);
      var n := symmmat.value.n;
      var i := 0;
      while i < n
        invariant 0 <= i <= n
        invariant CopyInInv(b, mv, arena, i, 0)
        modifies {}
      {
        arena := CopyInRow(mv, arena, i);
        CopyInRowEnd(b, mv, arena, i);
        i := i + 1;
      }
      CopyInEnd(b, mv, arena);
      data := arena;
    }

    /** The elements (i, j <= i) of one row of the lower triangle copied
        into the arena. */
    method CopyInRow(mv: seq<real>, arena: seq<real>, i: nat) returns (r: seq<real>)
      requires SymLayout() && |mv| == Tri(Total(Shells())) && i < Total(Shells())
      requires CopyInInv(Shells(), mv, arena, i, 0)
      ensures CopyInInv(Shells(), mv, r, i, i + 1)
    {
      var b := bs1.value.shells;
      r := arena;
      var j := 0;
      while j <= i
        invariant 0 <= j <= i + 1
        invariant CopyInInv(b, mv, r, i, j)
      {
        ghost var before := r;
        CopyInStep(b, mv, before, i, j);
        var (I, blocki) := ElemToBlock(b, i);
        var (J, blockj) := ElemToBlock(b, j);
        ElemToBlockMonotone(b, j, i);
        TriPairIndex(nI, I, J);
        PosInBlock(b, I, J, blocki, blockj);
        var IJ := PairIndex(I, J);
        var ni := b[I];
        var nj := b[J];
        var blockoffset := blocki * nj + blockj;
        var dat := blockOffsets[IJ];
        var value := mv[PairIndex(i, j)];
        r := r[dat + blockoffset := value];
        if I == J {
          PosInBlock(b, I, I, blockj, blocki);
          r := r[dat + blockj * ni + blocki := value];
        }
        assert r == CopyInWrite(b, before, i, j, value);
        j := j + 1;
      }
    }

    /** data_to_symmat: FockBuildMatrixRectElemOp with data_to_mat true;
        each lower-triangle element (i, j) becomes its block value plus
        its old value. */
    method DataToSymmat()
      requires SymLayout()
      modifies this
      ensures SymLayout() && ShapeOf() == old(ShapeOf()) && data == old(data)
      ensures |symmmat.value.vals| == |old(symmmat.value.vals)|
      ensures forall i: nat, j: nat :: j <= i < symmmat.value.n ==>
                LowerGet(symmmat.value.vals, symmmat.value.n, i, j) ==
                  LowerGet(old(symmmat.value.vals), symmmat.value.n, i, j) + data[PosOf(Shells(), i, j)]
    {
      var b := bs1.value.shells;
      var mv := symmmat.value.vals;
      var vals := mv;
      var d := data;
      CopyOutStart(b, mv, d);
      var n := symmmat.value.n;
      var i := 0;
      while i < n
        invariant 0 <= i <= n
        invariant |vals| == |mv|
        invariant CopyOutInv(b, mv, d, vals, i, 0)
        modifies {}
      {
        vals := CopyOutRow(mv, d, vals, i);
        CopyOutRowEnd(b, mv, d, vals, i);
        i := i + 1;
      }
      CopyOutEnd(b, mv, d, vals);
      symmmat := Some(SymmMatrix(n, vals));
    }

    /** The elements (i, j <= i) of one row of the lower triangle raised by
        their block values. */
    method CopyOutRow(mv: seq<real>, d: seq<real>, vals: seq<real>, i: nat) returns (r: seq<real>)
      requires SymLayout() && d == data && |mv| == Tri(Total(Shells())) && |vals| == |mv| && i < Total(Shells())
      requires CopyOutInv(Shells(), mv, d, vals, i, 0)
      ensures |r| == |mv| && CopyOutInv(Shells(), mv, d, r, i, i + 1)
    {
      var b := bs1.value.shells;
      r := vals;
      var j := 0;
      while j <= i
        invariant 0 <= j <= i + 1
        invariant |r| == |mv|
        invariant CopyOutInv(b, mv, d, r, i, j)
      {
        CopyOutStep(b, mv, d, r, i, j);
        var (I, blocki) := ElemToBlock(b, i);
        var (J, blockj) := ElemToBlock(b, j);
        ElemToBlockMonotone(b, j, i);
        TriPairIndex(nI, I, J);
        var IJ := PairIndex(I, J);
        var nj := b[J];
        var blockoffset := blocki * nj + blockj;
        var dat := blockOffsets[IJ];
        assert dat + blockoffset == PosOf(b, i, j);
        r := r[PairIndex(i, j) := d[dat + blockoffset] + r[PairIndex(i, j)]];
        j := j + 1;
      }
    }

    /** data_to_rectmat is not implemented and always throws. */
    method DataToRectmat() returns (out: Outcome)
      ensures out == Thrown(RuntimeError("data_to_rectmat: not yet impl"))
    {
      return Thrown(RuntimeError("data_to_rectmat: not yet impl"));
    }

    /** scmat_to_data for a rectangular matrix: a bad dimension throws
        invalid_argument and changes nothing; otherwise the matrix and the
        bases are recorded and runtime_error is thrown. */
    method ScmatToDataRect(m: RectMatrix, b1: Basis, b2: Basis, copy: bool) returns (out: Outcome)
      requires Valid()
      modifies this
      ensures Valid()
      ensures out.Thrown?
      ensures out.err.InvalidArgument? <==> b1.shells != m.rowBlocks || b2.shells != m.colBlocks
      ensures out.err.InvalidArgument? ==> unchanged(this)
      ensures !out.err.InvalidArgument? ==>
                out.err.RuntimeError? && rectmat == m && bs1 == Some(b1) && bs2 == Some(b2) &&
                symmmat == old(symmmat) && hasData == old(hasData) && data == old(data) &&
                ndata == old(ndata) && ownsData == old(ownsData) && blockOffsets == old(blockOffsets) &&
                nI == old(nI) && nJ == old(nJ)
    {
      if b1.shells != m.rowBlocks || b2.shells != m.colBlocks {
        return Thrown(InvalidArgument("scmat_to_data: bad dimension (rect)"));
      }
      rectmat := m;
      bs1 := Some(b1);
      bs2 := Some(b2);
      return Thrown(RuntimeError("scmat_to_data: not yet impl (rect)"));
    }

    /** data_to_scmat: both matrices set or neither set throws; a symmetric
        matrix receives the copy-out; a rectangular one throws. */
    method DataToScmat() returns (out: Outcome)
      requires symmmat.Some? && rectmat == null ==> SymLayout()
      modifies this
      ensures (symmmat.Some? && rectmat != null) || (symmmat.None? && rectmat == null) ==>
                out.Thrown? && out.err.RuntimeError?
      ensures symmmat.None? && rectmat != null ==> out.Thrown? && out.err.RuntimeError?
      ensures out.Done? <==> old(symmmat.Some? && rectmat == null)
      ensures out.Thrown? ==> unchanged(this)
      ensures out.Done? ==>
                SymLayout() && ShapeOf() == old(ShapeOf()) && data == old(data) &&
                |symmmat.value.vals| == |old(symmmat.value.vals)| &&
                forall i: nat, j: nat :: j <= i < symmmat.value.n ==>
                  LowerGet(symmmat.value.vals, symmmat.value.n, i, j) ==
                    LowerGet(old(symmmat.value.vals), symmmat.value.n, i, j) + data[PosOf(Shells(), i, j)]
    {
      if symmmat.Some? {
        if rectmat != null {
          return Thrown(RuntimeError("data_to_scmat: both mats nonnull"));
        }
        DataToSymmat();
        return Done;
      } else if rectmat != null {
        out := DataToRectmat();
      } else {
        return Thrown(RuntimeError("data_to_scmat: both mats null"));
      }
    }

    /** accum: buffers of different sizes throw invalid_argument; otherwise
        every value of f is added to the matching value of this one. */
    method Accum(f: FockBuildMatrix) returns (out: Outcome)
      requires Valid() && f.Valid() && hasData && f.hasData
      modifies this
      ensures SameShape()
      ensures Valid() && hasData && |data| == old(|data|)
      ensures out.Thrown? <==> old(ndata) != old(f.ndata)
      ensures out.Thrown? ==> out.err.InvalidArgument? && data == old(data)
      ensures out.Done? ==> forall k :: 0 <= k < ndata ==> data[k] == old(data[k]) + old(f.data[k])
      ensures out.Done? ==> forall k :: ndata <= k < |data| ==> data[k] == old(data[k])
      ensures SameShape()
    {
      if ndata != f.ndata {
        return Thrown(InvalidArgument("incompatible FockBuildMatrix in accum"));
      }
      var src := f.data;
      var i := 0;
      while i < ndata
        invariant 0 <= i <= ndata <= |src|
        invariant Valid() && hasData && |data| == old(|data|)
        invariant forall k :: 0 <= k < i ==> data[k] == old(data[k]) + src[k]
        invariant forall k :: i <= k < |data| ==> data[k] == old(data[k])
        invariant SameShape()
      {
        data := data[i := data[i] + src[i]];
        i := i + 1;
      }
      return Done;
    }

    /** accum_remote: MessageGrp::sum, given as the other processes'
        buffers; every value becomes the sum over all processes. */
    method AccumRemote(others: seq<seq<real>>)
      requires Valid() && hasData
      requires forall q :: 0 <= q < |others| ==> |others[q]| == ndata
      modifies this
      ensures SameShape()
      ensures Valid() && hasData && |data| == old(|data|)
      ensures forall k :: 0 <= k < ndata ==> data[k] == old(data[k]) + SumAt(others, k)
      ensures forall k :: ndata <= k < |data| ==> data[k] == old(data[k])
    {
      var n, d := ndata, data;
      data := seq(n, k requires 0 <= k < n => d[k] + SumAt(others, k)) + d[n..];
    }
  }

  /** The j loop of fix_diagonal_blocks for row i of diagonal block
      (I, I), of size n at offset dat: every j < i sets dat[i*n+j] and
      dat[j*n+i] to their average. */
  method FixRow(b: seq<nat>, dat: nat, I: nat, i: nat, ghost buf0: seq<real>, buf: seq<real>)
    returns (buf': seq<real>)
    requires I < |b| && i < b[I] && dat == SymOffset(b, I, I)
    requires FixInv(b, buf0, buf, I, i, 0)
    ensures FixInv(b, buf0, buf', I, i + 1, 0)
  {
    var n := b[I];
    buf' := buf;
    var j := 0;
    while j < i
      invariant 0 <= j <= i
      invariant FixInv(b, buf0, buf', I, i, j)
    {
      SlotOfPos(b, I, I, i, j);
      SlotOfPos(b, I, I, j, i);
      var ij: int := i * n + j;
      var ji: int := j * n + i;
      assert dat + ij == Pos(b, I, I, i, j) && dat + ji == Pos(b, I, I, j, i);
      var val := 0.5 * (buf'[dat + ij] + buf'[dat + ji]);
      FixStep(b, buf0, buf', I, i, j, val);
      buf' := buf'[dat + ij := val][dat + ji := val];
      j := j + 1;
    }
    FixRowEnd(b, buf0, buf', I, i);
  }

  /** Sum of value k over a sequence of buffers. */
  function SumAt(bufs: seq<seq<real>>, k: nat): real
    requires forall q :: 0 <= q < |bufs| ==> k < |bufs[q]|
  {
    if |bufs| == 0 then 0.0 else SumAt(bufs[..|bufs| - 1], k) + bufs[|bufs| - 1][k]
  }

  /** The block pointer loop of scmat_to_data: block (I, J <= I) starts
      where the previous one ended, the first at offset 0. */
  method BlockTable(sizes: seq<nat>) returns (offsets: seq<nat>)
    requires |sizes| > 0
    ensures |offsets| == Tri(|sizes|)
    ensures forall I: nat, J: nat :: J <= I < |sizes| ==>
              PairIndex(I, J) < |offsets| && offsets[PairIndex(I, J)] == SymOffset(sizes, I, J)
  {
    var nI := |sizes|;
    var offs := new nat[Tri(nI)];
    TriPairIndex(nI, 0, 0);
    offs[0] := 0;
    var current := 0;
    var I := 0;
    while I < nI
      invariant 0 <= I <= nI
      invariant current == TriSum(sizes, I)
      invariant forall I': nat, J': nat :: J' <= I' < I ==>
                  PairIndex(I', J') < offs.Length && offs[PairIndex(I', J')] == SymOffset(sizes, I', J')
    {
      var J := 0;
      while J <= I
        invariant 0 <= J <= I + 1
        invariant current == TriSum(sizes, I) + sizes[I] * Prefix(sizes, J)
        invariant forall I': nat, J': nat :: J' <= I' < I ==>
                    PairIndex(I', J') < offs.Length && offs[PairIndex(I', J')] == SymOffset(sizes, I', J')
        invariant forall J': nat :: J' < J ==>
                    PairIndex(I, J') < offs.Length && offs[PairIndex(I, J')] == SymOffset(sizes, I, J')
      {
        TriPairIndex(nI, I, J);
        forall I': nat, J': nat | J' <= I' < I || (I' == I && J' < J)
          ensures PairIndex(I', J') != PairIndex(I, J)
        {
          if PairIndex(I', J') == PairIndex(I, J) {
            TriPairUnique(I', J', I, J);
          }
        }
        offs[PairIndex(I, J)] := current;
        SymOffsetStep(sizes, I, J);
        current := current + sizes[I] * sizes[J];
        J := J + 1;
      }
      I := I + 1;
    }
    offsets := offs[..];
  }

  /** ndata_ of scmat_to_data: the sum of size(I) * size(J) over J <= I. */
  method DataCount(sizes: seq<nat>) returns (count: nat)
    ensures count == NData(sizes)
  {
    count := 0;
    var I := 0;
    while I < |sizes|
      invariant 0 <= I <= |sizes|
      invariant count == TriSum(sizes, I)
    {
      var J := 0;
      while J <= I
        invariant 0 <= J <= I + 1
        invariant count == TriSum(sizes, I) + sizes[I] * Prefix(sizes, J)
      {
        count := count + sizes[I] * sizes[J];
        J := J + 1;
      }
      I := I + 1;
    }
  }
}
