/** The index map of FockBuildMatrixRectElemOp (fockbuild.cc) between the
    elements of a symmetric matrix and the blocked symmetric buffer of a
    FockBuildMatrix, and the buffer-level meaning of copy-in, copy-out
    and fix_diagonal_blocks. */
module FockElemOp {
  import opened ShellLayout

  /** Element (i, j) of a symmetric matrix held as its lower triangle. */
  function LowerGet(mv: seq<real>, n: nat, i: nat, j: nat): real
    requires |mv| == Tri(n) && i < n && j < n
  {
    if j <= i then
      TriPairIndex(n, i, j);
      mv[PairIndex(i, j)]
    else
      TriPairIndex(n, j, i);
      mv[PairIndex(j, i)]
  }

  /** Basis function indices (row, column) of the entry at slot s. */
  function RowOf(b: seq<nat>, s: Slot): nat
    requires s.I < |b|
  {
    Prefix(b, s.I) + s.a
  }

  function ColOf(b: seq<nat>, s: Slot): nat
    requires s.J < |b|
  {
    Prefix(b, s.J) + s.b
  }

  lemma {:induction false} SlotInRange(b: seq<nat>, s: Slot)
    requires SlotOk(b, s)
    ensures RowOf(b, s) < Total(b) && ColOf(b, s) < Total(b)
  {
    PrefixMonotone(b, s.I + 1, |b|);
    PrefixMonotone(b, s.J + 1, |b|);
  }

  /** Position in the symmetric buffer of matrix element (i, j), j <= i:
      the block pair (I, J) of i and j, at offset blocki * nj + blockj. */
  function PosOf(b: seq<nat>, i: nat, j: nat): (r: nat)
    requires j <= i < Total(b)
    ensures r < NData(b)
    ensures RowOf(b, SlotOf(b, r)) == i && ColOf(b, SlotOf(b, r)) == j
  {
    var (I, bi) := ElemToBlock(b, i);
    var (J, bj) := ElemToBlock(b, j);
    ElemToBlockMonotone(b, j, i);
    SlotOfPos(b, I, J, bi, bj);
    Pos(b, I, J, bi, bj)
  }

  /** The value copy-in leaves at buffer position p: the matrix element
      whose row and column are the functions that p's slot stands for. */
  ghost function PackedAt(b: seq<nat>, mv: seq<real>, p: nat): real
    requires |mv| == Tri(Total(b)) && p < NData(b)
  {
    var s := SlotOf(b, p);
    SlotInRange(b, s);
    LowerGet(mv, Total(b), RowOf(b, s), ColOf(b, s))
  }

  /** The whole buffer copy-in produces from the lower triangle mv. */
  ghost function Packed(b: seq<nat>, mv: seq<real>): (r: seq<real>)
    requires |mv| == Tri(Total(b))
    ensures |r| == NData(b)
  {
    seq(NData(b), p requires 0 <= p < NData(b) => PackedAt(b, mv, p))
  }

  /** Copy-in stores every matrix element at its block position, and in a
      diagonal block also at the transposed position. */
  lemma {:induction false} PackedHoldsElements(b: seq<nat>, mv: seq<real>, i: nat, j: nat)
    requires |mv| == Tri(Total(b)) && j <= i < Total(b)
    ensures PairIndex(i, j) < |mv|
    ensures Packed(b, mv)[PosOf(b, i, j)] == mv[PairIndex(i, j)]
    ensures ElemToBlock(b, i).0 == ElemToBlock(b, j).0 ==>
              var I := ElemToBlock(b, i).0;
              Pos(b, I, I, ElemToBlock(b, j).1, ElemToBlock(b, i).1) < NData(b) &&
              Packed(b, mv)[Pos(b, I, I, ElemToBlock(b, j).1, ElemToBlock(b, i).1)] == mv[PairIndex(i, j)]
  {
    TriPairIndex(Total(b), i, j);
    var I := ElemToBlock(b, i).0;
    var J := ElemToBlock(b, j).0;
    if I == J {
      SlotOfPos(b, I, I, ElemToBlock(b, j).1, ElemToBlock(b, i).1);
    }
  }

  /** Inside diagonal blocks the packed buffer is symmetric. */
  lemma {:induction false} PackedDiagonalSymmetric(b: seq<nat>, mv: seq<real>, I: nat, a: nat, c: nat)
    requires |mv| == Tri(Total(b)) && I < |b| && a < b[I] && c < b[I]
    ensures Pos(b, I, I, a, c) < NData(b) && Pos(b, I, I, c, a) < NData(b)
    ensures Packed(b, mv)[Pos(b, I, I, a, c)] == Packed(b, mv)[Pos(b, I, I, c, a)]
  {
    SlotOfPos(b, I, I, a, c);
    SlotOfPos(b, I, I, c, a);
  }

  /** Copy-in followed by copy-out adds every element to itself: data_to_mat
      accumulates into the matrix instead of overwriting it. */
  lemma {:induction false} CopyInCopyOutDoubles(b: seq<nat>, mv: seq<real>, i: nat, j: nat)
    requires |mv| == Tri(Total(b)) && j <= i < Total(b)
    ensures PairIndex(i, j) < |mv|
    ensures mv[PairIndex(i, j)] + Packed(b, mv)[PosOf(b, i, j)] == 2.0 * mv[PairIndex(i, j)]
  {
    PackedHoldsElements(b, mv, i, j);
  }

  /** Entry (hi, lo), in lower-triangle row order, comes before (i, j). */
  predicate Before(hi: nat, lo: nat, i: nat, j: nat)
  {
    hi < i || (hi == i && lo < j)
  }

  /** Copy-in has reached the entry at p once it has processed the lower
      triangle element naming p's row and column. */
  ghost predicate Visited(b: seq<nat>, p: nat, i: nat, j: nat)
    requires p < NData(b)
  {
    var s := SlotOf(b, p);
    var r := RowOf(b, s);
    var c := ColOf(b, s);
    if c <= r then Before(r, c, i, j) else Before(c, r, i, j)
  }

  /** The only positions whose row and column are {i, j} are the two that
      processing element (i, j) writes. */
  lemma {:induction false} WrittenSlots(b: seq<nat>, p: nat, i: nat, j: nat)
    requires j <= i < Total(b) && p < NData(b)
    requires var s := SlotOf(b, p);
             (RowOf(b, s) == i && ColOf(b, s) == j) || (RowOf(b, s) == j && ColOf(b, s) == i)
    ensures var (I, bi) := ElemToBlock(b, i);
            var (J, bj) := ElemToBlock(b, j);
            J <= I && (p == Pos(b, I, J, bi, bj) || (I == J && p == Pos(b, I, I, bj, bi)))
  {
    var s := SlotOf(b, p);
    ElemToBlockOf(b, s.I, s.a);
    ElemToBlockOf(b, s.J, s.b);
    ElemToBlockMonotone(b, j, i);
  }


  /** Buffer after copy-in has processed lower-triangle element (i, j) with
      value v: v at the block position and, in a diagonal block, at the
      transposed position as well. */
  ghost function CopyInWrite(b: seq<nat>, buf: seq<real>, i: nat, j: nat, v: real): (r: seq<real>)
    requires |buf| == NData(b) && j <= i < Total(b)
    ensures |r| == |buf|
  {
    var (I, bi) := ElemToBlock(b, i);
    var (J, bj) := ElemToBlock(b, j);
    ElemToBlockMonotone(b, j, i);
    PosInBlock(b, I, J, bi, bj);
    var r1 := buf[Pos(b, I, J, bi, bj) := v];
    if I == J then
      PosInBlock(b, I, I, bj, bi);
      r1[Pos(b, I, I, bj, bi) := v]
    else r1
  }

  /** Loop invariant of copy-in: visited positions hold their element,
      the others still hold the 0 the element operation started with. */
  ghost predicate CopyInInv(b: seq<nat>, mv: seq<real>, buf: seq<real>, i: nat, j: nat)
    requires |mv| == Tri(Total(b))
  {
    |buf| == NData(b) &&
    forall p: nat :: p < |buf| ==> buf[p] == (if Visited(b, p, i, j) then PackedAt(b, mv, p) else 0.0)
  }

  lemma {:induction false} CopyInStart(b: seq<nat>, mv: seq<real>)
    requires |mv| == Tri(Total(b))
    ensures CopyInInv(b, mv, seq(NData(b), _ => 0.0), 0, 0)
  {
  }

  lemma {:induction false} CopyInStep(b: seq<nat>, mv: seq<real>, buf: seq<real>, i: nat, j: nat)
    requires |mv| == Tri(Total(b)) && j <= i < Total(b)
    requires CopyInInv(b, mv, buf, i, j)
    ensures PairIndex(i, j) < |mv|
    ensures CopyInInv(b, mv, CopyInWrite(b, buf, i, j, mv[PairIndex(i, j)]), i, j + 1)
  {
    TriPairIndex(Total(b), i, j);
    var (I, bi) := ElemToBlock(b, i);
    var (J, bj) := ElemToBlock(b, j);
    ElemToBlockMonotone(b, j, i);
    SlotOfPos(b, I, J, bi, bj);
    if I == J {
      SlotOfPos(b, I, I, bj, bi);
    }
    var r := CopyInWrite(b, buf, i, j, mv[PairIndex(i, j)]);
    forall p: nat | p < |r|
      ensures r[p] == (if Visited(b, p, i, j + 1) then PackedAt(b, mv, p) else 0.0)
    {
      var s := SlotOf(b, p);
      if (RowOf(b, s) == i && ColOf(b, s) == j) || (RowOf(b, s) == j && ColOf(b, s) == i) {
        WrittenSlots(b, p, i, j);
      }
    }
  }

  lemma {:induction false} CopyInRowEnd(b: seq<nat>, mv: seq<real>, buf: seq<real>, i: nat)
    requires |mv| == Tri(Total(b))
    requires CopyInInv(b, mv, buf, i, i + 1)
    ensures CopyInInv(b, mv, buf, i + 1, 0)
  {
    var i1 := i + 1;
    forall p: nat | p < |buf|
      ensures Visited(b, p, i1, 0) <==> Visited(b, p, i, i1)
    {
    }
  }

  /** Once the element loop has passed the whole triangle, the buffer is
      the packed matrix. */
  lemma {:induction false} CopyInEnd(b: seq<nat>, mv: seq<real>, buf: seq<real>)
    requires |mv| == Tri(Total(b))
    requires CopyInInv(b, mv, buf, Total(b), 0)
    ensures buf == Packed(b, mv)
  {
    forall p: nat | p < |buf|
      ensures buf[p] == Packed(b, mv)[p]
    {
      SlotInRange(b, SlotOf(b, p));
    }
  }

  /** Loop invariant of copy-out: the elements before (i, j) have received
      their block value, the others are still the old matrix mv. */
  ghost predicate CopyOutInv(b: seq<nat>, mv: seq<real>, d: seq<real>, vs: seq<real>, i: nat, j: nat)
  {
    |mv| == Tri(Total(b)) && |vs| == Tri(Total(b)) && |d| == NData(b) &&
    forall i': nat, j': nat :: j' <= i' < Total(b) ==>
      LowerGet(vs, Total(b), i', j') ==
        (if Before(i', j', i, j) then LowerGet(mv, Total(b), i', j') + d[PosOf(b, i', j')]
         else LowerGet(mv, Total(b), i', j'))
  }

  lemma {:induction false} CopyOutStart(b: seq<nat>, mv: seq<real>, d: seq<real>)
    requires |mv| == Tri(Total(b)) && |d| == NData(b)
    ensures CopyOutInv(b, mv, d, mv, 0, 0)
  {
  }

  lemma {:induction false} CopyOutStep(b: seq<nat>, mv: seq<real>, d: seq<real>, vs: seq<real>, i: nat, j: nat)
    requires j <= i < Total(b)
    requires CopyOutInv(b, mv, d, vs, i, j)
    ensures PairIndex(i, j) < |vs|
    ensures CopyOutInv(b, mv, d, vs[PairIndex(i, j) := d[PosOf(b, i, j)] + vs[PairIndex(i, j)]], i, j + 1)
  {
    var n := Total(b);
    TriPairIndex(n, i, j);
    var vs' := vs[PairIndex(i, j) := d[PosOf(b, i, j)] + vs[PairIndex(i, j)]];
    forall i': nat, j': nat | j' <= i' < n
      ensures LowerGet(vs', n, i', j') ==
                (if Before(i', j', i, j + 1) then LowerGet(mv, n, i', j') + d[PosOf(b, i', j')]
                 else LowerGet(mv, n, i', j'))
    {
      TriPairIndex(n, i', j');
      if (i', j') != (i, j) && PairIndex(i', j') == PairIndex(i, j) {
        TriPairUnique(i', j', i, j);
        assert false;
      }
    }
  }

  lemma {:induction false} CopyOutRowEnd(b: seq<nat>, mv: seq<real>, d: seq<real>, vs: seq<real>, i: nat)
    requires CopyOutInv(b, mv, d, vs, i, i + 1)
    ensures CopyOutInv(b, mv, d, vs, i + 1, 0)
  {
  }

  /** After the element loop, every element is its block value plus its old value. */
  lemma {:induction false} CopyOutEnd(b: seq<nat>, mv: seq<real>, d: seq<real>, vs: seq<real>)
    requires CopyOutInv(b, mv, d, vs, Total(b), 0)
    ensures forall i: nat, j: nat :: j <= i < Total(b) ==>
              LowerGet(vs, Total(b), i, j) == LowerGet(mv, Total(b), i, j) + d[PosOf(b, i, j)]
  {
  }

  /** Value fix_diagonal_blocks leaves at position p: inside a diagonal
      block the average of (i, j) and (j, i), elsewhere the old value. */
  ghost function FixedAt(b: seq<nat>, buf: seq<real>, p: nat): real
    requires |buf| == NData(b) && p < |buf|
  {
    var s := SlotOf(b, p);
    if s.I == s.J then
      PosInBlock(b, s.I, s.I, s.b, s.a);
      0.5 * (buf[p] + buf[Pos(b, s.I, s.I, s.b, s.a)])
    else buf[p]
  }

  /** fix_diagonal_blocks applied to a whole buffer. */
  ghost function FixDiag(b: seq<nat>, buf: seq<real>): (r: seq<real>)
    requires |buf| == NData(b)
    ensures |r| == |buf|
  {
    seq(|buf|, p requires 0 <= p < |buf| => FixedAt(b, buf, p))
  }

  /** Each diagonal block becomes exactly symmetric, (a, c) and (c, a) both
      holding their average; diagonal entries keep their values. */
  lemma {:induction false} FixDiagSymmetrizes(b: seq<nat>, buf: seq<real>, I: nat, a: nat, c: nat)
    requires |buf| == NData(b) && I < |b| && a < b[I] && c < b[I]
    ensures Pos(b, I, I, a, c) < |buf| && Pos(b, I, I, c, a) < |buf|
    ensures FixDiag(b, buf)[Pos(b, I, I, a, c)] == FixDiag(b, buf)[Pos(b, I, I, c, a)]
    ensures FixDiag(b, buf)[Pos(b, I, I, a, c)] ==
              0.5 * (buf[Pos(b, I, I, a, c)] + buf[Pos(b, I, I, c, a)])
    ensures a == c ==> FixDiag(b, buf)[Pos(b, I, I, a, c)] == buf[Pos(b, I, I, a, c)]
  {
    SlotOfPos(b, I, I, a, c);
    SlotOfPos(b, I, I, c, a);
  }

  /** Blocks off the diagonal are left alone. */
  lemma {:induction false} FixDiagOffDiagonal(b: seq<nat>, buf: seq<real>, I: nat, J: nat, a: nat, c: nat)
    requires |buf| == NData(b) && J < I < |b| && a < b[I] && c < b[J]
    ensures Pos(b, I, J, a, c) < |buf|
    ensures FixDiag(b, buf)[Pos(b, I, J, a, c)] == buf[Pos(b, I, J, a, c)]
  {
    SlotOfPos(b, I, J, a, c);
  }

  /** Applying fix_diagonal_blocks twice is the same as applying it once. */
  lemma {:induction false} FixDiagIdempotent(b: seq<nat>, buf: seq<real>)
    requires |buf| == NData(b)
    ensures FixDiag(b, FixDiag(b, buf)) == FixDiag(b, buf)
  {
    var f := FixDiag(b, buf);
    forall p: nat | p < |buf|
      ensures FixDiag(b, f)[p] == f[p]
    {
      var s := SlotOf(b, p);
      if s.I == s.J {
        FixDiagSymmetrizes(b, buf, s.I, s.a, s.b);
      }
    }
  }

  /** fix_diagonal_blocks has finished the entry at p: p lies in a diagonal
      block before block I, or in block I at an entry (hi, lo) before (i, j). */
  ghost predicate FixDone(b: seq<nat>, p: nat, I: nat, i: nat, j: nat)
    requires p < NData(b)
  {
    var s := SlotOf(b, p);
    s.I == s.J &&
    (s.I < I || (s.I == I && (if s.b <= s.a then Before(s.a, s.b, i, j) else Before(s.b, s.a, i, j))))
  }

  /** Loop invariant of fix_diagonal_blocks over the original buffer buf0. */
  ghost predicate FixInv(b: seq<nat>, buf0: seq<real>, buf: seq<real>, I: nat, i: nat, j: nat)
  {
    |buf0| == NData(b) && |buf| == NData(b) &&
    forall p: nat :: p < |buf| ==>
      buf[p] == (if FixDone(b, p, I, i, j) then FixedAt(b, buf0, p) else buf0[p])
  }

  lemma {:induction false} FixStart(b: seq<nat>, buf0: seq<real>)
    requires |buf0| == NData(b)
    ensures FixInv(b, buf0, buf0, 0, 0, 0)
  {
  }

  /** One step of the inner loop: (i, j) and (j, i) of block I both get
      their average. */
  lemma {:induction false} FixStep(b: seq<nat>, buf0: seq<real>, buf: seq<real>, I: nat, i: nat, j: nat, v: real)
    requires I < |b| && j < i < b[I]
    requires FixInv(b, buf0, buf, I, i, j)
    requires Pos(b, I, I, i, j) < |buf| && Pos(b, I, I, j, i) < |buf|
    requires v == 0.5 * (buf[Pos(b, I, I, i, j)] + buf[Pos(b, I, I, j, i)])
    ensures FixInv(b, buf0, buf[Pos(b, I, I, i, j) := v][Pos(b, I, I, j, i) := v], I, i, j + 1)
  {
    SlotOfPos(b, I, I, i, j);
    SlotOfPos(b, I, I, j, i);
    var r := buf[Pos(b, I, I, i, j) := v][Pos(b, I, I, j, i) := v];
    forall p: nat | p < |r|
      ensures r[p] == (if FixDone(b, p, I, i, j + 1) then FixedAt(b, buf0, p) else buf0[p])
    {
    }
  }

  lemma {:induction false} FixRowEnd(b: seq<nat>, buf0: seq<real>, buf: seq<real>, I: nat, i: nat)
    requires FixInv(b, buf0, buf, I, i, i)
    ensures FixInv(b, buf0, buf, I, i + 1, 0)
  {
  }

  lemma {:induction false} FixBlockEnd(b: seq<nat>, buf0: seq<real>, buf: seq<real>, I: nat)
    requires I < |b|
    requires FixInv(b, buf0, buf, I, b[I], 0)
    ensures FixInv(b, buf0, buf, I + 1, 0, 0)
  {
  }

  lemma {:induction false} FixEnd(b: seq<nat>, buf0: seq<real>, buf: seq<real>)
    requires FixInv(b, buf0, buf, |b|, 0, 0)
    ensures buf == FixDiag(b, buf0)
  {
    forall p: nat | p < |buf|
      ensures buf[p] == FixDiag(b, buf0)[p]
    {
    }
  }
}
