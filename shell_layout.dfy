/** Shell-blocked layout of a basis set: the shell sizes of a basis give the
    offset of every shell, the shell holding a given basis function
    (SCBlockInfo::elem_to_block), and the offset of every shell-block pair
    in the blocked symmetric storage of a FockBuildMatrix. */
module ShellLayout {

  /** Number of basis functions in shells [0, k): the start of shell k. */
  function Prefix(sizes: seq<nat>, k: nat): nat
    requires k <= |sizes|
  {
    if k == 0 then 0 else Prefix(sizes, k - 1) + sizes[k - 1]
  }

  /** Number of basis functions of the whole basis. */
  function Total(sizes: seq<nat>): nat
  {
    Prefix(sizes, |sizes|)
  }

  lemma {:induction false} PrefixMonotone(sizes: seq<nat>, a: nat, b: nat)
    requires a <= b <= |sizes|
    ensures Prefix(sizes, a) <= Prefix(sizes, b)
    decreases b - a
  {
    if a < b {
      PrefixMonotone(sizes, a, b - 1);
    }
  }

  /** A shell that ends before shell `b` starts: the basis function ranges
      of different shells do not overlap. */
  lemma {:induction false} PrefixStrict(sizes: seq<nat>, a: nat, b: nat)
    requires a < b <= |sizes|
    ensures Prefix(sizes, a) + sizes[a] <= Prefix(sizes, b)
  {
    assert Prefix(sizes, a + 1) == Prefix(sizes, a) + sizes[a];
    PrefixMonotone(sizes, a + 1, b);
  }

  /** The (shell, index in shell) pair naming basis function e, search
      started at shell I. */
  function ElemToBlockFrom(sizes: seq<nat>, e: nat, I: nat): (r: (nat, nat))
    requires I < |sizes| && Prefix(sizes, I) <= e < Total(sizes)
    ensures I <= r.0 < |sizes| && r.1 < sizes[r.0]
    ensures Prefix(sizes, r.0) + r.1 == e
    decreases |sizes| - I
  {
    if e < Prefix(sizes, I + 1) then (I, e - Prefix(sizes, I))
    else
      assert I + 1 < |sizes|;
      ElemToBlockFrom(sizes, e, I + 1)
  }

  /** elem_to_block: the shell holding basis function e and e's index
      inside that shell. */
  function ElemToBlock(sizes: seq<nat>, e: nat): (r: (nat, nat))
    requires e < Total(sizes)
    ensures r.0 < |sizes| && r.1 < sizes[r.0]
    ensures Prefix(sizes, r.0) + r.1 == e
  {
    assert |sizes| > 0;
    ElemToBlockFrom(sizes, e, 0)
  }

  /** Two (shell, index) pairs naming the same basis function are equal. */
  lemma {:induction false} DecompositionUnique(sizes: seq<nat>, I: nat, a: nat, J: nat, b: nat)
    requires I < |sizes| && J < |sizes| && a < sizes[I] && b < sizes[J]
    requires Prefix(sizes, I) + a == Prefix(sizes, J) + b
    ensures I == J && a == b
  {
    if I < J {
      PrefixStrict(sizes, I, J);
    } else if J < I {
      PrefixStrict(sizes, J, I);
    }
  }

  /** elem_to_block inverts the shell offsets. */
  lemma {:induction false} ElemToBlockOf(sizes: seq<nat>, I: nat, a: nat)
    requires I < |sizes| && a < sizes[I]
    ensures Prefix(sizes, I) + a < Total(sizes)
    ensures ElemToBlock(sizes, Prefix(sizes, I) + a) == (I, a)
  {
    PrefixMonotone(sizes, I + 1, |sizes|);
    var r := ElemToBlock(sizes, Prefix(sizes, I) + a);
    DecompositionUnique(sizes, I, a, r.0, r.1);
  }

  /** elem_to_block is monotone in the shell index. */
  lemma {:induction false} ElemToBlockMonotone(sizes: seq<nat>, e: nat, f: nat)
    requires e <= f < Total(sizes)
    ensures ElemToBlock(sizes, e).0 <= ElemToBlock(sizes, f).0
  {
    var I := ElemToBlock(sizes, e).0;
    var J := ElemToBlock(sizes, f).0;
    if J < I {
      PrefixStrict(sizes, J, I);
    }
  }

  /** Triangular numbers: Tri(n) == n(n+1)/2 pairs (I, J) with J <= I < n. */
  function Tri(n: nat): nat
  {
    if n == 0 then 0 else Tri(n - 1) + n
  }

  lemma {:induction false} TriClosedForm(n: nat)
    ensures 2 * Tri(n) == n * (n + 1)
    ensures Tri(n) == (n * (n + 1)) / 2
  {
    if n > 0 {
      TriClosedForm(n - 1);
    }
  }

  lemma {:induction false} TriMonotone(a: nat, b: nat)
    requires a <= b
    ensures Tri(a) <= Tri(b)
    decreases b - a
  {
    if a < b {
      TriMonotone(a, b - 1);
    }
  }

  /** Canonical index I(I+1)/2 + J of the pair (I, J), J <= I, in a lower
      triangle stored row by row: offset(I, J) of the symmetric block table
      and the element index of a lower-triangle matrix. */
  function PairIndex(I: nat, J: nat): nat
  {
    Tri(I) + J
  }

  /** The canonical pair index I(I+1)/2 + J of the symmetric storage is a
      bijection from {(I, J) | J <= I < n} onto [0, Tri(n)). */
  lemma {:induction false} TriPairIndex(n: nat, I: nat, J: nat)
    requires J <= I < n
    ensures PairIndex(I, J) < Tri(n)
    ensures PairIndex(I, J) == (I * (I + 1)) / 2 + J
  {
    TriMonotone(I + 1, n);
    TriClosedForm(I);
  }

  lemma {:induction false} TriPairUnique(I: nat, J: nat, K: nat, L: nat)
    requires J <= I && L <= K
    requires PairIndex(I, J) == PairIndex(K, L)
    ensures I == K && J == L
  {
    if I < K {
      TriMonotone(I + 1, K);
    } else if K < I {
      TriMonotone(K + 1, I);
    }
  }

  /** The rectangular pair index nJ*I + J is a bijection from
      [0, nI) x [0, nJ) onto [0, nI*nJ). */
  lemma {:induction false} RectPairIndex(nI: nat, nJ: nat, I: nat, J: nat, K: nat, L: nat)
    requires I < nI && K < nI && J < nJ && L < nJ
    ensures nJ * I + J < nI * nJ
    ensures nJ * I + J == nJ * K + L ==> I == K && J == L
  {
    RowMajorBound(I, J, nI, nJ);
    if nJ * I + J == nJ * K + L {
      RowMajorUnique(I, J, K, L, nJ);
    }
  }

  /** Entry (a, b) of a p x q row-major block lies inside the block. */
  lemma {:induction false} RowMajorBound(a: nat, b: nat, p: nat, q: nat)
    requires a < p && b < q
    ensures a * q + b < p * q
    ensures q * a + b < p * q
  {
    assert a * q + b < a * q + q == (a + 1) * q;
    assert (a + 1) * q <= p * q;
  }

  lemma {:induction false} MulStep(a: nat, c: nat, q: nat, b: nat)
    requires a < c && b < q
    ensures a * q + b < c * q
  {
    var k: nat := c - a - 1;
    assert c * q == a * q + q + k * q;
  }

  lemma {:induction false} RowMajorUnique(a: nat, b: nat, c: nat, d: nat, q: nat)
    requires b < q && d < q
    requires a * q + b == c * q + d
    ensures a == c && b == d
  {
    if a < c {
      MulStep(a, c, q, b);
      assert false;
    } else if c < a {
      MulStep(c, a, q, d);
      assert false;
    }
  }

  /** Entries of the lower block triangle stored before the rows I' >= I:
      each row I' holds the blocks (I', 0..I'), size(I') * Prefix(I'+1) entries. */
  function TriSum(sizes: seq<nat>, I: nat): nat
    requires I <= |sizes|
  {
    if I == 0 then 0 else TriSum(sizes, I - 1) + sizes[I - 1] * Prefix(sizes, I)
  }

  /** ndata_ of the symmetric layout: the sum of size(I)*size(J) over J <= I. */
  function NData(sizes: seq<nat>): nat
  {
    TriSum(sizes, |sizes|)
  }

  /** Offset of block (I, J), J <= I, in the symmetric layout. */
  function SymOffset(sizes: seq<nat>, I: nat, J: nat): nat
    requires J <= I < |sizes|
  {
    TriSum(sizes, I) + sizes[I] * Prefix(sizes, J)
  }

  /** The next block of row I starts size(I) * size(J) after block (I, J). */
  lemma {:induction false} SymOffsetStep(sizes: seq<nat>, I: nat, J: nat)
    requires J <= I < |sizes|
    ensures TriSum(sizes, I) + sizes[I] * Prefix(sizes, J + 1) == SymOffset(sizes, I, J) + sizes[I] * sizes[J]
  {
    assert Prefix(sizes, J + 1) == Prefix(sizes, J) + sizes[J];
    assert sizes[I] * (Prefix(sizes, J) + sizes[J]) == sizes[I] * Prefix(sizes, J) + sizes[I] * sizes[J];
  }

  /** Position of entry (a, b) of block (I, J): blockoffset = a * nj + b. */
  function Pos(sizes: seq<nat>, I: nat, J: nat, a: nat, b: nat): nat
    requires J <= I < |sizes|
  {
    SymOffset(sizes, I, J) + a * sizes[J] + b
  }

  lemma {:induction false} TriSumMonotone(sizes: seq<nat>, a: nat, b: nat)
    requires a <= b <= |sizes|
    ensures TriSum(sizes, a) <= TriSum(sizes, b)
    decreases b - a
  {
    if a < b {
      var c := b - 1;
      TriSumMonotone(sizes, a, c);
      var step: nat := sizes[c] * Prefix(sizes, b);
      assert TriSum(sizes, b) == TriSum(sizes, c) + step;
    }
  }

  /** The blocks of a row are contiguous: block (I, J), J < I, ends where
      block (I, J + 1) starts. */
  lemma {:induction false} BlockNext(sizes: seq<nat>, I: nat, J: nat)
    requires J < I < |sizes|
    ensures SymOffset(sizes, I, J) + sizes[I] * sizes[J] == SymOffset(sizes, I, J + 1)
  {
    SymOffsetStep(sizes, I, J);
  }

  /** The last block (I, I) of row I ends where row I + 1 starts. */
  lemma {:induction false} BlockRowEnd(sizes: seq<nat>, I: nat)
    requires I < |sizes|
    ensures SymOffset(sizes, I, I) + sizes[I] * sizes[I] == TriSum(sizes, I + 1)
  {
    SymOffsetStep(sizes, I, I);
  }

  /** Block (I, J) ends inside row I. */
  lemma {:induction false} BlockInRow(sizes: seq<nat>, I: nat, J: nat)
    requires J <= I < |sizes|
    ensures SymOffset(sizes, I, J) + sizes[I] * sizes[J] <= TriSum(sizes, I + 1)
  {
    SymOffsetStep(sizes, I, J);
    PrefixMonotone(sizes, J + 1, I + 1);
    MulMonotone(sizes[I], Prefix(sizes, J + 1), Prefix(sizes, I + 1));
  }

  /** Row I starts at or before each of its blocks. */
  lemma {:induction false} RowStart(sizes: seq<nat>, I: nat, J: nat)
    requires J <= I < |sizes|
    ensures TriSum(sizes, I) <= SymOffset(sizes, I, J)
  {
    var t: nat := sizes[I] * Prefix(sizes, J);
  }

  /** Block (I, J) ends inside the buffer. */
  lemma {:induction false} BlockFits(sizes: seq<nat>, I: nat, J: nat)
    requires J <= I < |sizes|
    ensures SymOffset(sizes, I, J) + sizes[I] * sizes[J] <= NData(sizes)
  {
    BlockInRow(sizes, I, J);
    TriSumMonotone(sizes, I + 1, |sizes|);
  }

  /** The first block starts at the beginning of the buffer. */
  lemma {:induction false} FirstBlockAtZero(sizes: seq<nat>)
    requires |sizes| > 0
    ensures SymOffset(sizes, 0, 0) == 0
  {
  }

  /** Every entry of block (I, J) lies inside that block. */
  lemma {:induction false} PosInBlock(sizes: seq<nat>, I: nat, J: nat, a: nat, b: nat)
    requires J <= I < |sizes| && a < sizes[I] && b < sizes[J]
    ensures SymOffset(sizes, I, J) <= Pos(sizes, I, J, a, b)
    ensures Pos(sizes, I, J, a, b) < SymOffset(sizes, I, J) + sizes[I] * sizes[J]
    ensures Pos(sizes, I, J, a, b) < NData(sizes)
  {
    RowMajorBound(a, b, sizes[I], sizes[J]);
    BlockFits(sizes, I, J);
  }

  /** A block that comes earlier in (I, J <= I) order ends before a later one starts. */
  lemma {:induction false} BlockOrder(sizes: seq<nat>, I: nat, J: nat, K: nat, L: nat)
    requires J <= I < |sizes| && L <= K < |sizes|
    requires I < K || (I == K && J < L)
    ensures SymOffset(sizes, I, J) + sizes[I] * sizes[J] <= SymOffset(sizes, K, L)
  {
    if I < K {
      BlockInRow(sizes, I, J);
      TriSumMonotone(sizes, I + 1, K);
      RowStart(sizes, K, L);
    } else {
      RowBlocksOrdered(sizes, I, J, L);
    }
  }

  lemma {:induction false} RowBlocksOrdered(sizes: seq<nat>, I: nat, J: nat, L: nat)
    requires J < L <= I < |sizes|
    ensures SymOffset(sizes, I, J) + sizes[I] * sizes[J] <= SymOffset(sizes, I, L)
  {
    var s := sizes[I];
    assert s * Prefix(sizes, J) + s * sizes[J] == s * Prefix(sizes, J + 1);
    PrefixMonotone(sizes, J + 1, L);
    MulMonotone(s, Prefix(sizes, J + 1), Prefix(sizes, L));
  }

  lemma {:induction false} MulMonotone(s: nat, x: nat, y: nat)
    requires x <= y
    ensures s * x <= s * y
  {
    var k: nat := y - x;
    assert s * y == s * x + s * k;
  }

  /** The symmetric layout does not overlap: distinct entries of distinct
      blocks have distinct positions. */
  lemma {:induction false} PosInjective(sizes: seq<nat>, I: nat, J: nat, a: nat, b: nat,
                     K: nat, L: nat, c: nat, d: nat)
    requires J <= I < |sizes| && a < sizes[I] && b < sizes[J]
    requires L <= K < |sizes| && c < sizes[K] && d < sizes[L]
    requires Pos(sizes, I, J, a, b) == Pos(sizes, K, L, c, d)
    ensures I == K && J == L && a == c && b == d
  {
    PosInBlock(sizes, I, J, a, b);
    PosInBlock(sizes, K, L, c, d);
    if I < K || (I == K && J < L) {
      BlockOrder(sizes, I, J, K, L);
    } else if K < I || (K == I && L < J) {
      BlockOrder(sizes, K, L, I, J);
    } else {
      RowMajorUnique(a, b, c, d, sizes[J]);
    }
  }

  /** Block-pair coordinates (I, J, a, b) of a buffer position. */
  datatype Slot = Slot(I: nat, J: nat, a: nat, b: nat)

  ghost predicate SlotOk(sizes: seq<nat>, s: Slot)
  {
    s.J <= s.I < |sizes| && s.a < sizes[s.I] && s.b < sizes[s.J]
  }

  lemma {:induction false} DivModBlock(r: nat, p: nat, q: nat)
    requires r < p * q
    ensures q > 0 && r / q < p && r % q < q && (r / q) * q + r % q == r
  {
    assert q > 0;
    assert r / q < p;
  }

  /** The entry of block (I, J) at position p of that block. */
  function SlotIn(sizes: seq<nat>, p: nat, I: nat, J: nat): (s: Slot)
    requires J <= I < |sizes|
    requires SymOffset(sizes, I, J) <= p < SymOffset(sizes, I, J) + sizes[I] * sizes[J]
    ensures SlotOk(sizes, s) && s.I == I && s.J == J
    ensures Pos(sizes, s.I, s.J, s.a, s.b) == p
  {
    var r: nat := p - SymOffset(sizes, I, J);
    DivModBlock(r, sizes[I], sizes[J]);
    Slot(I, J, r / sizes[J], r % sizes[J])
  }

  /** Search of the block holding position p, starting at block (I, J). */
  function SlotFrom(sizes: seq<nat>, p: nat, I: nat, J: nat): (s: Slot)
    requires J <= I < |sizes|
    requires SymOffset(sizes, I, J) <= p < NData(sizes)
    ensures SlotOk(sizes, s)
    ensures Pos(sizes, s.I, s.J, s.a, s.b) == p
    decreases |sizes| - I, I - J
  {
    var size: nat := sizes[I] * sizes[J];
    if p < SymOffset(sizes, I, J) + size then
      SlotIn(sizes, p, I, J)
    else if J < I then
      BlockNext(sizes, I, J);
      SlotFrom(sizes, p, I, J + 1)
    else
      BlockRowEnd(sizes, I);
      assert I + 1 < |sizes|;
      SlotFrom(sizes, p, I + 1, 0)
  }

  /** The block-pair coordinates of buffer position p: every position of
      [0, ndata_) belongs to exactly one entry of one block (I, J), J <= I. */
  function SlotOf(sizes: seq<nat>, p: nat): (s: Slot)
    requires p < NData(sizes)
    ensures SlotOk(sizes, s)
    ensures Pos(sizes, s.I, s.J, s.a, s.b) == p
  {
    assert |sizes| > 0;
    SlotFrom(sizes, p, 0, 0)
  }

  lemma {:induction false} SlotOfPos(sizes: seq<nat>, I: nat, J: nat, a: nat, b: nat)
    requires J <= I < |sizes| && a < sizes[I] && b < sizes[J]
    ensures Pos(sizes, I, J, a, b) < NData(sizes)
    ensures SlotOf(sizes, Pos(sizes, I, J, a, b)) == Slot(I, J, a, b)
  {
    PosInBlock(sizes, I, J, a, b);
    var s := SlotOf(sizes, Pos(sizes, I, J, a, b));
    PosInjective(sizes, I, J, a, b, s.I, s.J, s.a, s.b);
  }
}
