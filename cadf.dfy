/** Pieces of the concentrated-atomic-density-fitting Hartree-Fock class
    (CADFCLHF): the per-iteration screening statistics, the choice of the
    master process, and how the integral helpers place shell blocks of
    integrals into one block-sized matrix. */
module Cadf {
  import opened ShellLayout

  // ---------------------------------------------------------------------
  // Screening statistics

  /** The eight screening counters of one SCF iteration. */
  datatype Counters = Counters(needed: nat, neededFxn: nat,
                               distScreened: nat, distScreenedFxn: nat,
                               underestimated: nat, underestimatedFxn: nat,
                               perfect: nat, perfectFxn: nat)

  /** The per-thread lists of screening data kept for printing. */
  datatype Samples = Samples(screeningValues: seq<seq<real>>, actualValues: seq<seq<real>>,
                             distanceFactors: seq<seq<real>>, distances: seq<seq<real>>,
                             indices: seq<seq<(int, int, int)>>, ams: seq<seq<(int, int, int)>>)

  /** ScreeningStatistics::Iteration; a null parent stands for the parent
      pointer a default-constructed iteration leaves unset. */
  datatype Iteration = Iteration(counters: Counters, parent: ScreeningStatistics?,
                                 samples: Samples, isFirst: bool)

  /** Iteration(): all counters 0, no samples, not the first. */
  function DefaultIteration(): (r: Iteration)
    ensures r.counters.needed == r.counters.perfect == r.counters.perfectFxn == 0
    ensures r.samples.screeningValues == [] && !r.isFirst
  {
    var none: seq<seq<real>> := [];
    var noIndices: seq<seq<(int, int, int)>> := [];
    Iteration(Counters(0, 0, 0, 0, 0, 0, 0, 0), null,
              Samples(none, none, none, none, noIndices, noIndices), false)
  }

  /** The move constructor of Iteration: the eight counters are loaded
      and stored one by one, the sample lists copied, then parent and
      is_first; nothing of the moved-from iteration is lost. */
  function MoveIteration(other: Iteration): (r: Iteration)
    ensures r == other
  {
    var c := other.counters;
    var s := other.samples;
    Iteration(Counters(c.needed, c.neededFxn, c.distScreened, c.distScreenedFxn,
                       c.underestimated, c.underestimatedFxn, c.perfect, c.perfectFxn),
              other.parent,
              Samples(s.screeningValues, s.actualValues, s.distanceFactors, s.distances,
                      s.indices, s.ams),
              other.isFirst)
  }

  /** The elements of a std::vector after it grows: each one
      move-constructed into the new storage. */
  function Relocated(its: seq<Iteration>): (r: seq<Iteration>)
    ensures r == its
  {
    var moved := seq(|its|, k requires 0 <= k < |its| => MoveIteration(its[k]));
    assert forall k :: 0 <= k < |its| ==> moved[k] == its[k];
    moved
  }

  class ScreeningStatistics {
    var sigPairs: nat
    var sigPairsFxn: nat
    var printLevel: int
    var xmlStatsSaved: bool
    var iterations: seq<Iteration>

    /** Every iteration points back at these statistics, and only the
        first one is marked first. */
    ghost predicate Valid()
      reads this
    {
      forall k :: 0 <= k < |iterations| ==>
        iterations[k].parent == this && (iterations[k].isFirst <==> k == 0)
    }

    constructor ()
      ensures Valid()
      ensures iterations == [] && printLevel == 0
      ensures sigPairs == 0 && sigPairsFxn == 0 && !xmlStatsSaved
    {
      sigPairs := 0;
      sigPairsFxn := 0;
      printLevel := 0;
      xmlStatsSaved := false;
      iterations := [];
    }

    /** next_iteration: appends one default iteration, marks it first
        exactly when it is the only one, sets its parent to these
        statistics, and returns (the index of) it. */
    method NextIteration() returns (k: nat)
      modifies this
      ensures iterations == old(iterations)
                            + [DefaultIteration().(parent := this, isFirst := |old(iterations)| == 0)]
      ensures k == |iterations| - 1
      ensures iterations[k].parent == this && (iterations[k].isFirst <==> |iterations| == 1)
      ensures old(Valid()) ==> Valid()
      ensures sigPairs == old(sigPairs) && sigPairsFxn == old(sigPairsFxn)
      ensures printLevel == old(printLevel) && xmlStatsSaved == old(xmlStatsSaved)
    {
      iterations := Relocated(iterations) + [DefaultIteration()];
      k := |iterations| - 1;
      iterations := iterations[k := iterations[k].(isFirst := |iterations| == 1)];
      iterations := iterations[k := iterations[k].(parent := this)];
    }
  }

  // ---------------------------------------------------------------------
  // The master process

  /** Load balancing is static: dynamic_ starts false. */
  const DefaultDynamic: bool := false

  /** is_master: with dynamic load balancing the process of rank 0,
      otherwise no process. */
  function IsMaster(dynamic: bool, me: nat): (r: bool)
    ensures r ==> dynamic
    ensures r ==> me == 0
  {
    if dynamic then me == 0 else false
  }

  /** At most one process is master, and rank 0 is master exactly when
      load balancing is dynamic. */
  lemma {:induction false} OneMaster(dynamic: bool, me: nat, other: nat)
    ensures IsMaster(dynamic, me) && IsMaster(dynamic, other) ==> me == other
    ensures IsMaster(dynamic, 0) <==> dynamic
    ensures !IsMaster(DefaultDynamic, me)
  {
  }

  // ---------------------------------------------------------------------
  // Placing shell blocks of integrals

  /** ShellData: where a shell's basis functions start in the basis, and
      how many it has. */
  datatype Shell = Shell(bfoff: nat, nbf: nat)

  /** ShellBlockData: a run of shells, with the offset of the first
      function and the number of functions of all of them. */
  datatype Block = Block(shells: seq<Shell>, bfoff: nat, nbf: nat)

  function Sizes(shells: seq<Shell>): (r: seq<nat>)
    ensures |r| == |shells|
    ensures forall k :: 0 <= k < |r| ==> r[k] == shells[k].nbf
  {
    seq(|shells|, k requires 0 <= k < |shells| => shells[k].nbf)
  }

  /** A block's function count is that of its shells. */
  predicate Consistent(b: Block)
  {
    b.nbf == Total(Sizes(b.shells))
  }

  /** A block whose shells follow one another without gaps in the basis:
      each of its first k shells starts where the ones before it end. */
  predicate ContiguousUpTo(b: Block, k: nat)
    requires k <= |b.shells|
  {
    k == 0 || (ContiguousUpTo(b, k - 1) && b.shells[k - 1].bfoff == b.bfoff + Prefix(Sizes(b.shells), k - 1))
  }

  predicate Contiguous(b: Block)
  {
    Consistent(b) && ContiguousUpTo(b, |b.shells|)
  }

  /** In a contiguous block, shell k starts Prefix(k) functions into the
      block. */
  lemma {:induction false} ShellStart(b: Block, k: nat, n: nat)
    requires k < n <= |b.shells| && ContiguousUpTo(b, n)
    ensures b.shells[k].bfoff == b.bfoff + Prefix(Sizes(b.shells), k)
    decreases n
  {
    if k < n - 1 {
      ShellStart(b, k, n - 1);
    }
  }

  /** block(r0, c0, h, w) = f: the h-by-w tile at (r0, c0) takes f, with
      tile coordinates; everything outside it is left as it was. */
  method CopyTile(rv: array2<real>, r0: nat, c0: nat, h: nat, w: nat, f: (nat, nat) -> real)
    requires r0 + h <= rv.Length0 && c0 + w <= rv.Length1
    modifies rv
    ensures forall r, c :: 0 <= r < rv.Length0 && 0 <= c < rv.Length1 ==>
      rv[r, c] == if r0 <= r < r0 + h && c0 <= c < c0 + w then f(r - r0, c - c0) else old(rv[r, c])
  {
    for a := 0 to h
      invariant forall r, c :: 0 <= r < rv.Length0 && 0 <= c < rv.Length1 ==>
        rv[r, c] == if r0 <= r < r0 + a && c0 <= c < c0 + w then f(r - r0, c - c0) else old(rv[r, c])
    {
      for b := 0 to w
        invariant forall r, c :: 0 <= r < rv.Length0 && 0 <= c < rv.Length1 ==>
          rv[r, c] == if (r0 <= r < r0 + a && c0 <= c < c0 + w) || (r == r0 + a && c0 <= c < c0 + b)
                      then f(r - r0, c - c0) else old(rv[r, c])
      {
        rv[r0 + a, c0 + b] := f(a, b);
      }
    }
  }

  /** Element (r, c) of the two-block integral matrix: the integral of
      the shell pair holding functions r and c of the blocks. */
  function PairEntry(iblk: Block, jblk: Block, ints: (Shell, Shell, nat, nat) -> real, r: nat, c: nat): real
    requires r < Total(Sizes(iblk.shells)) && c < Total(Sizes(jblk.shells))
  {
    var (I, a) := ElemToBlock(Sizes(iblk.shells), r);
    var (J, b) := ElemToBlock(Sizes(jblk.shells), c);
    ints(iblk.shells[I], jblk.shells[J], a, b)
  }

  /** Inside the tile of shells I and J, PairEntry is that shell pair's
      integral at the tile coordinates. */
  lemma {:induction false} PairTile(iblk: Block, jblk: Block, ints: (Shell, Shell, nat, nat) -> real, I: nat, J: nat)
    requires I < |iblk.shells| && J < |jblk.shells|
    ensures Prefix(Sizes(iblk.shells), I) + iblk.shells[I].nbf <= Total(Sizes(iblk.shells))
    ensures Prefix(Sizes(jblk.shells), J) + jblk.shells[J].nbf <= Total(Sizes(jblk.shells))
    ensures forall r: nat, c: nat ::
      && Prefix(Sizes(iblk.shells), I) <= r < Prefix(Sizes(iblk.shells), I) + iblk.shells[I].nbf
      && Prefix(Sizes(jblk.shells), J) <= c < Prefix(Sizes(jblk.shells), J) + jblk.shells[J].nbf
      ==> PairEntry(iblk, jblk, ints, r, c)
          == ints(iblk.shells[I], jblk.shells[J], r - Prefix(Sizes(iblk.shells), I), c - Prefix(Sizes(jblk.shells), J))
  {
    var isz, jsz := Sizes(iblk.shells), Sizes(jblk.shells);
    PrefixBound(isz, I);
    PrefixBound(jsz, J);
    forall r: nat, c: nat |
      && Prefix(isz, I) <= r < Prefix(isz, I) + iblk.shells[I].nbf
      && Prefix(jsz, J) <= c < Prefix(jsz, J) + jblk.shells[J].nbf
      ensures PairEntry(iblk, jblk, ints, r, c)
              == ints(iblk.shells[I], jblk.shells[J], r - Prefix(isz, I), c - Prefix(jsz, J))
    {
      ElemToBlockOf(isz, I, r - Prefix(isz, I));
      ElemToBlockOf(jsz, J, c - Prefix(jsz, J));
    }
  }

  /** A shell ends inside the basis. */
  lemma {:induction false} PrefixBound(sizes: seq<nat>, I: nat)
    requires I < |sizes|
    ensures Prefix(sizes, I) + sizes[I] <= Total(sizes)
  {
    assert Prefix(sizes, I + 1) == Prefix(sizes, I) + sizes[I];
    PrefixMonotone(sizes, I + 1, |sizes|);
  }

  /** ints_to_eigen(iblk, jblk): an iblk.nbf-by-jblk.nbf matrix filled
      shell pair by shell pair, each block at the running offsets of the
      shells before it, so that every element is the integral of its own
      pair of basis functions. */
  method IntsToEigenPair(iblk: Block, jblk: Block, ints: (Shell, Shell, nat, nat) -> real)
    returns (rv: array2<real>)
    requires Consistent(iblk) && Consistent(jblk)
    ensures fresh(rv) && rv.Length0 == iblk.nbf && rv.Length1 == jblk.nbf
    ensures forall r, c :: 0 <= r < iblk.nbf && 0 <= c < jblk.nbf ==>
      rv[r, c] == PairEntry(iblk, jblk, ints, r, c)
  {
    rv := new real[iblk.nbf, jblk.nbf];
    var isz, jsz := Sizes(iblk.shells), Sizes(jblk.shells);
    var blockOffsetI := 0;
    for I := 0 to |iblk.shells|
      invariant blockOffsetI == Prefix(isz, I) <= iblk.nbf
      invariant forall r, c :: 0 <= r < blockOffsetI && 0 <= c < jblk.nbf ==>
        rv[r, c] == PairEntry(iblk, jblk, ints, r, c)
    {
      var ish := iblk.shells[I];
      PrefixBound(isz, I);
      var blockOffsetJ := 0;
      for J := 0 to |jblk.shells|
        invariant blockOffsetJ == Prefix(jsz, J)
        invariant forall r, c ::
          && 0 <= r < rv.Length0 && 0 <= c < rv.Length1
          && (r < blockOffsetI || (r < blockOffsetI + ish.nbf && c < blockOffsetJ))
          ==> rv[r, c] == PairEntry(iblk, jblk, ints, r, c)
      {
        var jsh := jblk.shells[J];
        PairTile(iblk, jblk, ints, I, J);
        CopyTile(rv, blockOffsetI, blockOffsetJ, ish.nbf, jsh.nbf, (a: nat, b: nat) => ints(ish, jsh, a, b));
        blockOffsetJ := blockOffsetJ + jsh.nbf;
      }
      blockOffsetI := blockOffsetI + ish.nbf;
    }
  }

  // Three-centre blocks: rows run over pairs (mu, nu) of functions of the
  // first two centres, row-major, and columns over the fitting functions X.

  /** Row r of a row-major pair index with q functions on the second
      centre: r = (r / q)·q + r % q, with the first index in range. */
  lemma {:induction false} RowSplit(r: nat, p: nat, q: nat)
    requires r < p * q
    ensures q > 0 && r / q < p && r % q < q
    ensures r == (r / q) * q + r % q
  {
  }

  /** Adding whole rows P·q moves the row index by P and keeps the
      column. */
  lemma {:induction false} ShiftRows(P: nat, t: nat, q: nat)
    requires q > 0
    ensures (P * q + t) / q == P + t / q
    ensures (P * q + t) % q == t % q
  {
    var a, b := t / q, t % q;
    Distribute(P, a, q);
    assert P * q + t == (P + a) * q + b;
    RowMajorSplit(P + a, b, q);
  }

  /** (P + a)·q is P·q + a·q. */
  lemma {:induction false} Distribute(P: nat, a: nat, q: nat)
    ensures (P + a) * q == P * q + a * q
  {
  }

  /** Division by q recovers both parts of a row-major index. */
  lemma {:induction false} RowMajorSplit(c: nat, d: nat, q: nat)
    requires d < q
    ensures (c * q + d) / q == c && (c * q + d) % q == d
  {
    var r := c * q + d;
    RowMajorUnique(r / q, r % q, c, d, q);
  }

  /** A product bound: P + n <= N and q rows each. */
  lemma {:induction false} RowsFit(P: nat, n: nat, N: nat, q: nat)
    requires P + n <= N
    ensures P * q + n * q <= N * q
    ensures P * q + n * q == (P + n) * q
  {
    assert (P + n) * q == P * q + n * q;
    assert N * q == (P + n) * q + (N - P - n) * q;
  }

  /** Element (t, x) of the (ish, jsh, Xblk) matrix: the integral at row
      t of the matrix of ish, jsh and the shell of Xblk holding fitting
      function x, in that shell's column for x. */
  function XEntry(xblk: Block, ints: (Shell, Shell, Shell, nat, nat) -> real,
                  ish: Shell, jsh: Shell, t: nat, x: nat): real
    requires Consistent(xblk) && x < xblk.nbf
  {
    var (X, b) := ElemToBlock(Sizes(xblk.shells), x);
    ints(ish, jsh, xblk.shells[X], t, b)
  }

  /** Element (r, x) of the (iblk, jsh, Xblk) matrix: r stands for
      function r / jsh.nbf of iblk and function r % jsh.nbf of jsh, read
      from its shell triple's matrix at row (function in ish)·jsh.nbf +
      (function in jsh). */
  function TripleEntry(iblk: Block, jsh: Shell, xblk: Block,
                       ints: (Shell, Shell, Shell, nat, nat) -> real, r: nat, x: nat): real
    requires Consistent(iblk) && Consistent(xblk)
    requires r < iblk.nbf * jsh.nbf && x < xblk.nbf
  {
    RowSplit(r, iblk.nbf, jsh.nbf);
    var (I, a) := ElemToBlock(Sizes(iblk.shells), r / jsh.nbf);
    XEntry(xblk, ints, iblk.shells[I], jsh, a * jsh.nbf + r % jsh.nbf, x)
  }

  /** Inside the columns of shell X, which start at c0, XEntry is that
      shell triple's integral at the tile column. */
  lemma {:induction false} XTile(xblk: Block, ints: (Shell, Shell, Shell, nat, nat) -> real,
                                 ish: Shell, jsh: Shell, X: nat, c0: nat)
    requires Consistent(xblk) && X < |xblk.shells| && c0 == Prefix(Sizes(xblk.shells), X)
    ensures c0 + xblk.shells[X].nbf <= xblk.nbf
    ensures forall t: nat, x: nat :: c0 <= x < c0 + xblk.shells[X].nbf ==>
      XEntry(xblk, ints, ish, jsh, t, x) == ints(ish, jsh, xblk.shells[X], t, x - c0)
  {
    var xsz := Sizes(xblk.shells);
    PrefixBound(xsz, X);
    forall t: nat, x: nat | c0 <= x < c0 + xsz[X]
      ensures XEntry(xblk, ints, ish, jsh, t, x) == ints(ish, jsh, xblk.shells[X], t, x - c0)
    {
      ElemToBlockOf(xsz, X, x - c0);
    }
  }

  /** The rows of shell I of iblk, which start at r0 and are h high:
      TripleEntry there is the (ish, jsh, Xblk) element at the tile row. */
  lemma {:induction false} TripleRows(iblk: Block, jsh: Shell, xblk: Block,
                                      ints: (Shell, Shell, Shell, nat, nat) -> real, I: nat, r0: nat, h: nat)
    requires Consistent(iblk) && Consistent(xblk) && I < |iblk.shells|
    requires r0 == Prefix(Sizes(iblk.shells), I) * jsh.nbf && h == iblk.shells[I].nbf * jsh.nbf
    ensures r0 + h <= iblk.nbf * jsh.nbf
    ensures r0 + h == Prefix(Sizes(iblk.shells), I + 1) * jsh.nbf
    ensures forall r: nat, x: nat :: r0 <= r < r0 + h && x < xblk.nbf ==>
      TripleEntry(iblk, jsh, xblk, ints, r, x) == XEntry(xblk, ints, iblk.shells[I], jsh, r - r0, x)
  {
    var isz := Sizes(iblk.shells);
    PrefixBound(isz, I);
    RowsFit(Prefix(isz, I), isz[I], Total(isz), jsh.nbf);
    forall r: nat, x: nat | r0 <= r < r0 + h && x < xblk.nbf
      ensures TripleEntry(iblk, jsh, xblk, ints, r, x) == XEntry(xblk, ints, iblk.shells[I], jsh, r - r0, x)
    {
      TripleRow(isz, I, jsh.nbf, r0, h, r);
    }
  }

  /** A row of the tile of shell I, which starts at row r0 and is h rows
      high: the function of iblk it stands for lies in shell I, at the
      tile row's first index. */
  lemma {:induction false} TripleRow(sizes: seq<nat>, I: nat, q: nat, r0: nat, h: nat, r: nat)
    requires I < |sizes| && r0 == Prefix(sizes, I) * q && h == sizes[I] * q
    requires r0 <= r < r0 + h
    ensures r0 + h <= Total(sizes) * q && q > 0
    ensures r / q < Total(sizes)
    ensures ElemToBlock(sizes, r / q) == (I, (r - r0) / q)
    ensures ((r - r0) / q) * q + r % q == r - r0
  {
    var P := Prefix(sizes, I);
    var t := r - r0;
    PrefixBound(sizes, I);
    RowsFit(P, sizes[I], Total(sizes), q);
    RowSplit(r, Total(sizes), q);
    RowSplit(t, sizes[I], q);
    ShiftRows(P, t, q);
    ElemToBlockOf(sizes, I, t / q);
  }

  /** The loop over the shells Xsh of Xblk: the (ish, jsh, Xsh) matrix,
      h rows high, goes to row r0 and column Xsh.bfoff - Xblk.bfoff. */
  method PlaceShellRows(rv: array2<real>, ish: Shell, jsh: Shell, xblk: Block,
                        ints: (Shell, Shell, Shell, nat, nat) -> real, r0: nat, h: nat)
    requires Contiguous(xblk)
    requires rv.Length1 == xblk.nbf && r0 + h <= rv.Length0
    modifies rv
    ensures forall r, x :: 0 <= r < rv.Length0 && 0 <= x < rv.Length1 ==>
      rv[r, x] == if r0 <= r < r0 + h then XEntry(xblk, ints, ish, jsh, r - r0, x) else old(rv[r, x])
  {
    var xsz := Sizes(xblk.shells);
    for X := 0 to |xblk.shells|
      invariant Prefix(xsz, X) <= xblk.nbf
      invariant forall r, x :: r0 <= r < r0 + h && 0 <= x < Prefix(xsz, X) ==>
        rv[r, x] == XEntry(xblk, ints, ish, jsh, r - r0, x)
      invariant forall r, x :: 0 <= r < rv.Length0 && 0 <= x < rv.Length1 && !(r0 <= r < r0 + h && x < Prefix(xsz, X)) ==>
        rv[r, x] == old(rv[r, x])
    {
      var xsh := xblk.shells[X];
      ShellStart(xblk, X, |xblk.shells|);
      var colOffset := xsh.bfoff - xblk.bfoff;
      XTile(xblk, ints, ish, jsh, X, colOffset);
      CopyTile(rv, r0, colOffset, h, xsh.nbf, (a: nat, b: nat) => ints(ish, jsh, xsh, a, b));
      assert Prefix(xsz, X + 1) == colOffset + xsh.nbf;
    }
  }

  /** ints_to_eigen(ish, jsh, Xblk): the (ish, jsh, Xsh) matrices side by
      side, Xsh at column Xsh.bfoff - Xblk.bfoff. */
  method IntsToEigenShellShellBlock(ish: Shell, jsh: Shell, xblk: Block,
                                    ints: (Shell, Shell, Shell, nat, nat) -> real)
    returns (rv: array2<real>)
    requires Contiguous(xblk)
    ensures fresh(rv) && rv.Length0 == ish.nbf * jsh.nbf && rv.Length1 == xblk.nbf
    ensures forall t, x :: 0 <= t < rv.Length0 && 0 <= x < rv.Length1 ==>
      rv[t, x] == XEntry(xblk, ints, ish, jsh, t, x)
  {
    rv := new real[ish.nbf * jsh.nbf, xblk.nbf];
    PlaceShellRows(rv, ish, jsh, xblk, ints, 0, ish.nbf * jsh.nbf);
  }

  /** ints_to_eigen(iblk, jsh, Xblk): the (ish, jsh, Xsh) matrices
      stacked for every ish of iblk and Xsh of Xblk, at row
      (ish.bfoff - iblk.bfoff)·jsh.nbf and column Xsh.bfoff - Xblk.bfoff;
      for contiguous blocks those offsets are the running ones, and every
      element is the integral of its own three functions. */
  method IntsToEigenBlockShellBlock(iblk: Block, jsh: Shell, xblk: Block,
                                    ints: (Shell, Shell, Shell, nat, nat) -> real)
    returns (rv: array2<real>)
    requires Contiguous(iblk) && Contiguous(xblk)
    ensures fresh(rv) && rv.Length0 == iblk.nbf * jsh.nbf && rv.Length1 == xblk.nbf
    ensures forall r, x :: 0 <= r < rv.Length0 && 0 <= x < rv.Length1 ==>
      rv[r, x] == TripleEntry(iblk, jsh, xblk, ints, r, x)
  {
    rv := new real[iblk.nbf * jsh.nbf, xblk.nbf];
    var isz := Sizes(iblk.shells);
    var done := 0;
    for I := 0 to |iblk.shells|
      invariant done == Prefix(isz, I) * jsh.nbf <= rv.Length0
      invariant forall r, x :: 0 <= r < done && 0 <= x < rv.Length1 ==>
        rv[r, x] == TripleEntry(iblk, jsh, xblk, ints, r, x)
    {
      var ish := iblk.shells[I];
      ShellStart(iblk, I, |iblk.shells|);
      var shellOffset := ish.bfoff - iblk.bfoff;
      assert shellOffset == Prefix(isz, I);
      var rowOffset := shellOffset * jsh.nbf;
      var h := ish.nbf * jsh.nbf;
      TripleRows(iblk, jsh, xblk, ints, I, rowOffset, h);
      PlaceShellRows(rv, ish, jsh, xblk, ints, rowOffset, h);
      done := done + h;
    }
  }

  /** Row mu·n + c of an m-by-n pair index. */
  function RowIndex(m: nat, n: nat, mu: nat, c: nat): (r: nat)
    requires mu < m && c < n
    ensures r < m * n
  {
    RowMajorBound(mu, c, m, n);
    mu * n + c
  }

  /** The pair index is one to one on [0, m) × [0, n). */
  lemma {:induction false} RowIndexInjective(m: nat, n: nat, mu: nat, c: nat, mu': nat, c': nat)
    requires mu < m && c < n && mu' < m && c' < n
    ensures RowIndex(m, n, mu, c) == RowIndex(m, n, mu', c') <==> mu == mu' && c == c'
  {
    if RowIndex(m, n, mu, c) == RowIndex(m, n, mu', c') {
      RowMajorUnique(mu, c, mu', c', n);
    }
  }

  /** The pair index reaches every row of [0, m·n). */
  lemma {:induction false} RowIndexOnto(m: nat, n: nat, r: nat)
    requires r < m * n
    ensures exists mu: nat, c: nat :: mu < m && c < n && RowIndex(m, n, mu, c) == r
  {
    RowSplit(r, m, n);
    assert RowIndex(m, n, r / n, r % n) == r;
  }

  /** Element (mu·jblk.nbf + c, x) of the (ish, jblk, Xsh) matrix: the
      integral of function mu of ish, function c of jblk and x of Xsh,
      read from the matrix of ish, the shell of jblk holding c, and Xsh
      at row mu·(that shell's nbf) + (c's index in it). */
  function ColumnEntry(ish: Shell, jblk: Block, xsh: Shell,
                       ints: (Shell, Shell, Shell, nat, nat) -> real, mu: nat, c: nat, x: nat): real
    requires Consistent(jblk) && c < jblk.nbf
  {
    var (J, b) := ElemToBlock(Sizes(jblk.shells), c);
    ints(ish, jblk.shells[J], xsh, mu * jblk.shells[J].nbf + b, x)
  }

  /** The rows of the tile of (mu, shell J): in an m-by-n pair index,
      rows mu·n + off up to mu·n + off + w are exactly the pairs (mu, c)
      with off <= c < off + w. */
  lemma {:induction false} TileRows(m: nat, n: nat, mu: nat, off: nat, w: nat)
    requires mu < m && off + w <= n
    ensures mu * n + off + w <= m * n
    ensures forall mu', c :: 0 <= mu' < m && 0 <= c < n ==>
      (mu * n + off <= RowIndex(m, n, mu', c) < mu * n + off + w <==> mu' == mu && off <= c < off + w)
  {
    RowsFit(mu, 1, m, n);
    forall mu', c | 0 <= mu' < m && 0 <= c < n
      ensures mu * n + off <= RowIndex(m, n, mu', c) < mu * n + off + w <==> mu' == mu && off <= c < off + w
    {
      if mu' < mu {
        MulStep(mu', mu, n, c);
      } else if mu < mu' {
        MulStep(mu, mu', n, n - 1);
      }
    }
  }

  /** Inside the tile of shell J, ColumnEntry is the element of the
      (ish, jsh, Xsh) matrix at row mu·jsh.nbf + (c - offset of J). */
  lemma {:induction false} ColumnTile(ish: Shell, jblk: Block, xsh: Shell,
                                      ints: (Shell, Shell, Shell, nat, nat) -> real, J: nat, off: nat)
    requires Consistent(jblk) && J < |jblk.shells| && off == Prefix(Sizes(jblk.shells), J)
    ensures off + jblk.shells[J].nbf <= jblk.nbf
    ensures forall mu: nat, c: nat, x: nat :: off <= c < off + jblk.shells[J].nbf ==>
      ColumnEntry(ish, jblk, xsh, ints, mu, c, x)
      == ints(ish, jblk.shells[J], xsh, mu * jblk.shells[J].nbf + (c - off), x)
  {
    var jsz := Sizes(jblk.shells);
    PrefixBound(jsz, J);
    forall mu: nat, c: nat, x: nat | off <= c < off + jsz[J]
      ensures ColumnEntry(ish, jblk, xsh, ints, mu, c, x)
              == ints(ish, jblk.shells[J], xsh, mu * jblk.shells[J].nbf + (c - off), x)
    {
      ElemToBlockOf(jsz, J, c - off);
    }
  }

  /** The loop over the functions mu of ish: row mu·jsh.nbf of the
      (ish, jsh, Xsh) matrix, jsh.nbf rows of it, goes to row
      mu·jblk.nbf + off. */
  method PlaceFunctionRows(rv: array2<real>, ish: Shell, jblk: Block, xsh: Shell,
                           ints: (Shell, Shell, Shell, nat, nat) -> real, J: nat, off: nat)
    requires Consistent(jblk) && J < |jblk.shells| && off == Prefix(Sizes(jblk.shells), J)
    requires rv.Length0 == ish.nbf * jblk.nbf && rv.Length1 == xsh.nbf
    modifies rv
    ensures forall mu, c, x :: 0 <= mu < ish.nbf && 0 <= c < jblk.nbf && 0 <= x < xsh.nbf ==>
      rv[RowIndex(ish.nbf, jblk.nbf, mu, c), x]
      == if off <= c < off + jblk.shells[J].nbf then ColumnEntry(ish, jblk, xsh, ints, mu, c, x)
         else old(rv[RowIndex(ish.nbf, jblk.nbf, mu, c), x])
  {
    var jsh := jblk.shells[J];
    for mu := 0 to ish.nbf
      invariant forall mu', c, x :: 0 <= mu' < ish.nbf && 0 <= c < jblk.nbf && 0 <= x < xsh.nbf ==>
        rv[RowIndex(ish.nbf, jblk.nbf, mu', c), x]
        == if mu' < mu && off <= c < off + jsh.nbf then ColumnEntry(ish, jblk, xsh, ints, mu', c, x)
           else old(rv[RowIndex(ish.nbf, jblk.nbf, mu', c), x])
    {
      PlaceFunctionRow(rv, ish, jblk, xsh, ints, J, off, mu);
    }
  }

  /** One function mu of ish: its jsh.nbf rows of the (ish, jsh, Xsh)
      matrix go to rows mu·jblk.nbf + off onwards, and no other row
      changes. */
  method PlaceFunctionRow(rv: array2<real>, ish: Shell, jblk: Block, xsh: Shell,
                          ints: (Shell, Shell, Shell, nat, nat) -> real, J: nat, off: nat, mu: nat)
    requires Consistent(jblk) && J < |jblk.shells| && off == Prefix(Sizes(jblk.shells), J)
    requires rv.Length0 == ish.nbf * jblk.nbf && rv.Length1 == xsh.nbf && mu < ish.nbf
    modifies rv
    ensures forall mu', c, x :: 0 <= mu' < ish.nbf && 0 <= c < jblk.nbf && 0 <= x < xsh.nbf ==>
      rv[RowIndex(ish.nbf, jblk.nbf, mu', c), x]
      == if mu' == mu && off <= c < off + jblk.shells[J].nbf then ColumnEntry(ish, jblk, xsh, ints, mu', c, x)
         else old(rv[RowIndex(ish.nbf, jblk.nbf, mu', c), x])
  {
    var jsh := jblk.shells[J];
    ColumnTile(ish, jblk, xsh, ints, J, off);
    TileRows(ish.nbf, jblk.nbf, mu, off, jsh.nbf);
    CopyTile(rv, mu * jblk.nbf + off, 0, jsh.nbf, xsh.nbf,
             (a: nat, b: nat) => ints(ish, jsh, xsh, mu * jsh.nbf + a, b));
  }

  /** ints_to_eigen(ish, jblk, Xsh): for every jsh of jblk and function mu
      of ish, the jsh.nbf rows of the (ish, jsh, Xsh) matrix that belong
      to mu go to row mu·jblk.nbf + (running offset of jsh); so row
      mu·jblk.nbf + c holds function mu of ish with function c of jblk,
      and every row is written exactly once (RowIndexInjective,
      RowIndexOnto). */
  method IntsToEigenShellBlockShell(ish: Shell, jblk: Block, xsh: Shell,
                                    ints: (Shell, Shell, Shell, nat, nat) -> real)
    returns (rv: array2<real>)
    requires Consistent(jblk)
    ensures fresh(rv) && rv.Length0 == ish.nbf * jblk.nbf && rv.Length1 == xsh.nbf
    ensures forall mu, c, x :: 0 <= mu < ish.nbf && 0 <= c < jblk.nbf && 0 <= x < xsh.nbf ==>
      rv[RowIndex(ish.nbf, jblk.nbf, mu, c), x] == ColumnEntry(ish, jblk, xsh, ints, mu, c, x)
  {
    rv := new real[ish.nbf * jblk.nbf, xsh.nbf];
    var jsz := Sizes(jblk.shells);
    var blockOffset := 0;
    for J := 0 to |jblk.shells|
      invariant blockOffset == Prefix(jsz, J) <= jblk.nbf
      invariant forall mu, c, x :: 0 <= mu < ish.nbf && 0 <= c < blockOffset && 0 <= x < xsh.nbf ==>
        rv[RowIndex(ish.nbf, jblk.nbf, mu, c), x] == ColumnEntry(ish, jblk, xsh, ints, mu, c, x)
    {
      PrefixBound(jsz, J);
      PlaceFunctionRows(rv, ish, jblk, xsh, ints, J, blockOffset);
      blockOffset := blockOffset + jblk.shells[J].nbf;
    }
  }

  /** A single shell seen as a block of its own. */
  function Single(sh: Shell): (b: Block)
    ensures Contiguous(b) && b.nbf == sh.nbf && b.shells == [sh]
  {
    var b := Block([sh], sh.bfoff, sh.nbf);
    assert Prefix(Sizes(b.shells), 1) == sh.nbf;
    b
  }

  /** ints_to_eigen(iblk, jsh) for two-centre integrals: the (ish, jsh)
      matrix of every ish of iblk at row ish.bfoff - iblk.bfoff, so that
      element (r, c) is the integral of function r of iblk and c of jsh. */
  method IntsToEigenBlockShell(iblk: Block, jsh: Shell, ints: (Shell, Shell, nat, nat) -> real)
    returns (rv: array2<real>)
    requires Contiguous(iblk)
    ensures fresh(rv) && rv.Length0 == iblk.nbf && rv.Length1 == jsh.nbf
    ensures forall r, c :: 0 <= r < iblk.nbf && 0 <= c < jsh.nbf ==>
      rv[r, c] == PairEntry(iblk, Single(jsh), ints, r, c)
  {
    var jblk := Single(jsh);
    rv := new real[iblk.nbf, jsh.nbf];
    var isz := Sizes(iblk.shells);
    for I := 0 to |iblk.shells|
      invariant Prefix(isz, I) <= iblk.nbf
      invariant forall r, c :: 0 <= r < Prefix(isz, I) && 0 <= c < jsh.nbf ==>
        rv[r, c] == PairEntry(iblk, jblk, ints, r, c)
    {
      var ish := iblk.shells[I];
      ShellStart(iblk, I, |iblk.shells|);
      PairTile(iblk, jblk, ints, I, 0);
      CopyTile(rv, ish.bfoff - iblk.bfoff, 0, ish.nbf, jsh.nbf, (a: nat, b: nat) => ints(ish, jsh, a, b));
    }
  }

  /** ints_to_eigen(iblk, jsh, Xsh): the (ish, jsh, Xsh) matrices stacked
      for every ish of iblk, at row (running offset of ish)·jsh.nbf; the
      element at (r, x) is TripleEntry with Xsh as the fitting block. */
  method IntsToEigenBlockShellShell(iblk: Block, jsh: Shell, xsh: Shell,
                                    ints: (Shell, Shell, Shell, nat, nat) -> real)
    returns (rv: array2<real>)
    requires Consistent(iblk)
    ensures fresh(rv) && rv.Length0 == iblk.nbf * jsh.nbf && rv.Length1 == xsh.nbf
    ensures forall r, x :: 0 <= r < rv.Length0 && 0 <= x < rv.Length1 ==>
      rv[r, x] == TripleEntry(iblk, jsh, Single(xsh), ints, r, x)
  {
    var xblk := Single(xsh);
    rv := new real[iblk.nbf * jsh.nbf, xsh.nbf];
    var isz := Sizes(iblk.shells);
    var blockOffset := 0;
    for I := 0 to |iblk.shells|
      invariant blockOffset == Prefix(isz, I) && blockOffset * jsh.nbf <= rv.Length0
      invariant forall r, x :: 0 <= r < blockOffset * jsh.nbf && 0 <= x < rv.Length1 ==>
        rv[r, x] == TripleEntry(iblk, jsh, xblk, ints, r, x)
    {
      var ish := iblk.shells[I];
      var rowOffset := blockOffset * jsh.nbf;
      var h := ish.nbf * jsh.nbf;
      TripleRows(iblk, jsh, xblk, ints, I, rowOffset, h);
      XTile(xblk, ints, ish, jsh, 0, 0);
      CopyTile(rv, rowOffset, 0, h, xsh.nbf, (a: nat, b: nat) => ints(ish, jsh, xsh, a, b));
      PrefixBound(isz, I);
      RowsFit(blockOffset, ish.nbf, iblk.nbf, jsh.nbf);
      blockOffset := blockOffset + ish.nbf;
    }
  }
}
