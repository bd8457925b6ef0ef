/** The aufbau search shared by CLSCF::set_occupations and
    TCSCF::set_occupations (chemistry/qc/scf/clscf.cc, tcscf.cc): the
    orbital energies of each irreducible representation are scanned for
    the lowest value below a sentinel, and the orbital found is taken by
    overwriting its energy with the sentinel. */
module Aufbau {
  import opened Wrappers

  /** The value both sources use as "no orbital" and as "taken". */
  const Sentinel: real := 999999999.0

  /** Orbital j of irrep ir. */
  datatype Pos = Pos(ir: nat, j: nat)

  /** The search state: the lowest value seen and where it was seen. */
  datatype Cand = Cand(lowest: real, at: Option<Pos>)

  predicate ValidPos(vals: seq<seq<real>>, p: Pos)
  {
    p.ir < |vals| && p.j < |vals[p.ir]|
  }

  /** Position (a, b) comes before (ir, j) in the scan order. */
  predicate Before(a: nat, b: nat, ir: nat, j: nat)
  {
    a < ir || (a == ir && b < j)
  }

  /** One comparison of the search: strictly lower replaces. */
  function Better(c: Cand, v: real, ir: nat, j: nat): Cand
  {
    if v < c.lowest then Cand(v, Some(Pos(ir, j))) else c
  }

  function ScanRow(row: seq<real>, ir: nat, j: nat, c: Cand): Cand
    requires j <= |row|
    decreases |row| - j
  {
    if j == |row| then c else ScanRow(row, ir, j + 1, Better(c, row[j], ir, j))
  }

  function ScanFrom(vals: seq<seq<real>>, ir: nat, c: Cand): Cand
    requires ir <= |vals|
    decreases |vals| - ir
  {
    if ir == |vals| then c else ScanFrom(vals, ir + 1, ScanRow(vals[ir], ir, 0, c))
  }

  /** What the search has established once it reaches (ir, j): c holds the
      minimum of the values before that point, at its first position, or
      the sentinel and no position when none of them is below it. */
  predicate SoFar(vals: seq<seq<real>>, c: Cand, ir: nat, j: nat)
  {
    && c.lowest <= Sentinel
    && (forall a, b :: 0 <= a < |vals| && 0 <= b < |vals[a]| && Before(a, b, ir, j) ==> c.lowest <= vals[a][b])
    && (c.at.None? ==> c.lowest == Sentinel)
    && (c.at.Some? ==>
          && ValidPos(vals, c.at.value)
          && Before(c.at.value.ir, c.at.value.j, ir, j)
          && vals[c.at.value.ir][c.at.value.j] == c.lowest < Sentinel
          && forall a, b :: 0 <= a < |vals| && 0 <= b < |vals[a]| && Before(a, b, c.at.value.ir, c.at.value.j) ==> c.lowest < vals[a][b])
  }

  lemma {:induction false} ScanRowSoFar(vals: seq<seq<real>>, ir: nat, j: nat, c: Cand)
    requires ir < |vals| && j <= |vals[ir]| && SoFar(vals, c, ir, j)
    ensures SoFar(vals, ScanRow(vals[ir], ir, j, c), ir, |vals[ir]|)
    decreases |vals[ir]| - j
  {
    if j < |vals[ir]| {
      var c' := Better(c, vals[ir][j], ir, j);
      assert SoFar(vals, c', ir, j + 1);
      ScanRowSoFar(vals, ir, j + 1, c');
    }
  }

  lemma {:induction false} ScanFromSoFar(vals: seq<seq<real>>, ir: nat, c: Cand)
    requires ir <= |vals| && SoFar(vals, c, ir, 0)
    ensures SoFar(vals, ScanFrom(vals, ir, c), |vals|, 0)
    decreases |vals| - ir
  {
    if ir < |vals| {
      ScanRowSoFar(vals, ir, 0, c);
      var c' := ScanRow(vals[ir], ir, 0, c);
      assert SoFar(vals, c', ir + 1, 0);
      ScanFromSoFar(vals, ir + 1, c');
    }
  }

  /** The result of one full search. */
  function Lowest(vals: seq<seq<real>>): (c: Cand)
    ensures c.at.Some? ==> ValidPos(vals, c.at.value) && vals[c.at.value.ir][c.at.value.j] < Sentinel
  {
    ScanFromSoFar(vals, 0, Cand(Sentinel, None));
    ScanFrom(vals, 0, Cand(Sentinel, None))
  }

  /** The search finds nothing exactly when no value is below the
      sentinel; otherwise it finds the first position of the minimum. */
  lemma {:induction false} LowestIsFirstMinimum(vals: seq<seq<real>>)
    ensures Lowest(vals).at.None? <==>
              forall a, b :: 0 <= a < |vals| && 0 <= b < |vals[a]| ==> vals[a][b] >= Sentinel
    ensures Lowest(vals).at.Some? ==>
              var p := Lowest(vals).at.value;
              && ValidPos(vals, p) && vals[p.ir][p.j] < Sentinel
              && (forall a, b :: 0 <= a < |vals| && 0 <= b < |vals[a]| ==> vals[p.ir][p.j] <= vals[a][b])
              && (forall a, b :: 0 <= a < |vals| && 0 <= b < |vals[a]| && Before(a, b, p.ir, p.j) ==> vals[p.ir][p.j] < vals[a][b])
  {
    var c := Lowest(vals);
    ScanFromSoFar(vals, 0, Cand(Sentinel, None));
    forall a, b | 0 <= a < |vals| && 0 <= b < |vals[a]|
      ensures c.lowest <= vals[a][b]
    {
      assert Before(a, b, |vals|, 0);
    }
  }

  /** The search comes up empty exactly when no orbital is available. */
  lemma {:induction false} LowestNoneIffEmpty(vals: seq<seq<real>>)
    ensures Lowest(vals).at.None? <==> Avail(vals) == 0
  {
    LowestIsFirstMinimum(vals);
    AvailZero(vals);
  }

  /** The orbital found lies no higher than any other. */
  lemma {:induction false} LowestIsMin(vals: seq<seq<real>>)
    requires Lowest(vals).at.Some?
    ensures forall a, b :: 0 <= a < |vals| && 0 <= b < |vals[a]| ==>
              vals[Lowest(vals).at.value.ir][Lowest(vals).at.value.j] <= vals[a][b]
  {
    LowestIsFirstMinimum(vals);
  }

  /** Taking an orbital: its energy becomes the sentinel. */
  function Mark(vals: seq<seq<real>>, p: Pos): (r: seq<seq<real>>)
    requires ValidPos(vals, p)
  {
    vals[p.ir := vals[p.ir][p.j := Sentinel]]
  }

  /** The number of values below the sentinel in a row. */
  function RowAvail(row: seq<real>): nat
  {
    if |row| == 0 then 0 else RowAvail(row[..|row| - 1]) + (if row[|row| - 1] < Sentinel then 1 else 0)
  }

  /** The number of orbitals still available to the search. */
  function Avail(vals: seq<seq<real>>): nat
  {
    if |vals| == 0 then 0 else Avail(vals[..|vals| - 1]) + RowAvail(vals[|vals| - 1])
  }

  lemma {:induction false} RowAvailBound(row: seq<real>)
    ensures RowAvail(row) <= |row|
    ensures RowAvail(row) == 0 <==> forall b :: 0 <= b < |row| ==> row[b] >= Sentinel
  {
    if |row| > 0 {
      var init := row[..|row| - 1];
      RowAvailBound(init);
      assert forall b :: 0 <= b < |init| ==> init[b] == row[b];
    }
  }

  lemma {:induction false} AvailZero(vals: seq<seq<real>>)
    ensures Avail(vals) == 0 <==> forall a, b :: 0 <= a < |vals| && 0 <= b < |vals[a]| ==> vals[a][b] >= Sentinel
  {
    if |vals| > 0 {
      var init := vals[..|vals| - 1];
      AvailZero(init);
      RowAvailBound(vals[|vals| - 1]);
      assert forall a :: 0 <= a < |init| ==> init[a] == vals[a];
    }
  }

  lemma {:induction false} RowAvailTake(row: seq<real>, j: nat)
    requires j < |row| && row[j] < Sentinel
    ensures RowAvail(row[j := Sentinel]) + 1 == RowAvail(row)
    decreases |row|
  {
    var row' := row[j := Sentinel];
    assert row'[..|row'| - 1] == if j < |row| - 1 then row[..|row| - 1][j := Sentinel] else row[..|row| - 1];
    if j < |row| - 1 {
      RowAvailTake(row[..|row| - 1], j);
    }
  }

  lemma {:induction false} AvailReplace(vals: seq<seq<real>>, ir: nat, row: seq<real>)
    requires ir < |vals|
    ensures Avail(vals[ir := row]) + RowAvail(vals[ir]) == Avail(vals) + RowAvail(row)
    decreases |vals|
  {
    var vals' := vals[ir := row];
    if ir < |vals| - 1 {
      assert vals'[..|vals'| - 1] == vals[..|vals| - 1][ir := row];
      AvailReplace(vals[..|vals| - 1], ir, row);
    } else {
      assert vals'[..|vals'| - 1] == vals[..|vals| - 1];
    }
  }

  /** Taking an available orbital makes exactly one fewer available. */
  lemma {:induction false} MarkAvail(vals: seq<seq<real>>, p: Pos)
    requires ValidPos(vals, p) && vals[p.ir][p.j] < Sentinel
    ensures Avail(Mark(vals, p)) + 1 == Avail(vals)
    ensures RowAvail(Mark(vals, p)[p.ir]) + 1 == RowAvail(vals[p.ir])
  {
    RowAvailTake(vals[p.ir], p.j);
    AvailReplace(vals, p.ir, vals[p.ir][p.j := Sentinel]);
  }

  /** The outcome of the doubly-occupied pass: the energies left and the
      count per irrep, or the case where the search comes up empty before
      every pair is placed (the source then indexes with an uninitialised
      irrep). */
  datatype FillResult = Filled(vals: seq<seq<real>>, occ: seq<int>) | Exhausted

  /** n more pairs placed, each in the orbital the search finds, counted
      against its irrep. */
  function Fill(vals: seq<seq<real>>, n: int, occ: seq<int>): (r: FillResult)
    requires |occ| == |vals|
    decreases n
  {
    if n <= 0 then Filled(vals, occ)
    else if Lowest(vals).at.None? then Exhausted
    else
      var p := Lowest(vals).at.value;
      Fill(Mark(vals, p), n - 1, occ[p.ir := occ[p.ir] + 1])
  }

  function Sum(s: seq<int>): int
  {
    if |s| == 0 then 0 else Sum(s[..|s| - 1]) + s[|s| - 1]
  }

  lemma {:induction false} SumBump(s: seq<int>, k: nat)
    requires k < |s|
    ensures Sum(s[k := s[k] + 1]) == Sum(s) + 1
    decreases |s|
  {
    var s' := s[k := s[k] + 1];
    if k < |s| - 1 {
      assert s'[..|s'| - 1] == s[..|s| - 1][k := s[k] + 1];
      SumBump(s[..|s| - 1], k);
    } else {
      assert s'[..|s'| - 1] == s[..|s| - 1];
    }
  }

  function Max0(n: int): nat
  {
    if n < 0 then 0 else n
  }

  /** The pass succeeds exactly when there are at least n available
      orbitals. */
  lemma {:induction false} FillSucceeds(vals: seq<seq<real>>, n: int, occ: seq<int>)
    requires |occ| == |vals|
    ensures Fill(vals, n, occ).Filled? <==> n <= Avail(vals)
    decreases n
  {
    if n > 0 {
      LowestNoneIffEmpty(vals);
      if Lowest(vals).at.Some? {
        var p := Lowest(vals).at.value;
        MarkAvail(vals, p);
        FillSucceeds(Mark(vals, p), n - 1, occ[p.ir := occ[p.ir] + 1]);
      }
    }
  }

  /** Energies that only ever turn into the sentinel. */
  predicate Shrinks(vals: seq<seq<real>>, fin: seq<seq<real>>)
  {
    && |fin| == |vals|
    && (forall a :: 0 <= a < |vals| ==> |fin[a]| == |vals[a]|)
    && forall a, b :: 0 <= a < |vals| && 0 <= b < |vals[a]| ==> fin[a][b] == vals[a][b] || fin[a][b] == Sentinel
  }

  /** Every orbital taken (below the sentinel before, the sentinel after)
      lies no higher than any orbital left available. */
  predicate LowestTaken(vals: seq<seq<real>>, fin: seq<seq<real>>)
    requires Shrinks(vals, fin)
  {
    forall a, b, c, d ::
      0 <= a < |vals| && 0 <= b < |vals[a]| && 0 <= c < |vals| && 0 <= d < |vals[c]|
      && vals[a][b] < Sentinel && fin[a][b] == Sentinel && fin[c][d] < Sentinel
      ==> vals[a][b] <= vals[c][d]
  }

  /** A successful pass places n pairs in total and takes n orbitals. */
  lemma {:induction false} FillCounts(vals: seq<seq<real>>, n: int, occ: seq<int>)
    requires |occ| == |vals| && Fill(vals, n, occ).Filled?
    ensures var r := Fill(vals, n, occ);
      && |r.occ| == |occ| && |r.vals| == |vals|
      && Sum(r.occ) == Sum(occ) + Max0(n)
      && Avail(r.vals) + Max0(n) == Avail(vals)
    decreases n
  {
    if n > 0 {
      var p := Lowest(vals).at.value;
      MarkAvail(vals, p);
      SumBump(occ, p.ir);
      FillCounts(Mark(vals, p), n - 1, occ[p.ir := occ[p.ir] + 1]);
    }
  }

  /** A successful pass places in each irrep as many pairs as it took
      orbitals from that irrep. */
  lemma {:induction false} FillPerIrrep(vals: seq<seq<real>>, n: int, occ: seq<int>, a: nat)
    requires |occ| == |vals| && Fill(vals, n, occ).Filled? && a < |vals|
    ensures |Fill(vals, n, occ).occ| == |occ| && |Fill(vals, n, occ).vals| == |vals|
    ensures Fill(vals, n, occ).occ[a] - occ[a] + RowAvail(Fill(vals, n, occ).vals[a]) == RowAvail(vals[a])
    ensures Fill(vals, n, occ).occ[a] >= occ[a]
    decreases n
  {
    if n > 0 {
      var p := Lowest(vals).at.value;
      MarkAvail(vals, p);
      FillPerIrrep(Mark(vals, p), n - 1, occ[p.ir := occ[p.ir] + 1], a);
    }
  }

  /** A successful pass takes the n lowest orbitals: none left available
      lies below one taken. */
  lemma {:induction false} FillTakesLowest(vals: seq<seq<real>>, n: int, occ: seq<int>)
    requires |occ| == |vals| && Fill(vals, n, occ).Filled?
    ensures Shrinks(vals, Fill(vals, n, occ).vals)
    ensures LowestTaken(vals, Fill(vals, n, occ).vals)
    decreases n
  {
    if n > 0 {
      LowestIsMin(vals);
      var p := Lowest(vals).at.value;
      var m := Mark(vals, p);
      var occ' := occ[p.ir := occ[p.ir] + 1];
      FillTakesLowest(m, n - 1, occ');
      var fin := Fill(m, n - 1, occ').vals;
      assert Fill(vals, n, occ).vals == fin;
      forall a, b, c, d |
        0 <= a < |vals| && 0 <= b < |vals[a]| && 0 <= c < |vals| && 0 <= d < |vals[c]|
        && vals[a][b] < Sentinel && fin[a][b] == Sentinel && fin[c][d] < Sentinel
        ensures vals[a][b] <= vals[c][d]
      {
        assert fin[c][d] == m[c][d];
        if a != p.ir || b != p.j {
          assert m[a][b] == vals[a][b];
        }
      }
    }
  }

  /** The retry loop of the open-shell pass: keep taking the lowest
      orbital while it lies in the first open shell's irrep osa; the
      first one elsewhere names the second open shell. */
  function SecondShell(vals: seq<seq<real>>, osa: nat): (r: Option<nat>)
    decreases Avail(vals)
  {
    if Lowest(vals).at.None? then None
    else
      var p := Lowest(vals).at.value;
      if p.ir == osa then
        MarkAvail(vals, p);
        SecondShell(Mark(vals, p), osa)
      else Some(p.ir)
  }

  /** The second open shell is found exactly when some orbital outside
      irrep osa is available, and it is the irrep of the lowest such
      orbital. */
  lemma {:induction false} SecondShellIsLowestElsewhere(vals: seq<seq<real>>, osa: nat)
    ensures SecondShell(vals, osa).None? <==>
              forall a, b :: 0 <= a < |vals| && 0 <= b < |vals[a]| && a != osa ==> vals[a][b] >= Sentinel
    ensures SecondShell(vals, osa).Some? ==>
              var s := SecondShell(vals, osa).value;
              s != osa && s < |vals| &&
              exists j :: 0 <= j < |vals[s]| && vals[s][j] < Sentinel &&
                forall a, b :: 0 <= a < |vals| && 0 <= b < |vals[a]| && a != osa ==> vals[s][j] <= vals[a][b]
    decreases Avail(vals)
  {
    LowestIsFirstMinimum(vals);
    if Lowest(vals).at.Some? {
      var p := Lowest(vals).at.value;
      if p.ir == osa {
        MarkAvail(vals, p);
        var m := Mark(vals, p);
        SecondShellIsLowestElsewhere(m, osa);
        assert forall a, b :: 0 <= a < |vals| && 0 <= b < |vals[a]| && a != osa ==> m[a][b] == vals[a][b];
      } else {
        assert vals[p.ir][p.j] < Sentinel;
      }
    }
  }

  /** The open-shell pass: the irrep of the lowest available orbital and
      the second shell after it, in increasing order. */
  function OpenPass(vals: seq<seq<real>>): (r: Option<(nat, nat)>)
  {
    if Lowest(vals).at.None? then None
    else
      var p := Lowest(vals).at.value;
      match SecondShell(Mark(vals, p), p.ir)
      case None => None
      case Some(s) => Some(if p.ir > s then (s, p.ir) else (p.ir, s))
  }

  /** The open-shell pass picks two different irreps, in increasing order,
      and succeeds exactly when available orbitals remain in at least two
      irreps. */
  lemma {:induction false} OpenPassFacts(vals: seq<seq<real>>)
    ensures OpenPass(vals).Some? ==> OpenPass(vals).value.0 < OpenPass(vals).value.1 < |vals|
    ensures OpenPass(vals).Some? <==>
              exists a, b, c, d :: 0 <= a < |vals| && 0 <= b < |vals[a]| && 0 <= c < |vals| && 0 <= d < |vals[c]|
                && a != c && vals[a][b] < Sentinel && vals[c][d] < Sentinel
  {
    LowestIsFirstMinimum(vals);
    if Lowest(vals).at.Some? {
      var p := Lowest(vals).at.value;
      var m := Mark(vals, p);
      SecondShellIsLowestElsewhere(m, p.ir);
      assert forall a, b :: 0 <= a < |vals| && 0 <= b < |vals[a]| && a != p.ir ==> m[a][b] == vals[a][b];
      if SecondShell(m, p.ir).Some? {
        var s := SecondShell(m, p.ir).value;
        var j :| 0 <= j < |m[s]| && m[s][j] < Sentinel &&
          forall a, b :: 0 <= a < |m| && 0 <= b < |m[a]| && a != p.ir ==> m[s][j] <= m[a][b];
        assert vals[p.ir][p.j] < Sentinel && vals[s][j] < Sentinel;
      } else {
        forall a, b, c, d | 0 <= a < |vals| && 0 <= b < |vals[a]| && 0 <= c < |vals| && 0 <= d < |vals[c]|
            && a != c && vals[a][b] < Sentinel
          ensures vals[c][d] >= Sentinel
        {
          if a == p.ir {
            assert m[c][d] == vals[c][d];
          }
        }
      }
    }
  }

  /** One search, as the nested irrep/orbital loop of the source. */
  method FindLowest(vals: seq<seq<real>>) returns (c: Cand)
    ensures c == Lowest(vals)
  {
    c := Cand(Sentinel, None);
    var ir := 0;
    while ir < |vals|
      invariant 0 <= ir <= |vals|
      invariant ScanFrom(vals, ir, c) == Lowest(vals)
    {
      ghost var c0 := c;
      var nf := |vals[ir]|;
      var j := 0;
      while j < nf
        invariant 0 <= j <= nf
        invariant ScanRow(vals[ir], ir, j, c) == ScanRow(vals[ir], ir, 0, c0)
      {
        if vals[ir][j] < c.lowest {
          c := Cand(vals[ir][j], Some(Pos(ir, j)));
        }
        j := j + 1;
      }
      ir := ir + 1;
    }
  }

  /** The doubly-occupied pass: n searches, each taking the orbital it
      finds and counting it against its irrep. */
  method FillLoop(vals0: seq<seq<real>>, n: int) returns (r: FillResult)
    ensures r == Fill(vals0, n, seq(|vals0|, _ => 0))
  {
    var vals := vals0;
    var occ: seq<int> := seq(|vals0|, _ => 0);
    var i := 0;
    while i < n
      invariant |occ| == |vals|
      invariant n > 0 ==> 0 <= i <= n
      invariant Fill(vals, n - i, occ) == Fill(vals0, n, seq(|vals0|, _ => 0))
      decreases n - i
    {
      var c := FindLowest(vals);
      if c.at.None? {
        return Exhausted;
      }
      var p := c.at.value;
      vals := vals[p.ir := vals[p.ir][p.j := Sentinel]];
      occ := occ[p.ir := occ[p.ir] + 1];
      i := i + 1;
    }
    return Filled(vals, occ);
  }

  /** The open-shell pass as the source runs it: two searches, the second
      repeated while it lands in the first one's irrep, then the two
      irreps put in increasing order. */
  method OpenShellLoop(vals0: seq<seq<real>>) returns (r: Option<(nat, nat)>)
    ensures r == OpenPass(vals0)
  {
    var vals := vals0;
    var osa: nat := 0;
    var osb: nat := 0;
    var i := 0;
    while i < 2
      invariant 0 <= i <= 2
      invariant i == 0 ==> vals == vals0
      invariant i > 0 ==> Lowest(vals0).at.Some? && osa == Lowest(vals0).at.value.ir
      invariant i == 1 ==> SecondShell(vals, osa) == SecondShell(Mark(vals0, Lowest(vals0).at.value), osa)
      invariant i == 2 ==> SecondShell(Mark(vals0, Lowest(vals0).at.value), osa) == Some(osb)
      decreases 2 - i, Avail(vals)
    {
      var c := FindLowest(vals);
      if c.at.None? {
        return None;
      }
      var p := c.at.value;
      MarkAvail(vals, p);
      vals := vals[p.ir := vals[p.ir][p.j := Sentinel]];
      if i == 0 {
        osa := p.ir;
      } else {
        if p.ir == osa {
          continue;
        }
        osb := p.ir;
      }
      i := i + 1;
    }
    if osa > osb {
      osa, osb := osb, osa;
    }
    return Some((osa, osb));
  }
}
