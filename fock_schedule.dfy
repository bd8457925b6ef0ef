/** The Fock-build thread bodies (fockbuild.cc): FockBuildThread_F11_P11::run,
    which walks the canonical shell quartets, screens them and dispatches
    each survivor to one permutation class of J and K contributions, and
    FockBuildThread_F12_P33::run_J / run_K, the two-pass variant for
    distinct basis sets. A dispatch is recorded, not performed: the
    contribution kernels, the integral buffer, the petite list and the
    integral bounds are oracles. */
module FockSchedule {
  import opened ShellLayout
  import opened FockTasks

  /** The contribution kernel a quartet is dispatched to: contrib_e,
      contrib_p13p24, contrib_p34_p13p24, contrib_p12_p13p24, contrib_p12_p34,
      contrib_all, and contrib_p34 (used only by the J pass of F12_P33). */
  datatype PermClass = E | P13P24 | P34P13P24 | P12P13P24 | P12P34 | All | P34

  /** One kernel call: the shell quartet and the scale factor passed to it. */
  datatype Dispatch = Dispatch(i: nat, j: nat, k: nat, l: nat, scale: int, cls: PermClass)

  /** The petite-list predicates in_p1, in_p2 and in_p4 (foreign code). */
  datatype PetiteList = PetiteList(inP1: nat -> bool, inP2: nat -> bool,
                                   inP4: (nat, nat, nat, nat) -> int)

  /** The basis and integral oracles: the number of functions of each shell
      and log2_shell_bound of the electron-repulsion evaluator. */
  datatype Integrals = Integrals(nfun: nat -> nat, log2Bound: (nat, nat, nat, nat) -> int)

  /** The screening inputs: the density exponent table pmax_ and
      tol = (int)(log(accuracy_) / log 2). */
  datatype Screen = Screen(pmax: seq<int>, tol: int)

  /** can_sym_offset(i, j): the lower-triangle index i(i+1)/2 + j, in the
      closed form the loops compute it by. */
  function CanSymOffset(i: nat, j: nat): nat
  {
    i * (i + 1) / 2 + j
  }

  /** can_sym_offset is the canonical pair index of the symmetric storage. */
  lemma {:induction false} CanSymOffsetIsPairIndex(i: nat, j: nat)
    ensures CanSymOffset(i, j) == PairIndex(i, j)
  {
    TriClosedForm(i);
  }

  /** gen_sym_offset(a, b): the canonical pair index of {a, b} in either order. */
  function GenSymOffset(a: nat, b: nat): nat
  {
    if a > b then CanSymOffset(a, b) else CanSymOffset(b, a)
  }

  lemma {:induction false} GenSymOffsetSymmetric(a: nat, b: nat)
    ensures GenSymOffset(a, b) == GenSymOffset(b, a)
    ensures GenSymOffset(a, b) == CanSymOffset(if a < b then b else a, if a < b then a else b)
  {
  }

  /** A screening-table entry; never read outside the table by the loops
      modelled here (every index stays below Tri(n)). */
  function PmaxAt(pmax: seq<int>, x: nat): int
  {
    if x < |pmax| then pmax[x] else 0
  }

  /** The running maximum of the loops: `if (ptmp > p) p = ptmp`. */
  function Raise(p: int, x: int): int
  {
    if x > p then x else p
  }

  /** pmaxijk, fixed for the whole l loop: the exponents of the Coulomb
      pair ij and of the exchange pairs ik and jk (halved, hence one less),
      raised in that order. */
  function PairExponent(pmax: seq<int>, i: nat, j: nat, k: nat): int
  {
    Raise(Raise(PmaxAt(pmax, CanSymOffset(i, j)), PmaxAt(pmax, CanSymOffset(i, k)) - 1),
          PmaxAt(pmax, GenSymOffset(j, k)) - 1)
  }

  /** The c-th exponent read inside the l loop (c = 1, 2, 3): the Coulomb
      pair kl, then the exchange pairs il and jl (halved, hence one less). */
  function QuartetCandidate(pmax: seq<int>, i: nat, j: nat, k: nat, l: nat, c: nat): int
  {
    if c == 1 then PmaxAt(pmax, CanSymOffset(k, l))
    else if c == 2 then PmaxAt(pmax, CanSymOffset(i, l)) - 1
    else PmaxAt(pmax, GenSymOffset(j, l)) - 1
  }

  /** pmaxijkl after the first c reads of the l loop: pmaxijk raised by
      candidates 1 through c. */
  function RaisedBy(pmax: seq<int>, i: nat, j: nat, k: nat, l: nat, c: nat): int
  {
    if c == 0 then PairExponent(pmax, i, j, k)
    else Raise(RaisedBy(pmax, i, j, k, l, c - 1), QuartetCandidate(pmax, i, j, k, l, c))
  }

  /** pmaxijkl: pmaxijk raised by the exponents of the Coulomb pair kl and
      of the exchange pairs il and jl. */
  function ScreenExponent(pmax: seq<int>, i: nat, j: nat, k: nat, l: nat): int
  {
    RaisedBy(pmax, i, j, k, l, 3)
  }

  /** The six density exponents that bound the density contracted with
      (ij|kl). */
  function ScreenCandidates(pmax: seq<int>, i: nat, j: nat, k: nat, l: nat): (r: seq<int>)
    ensures |r| == 6
  {
    [PmaxAt(pmax, CanSymOffset(i, j)), PmaxAt(pmax, CanSymOffset(i, k)) - 1, PmaxAt(pmax, GenSymOffset(j, k)) - 1,
     PmaxAt(pmax, CanSymOffset(k, l)), PmaxAt(pmax, CanSymOffset(i, l)) - 1, PmaxAt(pmax, GenSymOffset(j, l)) - 1]
  }

  /** The quartet's screening exponent is the largest of its six candidates. */
  lemma {:induction false} ScreenExponentIsMax(pmax: seq<int>, i: nat, j: nat, k: nat, l: nat)
    ensures forall c :: c in ScreenCandidates(pmax, i, j, k, l) ==> c <= ScreenExponent(pmax, i, j, k, l)
    ensures ScreenExponent(pmax, i, j, k, l) in ScreenCandidates(pmax, i, j, k, l)
  {
    assert RaisedBy(pmax, i, j, k, l, 1) == Raise(PairExponent(pmax, i, j, k), QuartetCandidate(pmax, i, j, k, l, 1));
    assert RaisedBy(pmax, i, j, k, l, 2) == Raise(RaisedBy(pmax, i, j, k, l, 1), QuartetCandidate(pmax, i, j, k, l, 2));
    assert ScreenExponent(pmax, i, j, k, l) == Raise(RaisedBy(pmax, i, j, k, l, 2), QuartetCandidate(pmax, i, j, k, l, 3));
  }

  /** The permutation class of a canonical quartet, chosen from the index
      coincidences i == j, k == l and (i, j) == (k, l). */
  function Classify(i: nat, j: nat, k: nat, l: nat): PermClass
  {
    var e12 := i == j;
    var e34 := k == l;
    var e13e24 := i == k && j == l;
    if e12 then
      if e34 then (if e13e24 then E else P13P24) else P34P13P24
    else if e34 then P12P13P24
    else if e13e24 then P12P34
    else All
  }

  /** The eight index orders that denote the same two-electron integral
      (ij|kl) = (ji|kl) = (ij|lk) = (kl|ij) = ... */
  function Images(i: nat, j: nat, k: nat, l: nat): set<(nat, nat, nat, nat)>
  {
    {(i, j, k, l), (j, i, k, l), (i, j, l, k), (j, i, l, k),
     (k, l, i, j), (l, k, i, j), (k, l, j, i), (l, k, j, i)}
  }

  /** How many distinct integrals a kernel of each class stands for. */
  function Degeneracy(c: PermClass): nat
  {
    match c
    case E => 1
    case P13P24 => 2
    case P34P13P24 => 4
    case P12P13P24 => 4
    case P12P34 => 4
    case All => 8
    case P34 => 2
  }

  /** The canonical order of the F11 loops: j <= i, k <= i, and
      l <= (k == i ? j : k). */
  ghost predicate Canonical(i: nat, j: nat, k: nat, l: nat)
  {
    j <= i && k <= i && l <= (if k == i then j else k)
  }

  /** The cardinality of a set display of pairwise distinct tuples. */
  lemma {:induction false} DistinctCard(xs: seq<(nat, nat, nat, nat)>)
    requires forall a, b :: 0 <= a < b < |xs| ==> xs[a] != xs[b]
    ensures |set x | x in xs| == |xs|
  {
    if |xs| > 0 {
      var init := xs[..|xs| - 1];
      DistinctCard(init);
      assert (set x | x in xs) == (set x | x in init) + {xs[|xs| - 1]};
      assert xs[|xs| - 1] !in (set x | x in init);
    }
  }

  /** The class dispatched for a canonical quartet names exactly how many
      distinct index orders it stands for. */
  lemma {:induction false} ClassDegeneracy(i: nat, j: nat, k: nat, l: nat)
    requires Canonical(i, j, k, l)
    ensures |Images(i, j, k, l)| == Degeneracy(Classify(i, j, k, l))
  {
    var c := Classify(i, j, k, l);
    var xs := match c
      case E => [(i, i, i, i)]
      case P13P24 => [(i, i, k, k), (k, k, i, i)]
      case P34P13P24 => [(i, i, k, l), (i, i, l, k), (k, l, i, i), (l, k, i, i)]
      case P12P13P24 => [(i, j, k, k), (j, i, k, k), (k, k, i, j), (k, k, j, i)]
      case P12P34 => [(i, j, i, j), (j, i, i, j), (i, j, j, i), (j, i, j, i)]
      case _ => [(i, j, k, l), (j, i, k, l), (i, j, l, k), (j, i, l, k),
                 (k, l, i, j), (l, k, i, j), (k, l, j, i), (l, k, j, i)];
    DistinctCard(xs);
    assert Images(i, j, k, l) == set x | x in xs;
  }

  // ---------------------------------------------------------------------
  // FockBuildThread_F11_P11::run

  /** Tasks of run(): i over the shells with in_p1(i), j <= i with
      in_p2(ij), and every k <= i. */
  function F11Loops(pl: PetiteList, n: nat): Loops
  {
    Loops(n, Rows(pl.inP1), ThroughI, Pairs(pl.inP2), ThroughI)
  }

  /** The last l of the l loop of task (i, j, k). */
  function LEnd(t: Task): nat
  {
    if t.k == t.i then t.j else t.k
  }

  /** A quartet the l loop reaches is computed and dispatched iff the
      petite list keeps it and its integral bound times its density bound
      reaches the tolerance. */
  ghost predicate Survives(pl: PetiteList, ints: Integrals, sc: Screen, i: nat, j: nat, k: nat, l: nat)
  {
    pl.inP4(i, j, k, l) != 0 &&
    ints.log2Bound(i, j, k, l) + ScreenExponent(sc.pmax, i, j, k, l) >= sc.tol
  }

  /** The J and K kernels of the quartet's class, called with the petite
      list's multiplicity qijkl as scale. */
  ghost function F11Dispatch(pl: PetiteList, i: nat, j: nat, k: nat, l: nat): Dispatch
  {
    Dispatch(i, j, k, l, pl.inP4(i, j, k, l), Classify(i, j, k, l))
  }

  /** The dispatch of quartet (t.i, t.j, t.k, l): once if it survives, not
      at all otherwise. */
  ghost function QuartetWork(pl: PetiteList, ints: Integrals, sc: Screen, t: Task, l: nat): seq<Dispatch>
  {
    seq(if Survives(pl, ints, sc, t.i, t.j, t.k, l) then 1 else 0, _ => F11Dispatch(pl, t.i, t.j, t.k, l))
  }

  /** The dispatches of task t for the first m values of l. */
  ghost function LWork(pl: PetiteList, ints: Integrals, sc: Screen, t: Task, m: nat): seq<Dispatch>
  {
    if m == 0 then [] else LWork(pl, ints, sc, t, m - 1) + QuartetWork(pl, ints, sc, t, m - 1)
  }

  /** The dispatches of one task. */
  ghost function TaskWork(pl: PetiteList, ints: Integrals, sc: Screen, t: Task): seq<Dispatch>
  {
    LWork(pl, ints, sc, t, LEnd(t) + 1)
  }

  /** The dispatches of a sequence of tasks, in order. */
  ghost function F11Work(pl: PetiteList, ints: Integrals, sc: Screen, ts: seq<Task>): seq<Dispatch>
  {
    if ts == [] then []
    else F11Work(pl, ints, sc, ts[..|ts| - 1]) + TaskWork(pl, ints, sc, ts[|ts| - 1])
  }

  /** The dispatches of thread r.threadnum of process r.me. */
  ghost function F11ThreadWork(pl: PetiteList, ints: Integrals, sc: Screen, n: nat, r: Rank): seq<Dispatch>
    requires r.nproc > 0 && r.nthread > 0
  {
    var ts := Tasks(F11Loops(pl, n));
    F11Work(pl, ints, sc, Selected(ts, |ts|, RoundRobin, r))
  }

  /** The integral count ni*nj*nk*nl summed over a list of dispatches. */
  function IntegralCount(w: seq<Dispatch>, nfun: nat -> nat): nat
  {
    if w == [] then 0
    else
      var d := w[|w| - 1];
      IntegralCount(w[..|w| - 1], nfun) + nfun(d.i) * nfun(d.j) * nfun(d.k) * nfun(d.l)
  }

  lemma {:induction false} IntegralCountAppend(w: seq<Dispatch>, v: seq<Dispatch>, nfun: nat -> nat)
    ensures IntegralCount(w + v, nfun) == IntegralCount(w, nfun) + IntegralCount(v, nfun)
    decreases |v|
  {
    if v == [] {
      assert w + v == w;
    } else {
      assert (w + v)[..|w + v| - 1] == w + v[..|v| - 1];
      assert (w + v)[|w + v| - 1] == v[|v| - 1];
      IntegralCountAppend(w, v[..|v| - 1], nfun);
      var d := v[|v| - 1];
      var c := nfun(d.i) * nfun(d.j) * nfun(d.k) * nfun(d.l);
      assert IntegralCount(v, nfun) == IntegralCount(v[..|v| - 1], nfun) + c;
      assert IntegralCount(w + v, nfun) == IntegralCount(w + v[..|v| - 1], nfun) + c;
    }
  }

  /** pmaxijk: the pair exponents fixed for one task, read from the table
      and raised one by one. */
  method PairBound(pmax: seq<int>, i: nat, j: nat, k: nat) returns (pmaxijk: int)
    requires j <= i && k <= i && Tri(i + 1) <= |pmax|
    ensures pmaxijk == PairExponent(pmax, i, j, k)
  {
    TriPairIndex(i + 1, i, j);
    TriPairIndex(i + 1, i, k);
    TriPairIndex(i + 1, if j < k then k else j, if j < k then j else k);
    var pmaxij := pmax[CanSymOffset(i, j)];
    pmaxijk := pmaxij;
    var ptmp := pmax[CanSymOffset(i, k)] - 1;
    if ptmp > pmaxijk { pmaxijk := ptmp; }
    ptmp := pmax[GenSymOffset(j, k)] - 1;
    if ptmp > pmaxijk { pmaxijk := ptmp; }
  }

  /** pmaxijkl: pmaxijk raised by the exponents of the pairs kl, il and jl. */
  method QuartetBound(pmax: seq<int>, i: nat, j: nat, k: nat, l: nat, okl: nat, pmaxijk: int)
    returns (pmaxijkl: int)
    requires j <= i && k <= i && l <= k && Tri(i + 1) <= |pmax|
    requires okl == CanSymOffset(k, l) && pmaxijk == PairExponent(pmax, i, j, k)
    ensures pmaxijkl == ScreenExponent(pmax, i, j, k, l)
  {
    TriPairIndex(i + 1, k, l);
    TriPairIndex(i + 1, i, l);
    TriPairIndex(i + 1, if j < l then l else j, if j < l then j else l);
    pmaxijkl := pmaxijk;
    var ptmp := pmax[okl];
    if ptmp > pmaxijkl { pmaxijkl := ptmp; }
    assert pmaxijkl == RaisedBy(pmax, i, j, k, l, 1);
    ptmp := pmax[CanSymOffset(i, l)] - 1;
    if ptmp > pmaxijkl { pmaxijkl := ptmp; }
    assert pmaxijkl == RaisedBy(pmax, i, j, k, l, 2);
    ptmp := pmax[GenSymOffset(j, l)] - 1;
    if ptmp > pmaxijkl { pmaxijkl := ptmp; }
  }

  /** One iteration of the l loop: the in_p4 and bound filters, and the
      dispatch of the quartet if it survives them. */
  method RunQuartet(pl: PetiteList, ints: Integrals, sc: Screen, i: nat, j: nat, k: nat, l: nat,
                    okl: nat, pmaxijk: int, work: seq<Dispatch>, nint: nat)
    returns (work': seq<Dispatch>, nint': nat)
    requires j <= i && k <= i && l <= k && Tri(i + 1) <= |sc.pmax|
    requires okl == CanSymOffset(k, l)
    requires pmaxijk == PairExponent(sc.pmax, i, j, k)
    requires work == LWork(pl, ints, sc, Task(i, j, k), l)
    requires nint == IntegralCount(work, ints.nfun)
    ensures work' == LWork(pl, ints, sc, Task(i, j, k), l + 1)
    ensures nint' == IntegralCount(work', ints.nfun)
  {
    var pmaxijkl := QuartetBound(sc.pmax, i, j, k, l, okl, pmaxijk);
    var qijkl := pl.inP4(i, j, k, l);
    work', nint' := work, nint;
    if qijkl != 0 && ints.log2Bound(i, j, k, l) + pmaxijkl >= sc.tol {
      var d := Dispatch(i, j, k, l, qijkl, Classify(i, j, k, l));
      IntegralCountAppend(work, [d], ints.nfun);
      assert [d][..0] == [];
      work' := work + [d];
      nint' := nint + ints.nfun(i) * ints.nfun(j) * ints.nfun(k) * ints.nfun(l);
    }
  }

  /** The l loop of one task: one RunQuartet per l up to LEnd. */
  method RunTask(pl: PetiteList, ints: Integrals, sc: Screen, i: nat, j: nat, k: nat)
    returns (work: seq<Dispatch>, nint: nat)
    requires j <= i && k <= i && Tri(i + 1) <= |sc.pmax|
    ensures work == TaskWork(pl, ints, sc, Task(i, j, k))
    ensures nint == IntegralCount(work, ints.nfun)
  {
    var pmaxijk := PairBound(sc.pmax, i, j, k);
    var lend := if k == i then j else k;
    var okl := CanSymOffset(k, 0);
    var l := 0;
    work, nint := [], 0;
    while l <= lend
      invariant l <= lend + 1
      invariant okl == CanSymOffset(k, l)
      invariant work == LWork(pl, ints, sc, Task(i, j, k), l)
      invariant nint == IntegralCount(work, ints.nfun)
    {
      work, nint := RunQuartet(pl, ints, sc, i, j, k, l, okl, pmaxijk, work, nint);
      l := l + 1;
      okl := okl + 1;
    }
  }

  lemma {:induction false} F11WorkSnoc(pl: PetiteList, ints: Integrals, sc: Screen, ts: seq<Task>, t: Task)
    ensures F11Work(pl, ints, sc, ts + [t]) == F11Work(pl, ints, sc, ts) + TaskWork(pl, ints, sc, t)
  {
    assert (ts + [t])[..|ts|] == ts;
  }

  /** One more task index: its task's dispatches join the work iff the
      thread owns it. */
  lemma {:induction false} SelectStep(pl: PetiteList, ints: Integrals, sc: Screen, all: seq<Task>, T: nat, r: Rank)
    requires r.nproc > 0 && r.nthread > 0 && T < |all|
    ensures OwnsRR(r, T) ==>
      (F11Work(pl, ints, sc, Selected(all, T + 1, RoundRobin, r)) ==
       F11Work(pl, ints, sc, Selected(all, T, RoundRobin, r)) + TaskWork(pl, ints, sc, all[T]))
    ensures !OwnsRR(r, T) ==>
      (F11Work(pl, ints, sc, Selected(all, T + 1, RoundRobin, r)) ==
       F11Work(pl, ints, sc, Selected(all, T, RoundRobin, r)))
  {
    var pre := Selected(all, T, RoundRobin, r);
    if OwnsRR(r, T) {
      assert Selected(all, T + 1, RoundRobin, r) == pre + [all[T]];
      F11WorkSnoc(pl, ints, sc, pre, all[T]);
    } else {
      assert Selected(all, T + 1, RoundRobin, r) == pre;
    }
  }

  /** The loop state of run(): the two counters and what has been
      dispatched so far. */
  ghost predicate RunState(pl: PetiteList, ints: Integrals, sc: Screen, all: seq<Task>, r: Rank,
                           taskIndex: nat, threadIndex: nat, work: seq<Dispatch>, nint: nat)
    requires r.nproc > 0 && r.nthread > 0
  {
    taskIndex <= |all| &&
    threadIndex == MyCount(taskIndex, r.me, r.nproc) &&
    work == F11Work(pl, ints, sc, Selected(all, taskIndex, RoundRobin, r)) &&
    nint == IntegralCount(work, ints.nfun)
  }

  /** One iteration of the k loop of run(): the ownership tests on the two
      counters and, for an owned task, its l loop. */
  method RunOne(pl: PetiteList, ints: Integrals, sc: Screen, ghost all: seq<Task>, r: Rank, i: nat, j: nat, k: nat,
                taskIndex: nat, threadIndex0: nat, work0: seq<Dispatch>, nint0: nat)
    returns (threadIndex: nat, work: seq<Dispatch>, nint: nat)
    requires r.nproc > 0 && r.nthread > 0 && j <= i && k <= i && Tri(i + 1) <= |sc.pmax|
    requires taskIndex < |all| && all[taskIndex] == Task(i, j, k)
    requires RunState(pl, ints, sc, all, r, taskIndex, threadIndex0, work0, nint0)
    ensures RunState(pl, ints, sc, all, r, taskIndex + 1, threadIndex, work, nint)
  {
    threadIndex, work, nint := threadIndex0, work0, nint0;
    SelectStep(pl, ints, sc, all, taskIndex, r);
    if taskIndex % r.nproc == r.me {
      threadIndex := threadIndex + 1;
      if threadIndex % r.nthread == r.threadnum {
        var w, c := RunTask(pl, ints, sc, i, j, k);
        IntegralCountAppend(work, w, ints.nfun);
        work := work + w;
        nint := nint + c;
      }
    }
  }

  /** The k loop of run() for one pair (i, j): one task per k <= i, which
      are tasks at positions T0 .. T0 + i of the list of tasks. */
  method RunPair(pl: PetiteList, ints: Integrals, sc: Screen, ghost all: seq<Task>, r: Rank, i: nat, j: nat,
                 taskIndex0: nat, threadIndex0: nat, work0: seq<Dispatch>, nint0: nat)
    returns (taskIndex: nat, threadIndex: nat, work: seq<Dispatch>, nint: nat)
    requires r.nproc > 0 && r.nthread > 0 && j <= i && Tri(i + 1) <= |sc.pmax|
    requires taskIndex0 + i + 1 <= |all| && all[taskIndex0..taskIndex0 + i + 1] == KRun(i, j, i + 1)
    requires RunState(pl, ints, sc, all, r, taskIndex0, threadIndex0, work0, nint0)
    ensures taskIndex == taskIndex0 + i + 1
    ensures RunState(pl, ints, sc, all, r, taskIndex, threadIndex, work, nint)
  {
    taskIndex, threadIndex, work, nint := taskIndex0, threadIndex0, work0, nint0;
    var k := 0;
    while k <= i
      invariant k <= i + 1
      invariant taskIndex == taskIndex0 + k
      invariant RunState(pl, ints, sc, all, r, taskIndex, threadIndex, work, nint)
    {
      assert all[taskIndex0..taskIndex0 + i + 1][k] == Task(i, j, k);
      threadIndex, work, nint := RunOne(pl, ints, sc, all, r, i, j, k, taskIndex, threadIndex, work, nint);
      taskIndex := taskIndex + 1;
      k := k + 1;
    }
  }

  /** One iteration of the j loop of run(): the in_p2 test on pair (i, j)
      and, for a kept pair, its k loop. */
  method RunRowStep(pl: PetiteList, ints: Integrals, sc: Screen, n: nat, ghost all: seq<Task>, r: Rank, i: nat, j: nat,
                    ghost T0: nat, taskIndex0: nat, threadIndex0: nat, work0: seq<Dispatch>, nint0: nat)
    returns (taskIndex: nat, threadIndex: nat, work: seq<Dispatch>, nint: nat)
    requires r.nproc > 0 && r.nthread > 0 && Tri(i + 1) <= |sc.pmax|
    requires pl.inP1(i) && j <= i
    requires T0 + |RowTasks(F11Loops(pl, n), i)| <= |all|
    requires all[T0..T0 + |RowTasks(F11Loops(pl, n), i)|] == RowTasks(F11Loops(pl, n), i)
    requires taskIndex0 == T0 + |JRun(F11Loops(pl, n), i, j)|
    requires RunState(pl, ints, sc, all, r, taskIndex0, threadIndex0, work0, nint0)
    ensures taskIndex == T0 + |JRun(F11Loops(pl, n), i, j + 1)|
    ensures RunState(pl, ints, sc, all, r, taskIndex, threadIndex, work, nint)
  {
    ghost var lp := F11Loops(pl, n);
    taskIndex, threadIndex, work, nint := taskIndex0, threadIndex0, work0, nint0;
    if pl.inP2(PairIndex(i, j)) {
      PairSlice(lp, i, j);
      SliceOfSlice(all, RowTasks(lp, i), T0, |JRun(lp, i, j)|, |JRun(lp, i, j + 1)|);
      taskIndex, threadIndex, work, nint :=
        RunPair(pl, ints, sc, all, r, i, j, taskIndex, threadIndex, work, nint);
    } else {
      PairSkipped(lp, i, j);
    }
  }

  /** The j loop of run() for one shell i with in_p1(i): tasks of row
      i, which sit at positions T0 onwards of the list of tasks. */
  method RunRow(pl: PetiteList, ints: Integrals, sc: Screen, n: nat, ghost all: seq<Task>, r: Rank, i: nat,
                taskIndex0: nat, threadIndex0: nat, work0: seq<Dispatch>, nint0: nat)
    returns (taskIndex: nat, threadIndex: nat, work: seq<Dispatch>, nint: nat)
    requires r.nproc > 0 && r.nthread > 0 && Tri(n) <= |sc.pmax|
    requires i < n && pl.inP1(i)
    requires taskIndex0 + |RowTasks(F11Loops(pl, n), i)| <= |all|
    requires all[taskIndex0..taskIndex0 + |RowTasks(F11Loops(pl, n), i)|] == RowTasks(F11Loops(pl, n), i)
    requires RunState(pl, ints, sc, all, r, taskIndex0, threadIndex0, work0, nint0)
    ensures taskIndex == taskIndex0 + |RowTasks(F11Loops(pl, n), i)|
    ensures RunState(pl, ints, sc, all, r, taskIndex, threadIndex, work, nint)
  {
    ghost var lp := F11Loops(pl, n);
    taskIndex, threadIndex, work, nint := taskIndex0, threadIndex0, work0, nint0;
    TriMonotone(i + 1, n);
    var j := 0;
    while j <= i
      invariant j <= i + 1
      invariant taskIndex == taskIndex0 + |JRun(lp, i, j)|
      invariant RunState(pl, ints, sc, all, r, taskIndex, threadIndex, work, nint)
    {
      taskIndex, threadIndex, work, nint :=
        RunRowStep(pl, ints, sc, n, all, r, i, j, taskIndex0, taskIndex, threadIndex, work, nint);
      j := j + 1;
    }
    assert RowTasks(lp, i) == JRun(lp, i, j);
  }

  /** FockBuildThread_F11_P11::run for thread r.threadnum of process r.me:
      the dispatches of exactly those tasks it owns, in loop order, and the
      number of integrals they cover. */
  method Run(pl: PetiteList, ints: Integrals, sc: Screen, n: nat, r: Rank)
    returns (work: seq<Dispatch>, nint: nat)
    requires r.nproc > 0 && r.nthread > 0 && Tri(n) <= |sc.pmax|
    ensures work == F11ThreadWork(pl, ints, sc, n, r)
    ensures nint == IntegralCount(work, ints.nfun)
  {
    ghost var lp := F11Loops(pl, n);
    ghost var all := Tasks(lp);
    var taskIndex: nat := 0;
    var threadIndex: nat := 0;
    work, nint := [], 0;
    var i := 0;
    while i < n
      invariant i <= n
      invariant taskIndex == |IRun(lp, i)|
      invariant RunState(pl, ints, sc, all, r, taskIndex, threadIndex, work, nint)
    {
      RowSlice(lp, i);
      if pl.inP1(i) {
        taskIndex, threadIndex, work, nint := RunRow(pl, ints, sc, n, all, r, i, taskIndex, threadIndex, work, nint);
      }
      i := i + 1;
    }
  }

  lemma {:induction false} QuartetWorkMembers(pl: PetiteList, ints: Integrals, sc: Screen, t: Task, l: nat, x: Dispatch)
    ensures x in QuartetWork(pl, ints, sc, t, l) <==>
      Survives(pl, ints, sc, t.i, t.j, t.k, l) && x == F11Dispatch(pl, t.i, t.j, t.k, l)
  {
    if Survives(pl, ints, sc, t.i, t.j, t.k, l) {
      assert QuartetWork(pl, ints, sc, t, l)[0] == F11Dispatch(pl, t.i, t.j, t.k, l);
    }
  }

  lemma {:induction false} LWorkMembers(pl: PetiteList, ints: Integrals, sc: Screen, t: Task, m: nat, x: Dispatch)
    ensures x in LWork(pl, ints, sc, t, m) <==>
      x.i == t.i && x.j == t.j && x.k == t.k && x.l < m &&
      Survives(pl, ints, sc, x.i, x.j, x.k, x.l) && x == F11Dispatch(pl, x.i, x.j, x.k, x.l)
  {
    if m > 0 {
      LWorkMembers(pl, ints, sc, t, m - 1, x);
      QuartetWorkMembers(pl, ints, sc, t, m - 1, x);
    }
  }

  /** A task dispatches exactly its surviving quartets (i, j, k, l) with
      l <= (k == i ? j : k), each with its in_p4 scale and its class. */
  lemma {:induction false} TaskWorkMembers(pl: PetiteList, ints: Integrals, sc: Screen, t: Task, x: Dispatch)
    ensures x in TaskWork(pl, ints, sc, t) <==>
      x.i == t.i && x.j == t.j && x.k == t.k && x.l <= LEnd(t) &&
      Survives(pl, ints, sc, x.i, x.j, x.k, x.l) && x == F11Dispatch(pl, x.i, x.j, x.k, x.l)
  {
    LWorkMembers(pl, ints, sc, t, LEnd(t) + 1, x);
  }

  lemma {:induction false} F11WorkMembers(pl: PetiteList, ints: Integrals, sc: Screen, ts: seq<Task>, x: Dispatch)
    ensures x in F11Work(pl, ints, sc, ts) <==> exists t :: t in ts && x in TaskWork(pl, ints, sc, t)
  {
    if ts != [] {
      F11WorkMembers(pl, ints, sc, ts[..|ts| - 1], x);
      assert ts == ts[..|ts| - 1] + [ts[|ts| - 1]];
    }
  }

  /** Which task of thread r dispatched x, if x is in its work. */
  lemma {:induction false} ThreadWorkTask(pl: PetiteList, ints: Integrals, sc: Screen, n: nat, r: Rank, x: Dispatch)
    requires r.nproc > 0 && r.nthread > 0
    ensures x in F11ThreadWork(pl, ints, sc, n, r) <==>
      Task(x.i, x.j, x.k) in Selected(Tasks(F11Loops(pl, n)), |Tasks(F11Loops(pl, n))|, RoundRobin, r) &&
      x.l <= LEnd(Task(x.i, x.j, x.k)) &&
      Survives(pl, ints, sc, x.i, x.j, x.k, x.l) && x == F11Dispatch(pl, x.i, x.j, x.k, x.l)
  {
    var ts := Tasks(F11Loops(pl, n));
    var sel := Selected(ts, |ts|, RoundRobin, r);
    F11WorkMembers(pl, ints, sc, sel, x);
    TaskWorkMembers(pl, ints, sc, Task(x.i, x.j, x.k), x);
    if x in F11Work(pl, ints, sc, sel) {
      var t :| t in sel && x in TaskWork(pl, ints, sc, t);
      TaskWorkMembers(pl, ints, sc, t, x);
      assert t == Task(x.i, x.j, x.k);
    }
  }

  /** Across all processes and threads, the quartet (i, j, k, l) is
      dispatched iff it is canonical, its shell i passes in_p1, its pair ij
      passes in_p2, and it survives in_p4 and the screening bound; and
      then by exactly one thread of exactly one process. */
  lemma {:induction false} DispatchedExactlyOnce(pl: PetiteList, ints: Integrals, sc: Screen, n: nat, r: Rank,
                              i: nat, j: nat, k: nat, l: nat)
    requires r.nproc > 0 && r.nthread > 0
    ensures (exists me: nat, th: nat :: me < r.nproc && th < r.nthread &&
               F11Dispatch(pl, i, j, k, l) in F11ThreadWork(pl, ints, sc, n, Team(r, me, th))) <==>
            (i < n && pl.inP1(i) && pl.inP2(PairIndex(i, j)) && Canonical(i, j, k, l) &&
             Survives(pl, ints, sc, i, j, k, l))
    ensures forall me1: nat, th1: nat, me2: nat, th2: nat ::
      (F11Dispatch(pl, i, j, k, l) in F11ThreadWork(pl, ints, sc, n, Team(r, me1, th1)) &&
       F11Dispatch(pl, i, j, k, l) in F11ThreadWork(pl, ints, sc, n, Team(r, me2, th2))) ==>
      me1 == me2 && th1 == th2
  {
    var lp := F11Loops(pl, n);
    var ts := Tasks(lp);
    var x := F11Dispatch(pl, i, j, k, l);
    var t := Task(i, j, k);
    TasksExactlyOnce(lp);
    if InLoops(lp, t) {
      TaskRunsExactlyOnce(lp, RoundRobin, r, t);
    }
    if exists me: nat, th: nat :: me < r.nproc && th < r.nthread && x in F11ThreadWork(pl, ints, sc, n, Team(r, me, th)) {
      var me: nat, th: nat :| me < r.nproc && th < r.nthread && x in F11ThreadWork(pl, ints, sc, n, Team(r, me, th));
      ThreadWorkTask(pl, ints, sc, n, Team(r, me, th), x);
      SelectedMembers(ts, |ts|, RoundRobin, Team(r, me, th), t);
    }
    if i < n && pl.inP1(i) && pl.inP2(PairIndex(i, j)) && Canonical(i, j, k, l) && Survives(pl, ints, sc, i, j, k, l) {
      var me: nat, th: nat :| me < r.nproc && th < r.nthread && t in Selected(ts, |ts|, RoundRobin, Team(r, me, th));
      ThreadWorkTask(pl, ints, sc, n, Team(r, me, th), x);
    }
    forall me1: nat, th1: nat, me2: nat, th2: nat |
      x in F11ThreadWork(pl, ints, sc, n, Team(r, me1, th1)) && x in F11ThreadWork(pl, ints, sc, n, Team(r, me2, th2))
      ensures me1 == me2 && th1 == th2
    {
      ThreadWorkTask(pl, ints, sc, n, Team(r, me1, th1), x);
      ThreadWorkTask(pl, ints, sc, n, Team(r, me2, th2), x);
      SelectedMembers(ts, |ts|, RoundRobin, Team(r, me1, th1), t);
    }
  }
}
