/** FockBuildThread_F12_P33 (fockbuild.cc): the two-pass scheduler used when
    the Fock basis sets or the density basis differ. run_J walks (I, J, K)
    with J restricted to J <= I when the first two basis sets are
    equivalent, and dispatches contrib_p34_J or contrib_e_J for every
    L <= K; run_K walks (I, J, K) with K <= I under the same test and
    dispatches contrib_e_K for every L. run_K never advances task_index,
    so all of its tasks belong to process 0. */
module FockScheduleF12 {
  import opened FockTasks
  import opened FockSchedule

  /** The shell counts of basis1_, basis2_ and basis3_, and whether
      basis1_->equiv(basis2_). */
  datatype Bases = Bases(nshell1: nat, nshell2: nat, nshell3: nat, equiv12: bool)

  /** Jfence of run_J and Kfence of run_K: shells up to I when basis1 and
      basis2 are equivalent, all of basis2 otherwise. */
  function Fence(b: Bases): Bound
  {
    if b.equiv12 then ThroughI else UpTo(b.nshell2)
  }

  /** run_J's tasks: I < nshell1, J < Jfence(I), K < nshell3. */
  function JLoops(b: Bases): Loops
  {
    Loops(b.nshell1, AllRows, Fence(b), AllPairs, UpTo(b.nshell3))
  }

  /** run_K's tasks: I < nshell1, J < nshell3, K < Kfence(I). */
  function KLoops(b: Bases): Loops
  {
    Loops(b.nshell1, AllRows, UpTo(b.nshell3), AllPairs, Fence(b))
  }

  /** The J pass dispatch of quartet (I, J, K, L): contrib_p34_J off the
      K == L diagonal, contrib_e_J on it, both with scale 1. */
  function JDispatch(t: Task, l: nat): Dispatch
  {
    Dispatch(t.i, t.j, t.k, l, 1, if t.k != l then P34 else E)
  }

  /** The K pass dispatch of quartet (I, J, K, L): always contrib_e_K. */
  function KDispatch(t: Task, l: nat): Dispatch
  {
    Dispatch(t.i, t.j, t.k, l, 1, E)
  }

  function PassDispatch(isK: bool, t: Task, l: nat): Dispatch
  {
    if isK then KDispatch(t, l) else JDispatch(t, l)
  }

  /** The dispatches of one task for L < m. */
  ghost function PassL(isK: bool, t: Task, m: nat): seq<Dispatch>
  {
    if m == 0 then []
    else PassL(isK, t, m - 1) + [PassDispatch(isK, t, m - 1)]
  }

  /** The L range of a task: L <= K in the J pass, L < nshell3 in the K pass. */
  function LCount(isK: bool, b: Bases, t: Task): nat
  {
    if isK then b.nshell3 else t.k + 1
  }

  ghost function PassTaskWork(isK: bool, b: Bases, t: Task): seq<Dispatch>
  {
    PassL(isK, t, LCount(isK, b, t))
  }

  ghost function PassWork(isK: bool, b: Bases, ts: seq<Task>): seq<Dispatch>
  {
    if ts == [] then []
    else PassWork(isK, b, ts[..|ts| - 1]) + PassTaskWork(isK, b, ts[|ts| - 1])
  }

  function PassLoops(isK: bool, b: Bases): Loops
  {
    if isK then KLoops(b) else JLoops(b)
  }

  function PassPolicy(isK: bool): Policy
  {
    if isK then RankZero else RoundRobin
  }

  /** The dispatches of one thread in one pass. */
  ghost function PassThreadWork(isK: bool, b: Bases, r: Rank): seq<Dispatch>
    requires r.nproc > 0 && r.nthread > 0
  {
    var ts := Tasks(PassLoops(isK, b));
    PassWork(isK, b, Selected(ts, |ts|, PassPolicy(isK), r))
  }

  ghost predicate PassState(isK: bool, b: Bases, r: Rank, pos: nat, threadIndex: nat, work: seq<Dispatch>)
    requires r.nproc > 0 && r.nthread > 0
  {
    var all := Tasks(PassLoops(isK, b));
    pos <= |all| &&
    threadIndex == (if isK then (if 0 % r.nproc == r.me then pos else 0) else MyCount(pos, r.me, r.nproc)) &&
    work == PassWork(isK, b, Selected(all, pos, PassPolicy(isK), r))
  }

  lemma {:induction false} PassWorkSnoc(isK: bool, b: Bases, ts: seq<Task>, t: Task)
    ensures PassWork(isK, b, ts + [t]) == PassWork(isK, b, ts) + PassTaskWork(isK, b, t)
  {
    assert (ts + [t])[..|ts|] == ts;
  }

  lemma {:induction false} PassSelectStep(isK: bool, b: Bases, all: seq<Task>, T: nat, r: Rank)
    requires r.nproc > 0 && r.nthread > 0 && T < |all|
    ensures Owns(PassPolicy(isK), r, T) ==>
      (PassWork(isK, b, Selected(all, T + 1, PassPolicy(isK), r)) ==
       PassWork(isK, b, Selected(all, T, PassPolicy(isK), r)) + PassTaskWork(isK, b, all[T]))
    ensures !Owns(PassPolicy(isK), r, T) ==>
      (PassWork(isK, b, Selected(all, T + 1, PassPolicy(isK), r)) ==
       PassWork(isK, b, Selected(all, T, PassPolicy(isK), r)))
  {
    var pre := Selected(all, T, PassPolicy(isK), r);
    if Owns(PassPolicy(isK), r, T) {
      assert Selected(all, T + 1, PassPolicy(isK), r) == pre + [all[T]];
      PassWorkSnoc(isK, b, pre, all[T]);
    } else {
      assert Selected(all, T + 1, PassPolicy(isK), r) == pre;
    }
  }

  /** The L loop of one run_J task. */
  method JTask(b: Bases, I: nat, J: nat, K: nat) returns (work: seq<Dispatch>)
    ensures work == PassTaskWork(false, b, Task(I, J, K))
  {
    work := [];
    var L := 0;
    while L <= K
      invariant L <= K + 1
      invariant work == PassL(false, Task(I, J, K), L)
    {
      if K != L {
        work := work + [Dispatch(I, J, K, L, 1, P34)];
      } else {
        work := work + [Dispatch(I, J, K, L, 1, E)];
      }
      L := L + 1;
    }
  }

  /** The L loop of one run_K task. */
  method KTask(b: Bases, I: nat, J: nat, K: nat) returns (work: seq<Dispatch>)
    ensures work == PassTaskWork(true, b, Task(I, J, K))
  {
    work := [];
    var L := 0;
    while L < b.nshell3
      invariant L <= b.nshell3
      invariant work == PassL(true, Task(I, J, K), L)
    {
      work := work + [Dispatch(I, J, K, L, 1, E)];
      L := L + 1;
    }
  }

  /** One iteration of run_J's K loop: the round-robin ownership tests and,
      for an owned task, its L loop. */
  method JOne(b: Bases, r: Rank, I: nat, J: nat, K: nat,
              taskIndex: nat, threadIndex0: nat, work0: seq<Dispatch>)
    returns (threadIndex: nat, work: seq<Dispatch>)
    requires r.nproc > 0 && r.nthread > 0
    requires taskIndex < |Tasks(JLoops(b))| && Tasks(JLoops(b))[taskIndex] == Task(I, J, K)
    requires PassState(false, b, r, taskIndex, threadIndex0, work0)
    ensures PassState(false, b, r, taskIndex + 1, threadIndex, work)
  {
    threadIndex, work := threadIndex0, work0;
    PassSelectStep(false, b, Tasks(JLoops(b)), taskIndex, r);
    if taskIndex % r.nproc == r.me {
      threadIndex := threadIndex + 1;
      if threadIndex % r.nthread == r.threadnum {
        var w := JTask(b, I, J, K);
        work := work + w;
      }
    }
  }

  /** run_J's K loop for one (I, J). */
  method JPair(b: Bases, r: Rank, I: nat, J: nat, taskIndex0: nat, threadIndex0: nat, work0: seq<Dispatch>)
    returns (taskIndex: nat, threadIndex: nat, work: seq<Dispatch>)
    requires r.nproc > 0 && r.nthread > 0
    requires I < b.nshell1 && J < (if b.equiv12 then I + 1 else b.nshell2)
    requires taskIndex0 == Offset(JLoops(b), I, J, 0)
    requires PassState(false, b, r, taskIndex0, threadIndex0, work0)
    ensures taskIndex == |IRun(JLoops(b), I)| + |JRun(JLoops(b), I, J + 1)|
    ensures PassState(false, b, r, taskIndex, threadIndex, work)
  {
    ghost var lp := JLoops(b);
    taskIndex, threadIndex, work := taskIndex0, threadIndex0, work0;
    var K := 0;
    while K < b.nshell3
      invariant K <= b.nshell3
      invariant taskIndex == Offset(lp, I, J, K)
      invariant PassState(false, b, r, taskIndex, threadIndex, work)
    {
      TaskAt(lp, I, J, K);
      threadIndex, work := JOne(b, r, I, J, K, taskIndex, threadIndex, work);
      K := K + 1;
      taskIndex := taskIndex + 1;
    }
    assert KeepJ(lp, I, J) && NK(lp, I, J) == b.nshell3;
    PairDone(lp, I, J);
  }

  /** run_J's J loop for one I: J < I + 1 when basis1 and basis2 are
      equivalent (only the lower triangle of J is needed), J < nshell2
      otherwise. */
  method JRow(b: Bases, r: Rank, I: nat, taskIndex0: nat, threadIndex0: nat, work0: seq<Dispatch>)
    returns (taskIndex: nat, threadIndex: nat, work: seq<Dispatch>)
    requires r.nproc > 0 && r.nthread > 0 && I < b.nshell1
    requires taskIndex0 == |IRun(JLoops(b), I)|
    requires PassState(false, b, r, taskIndex0, threadIndex0, work0)
    ensures taskIndex == |IRun(JLoops(b), I + 1)|
    ensures PassState(false, b, r, taskIndex, threadIndex, work)
  {
    ghost var lp := JLoops(b);
    taskIndex, threadIndex, work := taskIndex0, threadIndex0, work0;
    var Jfence := if b.equiv12 then I + 1 else b.nshell2;
    RowDone(lp, I);
    var J := 0;
    while J < Jfence
      invariant J <= Jfence
      invariant taskIndex == |IRun(lp, I)| + |JRun(lp, I, J)|
      invariant PassState(false, b, r, taskIndex, threadIndex, work)
    {
      taskIndex, threadIndex, work := JPair(b, r, I, J, taskIndex, threadIndex, work);
      J := J + 1;
    }
    assert KeepI(lp, I) && NJ(lp, I) == Jfence;
  }

  /** FockBuildThread_F12_P33::run_J for thread r.threadnum of process r.me. */
  method RunJ(b: Bases, r: Rank) returns (work: seq<Dispatch>)
    requires r.nproc > 0 && r.nthread > 0
    ensures work == PassThreadWork(false, b, r)
  {
    ghost var lp := JLoops(b);
    var taskIndex: nat := 0;
    var threadIndex: nat := 0;
    work := [];
    var I := 0;
    while I < b.nshell1
      invariant I <= b.nshell1
      invariant taskIndex == |IRun(lp, I)|
      invariant PassState(false, b, r, taskIndex, threadIndex, work)
    {
      taskIndex, threadIndex, work := JRow(b, r, I, taskIndex, threadIndex, work);
      I := I + 1;
    }
  }

  /** One iteration of run_K's K loop. task_index is still 0 here, so the
      process test passes only on process 0, where every task advances
      thread_index. */
  method KOne(b: Bases, r: Rank, I: nat, J: nat, K: nat, taskIndex: nat,
              ghost pos: nat, threadIndex0: nat, work0: seq<Dispatch>)
    returns (threadIndex: nat, work: seq<Dispatch>)
    requires r.nproc > 0 && r.nthread > 0 && taskIndex == 0
    requires pos < |Tasks(KLoops(b))| && Tasks(KLoops(b))[pos] == Task(I, J, K)
    requires PassState(true, b, r, pos, threadIndex0, work0)
    ensures PassState(true, b, r, pos + 1, threadIndex, work)
  {
    threadIndex, work := threadIndex0, work0;
    PassSelectStep(true, b, Tasks(KLoops(b)), pos, r);
    if taskIndex % r.nproc == r.me {
      threadIndex := threadIndex + 1;
      if threadIndex % r.nthread == r.threadnum {
        var w := KTask(b, I, J, K);
        work := work + w;
      }
    }
  }

  /** run_K's K loop for one (I, J): K < I + 1 when basis1 and basis2 are
      equivalent, K < nshell2 otherwise. task_index is not advanced. */
  method KPair(b: Bases, r: Rank, I: nat, J: nat, taskIndex: nat, ghost pos0: nat,
               threadIndex0: nat, work0: seq<Dispatch>)
    returns (ghost pos: nat, threadIndex: nat, work: seq<Dispatch>)
    requires r.nproc > 0 && r.nthread > 0 && taskIndex == 0
    requires I < b.nshell1 && J < b.nshell3
    requires pos0 == Offset(KLoops(b), I, J, 0)
    requires PassState(true, b, r, pos0, threadIndex0, work0)
    ensures pos == |IRun(KLoops(b), I)| + |JRun(KLoops(b), I, J + 1)|
    ensures PassState(true, b, r, pos, threadIndex, work)
  {
    ghost var lp := KLoops(b);
    pos, threadIndex, work := pos0, threadIndex0, work0;
    var Kfence := if b.equiv12 then I + 1 else b.nshell2;
    var K := 0;
    while K < Kfence
      invariant K <= Kfence
      invariant pos == Offset(lp, I, J, K)
      invariant PassState(true, b, r, pos, threadIndex, work)
    {
      TaskAt(lp, I, J, K);
      threadIndex, work := KOne(b, r, I, J, K, taskIndex, pos, threadIndex, work);
      K := K + 1;
      pos := pos + 1;
    }
    assert KeepJ(lp, I, J) && NK(lp, I, J) == Kfence;
    PairDone(lp, I, J);
  }

  /** run_K's J loop for one I: J < nshell3. */
  method KRow(b: Bases, r: Rank, I: nat, taskIndex: nat, ghost pos0: nat,
              threadIndex0: nat, work0: seq<Dispatch>)
    returns (ghost pos: nat, threadIndex: nat, work: seq<Dispatch>)
    requires r.nproc > 0 && r.nthread > 0 && taskIndex == 0 && I < b.nshell1
    requires pos0 == |IRun(KLoops(b), I)|
    requires PassState(true, b, r, pos0, threadIndex0, work0)
    ensures pos == |IRun(KLoops(b), I + 1)|
    ensures PassState(true, b, r, pos, threadIndex, work)
  {
    ghost var lp := KLoops(b);
    pos, threadIndex, work := pos0, threadIndex0, work0;
    RowDone(lp, I);
    var J := 0;
    while J < b.nshell3
      invariant J <= b.nshell3
      invariant pos == |IRun(lp, I)| + |JRun(lp, I, J)|
      invariant PassState(true, b, r, pos, threadIndex, work)
    {
      pos, threadIndex, work := KPair(b, r, I, J, taskIndex, pos, threadIndex, work);
      J := J + 1;
    }
    assert KeepI(lp, I) && NJ(lp, I) == b.nshell3;
  }

  /** FockBuildThread_F12_P33::run_K for thread r.threadnum of process r.me.
      The ghost `pos` is the position in the list of tasks, which the source
      does not keep: its task_index stays 0. */
  method RunK(b: Bases, r: Rank) returns (work: seq<Dispatch>)
    requires r.nproc > 0 && r.nthread > 0
    ensures work == PassThreadWork(true, b, r)
  {
    ghost var lp := KLoops(b);
    ghost var pos: nat := 0;
    var taskIndex: nat := 0;
    var threadIndex: nat := 0;
    work := [];
    var I := 0;
    while I < b.nshell1
      invariant I <= b.nshell1
      invariant pos == |IRun(lp, I)|
      invariant PassState(true, b, r, pos, threadIndex, work)
    {
      pos, threadIndex, work := KRow(b, r, I, taskIndex, pos, threadIndex, work);
      I := I + 1;
    }
  }

  /** FockBuildThread_F12_P33::run: the J pass, then the K pass. */
  method Run(b: Bases, r: Rank) returns (jwork: seq<Dispatch>, kwork: seq<Dispatch>)
    requires r.nproc > 0 && r.nthread > 0
    ensures jwork == PassThreadWork(false, b, r)
    ensures kwork == PassThreadWork(true, b, r)
  {
    jwork := RunJ(b, r);
    kwork := RunK(b, r);
  }

  lemma {:induction false} PassLMembers(isK: bool, t: Task, m: nat, x: Dispatch)
    ensures x in PassL(isK, t, m) <==> x.l < m && x == PassDispatch(isK, t, x.l)
  {
    if m > 0 {
      PassLMembers(isK, t, m - 1, x);
    }
  }

  lemma {:induction false} PassWorkMembers(isK: bool, b: Bases, ts: seq<Task>, x: Dispatch)
    ensures x in PassWork(isK, b, ts) <==> exists t :: t in ts && x in PassTaskWork(isK, b, t)
  {
    if ts != [] {
      PassWorkMembers(isK, b, ts[..|ts| - 1], x);
      assert ts == ts[..|ts| - 1] + [ts[|ts| - 1]];
    }
  }

  /** Which task of thread r dispatched x in one pass, if x is in its work. */
  lemma {:induction false} PassThreadWorkTask(isK: bool, b: Bases, r: Rank, x: Dispatch)
    requires r.nproc > 0 && r.nthread > 0
    ensures x in PassThreadWork(isK, b, r) <==>
      Task(x.i, x.j, x.k) in Selected(Tasks(PassLoops(isK, b)), |Tasks(PassLoops(isK, b))|, PassPolicy(isK), r) &&
      x.l < LCount(isK, b, Task(x.i, x.j, x.k)) && x == PassDispatch(isK, Task(x.i, x.j, x.k), x.l)
  {
    var ts := Tasks(PassLoops(isK, b));
    var sel := Selected(ts, |ts|, PassPolicy(isK), r);
    var t0 := Task(x.i, x.j, x.k);
    PassWorkMembers(isK, b, sel, x);
    PassLMembers(isK, t0, LCount(isK, b, t0), x);
    if x in PassWork(isK, b, sel) {
      var t :| t in sel && x in PassTaskWork(isK, b, t);
      PassLMembers(isK, t, LCount(isK, b, t), x);
      assert t == t0;
    }
  }

  /** Across all processes and threads, quartet (I, J, K, L) is dispatched
      in a pass iff (I, J, K) is one of the pass's loop iterations and L
      is in its L range (L <= K for run_J, L < nshell3 for run_K); and then
      by exactly one thread of exactly one process. */
  lemma {:induction false} PassDispatchedExactlyOnce(isK: bool, b: Bases, r: Rank, t: Task, l: nat)
    requires r.nproc > 0 && r.nthread > 0
    ensures (exists me: nat, th: nat :: me < r.nproc && th < r.nthread &&
               PassDispatch(isK, t, l) in PassThreadWork(isK, b, Team(r, me, th))) <==>
            (InLoops(PassLoops(isK, b), t) && l < LCount(isK, b, t))
    ensures forall me1: nat, th1: nat, me2: nat, th2: nat ::
      (PassDispatch(isK, t, l) in PassThreadWork(isK, b, Team(r, me1, th1)) &&
       PassDispatch(isK, t, l) in PassThreadWork(isK, b, Team(r, me2, th2))) ==>
      me1 == me2 && th1 == th2
  {
    var lp := PassLoops(isK, b);
    var ts := Tasks(lp);
    var p := PassPolicy(isK);
    var x := PassDispatch(isK, t, l);
    assert Task(x.i, x.j, x.k) == t && x.l == l;
    TasksExactlyOnce(lp);
    if InLoops(lp, t) {
      TaskRunsExactlyOnce(lp, p, r, t);
    }
    if exists me: nat, th: nat :: me < r.nproc && th < r.nthread && x in PassThreadWork(isK, b, Team(r, me, th)) {
      var me: nat, th: nat :| me < r.nproc && th < r.nthread && x in PassThreadWork(isK, b, Team(r, me, th));
      PassThreadWorkTask(isK, b, Team(r, me, th), x);
      SelectedMembers(ts, |ts|, p, Team(r, me, th), t);
    }
    if InLoops(lp, t) && l < LCount(isK, b, t) {
      var me: nat, th: nat :| me < r.nproc && th < r.nthread && t in Selected(ts, |ts|, p, Team(r, me, th));
      PassThreadWorkTask(isK, b, Team(r, me, th), x);
    }
    forall me1: nat, th1: nat, me2: nat, th2: nat |
      x in PassThreadWork(isK, b, Team(r, me1, th1)) && x in PassThreadWork(isK, b, Team(r, me2, th2))
      ensures me1 == me2 && th1 == th2
    {
      PassThreadWorkTask(isK, b, Team(r, me1, th1), x);
      PassThreadWorkTask(isK, b, Team(r, me2, th2), x);
      SelectedMembers(ts, |ts|, p, Team(r, me1, th1), t);
      SelectedMembers(ts, |ts|, p, Team(r, me2, th2), t);
      var t1 :| 0 <= t1 < |ts| && ts[t1] == t && Owns(p, Team(r, me1, th1), t1);
      TaskRunsExactlyOnce(lp, p, r, t);
    }
  }

  /** Because run_K never advances task_index, a process other than 0 does
      no K-pass work at all. */
  lemma {:induction false} KPassOnlyOnRankZero(b: Bases, r: Rank)
    requires r.nproc > 0 && r.nthread > 0 && r.me != 0
    ensures PassThreadWork(true, b, r) == []
  {
    var ts := Tasks(PassLoops(true, b));
    SelectedNone(ts, |ts|, RankZero, r);
  }
}
