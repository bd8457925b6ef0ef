/** Tasks of the Fock-build schedulers (fockbuild.cc): the triple loop
    over shell indices (i, j, k) whose k-loop iterations are its tasks, and
    the deterministic assignment of task indices to processes and threads
    by the counters task_index and thread_index. */
module FockTasks {
  import opened ShellLayout

  /** One task: the fixed (i, j, k) of one iteration of the k loop. */
  datatype Task = Task(i: nat, j: nat, k: nat)

  /** The bound of an inner loop: a constant shell count, or i + 1 for a
      loop over the shells up to the current i. */
  datatype Bound = UpTo(c: nat) | ThroughI

  /** The filter of the i loop: none, or a predicate on the shell. */
  datatype RowFilter = AllRows | Rows(keep: nat -> bool)

  /** The filter of the j loop: none, or a predicate on the canonical pair
      index of (i, j). */
  datatype PairFilter = AllPairs | Pairs(keep: nat -> bool)

  /** The bounds and filters of a triple loop
        for i < ni: if KeepI(i): for j < NJ(i): if KeepJ(i, j): for k < NK(i, j).
      Every task of the loop nest is one (i, j, k) reaching the k-loop body. */
  datatype Loops = Loops(ni: nat, rows: RowFilter, jb: Bound, pairs: PairFilter, kb: Bound)

  function Limit(b: Bound, i: nat): nat
  {
    match b
    case UpTo(c) => c
    case ThroughI => i + 1
  }

  function KeepI(lp: Loops, i: nat): bool
  {
    match lp.rows
    case AllRows => true
    case Rows(keep) => keep(i)
  }

  function NJ(lp: Loops, i: nat): nat
  {
    Limit(lp.jb, i)
  }

  function KeepJ(lp: Loops, i: nat, j: nat): bool
  {
    match lp.pairs
    case AllPairs => true
    case Pairs(keep) => keep(PairIndex(i, j))
  }

  function NK(lp: Loops, i: nat, j: nat): nat
  {
    Limit(lp.kb, i)
  }

  /** Tasks (i, j, 0), ..., (i, j, m - 1), in loop order. */
  function KRun(i: nat, j: nat, m: nat): (r: seq<Task>)
    ensures |r| == m
  {
    seq(m, (k: nat) => Task(i, j, k))
  }

  /** Tasks of the j loop of row i for j < m, in loop order. */
  function JRun(lp: Loops, i: nat, m: nat): seq<Task>
  {
    if m == 0 then []
    else JRun(lp, i, m - 1) + PairTasks(lp, i, m - 1)
  }

  /** Tasks of the loop nest for i < m, in loop order. */
  function IRun(lp: Loops, m: nat): seq<Task>
  {
    if m == 0 then []
    else IRun(lp, m - 1) + RowTasks(lp, m - 1)
  }

  /** Every task of the loop nest, in the order the loops visit them. */
  function Tasks(lp: Loops): seq<Task>
  {
    IRun(lp, lp.ni)
  }

  /** (i, j, k) is visited by the loop nest. */
  ghost predicate InLoops(lp: Loops, t: Task)
  {
    t.i < lp.ni && KeepI(lp, t.i) && t.j < NJ(lp, t.i) && KeepJ(lp, t.i, t.j) && t.k < NK(lp, t.i, t.j)
  }

  ghost predicate NoDup(s: seq<Task>)
  {
    forall a, b :: 0 <= a < b < |s| ==> s[a] != s[b]
  }

  lemma {:induction false} NoDupAppend(s: seq<Task>, t: seq<Task>)
    requires NoDup(s) && NoDup(t)
    requires forall x :: x in s ==> x !in t
    ensures NoDup(s + t)
  {
    forall a, b | 0 <= a < b < |s + t|
      ensures (s + t)[a] != (s + t)[b]
    {
      if b < |s| {
        assert (s + t)[a] == s[a] && (s + t)[b] == s[b];
      } else if a >= |s| {
        assert (s + t)[a] == t[a - |s|] && (s + t)[b] == t[b - |s|];
      } else {
        assert (s + t)[a] == s[a] && (s + t)[b] == t[b - |s|];
        assert s[a] in s;
      }
    }
  }

  lemma {:induction false} KRunMembers(i: nat, j: nat, m: nat, x: Task)
    ensures x in KRun(i, j, m) <==> x.i == i && x.j == j && x.k < m
  {
    if x.i == i && x.j == j && x.k < m {
      assert KRun(i, j, m)[x.k] == x;
    }
  }

  /** The number of k-loop iterations of pair (i, j): none when the
      filter skips the pair. */
  function PairLen(lp: Loops, i: nat, j: nat): nat
  {
    if KeepJ(lp, i, j) then NK(lp, i, j) else 0
  }

  /** What pair (i, j) adds to the j loop of row i. */
  function PairTasks(lp: Loops, i: nat, j: nat): seq<Task>
  {
    KRun(i, j, PairLen(lp, i, j))
  }

  lemma {:induction false} JRunMembers(lp: Loops, i: nat, m: nat, x: Task)
    ensures x in JRun(lp, i, m) <==>
      x.i == i && x.j < m && KeepJ(lp, i, x.j) && x.k < NK(lp, i, x.j)
  {
    if m > 0 {
      JRunMembers(lp, i, m - 1, x);
      KRunMembers(i, m - 1, NK(lp, i, m - 1), x);
      assert JRun(lp, i, m) == JRun(lp, i, m - 1) + PairTasks(lp, i, m - 1);
    }
  }

  lemma {:induction false} JRunNoDup(lp: Loops, i: nat, m: nat)
    ensures NoDup(JRun(lp, i, m))
  {
    if m > 0 {
      JRunNoDup(lp, i, m - 1);
      var tail := PairTasks(lp, i, m - 1);
      forall x | x in JRun(lp, i, m - 1)
        ensures x !in tail
      {
        JRunMembers(lp, i, m - 1, x);
        KRunMembers(i, m - 1, NK(lp, i, m - 1), x);
      }
      assert JRun(lp, i, m) == JRun(lp, i, m - 1) + tail;
      NoDupAppend(JRun(lp, i, m - 1), tail);
    }
  }

  /** The number of j-loop iterations of row i: none when the filter
      skips the row. */
  function RowLen(lp: Loops, i: nat): nat
  {
    if KeepI(lp, i) then NJ(lp, i) else 0
  }

  /** What row i adds to the loop nest. */
  function RowTasks(lp: Loops, i: nat): seq<Task>
  {
    JRun(lp, i, RowLen(lp, i))
  }

  /** x is a task of row x.i of the loop nest. */
  ghost predicate InRow(lp: Loops, x: Task)
  {
    KeepI(lp, x.i) && x.j < NJ(lp, x.i) && KeepJ(lp, x.i, x.j) && x.k < NK(lp, x.i, x.j)
  }

  lemma {:induction false} RowSound(lp: Loops, i: nat, x: Task)
    ensures x in RowTasks(lp, i) ==> x.i == i && InRow(lp, x)
  {
    if KeepI(lp, i) {
      JRunMembers(lp, i, NJ(lp, i), x);
    }
  }

  lemma {:induction false} SoundStep(lp: Loops, a: seq<Task>, row: seq<Task>, i: nat, x: Task)
    requires x in a ==> x.i < i && InRow(lp, x)
    requires x in row ==> x.i == i && InRow(lp, x)
    ensures x in a + row ==> x.i < i + 1 && InRow(lp, x)
  {
  }

  lemma {:induction false} IRunSound(lp: Loops, m: nat, x: Task)
    ensures x in IRun(lp, m) ==> x.i < m && InRow(lp, x)
  {
    if m > 0 {
      IRunSound(lp, m - 1, x);
      RowSound(lp, m - 1, x);
      SoundStep(lp, IRun(lp, m - 1), RowTasks(lp, m - 1), m - 1, x);
    }
  }

  lemma {:induction false} RowNoDup(lp: Loops, i: nat)
    ensures NoDup(RowTasks(lp, i))
  {
    if KeepI(lp, i) {
      JRunNoDup(lp, i, NJ(lp, i));
    }
  }

  /** Rows of different i share no task. */
  lemma {:induction false} RowsApart(lp: Loops, a: seq<Task>, row: seq<Task>, i: nat)
    requires NoDup(a) && NoDup(row)
    requires forall x | x in a :: x.i < i
    requires forall x | x in row :: x.i == i
    ensures NoDup(a + row)
  {
    NoDupAppend(a, row);
  }

  lemma {:induction false} IRunNoDup(lp: Loops, m: nat)
    ensures NoDup(IRun(lp, m))
  {
    if m > 0 {
      IRunNoDup(lp, m - 1);
      RowNoDup(lp, m - 1);
      forall x | x in IRun(lp, m - 1)
        ensures x.i < m - 1
      {
        IRunSound(lp, m - 1, x);
      }
      forall x | x in RowTasks(lp, m - 1)
        ensures x.i == m - 1
      {
        RowSound(lp, m - 1, x);
      }
      RowsApart(lp, IRun(lp, m - 1), RowTasks(lp, m - 1), m - 1);
    }
  }

  /** The list of tasks holds exactly the (i, j, k) the loop nest visits, each
      once. */
  lemma {:induction false} TasksExactlyOnce(lp: Loops)
    ensures forall x :: x in Tasks(lp) <==> InLoops(lp, x)
    ensures NoDup(Tasks(lp))
  {
    forall x
      ensures x in Tasks(lp) <==> InLoops(lp, x)
    {
      IRunSound(lp, lp.ni, x);
      if InLoops(lp, x) {
        TaskAt(lp, x.i, x.j, x.k);
      }
    }
    IRunNoDup(lp, lp.ni);
  }

  /** The counter task_index only grows along the j loop and along the i loop. */
  lemma {:induction false} JRunGrows(lp: Loops, i: nat, a: nat, b: nat)
    requires a <= b
    ensures |JRun(lp, i, a)| <= |JRun(lp, i, b)|
    decreases b
  {
    if a < b {
      JRunGrows(lp, i, a, b - 1);
    }
  }

  lemma {:induction false} IRunGrows(lp: Loops, a: nat, b: nat)
    requires a <= b
    ensures |IRun(lp, a)| <= |IRun(lp, b)|
    decreases b
  {
    if a < b {
      IRunGrows(lp, a, b - 1);
    }
  }

  lemma {:induction false} AppendKeeps(a: seq<Task>, b: seq<Task>, p: nat)
    requires p < |a|
    ensures p < |a + b| && (a + b)[p] == a[p]
  {
  }

  /** What the loops have visited stays in place as they go on. */
  lemma {:induction false} JRunStable(lp: Loops, i: nat, a: nat, b: nat, p: nat)
    requires a <= b && p < |JRun(lp, i, a)|
    ensures p < |JRun(lp, i, b)| && JRun(lp, i, b)[p] == JRun(lp, i, a)[p]
    decreases b
  {
    if a < b {
      JRunStable(lp, i, a, b - 1, p);
      AppendKeeps(JRun(lp, i, b - 1), PairTasks(lp, i, b - 1), p);
    }
  }

  lemma {:induction false} IRunStable(lp: Loops, a: nat, b: nat, p: nat)
    requires a <= b && p < |IRun(lp, a)|
    ensures p < |IRun(lp, b)| && IRun(lp, b)[p] == IRun(lp, a)[p]
    decreases b
  {
    if a < b {
      IRunStable(lp, a, b - 1, p);
      AppendKeeps(IRun(lp, b - 1), RowTasks(lp, b - 1), p);
    }
  }

  /** The position of task (i, j, k) in the list of tasks: the number of tasks
      the loops visit before it. */
  function Offset(lp: Loops, i: nat, j: nat, k: nat): nat
  {
    |IRun(lp, i)| + |JRun(lp, i, j)| + k
  }

  lemma {:induction false} AppendAt(a: seq<Task>, b: seq<Task>, t: nat)
    requires t < |b|
    ensures |a| + t < |a + b| && (a + b)[|a| + t] == b[t]
  {
  }

  /** Task (i, j, k) of a kept pair sits at |JRun(i, j)| + k in its row. */
  lemma {:induction false} PairAt(lp: Loops, i: nat, j: nat, k: nat)
    requires j < NJ(lp, i) && KeepJ(lp, i, j) && k < NK(lp, i, j)
    ensures |JRun(lp, i, j)| + k < |JRun(lp, i, NJ(lp, i))|
    ensures JRun(lp, i, NJ(lp, i))[|JRun(lp, i, j)| + k] == Task(i, j, k)
  {
    var pre := JRun(lp, i, j);
    var ki := KRun(i, j, NK(lp, i, j));
    assert JRun(lp, i, j + 1) == pre + ki;
    AppendAt(pre, ki, k);
    JRunStable(lp, i, j + 1, NJ(lp, i), |pre| + k);
  }

  /** Position t of row i sits at |IRun(i)| + t in the list of tasks. */
  lemma {:induction false} RowAt(lp: Loops, i: nat, t: nat)
    requires i < lp.ni && t < |RowTasks(lp, i)|
    ensures |IRun(lp, i)| + t < |Tasks(lp)|
    ensures Tasks(lp)[|IRun(lp, i)| + t] == RowTasks(lp, i)[t]
  {
    AppendAt(IRun(lp, i), RowTasks(lp, i), t);
    IRunStable(lp, i + 1, lp.ni, |IRun(lp, i)| + t);
  }

  /** The counter task_index of the loop nest reads Offset(i, j, k) when it
      reaches (i, j, k), and the list of tasks holds (i, j, k) there. */
  lemma {:induction false} TaskAt(lp: Loops, i: nat, j: nat, k: nat)
    requires InLoops(lp, Task(i, j, k))
    ensures Offset(lp, i, j, k) < |Tasks(lp)|
    ensures Tasks(lp)[Offset(lp, i, j, k)] == Task(i, j, k)
  {
    PairAt(lp, i, j, k);
    assert RowTasks(lp, i) == JRun(lp, i, NJ(lp, i));
    RowAt(lp, i, |JRun(lp, i, j)| + k);
  }

  /** Row i occupies positions |IRun(i)| up to |IRun(i + 1)| of the
      list of tasks. */
  lemma {:induction false} RowSlice(lp: Loops, i: nat)
    requires i < lp.ni
    ensures |IRun(lp, i)| + |RowTasks(lp, i)| == |IRun(lp, i + 1)| <= |Tasks(lp)|
    ensures Tasks(lp)[|IRun(lp, i)|..|IRun(lp, i + 1)|] == RowTasks(lp, i)
  {
    IRunGrows(lp, i + 1, lp.ni);
    forall t | 0 <= t < |RowTasks(lp, i)|
      ensures Tasks(lp)[|IRun(lp, i)| + t] == RowTasks(lp, i)[t]
    {
      RowAt(lp, i, t);
    }
  }

  /** A kept pair (i, j) of a kept row occupies positions |JRun(i, j)| up
      to |JRun(i, j + 1)| of the row: its tasks (i, j, k) for k < NK. */
  lemma {:induction false} PairSlice(lp: Loops, i: nat, j: nat)
    requires KeepI(lp, i) && j < NJ(lp, i) && KeepJ(lp, i, j)
    ensures |JRun(lp, i, j)| + NK(lp, i, j) == |JRun(lp, i, j + 1)| <= |RowTasks(lp, i)|
    ensures RowTasks(lp, i)[|JRun(lp, i, j)|..|JRun(lp, i, j + 1)|] == KRun(i, j, NK(lp, i, j))
  {
    JRunGrows(lp, i, j + 1, NJ(lp, i));
    assert RowTasks(lp, i) == JRun(lp, i, NJ(lp, i));
    forall k | 0 <= k < NK(lp, i, j)
      ensures RowTasks(lp, i)[|JRun(lp, i, j)| + k] == Task(i, j, k)
    {
      PairAt(lp, i, j, k);
    }
  }

  /** A slice of a slice is a slice of the whole. */
  lemma {:induction false} SliceOfSlice(a: seq<Task>, b: seq<Task>, base: nat, x: nat, y: nat)
    requires base + |b| <= |a| && a[base..base + |b|] == b && x <= y <= |b|
    ensures a[base + x..base + y] == b[x..y]
  {
    forall t | 0 <= t < y - x
      ensures a[base + x..base + y][t] == b[x..y][t]
    {
      assert a[base..base + |b|][x + t] == b[x + t];
    }
  }

  /** The counter after the k loop of a kept pair (i, j) equals the count
      of tasks before pair (i, j + 1). */
  lemma {:induction false} PairDone(lp: Loops, i: nat, j: nat)
    requires KeepJ(lp, i, j)
    ensures Offset(lp, i, j, NK(lp, i, j)) == |IRun(lp, i)| + |JRun(lp, i, j + 1)|
  {
  }

  /** A pair the filter skips adds no task. */
  lemma {:induction false} PairSkipped(lp: Loops, i: nat, j: nat)
    requires !KeepJ(lp, i, j)
    ensures |JRun(lp, i, j + 1)| == |JRun(lp, i, j)|
  {
  }

  /** The counter after the j loop of a kept row i equals the count of
      tasks before row i + 1; a skipped row adds no task. */
  lemma {:induction false} RowDone(lp: Loops, i: nat)
    ensures KeepI(lp, i) ==> |IRun(lp, i)| + |JRun(lp, i, NJ(lp, i))| == |IRun(lp, i + 1)|
    ensures !KeepI(lp, i) ==> |IRun(lp, i)| == |IRun(lp, i + 1)|
    ensures |JRun(lp, i, 0)| == 0
  {
  }

  /** The counter task_index never passes the end of the list of tasks inside row i. */
  lemma {:induction false} OffsetBound(lp: Loops, i: nat, j: nat)
    requires i < lp.ni && KeepI(lp, i) && j <= NJ(lp, i)
    ensures |IRun(lp, i)| + |JRun(lp, i, j)| <= |IRun(lp, i + 1)| <= |Tasks(lp)|
  {
    JRunGrows(lp, i, j, NJ(lp, i));
    IRunGrows(lp, i + 1, lp.ni);
  }

  // ---------------------------------------------------------------------
  // Ownership of tasks by process and thread.

  /** The process and thread that run this pass: rank `me` of `nproc`
      processes and thread `threadnum` of `nthread` threads. */
  datatype Rank = Rank(me: nat, nproc: nat, threadnum: nat, nthread: nat)

  /** The number of task indices t < T with t mod nproc == me: the local
      thread_index after the first T tasks. */
  function MyCount(T: nat, me: nat, nproc: nat): nat
    requires nproc > 0
  {
    if T == 0 then 0 else MyCount(T - 1, me, nproc) + (if (T - 1) % nproc == me then 1 else 0)
  }

  /** Round-robin ownership: task t belongs to process t mod nproc, and on
      that process to thread (its 1-based local count) mod nthread. */
  ghost predicate OwnsRR(r: Rank, t: nat)
    requires r.nproc > 0 && r.nthread > 0
  {
    t % r.nproc == r.me && MyCount(t + 1, r.me, r.nproc) % r.nthread == r.threadnum
  }

  /** Ownership when the counter task_index never advances: every task belongs
      to process 0, and to thread (t + 1) mod nthread there. */
  ghost predicate OwnsRankZero(r: Rank, t: nat)
    requires r.nproc > 0 && r.nthread > 0
  {
    0 % r.nproc == r.me && (t + 1) % r.nthread == r.threadnum
  }

  datatype Policy = RoundRobin | RankZero

  ghost predicate Owns(p: Policy, r: Rank, t: nat)
    requires r.nproc > 0 && r.nthread > 0
  {
    match p
    case RoundRobin => OwnsRR(r, t)
    case RankZero => OwnsRankZero(r, t)
  }

  ghost function Team(r: Rank, me: nat, threadnum: nat): Rank
  {
    Rank(me, r.nproc, threadnum, r.nthread)
  }

  /** Across all processes me < nproc and threads threadnum < nthread,
      every task index has exactly one owner, under either policy. */
  lemma {:induction false} OwnedExactlyOnce(p: Policy, r: Rank, t: nat)
    requires r.nproc > 0 && r.nthread > 0
    ensures exists me: nat, th: nat :: me < r.nproc && th < r.nthread && Owns(p, Team(r, me, th), t)
    ensures forall me1: nat, th1: nat, me2: nat, th2: nat ::
      Owns(p, Team(r, me1, th1), t) && Owns(p, Team(r, me2, th2), t) ==> me1 == me2 && th1 == th2
  {
    var me := if p == RoundRobin then t % r.nproc else 0;
    var th := if p == RoundRobin then MyCount(t + 1, me, r.nproc) % r.nthread else (t + 1) % r.nthread;
    assert Owns(p, Team(r, me, th), t);
  }

  /** Those of the first T tasks of ts that `r` owns, in order. */
  ghost function Selected(ts: seq<Task>, T: nat, p: Policy, r: Rank): seq<Task>
    requires r.nproc > 0 && r.nthread > 0 && T <= |ts|
  {
    if T == 0 then [] else Selected(ts, T - 1, p, r) + seq(if Owns(p, r, T - 1) then 1 else 0, _ => ts[T - 1])
  }

  lemma {:induction false} SelectedMembers(ts: seq<Task>, T: nat, p: Policy, r: Rank, x: Task)
    requires r.nproc > 0 && r.nthread > 0 && T <= |ts|
    ensures x in Selected(ts, T, p, r) <==> exists t :: 0 <= t < T && ts[t] == x && Owns(p, r, t)
  {
    if T > 0 {
      SelectedMembers(ts, T - 1, p, r, x);
      var last := seq(if Owns(p, r, T - 1) then 1 else 0, _ => ts[T - 1]);
      assert x in last <==> Owns(p, r, T - 1) && ts[T - 1] == x by {
        if Owns(p, r, T - 1) {
          assert last[0] == ts[T - 1];
        }
      }
    }
  }

  /** A rank that owns none of the first T task indices selects nothing. */
  lemma {:induction false} SelectedNone(ts: seq<Task>, T: nat, p: Policy, r: Rank)
    requires r.nproc > 0 && r.nthread > 0 && T <= |ts|
    requires forall t :: 0 <= t < T ==> !Owns(p, r, t)
    ensures Selected(ts, T, p, r) == []
  {
    if T > 0 {
      SelectedNone(ts, T - 1, p, r);
    }
  }

  /** Every task of a loop nest is selected by exactly one process and one
      of its threads, under either policy. */
  lemma {:induction false} TaskRunsExactlyOnce(lp: Loops, p: Policy, r: Rank, x: Task)
    requires r.nproc > 0 && r.nthread > 0
    requires InLoops(lp, x)
    ensures exists me: nat, th: nat :: (me < r.nproc && th < r.nthread &&
      x in Selected(Tasks(lp), |Tasks(lp)|, p, Team(r, me, th)))
    ensures forall me1: nat, th1: nat, me2: nat, th2: nat ::
      (x in Selected(Tasks(lp), |Tasks(lp)|, p, Team(r, me1, th1)) &&
       x in Selected(Tasks(lp), |Tasks(lp)|, p, Team(r, me2, th2))) ==> me1 == me2 && th1 == th2
  {
    var ts := Tasks(lp);
    TaskAt(lp, x.i, x.j, x.k);
    TasksExactlyOnce(lp);
    var t := Offset(lp, x.i, x.j, x.k);
    OwnedExactlyOnce(p, r, t);
    var me: nat, th: nat :| me < r.nproc && th < r.nthread && Owns(p, Team(r, me, th), t);
    SelectedMembers(ts, |ts|, p, Team(r, me, th), x);
    forall me1: nat, th1: nat, me2: nat, th2: nat |
      x in Selected(ts, |ts|, p, Team(r, me1, th1)) && x in Selected(ts, |ts|, p, Team(r, me2, th2))
      ensures me1 == me2 && th1 == th2
    {
      SelectedMembers(ts, |ts|, p, Team(r, me1, th1), x);
      SelectedMembers(ts, |ts|, p, Team(r, me2, th2), x);
      var t1 :| 0 <= t1 < |ts| && ts[t1] == x && Owns(p, Team(r, me1, th1), t1);
      var t2 :| 0 <= t2 < |ts| && ts[t2] == x && Owns(p, Team(r, me2, th2), t2);
      assert t1 == t && t2 == t;
    }
  }
}
