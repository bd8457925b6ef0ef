/** FockBuild: the driver of a Fock matrix build.  It picks the thread
    kind from how the three basis sets (the two Fock bases and the density
    basis) coincide, creates one thread object per thread, and in build()
    hands every thread its own contribution, merges the thread copies
    into the caller's contribution, adds the other processes' parts and
    updates the Fock matrices.  Contributions are values here: the arena
    of matrix data and the count of integrals. */
module FockBuild {
  import opened Wrappers

  /** Basis sets are named by an identity; whether two are equivalent is
      asked of an oracle (GaussianBasisSet::equiv). */
  type BasisId = nat

  /** DBL_EPSILON, 2^-52: the default accuracy of builds and threads. */
  const DblEpsilon: real := 1.0 / 4503599627370496.0

  /** The two thread kinds: one basis for everything, or the general
      three-basis code. */
  datatype Scheme = F11P11 | F12P33

  /** init_threads: the single-basis threads when the second Fock basis
      and the density basis are both equivalent to the first; every other
      coincidence has an empty branch that falls through to the general
      threads. */
  function ChooseScheme(f1f2: bool, f1p: bool, f2p: bool): (s: Scheme)
    ensures s == F11P11 <==> f1f2 && f1p
  {
    if f1f2 then
      if f1p then F11P11 else F12P33
    else if f1p then F12P33
    else if f2p then F12P33
    else F12P33
  }

  /** A thread object of either kind: what its constructor records, and
      what build() sets before the threads start. */
  class FockBuildThread {
    const nthread: nat
    const threadnum: nat
    const scheme: Scheme
    const basis1: BasisId
    const basis2: BasisId
    const basis3: BasisId
    /** Integral storage of the electron repulsion object (of the J one
        for F12P33). */
    const storageJ: nat
    /** Integral storage of the K electron repulsion object (F12P33). */
    const storageK: nat
    var accuracy: real
    var pmax: Option<seq<int>>
    /** Which of build()'s contributions this thread adds to; 0 is the
        build's own contribution. */
    var contrib: Option<nat>

    /** The constructors of FockBuildThread_F11_P11 and _F12_P33: accuracy
        DBL_EPSILON and no pmax; the unused integral storage is shared out
        per thread, and halved between J and K for the general kind. */
    constructor (nthread: nat, threadnum: nat, scheme: Scheme,
                 basis1: BasisId, basis2: BasisId, basis3: BasisId, unused: nat)
      requires nthread > 0
      ensures this.nthread == nthread && this.threadnum == threadnum && this.scheme == scheme
      ensures this.basis1 == basis1 && this.basis2 == basis2 && this.basis3 == basis3
      ensures accuracy == DblEpsilon && pmax == None && contrib == None
      ensures scheme == F11P11 ==> storageJ == unused / nthread && storageK == 0
      ensures scheme == F12P33 ==> storageJ == storageK == unused / nthread / 2
    {
      this.nthread := nthread;
      this.threadnum := threadnum;
      this.scheme := scheme;
      this.basis1 := basis1;
      this.basis2 := basis2;
      this.basis3 := basis3;
      if scheme == F11P11 {
        storageJ := unused / nthread;
        storageK := 0;
      } else {
        storageJ := unused / nthread / 2;
        storageK := unused / nthread / 2;
      }
      accuracy := DblEpsilon;
      pmax := None;
      contrib := None;
    }
  }

  /** A contribution as build() sees it: the data arena its matrices
      share and nint, the number of integrals it has taken in. */
  datatype Contribution = Contribution(data: seq<real>, nint: real)

  /** Element-wise sum of two arenas. */
  function Add(a: seq<real>, b: seq<real>): (r: seq<real>)
    requires |a| == |b|
    ensures |r| == |a| && forall e :: 0 <= e < |r| ==> r[e] == a[e] + b[e]
  {
    seq(|a|, e requires 0 <= e < |a| => a[e] + b[e])
  }

  /** What threads 0..k-1 add to element e of their arenas. */
  function ThreadSum(share: nat -> seq<real>, k: nat, e: nat): real
  {
    if k == 0 then 0.0
    else ThreadSum(share, k - 1, e) + (if e < |share(k - 1)| then share(k - 1)[e] else 0.0)
  }

  /** What threads 0..k-1 count. */
  function CountSum(count: nat -> real, k: nat): real
  {
    if k == 0 then 0.0 else CountSum(count, k - 1) + count(k - 1)
  }

  /** The result of one thread's run on a contribution: share is added to
      the arena and count to nint. */
  function Ran(c: Contribution, share: seq<real>, count: real): (r: Contribution)
    requires |share| == |c.data|
    ensures |r.data| == |c.data|
  {
    Contribution(Add(c.data, share), c.nint + count)
  }

  class FockBuild {
    const bf1: BasisId
    const bf2: BasisId
    const bp: BasisId
    const nthread: nat
    var accuracy: real
    var contrib: Contribution
    var threads: array<FockBuildThread?>

    /** At least one thread, and one distinct thread object per thread,
        each knowing its number. */
    ghost predicate Valid()
      reads this, threads
    {
      && nthread > 0
      && threads.Length == nthread
      && (forall i :: 0 <= i < nthread ==> threads[i] != null && threads[i].threadnum == i && threads[i].nthread == nthread)
      && (forall i, k :: 0 <= i < k < nthread ==> threads[i] != threads[k])
    }

    /** The FockBuild constructor: missing second Fock and density bases
        default to the first, the accuracy to DBL_EPSILON, then
        init_threads. */
    constructor (contrib: Contribution, bf1: BasisId, bf2: Option<BasisId>, bp: Option<BasisId>, nthread: nat,
                 equiv: (BasisId, BasisId) -> bool, unused: nat)
      requires nthread > 0
      ensures this.bf1 == bf1
      ensures this.bf2 == (if bf2.None? then bf1 else bf2.value)
      ensures this.bp == (if bp.None? then bf1 else bp.value)
      ensures this.nthread == nthread && this.contrib == contrib && accuracy == DblEpsilon
      ensures Valid() && fresh(threads)
      ensures forall i :: 0 <= i < nthread ==>
        && threads[i].scheme == ChooseScheme(equiv(this.bf1, this.bf2), equiv(this.bf1, this.bp), equiv(this.bf2, this.bp))
        && threads[i].basis1 == this.bf1 && threads[i].basis2 == this.bf2 && threads[i].basis3 == this.bp
        && threads[i].accuracy == DblEpsilon && threads[i].pmax == None && threads[i].contrib == None
    {
      this.contrib := contrib;
      this.accuracy := DblEpsilon;
      this.bf1 := bf1;
      this.bf2 := if bf2.None? then bf1 else bf2.value;
      this.bp := if bp.None? then bf1 else bp.value;
      this.nthread := nthread;
      threads := new FockBuildThread?[0];
      new;
      InitThreads(equiv, unused);
    }

    /** init_threads: a new array with thread i of the chosen kind for every
        i, all built over the same three bases. */
    method InitThreads(equiv: (BasisId, BasisId) -> bool, unused: nat)
      requires nthread > 0
      modifies this
      ensures Valid() && fresh(threads)
      ensures forall i :: 0 <= i < nthread ==>
        && fresh(threads[i])
        && threads[i].scheme == ChooseScheme(equiv(bf1, bf2), equiv(bf1, bp), equiv(bf2, bp))
        && threads[i].basis1 == bf1 && threads[i].basis2 == bf2 && threads[i].basis3 == bp
        && threads[i].accuracy == DblEpsilon && threads[i].pmax == None && threads[i].contrib == None
      ensures accuracy == old(accuracy) && contrib == old(contrib)
    {
      var scheme := ChooseScheme(equiv(bf1, bf2), equiv(bf1, bp), equiv(bf2, bp));
      var ts := new FockBuildThread?[nthread];
      for i := 0 to nthread
        modifies ts
        invariant forall k :: 0 <= k < i ==>
          && ts[k] != null && fresh(ts[k]) && ts[k].threadnum == k && ts[k].nthread == nthread
          && ts[k].scheme == scheme && ts[k].basis1 == bf1 && ts[k].basis2 == bf2 && ts[k].basis3 == bp
          && ts[k].accuracy == DblEpsilon && ts[k].pmax == None && ts[k].contrib == None
        invariant forall k, m :: 0 <= k < m < i ==> ts[k] != ts[m]
      {
        ts[i] := new FockBuildThread(nthread, i, scheme, bf1, bf2, bp, unused);
      }
      threads := ts;
    }

    /** The first loop of build: thread i gets the accuracy, the pmax table
        and contribution i (the build's own for i == 0, a clone otherwise),
        whose copy() leaves a zeroed arena and the cleared count. */
    method SetupThreads(pmax: seq<int>) returns (contribs: seq<Contribution>)
      requires Valid() && contrib.nint == 0.0
      modifies threads[..]
      ensures Valid() && |contribs| == nthread
      ensures forall k :: 0 <= k < nthread ==> contribs[k] == Contribution(seq(|contrib.data|, _ => 0.0), 0.0)
      ensures forall k :: 0 <= k < nthread ==>
        threads[k].accuracy == accuracy && threads[k].pmax == Some(pmax) && threads[k].contrib == Some(k)
    {
      var n := |contrib.data|;
      contribs := [];
      for i := 0 to nthread
        invariant |contribs| == i
        invariant forall k :: 0 <= k < i ==> contribs[k] == Contribution(seq(n, _ => 0.0), 0.0)
        invariant forall k :: 0 <= k < i ==>
          threads[k].accuracy == accuracy && threads[k].pmax == Some(pmax) && threads[k].contrib == Some(k)
        invariant Valid()
      {
        var c := contrib;
        threads[i].accuracy := accuracy;
        threads[i].pmax := Some(pmax);
        threads[i].contrib := Some(i);
        c := c.(data := seq(n, _ => 0.0));
        contribs := contribs + [c];
      }
    }

    /** build: nint is cleared; thread 0 works on the build's own
        contribution and every other thread on a clone of it; each thread
        gets the accuracy, the pmax table and its contribution, whose arena
        copy() replaces by a zeroed one; the threads run; the clones are
        merged into the build's contribution, then the other processes'
        sum, and update() folds the result into the Fock matrices.  So
        the arena ends as the other processes' part plus what every thread
        added, and the count as the sum of the threads' counts. */
    method Build(pmax: seq<int>, share: nat -> seq<real>, count: nat -> real, remote: seq<real>)
      returns (merged: seq<real>)
      requires Valid() && |remote| == |contrib.data|
      requires forall i :: 0 <= i < nthread ==> |share(i)| == |contrib.data|
      modifies threads[..]
      modifies this`contrib
      ensures Valid() && |contrib.data| == |old(contrib.data)|
      ensures forall e :: 0 <= e < |contrib.data| ==> contrib.data[e] == remote[e] + ThreadSum(share, nthread, e)
      ensures contrib.nint == CountSum(count, nthread)
      ensures merged == contrib.data
      ensures forall i :: 0 <= i < nthread ==>
        threads[i].accuracy == accuracy && threads[i].pmax == Some(pmax) && threads[i].contrib == Some(i)
    {
      var n := |contrib.data|;
      contrib := contrib.(nint := 0.0);
      var contribs := SetupThreads(pmax);
      // start_threads / wait_threads: every thread adds its part to its
      // own contribution.
      contribs := seq(nthread, i requires 0 <= i < nthread => Ran(contribs[i], share(i), count(i)));
      contrib := contribs[0];
      for i := 1 to nthread
        modifies this`contrib
        invariant |contrib.data| == n
        invariant forall e :: 0 <= e < n ==> contrib.data[e] == ThreadSum(share, i, e)
        invariant contrib.nint == CountSum(count, i)
      {
        contrib := Contribution(Add(contrib.data, contribs[i].data), contrib.nint + contribs[i].nint);
      }
      contrib := contrib.(data := Add(contrib.data, remote));
      merged := contrib.data;
    }
  }
}
