/** The SCF input reader of chemistry/qc/dmtscf/scf_kinp.cc: filling the
    scf_struct_t record from a parsed KeyVal (scf_init_scf_struct), and
    writing it to and reading it back from a state stream
    (put_scf_struct / get_scf_struct). */
module ScfInput {
  import opened Wrappers

  // ---------------------------------------------------------------------
  // The keyword input

  /** The keywords scf_init_scf_struct reads. */
  datatype Key =
    KOpenType | KSocc | KCkptDir | KFilename | KWfn | KDerType | KConvergence | KRestart |
    KWarmRestart | KProjectedGuess | KMaxIter | KDebug | KDebugNode | KLoadBalanceGmat | KDft |
    KScdft | KExchange | KEliminate | KCkptDel | KPrintFlag | KCkptFreq |
    KDensityResetFrequency | KLocalP | KThreshold | KIntegralStorage | KIntStore1 |
    KIntStore2 | KNdiis | KFockType | KDiisDamp | KLevelShift | KNetCharge | KDocc | KDiis |
    KDiisStart | KAlpha | KBeta

  /** The keyword as it is spelled in the input. */
  function KeyName(k: Key): string
  {
    match k
    case KOpenType => "opentype"
    case KSocc => "socc"
    case KCkptDir => "ckpt_dir"
    case KFilename => "filename"
    case KWfn => "wfn"
    case KDerType => "dertype"
    case KConvergence => "convergence"
    case KRestart => "restart"
    case KWarmRestart => "warmrestart"
    case KProjectedGuess => "projected_guess"
    case KMaxIter => "maxiter"
    case KDebug => "debug"
    case KDebugNode => "debug_node"
    case KLoadBalanceGmat => "load_balance_gmat"
    case KDft => "dft"
    case KScdft => "scdft"
    case KExchange => "exchange"
    case KEliminate => "eliminate"
    case KCkptDel => "ckpt_del"
    case KPrintFlag => "print_flag"
    case KCkptFreq => "ckpt_freq"
    case KDensityResetFrequency => "density_reset_frequency"
    case KLocalP => "local_P"
    case KThreshold => "threshold"
    case KIntegralStorage => "integral_storage"
    case KIntStore1 => "int_store1"
    case KIntStore2 => "int_store2"
    case KNdiis => "ndiis"
    case KFockType => "fock_type"
    case KDiisDamp => "diisdamp"
    case KLevelShift => "levelshift"
    case KNetCharge => "net_charge"
    case KDocc => "docc"
    case KDiis => "diis"
    case KDiisStart => "diisstart"
    case KAlpha => "alpha"
    case KBeta => "beta"
  }

  /** The typed lookups of a parsed KeyVal.  A keyword absent from the
      map of the requested type is a lookup that leaves the KeyVal in an
      error state. */
  datatype KeyVal = KeyVal(strings: map<Key, string>, ints: map<Key, int>,
                           bools: map<Key, bool>, reals: map<Key, real>)

  /** pcharvalue: the string, or None when the lookup fails. */
  function PChar(kv: KeyVal, key: Key): (r: Option<string>)
    ensures r.Some? <==> key in kv.strings
  {
    if key in kv.strings then Some(kv.strings[key]) else None
  }

  /** intvalue: the integer, or None when the lookup fails. */
  function IntValue(kv: KeyVal, key: Key): (r: Option<int>)
    ensures r.Some? <==> key in kv.ints
  {
    if key in kv.ints then Some(kv.ints[key]) else None
  }

  /** pcharvalue, with the value the reader substitutes on an error. */
  function StringOr(kv: KeyVal, key: Key, d: string): string
  {
    if key in kv.strings then kv.strings[key] else d
  }

  /** intvalue, with the value the reader substitutes on an error (0, the
      value KeyVal itself returns, where the reader substitutes nothing). */
  function IntOr(kv: KeyVal, key: Key, d: int): int
  {
    if key in kv.ints then kv.ints[key] else d
  }

  /** booleanvalue as the C int 0 or 1, with the value substituted on an
      error. */
  function BoolOr(kv: KeyVal, key: Key, d: int): int
  {
    if key in kv.bools then Flag(kv.bools[key]) else d
  }

  /** doublevalue, with the value substituted on an error. */
  function RealOr(kv: KeyVal, key: Key, d: real): real
  {
    if key in kv.reals then kv.reals[key] else d
  }

  function Flag(b: bool): int
  {
    if b then 1 else 0
  }

  // ---------------------------------------------------------------------
  // The record

  /** The fields of scf_struct_t that scf_init_scf_struct and the stream
      functions touch, grouped by the blocks put_scf_struct writes them in;
      flags are C ints, doubles are reals. */
  datatype ShellFlags = ShellFlags(hsos: int, singlet: int, special: int, twocon: int, uhf: int)

  datatype Options = Options(
    useSymmetry: int, restart: int, warmRestart: int, projVector: int, diisFlag: int,
    ckptDel: int, localP: int, eliminate: int, exchange: int, loadBal: int,
    scdft: int, dft: int, debug: int, debugNode: int)

  datatype Files = Files(ckptDir: string, fname: string)

  datatype Controls = Controls(
    ckptFreq: int, convergence: int, maxIter: int, intCut: int, intStore: int,
    pResetFreq: int, ndiis: int, itDiis: int, fockType: int, printFlag: int)

  datatype Damping = Damping(diisDamp: real, levelShift: real)

  datatype Status = Status(iopen: int, converged: int)

  datatype Dims = Dims(nbfao: int, nbfso: int, nbstri: int, nbatri: int, nsomax: int, mxcoef: int, mxcoef2: int)

  datatype Occupation = Occupation(nclosed: int, nopen: int)

  datatype Energies = Energies(nucRep: real, eElec: real, diisError: real, eExc: real)

  datatype Weights = Weights(alpha: real, beta: real)

  datatype ScfStruct = ScfStruct(
    shell: ShellFlags, options: Options, files: Files, controls: Controls,
    damping: Damping, status: Status, dims: Dims, occ: Occupation,
    energies: Energies, weights: Weights, intStore1: int, intStore2: int)

  /** The record as init_scf_struct leaves it: every field zero. */
  function Cleared(): ScfStruct
  {
    ScfStruct(ShellFlags(0, 0, 0, 0, 0), Options(0, 0, 0, 0, 0, 0, 0, 0, 0, 0, 0, 0, 0, 0),
              Files("", ""), Controls(0, 0, 0, 0, 0, 0, 0, 0, 0, 0), Damping(0.0, 0.0),
              Status(0, 0), Dims(0, 0, 0, 0, 0, 0, 0), Occupation(0, 0),
              Energies(0.0, 0.0, 0.0, 0.0), Weights(0.0, 0.0), 0, 0)
  }

  // ---------------------------------------------------------------------
  // What scf_init_scf_struct computes

  /** The reading of the opentype keyword. */
  datatype OpenType = NoOpenType | HighSpin | OpenSinglet | TwoCon | Special | Uhf | Unrecognized

  function OpenTypeOf(kv: KeyVal): OpenType
  {
    match PChar(kv, KOpenType)
    case None => NoOpenType
    case Some(s) =>
      if s == "highspin" then HighSpin
      else if s == "singlet" then OpenSinglet
      else if s == "twocon" then TwoCon
      else if s == "special" then Special
      else if s == "uhf" then Uhf
      else if s == "none" then NoOpenType
      else Unrecognized
  }

  /** The open-shell types, which need socc. */
  predicate IsOpenShell(t: OpenType)
  {
    t.HighSpin? || t.OpenSinglet? || t.TwoCon? || t.Special?
  }

  /** The shell flags of an accepted opentype: exactly the flag of the
      type, none for a closed shell. */
  function ShellFlagsOf(t: OpenType): (f: ShellFlags)
    requires t != Unrecognized
    ensures f.hsos + f.singlet + f.special + f.twocon + f.uhf == (if t == NoOpenType then 0 else 1)
  {
    ShellFlags(Flag(t == HighSpin), Flag(t == OpenSinglet), Flag(t == Special), Flag(t == TwoCon), Flag(t == Uhf))
  }

  function OptionsOf(kv: KeyVal): Options
  {
    Options(
      useSymmetry := 0,
      restart := BoolOr(kv, KRestart, 0), warmRestart := BoolOr(kv, KWarmRestart, 0),
      projVector := BoolOr(kv, KProjectedGuess, 0),
      diisFlag := BoolOr(kv, KDiis, 1), ckptDel := BoolOr(kv, KCkptDel, 1),
      localP := BoolOr(kv, KLocalP, 0), eliminate := BoolOr(kv, KEliminate, 1),
      exchange := BoolOr(kv, KExchange, 0), loadBal := BoolOr(kv, KLoadBalanceGmat, 0),
      scdft := BoolOr(kv, KScdft, 0), dft := BoolOr(kv, KDft, 0),
      debug := BoolOr(kv, KDebug, 0), debugNode := BoolOr(kv, KDebugNode, 0))
  }

  function FilesOf(kv: KeyVal): Files
  {
    Files(StringOr(kv, KCkptDir, "./"), StringOr(kv, KFilename, "dmtscf"))
  }

  /** The convergence used when none is given: 7, 10 for a correlated
      wavefunction, and 12 for second derivatives, which wins. */
  function DefaultConvergence(wfn: string, dertype: string): int
  {
    if dertype == "second" then 12 else if wfn != "scf" then 10 else 7
  }

  function ControlsOf(kv: KeyVal, open: bool): Controls
  {
    Controls(
      ckptFreq := IntOr(kv, KCkptFreq, 5),
      convergence := IntOr(kv, KConvergence,
                           DefaultConvergence(StringOr(kv, KWfn, "scf"), StringOr(kv, KDerType, "first"))),
      maxIter := IntOr(kv, KMaxIter, 40), intCut := IntOr(kv, KThreshold, 12),
      intStore := IntOr(kv, KIntegralStorage, 0),
      pResetFreq := IntOr(kv, KDensityResetFrequency, 10),
      ndiis := IntOr(kv, KNdiis, if open then 4 else 6),
      itDiis := IntOr(kv, KDiisStart, 0), fockType := IntOr(kv, KFockType, 0),
      printFlag := IntOr(kv, KPrintFlag, 0))
  }

  function DampingOf(kv: KeyVal, t: OpenType): Damping
  {
    var open := IsOpenShell(t);
    Damping(RealOr(kv, KDiisDamp, if t == TwoCon then 0.01 else if open then 0.02 else 0.0),
            RealOr(kv, KLevelShift, if open then 1.0 else 0.0))
  }

  /** The sizes, all taken from the number of basis functions n. */
  function DimsOf(n: nat): (d: Dims)
    ensures d.nbfao == d.nbfso == d.nsomax == n
    ensures d.nbatri == d.nbstri == d.mxcoef2 && 2 * d.nbatri == n * (n + 1)
    ensures d.mxcoef == n * n
  {
    PairProductEven(n);
    var ntri := n * (n + 1) / 2;
    Dims(n, n, ntri, ntri, n, n * n, ntri)
  }

  /** n(n + 1) is even, so the triangle size n(n + 1)/2 is exact. */
  lemma {:induction false} PairProductEven(n: nat)
    ensures n * (n + 1) % 2 == 0
  {
    if n > 0 {
      PairProductEven(n - 1);
      assert n * (n + 1) == (n - 1) * n + 2 * n;
    }
  }

  /** alpha and beta: for an open shell the given values, 0 and -1 by
      default, with beta stored negated; untouched for a closed shell. */
  function WeightsOf(kv: KeyVal, open: bool): Weights
  {
    if open then Weights(RealOr(kv, KAlpha, 0.0), -RealOr(kv, KBeta, -1.0)) else Weights(0.0, 0.0)
  }

  /** The sum of the nuclear charges. */
  function Sum(s: seq<real>): real
  {
    if |s| == 0 then 0.0 else Sum(s[..|s| - 1]) + s[|s| - 1]
  }

  function Abs(x: real): real
  {
    if x < 0.0 then -x else x
  }

  /** The C conversion of a double to int, which truncates toward zero. */
  function TruncToInt(x: real): (r: int)
    ensures Abs(x - r as real) < 1.0
    ensures x >= 0.0 ==> 0 <= r
  {
    if x >= 0.0 then x.Floor else -((-x).Floor)
  }

  /** The number of doubly occupied orbitals of a closed shell with nuclear
      charge z and net charge net, or None when z - net is not twice an
      integer within 1e-5. */
  function ClosedShellCount(z: real, net: real): (r: Option<int>)
    ensures r.Some? ==> Abs(z - net - 2.0 * r.value as real) <= 0.00001
  {
    var nclosed := TruncToInt((z - net + 0.5) / 2.0);
    if Abs(z - net - 2.0 * nclosed as real) > 0.00001 then None else Some(nclosed)
  }

  /** nclosed: docc when given; otherwise counted from the charges for a
      closed shell and 0 for an open shell; None when that count fails. */
  function Nclosed(kv: KeyVal, charges: seq<real>, open: bool): Option<int>
  {
    if KDocc in kv.ints then Some(kv.ints[KDocc])
    else if open then Some(0)
    else ClosedShellCount(Sum(charges), RealOr(kv, KNetCharge, 0.0))
  }

  /** The record scf_init_scf_struct fills for a KeyVal, the nuclear
      charges of the centres and the number of basis functions, or None
      where it returns -1. */
  function Configured(kv: KeyVal, charges: seq<real>, nbasis: nat): Option<ScfStruct>
  {
    var t := OpenTypeOf(kv);
    var open := IsOpenShell(t);
    var nclosed := Nclosed(kv, charges, open);
    if t == Unrecognized || (open && KSocc !in kv.ints) || nclosed.None? then None
    else
      Some(ScfStruct(
        shell := ShellFlagsOf(t), options := OptionsOf(kv), files := FilesOf(kv),
        controls := ControlsOf(kv, open), damping := DampingOf(kv, t),
        status := Status(Flag(open), 0), dims := DimsOf(nbasis),
        occ := Occupation(nclosed.value, if open then kv.ints[KSocc] else 0),
        energies := Energies(0.0, 0.0, 0.0, 0.0), weights := WeightsOf(kv, open),
        intStore1 := BoolOr(kv, KIntStore1, 1), intStore2 := BoolOr(kv, KIntStore2, 1)))
  }

  /** The opentype part of scf_init_scf_struct: the shell flags, iopen and
      nopen, or failure (-1) for an unrecognised type or an open shell
      without socc. */
  method ReadOpenType(kv: KeyVal, info0: ScfStruct) returns (ok: bool, info: ScfStruct)
    ensures ok <==> OpenTypeOf(kv) != Unrecognized && (IsOpenShell(OpenTypeOf(kv)) ==> KSocc in kv.ints)
    ensures ok ==> info == info0.(shell := ShellFlagsOf(OpenTypeOf(kv)),
                                  status := info0.status.(iopen := Flag(IsOpenShell(OpenTypeOf(kv)))),
                                  occ := info0.occ.(nopen := if IsOpenShell(OpenTypeOf(kv)) then kv.ints[KSocc] else 0))
    requires info0.shell == ShellFlags(0, 0, 0, 0, 0) && info0.status.iopen == 0 && info0.occ.nopen == 0
  {
    info := info0;
    var open := PChar(kv, KOpenType);
    if open.Some? {
      var s := open.value;
      if s == "highspin" || s == "singlet" || s == "twocon" || s == "special" {
        info := info.(status := info.status.(iopen := 1));
        var socc := IntValue(kv, KSocc);
        if socc.None? {
          return false, info;
        }
        info := info.(occ := info.occ.(nopen := socc.value));
        if s == "highspin" {
          info := info.(shell := info.shell.(hsos := 1));
        } else if s == "singlet" {
          info := info.(shell := info.shell.(singlet := 1));
        } else if s == "twocon" {
          info := info.(shell := info.shell.(twocon := 1));
        } else {
          info := info.(shell := info.shell.(special := 1));
        }
      } else if s == "uhf" {
        info := info.(shell := info.shell.(uhf := 1));
      } else if s != "none" {
        return false, info;
      }
    }
    ok := true;
  }

  /** The sum of the nuclear charges of the centres, as the loop of
      scf_init_scf_struct adds them. */
  method NuclearCharge(charges: seq<real>) returns (z: real)
    ensures z == Sum(charges)
  {
    z := 0.0;
    for i := 0 to |charges|
      invariant z == Sum(charges[..i])
    {
      assert charges[..i + 1][..i] == charges[..i];
      z := z + charges[i];
    }
    assert charges[..|charges|] == charges;
  }

  /** The convergence: the keyword, or 7, raised to 10 for a correlated
      wavefunction and then to 12 for second derivatives. */
  method ReadConvergence(kv: KeyVal, wfn: string, dertype: string) returns (c: int)
    ensures c == IntOr(kv, KConvergence, DefaultConvergence(wfn, dertype))
  {
    var convergence := IntValue(kv, KConvergence);
    if convergence.Some? {
      c := convergence.value;
    } else {
      c := 7;
      if wfn != "scf" {
        c := 10;
      }
      if dertype == "second" {
        c := 12;
      }
    }
  }

  /** The DIIS damping: the keyword, or 0.02 for an open shell and 0.0
      otherwise, overridden by 0.01 for twocon. */
  method ReadDiisDamp(kv: KeyVal, iopen: int, twocon: int) returns (d: real)
    ensures d == RealOr(kv, KDiisDamp, if twocon != 0 then 0.01 else if iopen != 0 then 0.02 else 0.0)
  {
    if KDiisDamp in kv.reals {
      d := kv.reals[KDiisDamp];
    } else {
      d := if iopen != 0 then 0.02 else 0.0;
      if twocon != 0 {
        d := 0.01;
      }
    }
  }

  /** The keywords scf_init_scf_struct reads after the opentype, up to
      the level shift, in its order; the defaults that depend on the shell
      type read iopen and twocon from the record. */
  method ReadSettings(kv: KeyVal, info0: ScfStruct) returns (info: ScfStruct)
    requires OpenTypeOf(kv) != Unrecognized
    requires info0.status.iopen == Flag(IsOpenShell(OpenTypeOf(kv)))
    requires info0.shell.twocon == Flag(OpenTypeOf(kv) == TwoCon)
    ensures info == info0.(files := FilesOf(kv),
                           options := OptionsOf(kv).(diisFlag := info0.options.diisFlag),
                           controls := ControlsOf(kv, IsOpenShell(OpenTypeOf(kv))).(itDiis := info0.controls.itDiis),
                           damping := DampingOf(kv, OpenTypeOf(kv)),
                           intStore1 := BoolOr(kv, KIntStore1, 1), intStore2 := BoolOr(kv, KIntStore2, 1))
  {
    info := info0.(files := Files(StringOr(kv, KCkptDir, "./"), StringOr(kv, KFilename, "dmtscf")));
    var wfn := StringOr(kv, KWfn, "scf");
    var dertype := StringOr(kv, KDerType, "first");
    var c := info.controls;
    var convergence := ReadConvergence(kv, wfn, dertype);
    c := c.(convergence := convergence);
    var o := info.options;
    o := o.(restart := BoolOr(kv, KRestart, 0));
    o := o.(warmRestart := BoolOr(kv, KWarmRestart, 0));
    o := o.(projVector := BoolOr(kv, KProjectedGuess, 0));
    o := o.(useSymmetry := 0);
    c := c.(maxIter := IntOr(kv, KMaxIter, 40));
    o := o.(debug := BoolOr(kv, KDebug, 0));
    o := o.(debugNode := BoolOr(kv, KDebugNode, 0));
    o := o.(loadBal := BoolOr(kv, KLoadBalanceGmat, 0));
    o := o.(dft := BoolOr(kv, KDft, 0));
    o := o.(scdft := BoolOr(kv, KScdft, 0));
    o := o.(exchange := BoolOr(kv, KExchange, 0));
    o := o.(eliminate := BoolOr(kv, KEliminate, 1));
    o := o.(ckptDel := BoolOr(kv, KCkptDel, 1));
    c := c.(printFlag := IntOr(kv, KPrintFlag, 0));
    c := c.(ckptFreq := IntOr(kv, KCkptFreq, 5));
    c := c.(pResetFreq := IntOr(kv, KDensityResetFrequency, 10));
    o := o.(localP := BoolOr(kv, KLocalP, 0));
    c := c.(intCut := IntOr(kv, KThreshold, 12));
    c := c.(intStore := IntOr(kv, KIntegralStorage, 0));
    info := info.(intStore1 := BoolOr(kv, KIntStore1, 1));
    info := info.(intStore2 := BoolOr(kv, KIntStore2, 1));
    c := c.(ndiis := IntOr(kv, KNdiis, if info.status.iopen != 0 then 4 else 6));
    c := c.(fockType := IntOr(kv, KFockType, 0));
    var d := info.damping;
    var diisDamp := ReadDiisDamp(kv, info.status.iopen, info.shell.twocon);
    d := d.(diisDamp := diisDamp);
    d := d.(levelShift := RealOr(kv, KLevelShift, if info.status.iopen != 0 then 1.0 else 0.0));
    info := info.(options := o, controls := c, damping := d);
  }

  /** The occupation part of scf_init_scf_struct: nclosed from docc, or
      for a closed shell from the nuclear and net charges, failing (-1)
      when those do not give whole pairs. */
  method ReadOccupation(kv: KeyVal, charges: seq<real>, info0: ScfStruct) returns (ok: bool, info: ScfStruct)
    ensures ok <==> Nclosed(kv, charges, info0.status.iopen != 0).Some?
    ensures ok ==> info == info0.(occ := info0.occ.(nclosed := Nclosed(kv, charges, info0.status.iopen != 0).value))
  {
    var nuclearCharge := NuclearCharge(charges);
    var netCharge := RealOr(kv, KNetCharge, 0.0);
    info := info0.(occ := info0.occ.(nclosed := IntOr(kv, KDocc, 0)));
    if KDocc !in kv.ints && info.status.iopen == 0 {
      info := info.(occ := info.occ.(nclosed := TruncToInt((nuclearCharge - netCharge + 0.5) / 2.0)));
      if Abs(nuclearCharge - netCharge - 2.0 * info.occ.nclosed as real) > 0.00001 {
        return false, info;
      }
    }
    ok := true;
  }

  /** The tail of scf_init_scf_struct: DIIS switch and start, the
      open-shell coupling weights (beta stored negated) and the basis
      dimensions, all of C1 symmetry. */
  method ReadIterationSetup(kv: KeyVal, nbasis: nat, info0: ScfStruct) returns (info: ScfStruct)
    ensures info == info0.(options := info0.options.(diisFlag := BoolOr(kv, KDiis, 1)),
                           controls := info0.controls.(itDiis := IntOr(kv, KDiisStart, 0)),
                           weights := if info0.status.iopen != 0 then WeightsOf(kv, true) else info0.weights,
                           dims := DimsOf(nbasis))
  {
    info := info0.(options := info0.options.(diisFlag := BoolOr(kv, KDiis, 1)));
    info := info.(controls := info.controls.(itDiis := IntOr(kv, KDiisStart, 0)));
    if info.status.iopen != 0 {
      info := info.(weights := info.weights.(alpha := RealOr(kv, KAlpha, 0.0)));
      info := info.(weights := info.weights.(beta := RealOr(kv, KBeta, -1.0)));
      info := info.(weights := info.weights.(beta := -info.weights.beta));
    }
    var ntri := nbasis * (nbasis + 1) / 2;
    var dims := info.dims.(nbfao := nbasis, nbatri := ntri);
    dims := dims.(nbfso := nbasis, nbstri := ntri);
    dims := dims.(nsomax := nbasis, mxcoef := nbasis * nbasis, mxcoef2 := ntri);
    info := info.(dims := dims);
  }

  /** scf_init_scf_struct: fills the record field by field from the
      KeyVal, returning 0, or -1 for an unrecognised opentype, an open
      shell without socc, or a closed shell whose electrons do not pair. */
  method InitScfStruct(kv: KeyVal, charges: seq<real>, nbasis: nat) returns (status: int, info: ScfStruct)
    ensures status == 0 || status == -1
    ensures status == 0 <==> Configured(kv, charges, nbasis).Some?
    ensures status == 0 ==> info == Configured(kv, charges, nbasis).value
  {
    info := Cleared();
    var ok;
    ok, info := ReadOpenType(kv, info);
    if !ok {
      return -1, info;
    }
    info := ReadSettings(kv, info);
    ok, info := ReadOccupation(kv, charges, info);
    if !ok {
      return -1, info;
    }
    info := ReadIterationSetup(kv, nbasis, info);
    status := 0;
  }

  // ---------------------------------------------------------------------
  // Properties of the configured record

  /** An accepted open-shell type sets iopen and exactly its own flag;
      uhf sets only uhf and leaves iopen 0; no opentype, or "none", sets
      no flag. */
  lemma {:induction false} OpenTypeFlags(kv: KeyVal, charges: seq<real>, nbasis: nat)
    requires Configured(kv, charges, nbasis).Some?
    ensures var info := Configured(kv, charges, nbasis).value;
      var t := OpenTypeOf(kv);
      && (info.status.iopen == 1 <==> IsOpenShell(t))
      && (info.shell.hsos == 1 <==> t == HighSpin)
      && (info.shell.singlet == 1 <==> t == OpenSinglet)
      && (info.shell.twocon == 1 <==> t == TwoCon)
      && (info.shell.special == 1 <==> t == Special)
      && (info.shell.uhf == 1 <==> t == Uhf)
      && (t == NoOpenType ==> info.status.iopen == 0 && info.shell == ShellFlags(0, 0, 0, 0, 0))
  {
  }

  /** Where scf_init_scf_struct fails: an unrecognised opentype, or an
      open-shell type without socc. */
  lemma {:induction false} OpenTypeErrors(kv: KeyVal, charges: seq<real>, nbasis: nat)
    ensures OpenTypeOf(kv) == Unrecognized ==> Configured(kv, charges, nbasis).None?
    ensures IsOpenShell(OpenTypeOf(kv)) && KSocc !in kv.ints ==> Configured(kv, charges, nbasis).None?
  {
  }

  /** The convergence when none is given: 12 for second derivatives, else
      10 for a correlated wavefunction, else 7. */
  lemma {:induction false} ConvergenceDefault(kv: KeyVal, open: bool)
    requires KConvergence !in kv.ints
    ensures var c := ControlsOf(kv, open).convergence;
      var wfn := StringOr(kv, KWfn, "scf");
      var dertype := StringOr(kv, KDerType, "first");
      && (dertype == "second" <==> c == 12)
      && (dertype != "second" && wfn != "scf" <==> c == 10)
      && (dertype != "second" && wfn == "scf" <==> c == 7)
  {
  }

  /** The defaults that depend on the shell type when the keywords are
      absent: ndiis 4 or 6, diisdamp 0.02, 0.01 for twocon, or 0.0, the
      level shift 1.0 or 0.0, and for an open shell a stored beta of 1. */
  lemma {:induction false} ShellDefaults(kv: KeyVal, charges: seq<real>, nbasis: nat)
    requires Configured(kv, charges, nbasis).Some?
    requires KNdiis !in kv.ints && KDiisDamp !in kv.reals && KLevelShift !in kv.reals && KBeta !in kv.reals
    ensures var info := Configured(kv, charges, nbasis).value;
      var open := info.status.iopen == 1;
      && info.controls.ndiis == (if open then 4 else 6)
      && info.damping.diisDamp == (if info.shell.twocon == 1 then 0.01 else if open then 0.02 else 0.0)
      && info.damping.levelShift == (if open then 1.0 else 0.0)
      && (open ==> info.weights.beta == 1.0)
  {
  }

  /** A whole number e of electrons pairs into e / 2 closed shells when e
      is even and fails when it is odd. */
  lemma {:induction false} ClosedShellPairs(z: real, net: real, e: nat)
    requires z - net == e as real
    ensures ClosedShellCount(z, net).Some? <==> e % 2 == 0
    ensures e % 2 == 0 ==> ClosedShellCount(z, net) == Some(e / 2)
  {
    var m := e / 2;
    var x := (z - net + 0.5) / 2.0;
    if e % 2 == 0 {
      assert x == m as real + 0.25;
      assert x.Floor == m;
    } else {
      assert x == m as real + 0.75;
      assert x.Floor == m;
      assert z - net - 2.0 * m as real == 1.0;
    }
  }

  // ---------------------------------------------------------------------
  // The state stream

  /** One item of a state stream. */
  datatype Datum = DInt(i: int) | DReal(x: real) | DString(s: string)

  /** A StateOut: the items written so far. */
  class StateOut {
    var data: seq<Datum>

    constructor ()
      ensures data == []
    {
      data := [];
    }

    method PutInt(v: int)
      modifies this
      ensures data == old(data) + [DInt(v)]
    {
      data := data + [DInt(v)];
    }

    method PutReal(v: real)
      modifies this
      ensures data == old(data) + [DReal(v)]
    {
      data := data + [DReal(v)];
    }

    method PutString(v: string)
      modifies this
      ensures data == old(data) + [DString(v)]
    {
      data := data + [DString(v)];
    }
  }

  /** A StateIn: the items of a stream and the position of the next one
      to read.  A read expects an item of the type it reads. */
  class StateIn {
    const data: seq<Datum>
    var pos: nat

    constructor (s: seq<Datum>)
      ensures data == s && pos == 0
    {
      data := s;
      pos := 0;
    }

    method GetInt() returns (v: int)
      requires pos < |data| && data[pos].DInt?
      modifies this
      ensures pos == old(pos) + 1 && v == data[old(pos)].i
    {
      v := data[pos].i;
      pos := pos + 1;
    }

    method GetReal() returns (v: real)
      requires pos < |data| && data[pos].DReal?
      modifies this
      ensures pos == old(pos) + 1 && v == data[old(pos)].x
    {
      v := data[pos].x;
      pos := pos + 1;
    }

    method GetString() returns (v: string)
      requires pos < |data| && data[pos].DString?
      modifies this
      ensures pos == old(pos) + 1 && v == data[old(pos)].s
    {
      v := data[pos].s;
      pos := pos + 1;
    }
  }

  /** The items of each block, in the order put_scf_struct writes them. */
  function ShellData(f: ShellFlags): seq<Datum>
  {
    [DInt(f.hsos), DInt(f.singlet), DInt(f.special), DInt(f.twocon), DInt(f.uhf)]
  }

  function OptionsData(o: Options): seq<Datum>
  {
    OptionsHead(o) + OptionsTail(o)
  }

  function OptionsHead(o: Options): seq<Datum>
  {
    [DInt(o.useSymmetry), DInt(o.restart), DInt(o.warmRestart), DInt(o.projVector),
     DInt(o.diisFlag), DInt(o.ckptDel), DInt(o.localP)]
  }

  function OptionsTail(o: Options): seq<Datum>
  {
    [DInt(o.eliminate), DInt(o.exchange), DInt(o.loadBal), DInt(o.scdft), DInt(o.dft),
     DInt(o.debug), DInt(o.debugNode)]
  }

  function FilesData(f: Files): seq<Datum>
  {
    [DString(f.ckptDir), DString(f.fname)]
  }

  function ControlsData(c: Controls): seq<Datum>
  {
    [DInt(c.ckptFreq), DInt(c.convergence), DInt(c.maxIter), DInt(c.intCut), DInt(c.intStore),
     DInt(c.pResetFreq), DInt(c.ndiis), DInt(c.itDiis), DInt(c.fockType), DInt(c.printFlag)]
  }

  function DampingData(d: Damping): seq<Datum>
  {
    [DReal(d.diisDamp), DReal(d.levelShift)]
  }

  function StatusData(s: Status): seq<Datum>
  {
    [DInt(s.iopen), DInt(s.converged)]
  }

  function DimsData(d: Dims): seq<Datum>
  {
    [DInt(d.nbfao), DInt(d.nbfso), DInt(d.nbstri), DInt(d.nbatri), DInt(d.nsomax),
     DInt(d.mxcoef), DInt(d.mxcoef2)]
  }

  function OccupationData(o: Occupation): seq<Datum>
  {
    [DInt(o.nclosed), DInt(o.nopen)]
  }

  function EnergiesData(e: Energies): seq<Datum>
  {
    [DReal(e.nucRep), DReal(e.eElec), DReal(e.diisError), DReal(e.eExc)]
  }

  function WeightsData(w: Weights): seq<Datum>
  {
    [DReal(w.alpha), DReal(w.beta)]
  }

  /** The items put_scf_struct writes for info, block by block. */
  function Record(info: ScfStruct): (r: seq<Datum>)
    ensures |r| == 50
  {
    ShellData(info.shell) + (OptionsData(info.options) + (FilesData(info.files)
      + (ControlsData(info.controls) + (DampingData(info.damping) + (StatusData(info.status)
      + (DimsData(info.dims) + (OccupationData(info.occ) + (EnergiesData(info.energies)
      + WeightsData(info.weights)))))))))
  }

  /** The writes of put_scf_struct, block by block. */
  method PutShell(so: StateOut, f: ShellFlags)
    modifies so
    ensures so.data == old(so.data) + ShellData(f)
  {
    so.PutInt(f.hsos);
    so.PutInt(f.singlet);
    so.PutInt(f.special);
    so.PutInt(f.twocon);
    so.PutInt(f.uhf);
  }

  method PutOptions(so: StateOut, o: Options)
    modifies so
    ensures so.data == old(so.data) + OptionsData(o)
  {
    ghost var d0 := so.data;
    PutOptionsHead(so, o);
    PutOptionsTail(so, o);
    Regroup(d0, OptionsHead(o), OptionsTail(o));
  }

  method PutOptionsHead(so: StateOut, o: Options)
    modifies so
    ensures so.data == old(so.data) + OptionsHead(o)
  {
    so.PutInt(o.useSymmetry);
    so.PutInt(o.restart);
    so.PutInt(o.warmRestart);
    so.PutInt(o.projVector);
    so.PutInt(o.diisFlag);
    so.PutInt(o.ckptDel);
    so.PutInt(o.localP);
  }

  method PutOptionsTail(so: StateOut, o: Options)
    modifies so
    ensures so.data == old(so.data) + OptionsTail(o)
  {
    so.PutInt(o.eliminate);
    so.PutInt(o.exchange);
    so.PutInt(o.loadBal);
    so.PutInt(o.scdft);
    so.PutInt(o.dft);
    so.PutInt(o.debug);
    so.PutInt(o.debugNode);
  }

  method PutFiles(so: StateOut, f: Files)
    modifies so
    ensures so.data == old(so.data) + FilesData(f)
  {
    so.PutString(f.ckptDir);
    so.PutString(f.fname);
  }

  method PutControls(so: StateOut, c: Controls)
    modifies so
    ensures so.data == old(so.data) + ControlsData(c)
  {
    so.PutInt(c.ckptFreq);
    so.PutInt(c.convergence);
    so.PutInt(c.maxIter);
    so.PutInt(c.intCut);
    so.PutInt(c.intStore);
    so.PutInt(c.pResetFreq);
    so.PutInt(c.ndiis);
    so.PutInt(c.itDiis);
    so.PutInt(c.fockType);
    so.PutInt(c.printFlag);
  }

  method PutDamping(so: StateOut, d: Damping)
    modifies so
    ensures so.data == old(so.data) + DampingData(d)
  {
    so.PutReal(d.diisDamp);
    so.PutReal(d.levelShift);
  }

  method PutStatus(so: StateOut, st: Status)
    modifies so
    ensures so.data == old(so.data) + StatusData(st)
  {
    so.PutInt(st.iopen);
    so.PutInt(st.converged);
  }

  method PutDims(so: StateOut, d: Dims)
    modifies so
    ensures so.data == old(so.data) + DimsData(d)
  {
    so.PutInt(d.nbfao);
    so.PutInt(d.nbfso);
    so.PutInt(d.nbstri);
    so.PutInt(d.nbatri);
    so.PutInt(d.nsomax);
    so.PutInt(d.mxcoef);
    so.PutInt(d.mxcoef2);
  }

  method PutOccupation(so: StateOut, o: Occupation)
    modifies so
    ensures so.data == old(so.data) + OccupationData(o)
  {
    so.PutInt(o.nclosed);
    so.PutInt(o.nopen);
  }

  method PutEnergies(so: StateOut, e: Energies)
    modifies so
    ensures so.data == old(so.data) + EnergiesData(e)
  {
    so.PutReal(e.nucRep);
    so.PutReal(e.eElec);
    so.PutReal(e.diisError);
    so.PutReal(e.eExc);
  }

  method PutWeights(so: StateOut, w: Weights)
    modifies so
    ensures so.data == old(so.data) + WeightsData(w)
  {
    so.PutReal(w.alpha);
    so.PutReal(w.beta);
  }

  /** put_scf_struct: writes the fields of the record in the fixed order. */
  method PutScfStruct(so: StateOut, info: ScfStruct)
    modifies so
    ensures so.data == old(so.data) + Record(info)
  {
    ghost var d0 := so.data;
    PutShell(so, info.shell);
    ghost var d1 := so.data;
    PutOptions(so, info.options);
    ghost var d2 := so.data;
    PutFiles(so, info.files);
    ghost var d3 := so.data;
    PutControls(so, info.controls);
    ghost var d4 := so.data;
    PutDamping(so, info.damping);
    ghost var d5 := so.data;
    PutStatus(so, info.status);
    ghost var d6 := so.data;
    PutDims(so, info.dims);
    ghost var d7 := so.data;
    PutOccupation(so, info.occ);
    ghost var d8 := so.data;
    PutEnergies(so, info.energies);
    ghost var d9 := so.data;
    PutWeights(so, info.weights);
    // Regroup the blocks, last first, into the nesting of Record.
    ghost var r := WeightsData(info.weights);
    Regroup(d8, EnergiesData(info.energies), r);
    r := EnergiesData(info.energies) + r;
    Regroup(d7, OccupationData(info.occ), r);
    r := OccupationData(info.occ) + r;
    Regroup(d6, DimsData(info.dims), r);
    r := DimsData(info.dims) + r;
    Regroup(d5, StatusData(info.status), r);
    r := StatusData(info.status) + r;
    Regroup(d4, DampingData(info.damping), r);
    r := DampingData(info.damping) + r;
    Regroup(d3, ControlsData(info.controls), r);
    r := ControlsData(info.controls) + r;
    Regroup(d2, FilesData(info.files), r);
    r := FilesData(info.files) + r;
    Regroup(d1, OptionsData(info.options), r);
    r := OptionsData(info.options) + r;
    Regroup(d0, ShellData(info.shell), r);
  }

  lemma Regroup(a: seq<Datum>, b: seq<Datum>, c: seq<Datum>)
    ensures (a + b) + c == a + (b + c)
  {
  }

  /** n items of one type from position p on. */
  predicate IntsAt(s: seq<Datum>, p: nat, n: nat)
  {
    p + n <= |s| && forall k :: p <= k < p + n ==> s[k].DInt?
  }

  predicate RealsAt(s: seq<Datum>, p: nat, n: nat)
  {
    p + n <= |s| && forall k :: p <= k < p + n ==> s[k].DReal?
  }

  predicate StringsAt(s: seq<Datum>, p: nat, n: nat)
  {
    p + n <= |s| && forall k :: p <= k < p + n ==> s[k].DString?
  }

  /** What get_scf_struct reads for each block from position p. */
  function LoadShell(s: seq<Datum>, p: nat): ShellFlags
    requires IntsAt(s, p, 5)
  {
    ShellFlags(s[p].i, s[p + 1].i, s[p + 2].i, s[p + 3].i, s[p + 4].i)
  }

  function LoadOptions(s: seq<Datum>, p: nat): Options
    requires IntsAt(s, p, 14)
  {
    Options(s[p].i, s[p + 1].i, s[p + 2].i, s[p + 3].i, s[p + 4].i, s[p + 5].i, s[p + 6].i,
            s[p + 7].i, s[p + 8].i, s[p + 9].i, s[p + 10].i, s[p + 11].i, s[p + 12].i, s[p + 13].i)
  }

  function LoadFiles(s: seq<Datum>, p: nat): Files
    requires StringsAt(s, p, 2)
  {
    Files(s[p].s, s[p + 1].s)
  }

  function LoadControls(s: seq<Datum>, p: nat): Controls
    requires IntsAt(s, p, 10)
  {
    Controls(s[p].i, s[p + 1].i, s[p + 2].i, s[p + 3].i, s[p + 4].i,
             s[p + 5].i, s[p + 6].i, s[p + 7].i, s[p + 8].i, s[p + 9].i)
  }

  function LoadDamping(s: seq<Datum>, p: nat): Damping
    requires RealsAt(s, p, 2)
  {
    Damping(s[p].x, s[p + 1].x)
  }

  function LoadStatus(s: seq<Datum>, p: nat): Status
    requires IntsAt(s, p, 2)
  {
    Status(s[p].i, s[p + 1].i)
  }

  function LoadDims(s: seq<Datum>, p: nat): Dims
    requires IntsAt(s, p, 7)
  {
    Dims(s[p].i, s[p + 1].i, s[p + 2].i, s[p + 3].i, s[p + 4].i, s[p + 5].i, s[p + 6].i)
  }

  function LoadOccupation(s: seq<Datum>, p: nat): Occupation
    requires IntsAt(s, p, 2)
  {
    Occupation(s[p].i, s[p + 1].i)
  }

  function LoadEnergies(s: seq<Datum>, p: nat): Energies
    requires RealsAt(s, p, 4)
  {
    Energies(s[p].x, s[p + 1].x, s[p + 2].x, s[p + 3].x)
  }

  function LoadWeights(s: seq<Datum>, p: nat): Weights
    requires RealsAt(s, p, 2)
  {
    Weights(s[p].x, s[p + 1].x)
  }

  /** The items from position p on have the types get_scf_struct reads. */
  predicate Readable(s: seq<Datum>, p: nat)
  {
    IntsAt(s, p, 5) && IntsAt(s, p + 5, 14) && StringsAt(s, p + 19, 2) && IntsAt(s, p + 21, 10)
      && RealsAt(s, p + 31, 2) && IntsAt(s, p + 33, 2) && IntsAt(s, p + 35, 7)
      && IntsAt(s, p + 42, 2) && RealsAt(s, p + 44, 4) && RealsAt(s, p + 48, 2)
  }

  /** What get_scf_struct makes of info when it reads the items of s from
      position p: every streamed field replaced, the rest kept. */
  function Load(s: seq<Datum>, p: nat, info: ScfStruct): ScfStruct
    requires Readable(s, p)
  {
    info.(shell := LoadShell(s, p), options := LoadOptions(s, p + 5), files := LoadFiles(s, p + 19),
          controls := LoadControls(s, p + 21), damping := LoadDamping(s, p + 31),
          status := LoadStatus(s, p + 33), dims := LoadDims(s, p + 35),
          occ := LoadOccupation(s, p + 42), energies := LoadEnergies(s, p + 44),
          weights := LoadWeights(s, p + 48))
  }

  /** The reads of get_scf_struct, block by block. */
  method GetShell(si: StateIn) returns (f: ShellFlags)
    requires IntsAt(si.data, si.pos, 5)
    modifies si
    ensures si.pos == old(si.pos) + 5 && f == LoadShell(si.data, old(si.pos))
  {
    var hsos := si.GetInt();
    var singlet := si.GetInt();
    var special := si.GetInt();
    var twocon := si.GetInt();
    var uhf := si.GetInt();
    f := ShellFlags(hsos, singlet, special, twocon, uhf);
  }

  method GetOptions(si: StateIn) returns (o: Options)
    requires IntsAt(si.data, si.pos, 14)
    modifies si
    ensures si.pos == old(si.pos) + 14 && o == LoadOptions(si.data, old(si.pos))
  {
    var useSymmetry := si.GetInt();
    var restart := si.GetInt();
    var warmRestart := si.GetInt();
    var projVector := si.GetInt();
    var diisFlag := si.GetInt();
    var ckptDel := si.GetInt();
    var localP := si.GetInt();
    var eliminate := si.GetInt();
    var exchange := si.GetInt();
    var loadBal := si.GetInt();
    var scdft := si.GetInt();
    var dft := si.GetInt();
    var debug := si.GetInt();
    var debugNode := si.GetInt();
    o := Options(useSymmetry, restart, warmRestart, projVector, diisFlag, ckptDel, localP,
                 eliminate, exchange, loadBal, scdft, dft, debug, debugNode);
  }

  method GetFiles(si: StateIn) returns (f: Files)
    requires StringsAt(si.data, si.pos, 2)
    modifies si
    ensures si.pos == old(si.pos) + 2 && f == LoadFiles(si.data, old(si.pos))
  {
    var ckptDir := si.GetString();
    var fname := si.GetString();
    f := Files(ckptDir, fname);
  }

  method GetControls(si: StateIn) returns (c: Controls)
    requires IntsAt(si.data, si.pos, 10)
    modifies si
    ensures si.pos == old(si.pos) + 10 && c == LoadControls(si.data, old(si.pos))
  {
    var ckptFreq := si.GetInt();
    var convergence := si.GetInt();
    var maxIter := si.GetInt();
    var intCut := si.GetInt();
    var intStore := si.GetInt();
    var pResetFreq := si.GetInt();
    var ndiis := si.GetInt();
    var itDiis := si.GetInt();
    var fockType := si.GetInt();
    var printFlag := si.GetInt();
    c := Controls(ckptFreq, convergence, maxIter, intCut, intStore, pResetFreq, ndiis, itDiis,
                  fockType, printFlag);
  }

  method GetDamping(si: StateIn) returns (d: Damping)
    requires RealsAt(si.data, si.pos, 2)
    modifies si
    ensures si.pos == old(si.pos) + 2 && d == LoadDamping(si.data, old(si.pos))
  {
    var diisDamp := si.GetReal();
    var levelShift := si.GetReal();
    d := Damping(diisDamp, levelShift);
  }

  method GetStatus(si: StateIn) returns (st: Status)
    requires IntsAt(si.data, si.pos, 2)
    modifies si
    ensures si.pos == old(si.pos) + 2 && st == LoadStatus(si.data, old(si.pos))
  {
    var iopen := si.GetInt();
    var converged := si.GetInt();
    st := Status(iopen, converged);
  }

  method GetDims(si: StateIn) returns (d: Dims)
    requires IntsAt(si.data, si.pos, 7)
    modifies si
    ensures si.pos == old(si.pos) + 7 && d == LoadDims(si.data, old(si.pos))
  {
    var nbfao := si.GetInt();
    var nbfso := si.GetInt();
    var nbstri := si.GetInt();
    var nbatri := si.GetInt();
    var nsomax := si.GetInt();
    var mxcoef := si.GetInt();
    var mxcoef2 := si.GetInt();
    d := Dims(nbfao, nbfso, nbstri, nbatri, nsomax, mxcoef, mxcoef2);
  }

  method GetOccupation(si: StateIn) returns (o: Occupation)
    requires IntsAt(si.data, si.pos, 2)
    modifies si
    ensures si.pos == old(si.pos) + 2 && o == LoadOccupation(si.data, old(si.pos))
  {
    var nclosed := si.GetInt();
    var nopen := si.GetInt();
    o := Occupation(nclosed, nopen);
  }

  method GetEnergies(si: StateIn) returns (e: Energies)
    requires RealsAt(si.data, si.pos, 4)
    modifies si
    ensures si.pos == old(si.pos) + 4 && e == LoadEnergies(si.data, old(si.pos))
  {
    var nucRep := si.GetReal();
    var eElec := si.GetReal();
    var diisError := si.GetReal();
    var eExc := si.GetReal();
    e := Energies(nucRep, eElec, diisError, eExc);
  }

  method GetWeights(si: StateIn) returns (w: Weights)
    requires RealsAt(si.data, si.pos, 2)
    modifies si
    ensures si.pos == old(si.pos) + 2 && w == LoadWeights(si.data, old(si.pos))
  {
    var alpha := si.GetReal();
    var beta := si.GetReal();
    w := Weights(alpha, beta);
  }

  /** get_scf_struct: reads the fields back in the same order; the fields
      the stream does not hold keep their values. */
  method GetScfStruct(si: StateIn, info0: ScfStruct) returns (info: ScfStruct)
    requires Readable(si.data, si.pos)
    modifies si
    ensures si.pos == old(si.pos) + 50
    ensures info == Load(si.data, old(si.pos), info0)
  {
    var shell := GetShell(si);
    var options := GetOptions(si);
    var files := GetFiles(si);
    var controls := GetControls(si);
    var damping := GetDamping(si);
    var status := GetStatus(si);
    var dims := GetDims(si);
    var occ := GetOccupation(si);
    var energies := GetEnergies(si);
    var weights := GetWeights(si);
    info := info0.(shell := shell, options := options, files := files, controls := controls,
                   damping := damping, status := status, dims := dims, occ := occ,
                   energies := energies, weights := weights);
  }

  lemma {:induction false} PutThenGet(prefix: seq<Datum>, info: ScfStruct, reader: ScfStruct)
    ensures Readable(prefix + Record(info), |prefix|)
    ensures Load(prefix + Record(info), |prefix|, reader)
            == info.(intStore1 := reader.intStore1, intStore2 := reader.intStore2)
  {
  }
}
