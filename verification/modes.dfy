/** The closed set of synchrony metrics of compute_sync: each metric name
    selects an elementwise pre-transform of the analytic signal and a pairwise
    kernel applied to two time series. */
module Modes {
  import opened Errors

  /** Elementwise pre-transform applied to the whole analytic signal. */
  datatype Transform =
    | Magnitude        // np.abs
    | SquaredMagnitude // np.abs(.)**2
    | UnitPhasor       // x / np.abs(x)
    | Angle            // np.angle
    | Raw              // the complex values unchanged

  /** Pairwise metric over two time series. */
  datatype Kernel =
    | PearsonCorr        // _corrcoef
    | PhaseLocking       // _plv
    | CircularCorr       // astropy circcorrcoef
    | ProjectedPowerCorr // _proj_power_corr
    | ImaginaryCoherence // _icoh
    | Coherence          // _coh

  datatype Mode = Envelope | Power | Plv | CCorr | Proj | ImagCoh | Coh

  datatype Pairing = Pairing(pre: Transform, kernel: Kernel)

  /** The name by which callers request each metric. */
  function Name(m: Mode): string {
    match m
    case Envelope => "envelope"
    case Power => "power"
    case Plv => "plv"
    case CCorr => "ccorr"
    case Proj => "proj"
    case ImagCoh => "imagcoh"
    case Coh => "coh"
  }

  /** The metric table: which pre-transform feeds which kernel. */
  function PairingOf(m: Mode): Pairing {
    match m
    case Envelope => Pairing(Magnitude, PearsonCorr)
    case Power => Pairing(SquaredMagnitude, PearsonCorr)
    case Plv => Pairing(UnitPhasor, PhaseLocking)
    case CCorr => Pairing(Angle, CircularCorr)
    case Proj => Pairing(Raw, ProjectedPowerCorr)
    case ImagCoh => Pairing(Raw, ImaginaryCoherence)
    case Coh => Pairing(Raw, Coherence)
  }

  /** The modes in the order compute_sync tests for them. */
  const AllModes: seq<Mode> := [Envelope, Power, Plv, CCorr, Proj, ImagCoh, Coh]

  function PositionOf(m: Mode): (k: nat)
    ensures k < |AllModes| && AllModes[k] == m
  {
    match m
    case Envelope => 0
    case Power => 1
    case Plv => 2
    case CCorr => 3
    case Proj => 4
    case ImagCoh => 5
    case Coh => 6
  }

  /** The first mode of `ms` named `name`, or the error naming `name`. */
  function Lookup(name: string, ms: seq<Mode>): (r: Result<Mode, Error>)
    ensures r.Ok? ==> r.value in ms && Name(r.value) == name
    ensures r.Err? ==> r.error == UnsupportedMetric(name)
    ensures r.Err? ==> forall m | m in ms :: Name(m) != name
  {
    if |ms| == 0 then Err(UnsupportedMetric(name))
    else if Name(ms[0]) == name then Ok(ms[0])
    else Lookup(name, ms[1..])
  }

  /** Reads a metric name: the mode of that name, or UnsupportedMetric naming
      the string when no mode has it. */
  function ParseMode(name: string): (r: Result<Mode, Error>)
    ensures r.Ok? <==> exists m: Mode :: Name(m) == name
    ensures r.Ok? ==> Name(r.value) == name
    ensures r.Err? ==> r.error == UnsupportedMetric(name)
  {
    assert forall m: Mode :: m in AllModes by {
      forall m: Mode
        ensures m in AllModes
      {
        assert AllModes[PositionOf(m)] == m;
      }
    }
    Lookup(name, AllModes)
  }

  /** Distinct modes have distinct names, so every name is read back. */
  lemma ParseName(m: Mode)
    ensures ParseMode(Name(m)) == Ok(m)
  {
    var r := ParseMode(Name(m));
    assert r.Ok?;
    match m
    case Envelope =>
    case Power =>
    case Plv =>
    case CCorr =>
    case Proj =>
    case ImagCoh =>
    case Coh =>
  }

  /** Distinct modes compute different things: no two share both their
      pre-transform and their kernel. */
  lemma PairingInjective(m1: Mode, m2: Mode)
    ensures PairingOf(m1) == PairingOf(m2) ==> m1 == m2
  {
  }

  /** The reference dispatch: parse the name, then look the mode up in the
      metric table. */
  function Select(name: string): Result<Pairing, Error> {
    match ParseMode(name)
    case Ok(m) => Ok(PairingOf(m))
    case Err(e) => Err(e)
  }

  /** The if-chain of the epoch-wise branch of compute_sync. */
  function EpochWiseDispatch(mode: string): Result<Pairing, Error> {
    if mode == "envelope" then Ok(Pairing(Magnitude, PearsonCorr))
    else if mode == "power" then Ok(Pairing(SquaredMagnitude, PearsonCorr))
    else if mode == "plv" then Ok(Pairing(UnitPhasor, PhaseLocking))
    else if mode == "ccorr" then Ok(Pairing(Angle, CircularCorr))
    else if mode == "proj" then Ok(Pairing(Raw, ProjectedPowerCorr))
    else if mode == "imagcoh" then Ok(Pairing(Raw, ImaginaryCoherence))
    else if mode == "coh" then Ok(Pairing(Raw, Coherence))
    else Err(UnsupportedMetric(mode))
  }

  /** The if-chain of the concatenated branch of compute_sync, written out
      separately in the source. */
  function ConcatenatedDispatch(mode: string): Result<Pairing, Error> {
    if mode == "envelope" then Ok(Pairing(Magnitude, PearsonCorr))
    else if mode == "power" then Ok(Pairing(SquaredMagnitude, PearsonCorr))
    else if mode == "plv" then Ok(Pairing(UnitPhasor, PhaseLocking))
    else if mode == "ccorr" then Ok(Pairing(Angle, CircularCorr))
    else if mode == "proj" then Ok(Pairing(Raw, ProjectedPowerCorr))
    else if mode == "imagcoh" then Ok(Pairing(Raw, ImaginaryCoherence))
    else if mode == "coh" then Ok(Pairing(Raw, Coherence))
    else Err(UnsupportedMetric(mode))
  }

  /** Both branches of compute_sync agree with the metric table on every
      name: a supported name selects its mode's pre-transform and kernel, any
      other name fails naming itself. */
  lemma DispatchAgrees(mode: string)
    ensures EpochWiseDispatch(mode) == Select(mode)
    ensures ConcatenatedDispatch(mode) == Select(mode)
  {
    match ParseMode(mode)
    case Ok(m) =>
      match m {
        case Envelope =>
        case Power =>
        case Plv =>
        case CCorr =>
        case Proj =>
        case ImagCoh =>
        case Coh =>
      }
    case Err(_) =>
      assert forall m: Mode :: Name(m) != mode;
      assert Name(Envelope) != mode && Name(Power) != mode && Name(Plv) != mode;
      assert Name(CCorr) != mode && Name(Proj) != mode && Name(ImagCoh) != mode && Name(Coh) != mode;
  }
}
