/** simple_corr: checks that the two subjects have the same number of epochs,
    builds the analytic signal with the builder the frequency specification
    calls for, and hands it to compute_sync with the caller's flags. */
module Facade {
  import opened Errors
  import opened Tensors
  import opened Signals
  import opened Modes
  import opened Builders
  import opened Engine

  /** The `frequencies` argument: a list whose first two entries bound an
      integer range, a dict of named bands in insertion order, or a value of
      any other type. */
  datatype FrequencySpec =
    | FreqList(range: seq<int>)
    | FreqDict(bands: seq<NamedBand>)
    | OtherSpec

  /** The frequency-axis length a specification yields. */
  function SpecFreqCount(spec: FrequencySpec): nat {
    match spec
    case FreqList(rg) => if |rg| >= 2 && rg[0] < rg[1] then rg[1] - rg[0] else 0
    case FreqDict(bands) => |bands|
    case OtherSpec => 0
  }

  /** The list/dict dispatch of simple_corr; any other specification leaves
      the analytic signal unbound. */
  function AnalyticOf<X, T>(data: Dyad<X>, spec: FrequencySpec, p: Primitives<X, T>): (r: Result<Analytic<T>, Error>)
    requires data.Valid() && data.SameEpochs()
    ensures r.Ok? ==>
              && r.value.Valid()
              && r.value.dims == Dims(data.first.nEpoch, data.first.nCh, SpecFreqCount(spec), data.first.nSamp)
    ensures spec.OtherSpec? ==> r == Err(NoFrequencyBuilder)
  {
    match spec
    case FreqList(rg) => SingleFreq(data, rg, p)
    case FreqDict(bands) => FreqBands(data, bands, p)
    case OtherSpec => Err(NoFrequencyBuilder)
  }

  /** simple_corr. Different epoch counts fail before anything else,
      whatever the other arguments; a success means the metric name was
      supported, and its frequency axis has the length the specification
      calls for. */
  function SimpleCorr<X, T, R>(data: Dyad<X>, spec: FrequencySpec, mode: string, epochWise: bool, timeResolved: bool,
                               p: Primitives<X, T>, num: Numerics<T, R>): (r: Result<Connectivity<R>, Error>)
    requires data.Valid()
    ensures !data.SameEpochs() ==> r == Err(InputMismatch)
    ensures data.SameEpochs() && spec.OtherSpec? ==> r == Err(NoFrequencyBuilder)
    ensures r.Ok? ==> ParseMode(mode).Ok?
    ensures r.Ok? ==> FreqCount(r.value) == SpecFreqCount(spec)
  {
    if data.first.nEpoch != data.second.nEpoch then Err(InputMismatch)
    else
      var values :- AnalyticOf(data, spec, p);
      ComputeSync(values, mode, epochWise, timeResolved, num)
  }

  /** A list goes to the single-frequency builder and a dict to the band
      builder; the builder's output reaches compute_sync unchanged, with the
      caller's mode and flags. */
  lemma Routing<X, T, R>(data: Dyad<X>, spec: FrequencySpec, mode: string, epochWise: bool, timeResolved: bool,
                         p: Primitives<X, T>, num: Numerics<T, R>)
    requires data.Valid() && data.SameEpochs() && !spec.OtherSpec?
    ensures var built := if spec.FreqList? then SingleFreq(data, spec.range, p) else FreqBands(data, spec.bands, p);
            SimpleCorr(data, spec, mode, epochWise, timeResolved, p, num) ==
            (match built
             case Ok(v) => ComputeSync(v, mode, epochWise, timeResolved, num)
             case Err(e) => Err(e))
  {
  }

  /** End to end, list specification, per epoch: entry [f][e][j][i] is the
      kernel on the multitaper series of subject 0 channel i and subject 1
      channel j at frequency range[0] + f in epoch e. */
  lemma ListEpochWiseLaw<X, T, R>(data: Dyad<X>, rg: seq<int>, mode: string, p: Primitives<X, T>, num: Numerics<T, R>)
    requires data.Valid() && data.SameEpochs() && |rg| >= 2 && ParseMode(mode).Ok?
    ensures var r := SimpleCorr(data, FreqList(rg), mode, true, false, p, num);
            var pr := PairingOf(ParseMode(mode).value);
            var sfreq := data.first.nSamp;
            && r.Ok? && r.value.PerEpoch?
            && Shape4(r.value.byEpoch, SpecFreqCount(FreqList(rg)), data.first.nEpoch, data.first.nCh, data.first.nCh)
            && forall f, e, j, i | 0 <= f < SpecFreqCount(FreqList(rg)) && 0 <= e < data.first.nEpoch && 0 <= j < data.first.nCh && 0 <= i < data.first.nCh ::
                 r.value.byEpoch[f][e][j][i] ==
                 num.metric(pr.kernel,
                   PreSeries(num, pr.pre, MultitaperSeries(p, data.first.samples[e][i], sfreq, rg[0] + f)),
                   PreSeries(num, pr.pre, MultitaperSeries(p, data.second.samples[e][j], sfreq, rg[0] + f)))
  {
    var v := SingleFreq(data, rg, p).value;
    EpochWiseLaw(v, mode, num);
    assert data.Subject(0) == data.first && data.Subject(1) == data.second;
  }

  /** End to end, dict specification, per epoch: a band with fewer than two
      edges or an empty dict fails; otherwise entry [f][e][j][i] is the
      kernel on the analytic signals of subject 0 channel i and subject 1
      channel j in the f-th band of the dict, in epoch e. */
  lemma BandEpochWiseLaw<X, T, R>(data: Dyad<X>, bands: seq<NamedBand>, mode: string, p: Primitives<X, T>, num: Numerics<T, R>)
    requires data.Valid() && data.SameEpochs() && ParseMode(mode).Ok?
    ensures !AllHaveEdges(bands) ==>
              SimpleCorr(data, FreqDict(bands), mode, true, false, p, num) == Err(FrequencyRangeTooShort)
    ensures |bands| == 0 ==>
              SimpleCorr(data, FreqDict(bands), mode, true, false, p, num) == Err(AxisOutOfRange)
    ensures AllHaveEdges(bands) && |bands| > 0 ==>
            var r := SimpleCorr(data, FreqDict(bands), mode, true, false, p, num);
            var pr := PairingOf(ParseMode(mode).value);
            var sfreq := data.first.nSamp;
            && r.Ok? && r.value.PerEpoch?
            && Shape4(r.value.byEpoch, |bands|, data.first.nEpoch, data.first.nCh, data.first.nCh)
            && forall f, e, j, i | 0 <= f < |bands| && 0 <= e < data.first.nEpoch && 0 <= j < data.first.nCh && 0 <= i < data.first.nCh ::
                 r.value.byEpoch[f][e][j][i] ==
                 num.metric(pr.kernel,
                   PreSeries(num, pr.pre, BandSeries(p, data.first.samples[e][i], sfreq, bands[f].edges[0], bands[f].edges[1])),
                   PreSeries(num, pr.pre, BandSeries(p, data.second.samples[e][j], sfreq, bands[f].edges[0], bands[f].edges[1])))
  {
    if AllHaveEdges(bands) && |bands| > 0 {
      var v := FreqBands(data, bands, p).value;
      EpochWiseLaw(v, mode, num);
      assert data.Subject(0) == data.first && data.Subject(1) == data.second;
    }
  }

  /** With the default flags (epoch-wise, averaged), a specification that
      yields no frequency, such as a list whose upper bound does not exceed
      its lower bound, fails when averaging; the unaveraged call returns the
      empty result. */
  lemma EmptyFrequencyAxisFails<X, T, R>(data: Dyad<X>, spec: FrequencySpec, mode: string,
                                         p: Primitives<X, T>, num: Numerics<T, R>)
    requires data.Valid() && data.SameEpochs() && AnalyticOf(data, spec, p).Ok? && ParseMode(mode).Ok?
    requires SpecFreqCount(spec) == 0
    ensures SimpleCorr(data, spec, mode, true, true, p, num) == Err(AxisOutOfRange)
    ensures SimpleCorr(data, spec, mode, true, false, p, num) == Ok(PerEpoch([]))
  {
    var v := AnalyticOf(data, spec, p).value;
    TimeResolvedLaw(v, mode, num);
  }

  /** An empty band dict fails at the axis move whatever the metric and
      flags, and a reversed frequency list fails under the default flags. */
  lemma EmptySpecifications<X, T, R>(data: Dyad<X>, mode: string, epochWise: bool, timeResolved: bool,
                                     p: Primitives<X, T>, num: Numerics<T, R>)
    requires data.Valid() && data.SameEpochs()
    ensures SimpleCorr(data, FreqDict([]), mode, epochWise, timeResolved, p, num) == Err(AxisOutOfRange)
    ensures ParseMode(mode).Ok? ==> SimpleCorr(data, FreqList([10, 5]), mode, true, true, p, num) == Err(AxisOutOfRange)
  {
    if ParseMode(mode).Ok? {
      EmptyFrequencyAxisFails(data, FreqList([10, 5]), mode, p, num);
    }
  }

  /** An unsupported metric name fails naming itself, in the epoch-wise and
      in the concatenated branch alike, whenever the epoch counts agree and
      the builder succeeds. */
  lemma UnsupportedMetricFails<X, T, R>(data: Dyad<X>, spec: FrequencySpec, mode: string, timeResolved: bool,
                                        p: Primitives<X, T>, num: Numerics<T, R>)
    requires data.Valid() && data.SameEpochs() && AnalyticOf(data, spec, p).Ok? && ParseMode(mode).Err?
    ensures SimpleCorr(data, spec, mode, true, timeResolved, p, num) == Err(UnsupportedMetric(mode))
    ensures SimpleCorr(data, spec, mode, false, timeResolved, p, num) == Err(UnsupportedMetric(mode))
  {
  }

  /** Concatenated mode over at least one epoch with a supported metric:
      one n_ch x n_ch matrix per frequency of the specification, the same
      whatever time_resolved says. */
  lemma ConcatenatedShape<X, T, R>(data: Dyad<X>, spec: FrequencySpec, mode: string,
                                   p: Primitives<X, T>, num: Numerics<T, R>)
    requires data.Valid() && data.SameEpochs() && data.first.nEpoch > 0
    requires AnalyticOf(data, spec, p).Ok? && ParseMode(mode).Ok?
    ensures var r := SimpleCorr(data, spec, mode, false, true, p, num);
            && r == SimpleCorr(data, spec, mode, false, false, p, num)
            && r.Ok? && r.value.Collapsed?
            && Shape3(r.value.matrices, SpecFreqCount(spec), data.first.nCh, data.first.nCh)
  {
  }

  /** One epoch and two channels per subject, frequencies [8, 10): the
      averaged envelope correlation is 2 x 2 x 2, and the name "notametric"
      fails naming itself in both branches. */
  lemma TwoChannelScenario<X, T, R>(data: Dyad<X>, p: Primitives<X, T>, num: Numerics<T, R>)
    requires data.Valid() && data.first.nEpoch == 1 && data.second.nEpoch == 1 && data.first.nCh == 2
    ensures var r := SimpleCorr(data, FreqList([8, 10]), "envelope", true, true, p, num);
            r.Ok? && r.value.Collapsed? && Shape3(r.value.matrices, 2, 2, 2)
    ensures SimpleCorr(data, FreqList([8, 10]), "notametric", true, true, p, num) == Err(UnsupportedMetric("notametric"))
    ensures SimpleCorr(data, FreqList([8, 10]), "notametric", false, true, p, num) == Err(UnsupportedMetric("notametric"))
  {
    var spec := FreqList([8, 10]);
    ParseName(Envelope);
    var built := AnalyticOf(data, spec, p);
    assert built.Ok? && built.value.dims.nFreq == 2 && built.value.dims.nCh == 2;
    var r := ComputeSync(built.value, "envelope", true, true, num);
    assert r.Ok? && r.value.Collapsed? && Shape3(r.value.matrices, 2, 2, 2);
    assert SimpleCorr(data, spec, "envelope", true, true, p, num) == r;
    forall m: Mode
      ensures Name(m) != "notametric"
    {
      assert |Name(m)| < |"notametric"|;
    }
    UnsupportedMetricFails(data, spec, "notametric", true, p, num);
  }
}
