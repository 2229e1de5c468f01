/** The analytic-signal builders: compute_single_freq (one multitaper
    transform per integer frequency of a range) and compute_freq_bands (band
    pass filter and Hilbert transform per named band). The numerical
    primitives of mne and scipy are parameters: each maps one time series to
    one output sample at a given position, so each keeps the series length
    (decim = 1 for the multitaper; filtering and the Hilbert transform act
    along the time axis and keep the shape). */
module Builders {
  import opened Errors
  import opened Tensors
  import opened Signals

  /** Arguments of mne.time_frequency.tfr_array_multitaper for one frequency. */
  datatype TfrParams = TfrParams(sfreq: nat, freq: int, nCycles: nat, zeroMean: bool, useFft: bool, decim: nat)

  /** Arguments of mne.filter.filter_data. */
  datatype FilterParams = FilterParams(sfreq: nat, low: int, high: int)

  /** The foreign numerical primitives, applied to one (epoch, channel)
      series and asked for the output sample at position `t`. */
  datatype Primitives<!X, T> = Primitives(
    multitaper: (seq<X>, TfrParams, nat) -> T,
    bandPass: (seq<X>, FilterParams, nat) -> X,
    hilbert: (seq<X>, nat) -> T)

  /** One entry of the band dict, in insertion order: its name and the list
      of band edges, of which the first two are the band's low and high
      cut-off frequencies. */
  datatype NamedBand = NamedBand(name: string, edges: seq<int>)

  /** Every band lists at least two edges, so `freq_band[0]` and
      `freq_band[1]` exist. */
  predicate AllHaveEdges(bands: seq<NamedBand>) {
    forall k | 0 <= k < |bands| :: |bands[k].edges| >= 2
  }

  /** The fixed multitaper settings: 4 cycles, no zero-mean wavelets, FFT
      convolution, no decimation, complex output. The sampling rate passed is
      the number of samples per epoch. */
  function MultitaperParams(sfreq: nat, freq: int): TfrParams {
    TfrParams(sfreq, freq, 4, false, true, 1)
  }

  /** The multitaper output for one series at one frequency. */
  function MultitaperSeries<X, T>(p: Primitives<X, T>, series: seq<X>, sfreq: nat, freq: int): (r: seq<T>)
    ensures |r| == |series|
  {
    seq(|series|, t requires 0 <= t < |series| => p.multitaper(series, MultitaperParams(sfreq, freq), t))
  }

  /** The analytic signal of one series in the band [low, high): band-pass
      filter, then Hilbert transform. */
  function BandSeries<X, T>(p: Primitives<X, T>, series: seq<X>, sfreq: nat, low: int, high: int): (r: seq<T>)
    ensures |r| == |series|
  {
    var filtered := seq(|series|, t requires 0 <= t < |series| =>
                      p.bandPass(series, FilterParams(sfreq, low, high), t));
    seq(|filtered|, t requires 0 <= t < |filtered| => p.hilbert(filtered, t))
  }

  /** np.arange(low, high, 1) on integers. */
  function FreqAxis(low: int, high: int): (r: seq<int>)
    decreases high - low
    ensures |r| == if low < high then high - low else 0
    ensures forall k | 0 <= k < |r| :: r[k] == low + k
  {
    if low < high then [low] + FreqAxis(low + 1, high) else []
  }

  /** The frequency axis holds exactly the integers of [low, high), each once,
      in ascending order. */
  lemma FreqAxisMembers(low: int, high: int)
    ensures forall f :: f in FreqAxis(low, high) <==> low <= f < high
    ensures forall k, l | 0 <= k < l < |FreqAxis(low, high)| :: FreqAxis(low, high)[k] < FreqAxis(low, high)[l]
  {
    var axis := FreqAxis(low, high);
    forall f | low <= f < high
      ensures f in axis
    {
      assert axis[f - low] == f;
    }
  }

  /** tfr_array_multitaper over one subject's (epochs, channels, times) array,
      giving (epochs, channels, frequencies, times). */
  function SubjectMultitaper<X, T>(p: Primitives<X, T>, rec: Recording<X>, sfreq: nat, freqs: seq<int>): seq<seq<seq<seq<T>>>>
    requires rec.Valid()
  {
    seq(rec.nEpoch, e requires 0 <= e < rec.nEpoch =>
      seq(rec.nCh, c requires 0 <= c < rec.nCh =>
        seq(|freqs|, f requires 0 <= f < |freqs| => MultitaperSeries(p, rec.samples[e][c], sfreq, freqs[f]))))
  }

  /** compute_single_freq: analytic signal at every integer frequency of
      [freqRange[0], freqRange[1]). A list shorter than two entries fails;
      otherwise frequency `f` of the axis is freqRange[0] + f, the axis has
      max(0, freqRange[1] - freqRange[0]) entries, and every other axis keeps
      its length. */
  function SingleFreq<X, T>(data: Dyad<X>, freqRange: seq<int>, p: Primitives<X, T>): (r: Result<Analytic<T>, Error>)
    requires data.Valid() && data.SameEpochs()
    ensures r.Err? <==> |freqRange| < 2
    ensures r.Err? ==> r.error == FrequencyRangeTooShort
    ensures r.Ok? ==>
              && r.value.Valid()
              && r.value.dims.nEpoch == data.first.nEpoch
              && r.value.dims.nCh == data.first.nCh
              && r.value.dims.nFreq == (if freqRange[0] < freqRange[1] then freqRange[1] - freqRange[0] else 0)
              && r.value.dims.nSamp == data.first.nSamp
    ensures r.Ok? ==>
              forall s, e, c, f | 0 <= s < 2 && 0 <= e < r.value.dims.nEpoch && 0 <= c < r.value.dims.nCh && 0 <= f < r.value.dims.nFreq ::
                r.value.values[s][e][c][f] == MultitaperSeries(p, data.Subject(s).samples[e][c], data.first.nSamp, freqRange[0] + f)
  {
    if |freqRange| < 2 then Err(FrequencyRangeTooShort)
    else
      var freqs := FreqAxis(freqRange[0], freqRange[1]);
      var sfreq := data.first.nSamp;
      var values := seq(2, s requires 0 <= s < 2 => SubjectMultitaper(p, data.Subject(s), sfreq, freqs));
      Ok(Analytic(Dims(data.first.nEpoch, data.first.nCh, |freqs|, sfreq), values))
  }

  /** Filter and Hilbert transform of both subjects in one band, shape
      (2, n_epochs, n_channels, n_times). */
  function BandStack<X, T>(p: Primitives<X, T>, data: Dyad<X>, sfreq: nat, low: int, high: int): seq<seq<seq<seq<T>>>>
    requires data.Valid()
  {
    seq(2, s requires 0 <= s < 2 =>
      var rec := data.Subject(s);
      seq(rec.nEpoch, e requires 0 <= e < rec.nEpoch =>
        seq(rec.nCh, c requires 0 <= c < rec.nCh => BandSeries(p, rec.samples[e][c], sfreq, low, high))))
  }

  /** The shape assertion of compute_freq_bands: passes exactly when the
      tensor has the expected shape (2, dims...). */
  function CheckShape<T>(values: seq<seq<seq<seq<seq<T>>>>>, dims: Dims): (r: Result<Analytic<T>, Error>)
    ensures r.Ok? <==> Shape5(values, 2, dims.nEpoch, dims.nCh, dims.nFreq, dims.nSamp)
    ensures r.Ok? ==> r.value.values == values && r.value.dims == dims && r.value.Valid()
    ensures r.Err? ==> r.error == ShapeMismatch
  {
    if Shape5(values, 2, dims.nEpoch, dims.nCh, dims.nFreq, dims.nSamp) then Ok(Analytic(dims, values))
    else Err(ShapeMismatch)
  }

  /** compute_freq_bands. Different epoch counts fail first (the assertion
      on entry), then a band with fewer than two edges (IndexError in the
      loop), then an empty dict (np.moveaxis of the shape-(0,) array); the
      shape assertion never fires, since the primitives keep the shape.
      Otherwise band `k` of the frequency axis is the k-th band of the dict
      in insertion order, and every other axis keeps its length. */
  function FreqBands<X, T>(data: Dyad<X>, bands: seq<NamedBand>, p: Primitives<X, T>): (r: Result<Analytic<T>, Error>)
    requires data.Valid()
    ensures r.Err? <==> !data.SameEpochs() || !AllHaveEdges(bands) || |bands| == 0
    ensures r.Err? ==>
              r.error == (if !data.SameEpochs() then InputMismatch
                          else if !AllHaveEdges(bands) then FrequencyRangeTooShort
                          else AxisOutOfRange)
    ensures r.Ok? ==>
              && r.value.Valid()
              && r.value.dims == Dims(data.first.nEpoch, data.first.nCh, |bands|, data.first.nSamp)
    ensures r.Ok? ==>
              forall s, e, c, k | 0 <= s < 2 && 0 <= e < r.value.dims.nEpoch && 0 <= c < r.value.dims.nCh && 0 <= k < |bands| ::
                r.value.values[s][e][c][k] ==
                BandSeries(p, data.Subject(s).samples[e][c], data.first.nSamp, bands[k].edges[0], bands[k].edges[1])
  {
    if data.first.nEpoch != data.second.nEpoch then Err(InputMismatch)
    else if !AllHaveEdges(bands) then Err(FrequencyRangeTooShort)
    else if |bands| == 0 then Err(AxisOutOfRange)
    else
      var nEpoch, nCh, nSamp := data.first.nEpoch, data.first.nCh, data.first.nSamp;
      var stacked := seq(|bands|, k requires 0 <= k < |bands| =>
                       BandStack(p, data, nSamp, bands[k].edges[0], bands[k].edges[1]));
      var moved := MoveAxis0To3(stacked, 2, nEpoch, nCh);
      assert Shape5(moved, 2, nEpoch, nCh, |bands|, nSamp) by {
        forall s, e, c, k | 0 <= s < 2 && 0 <= e < nEpoch && 0 <= c < nCh && 0 <= k < |bands|
          ensures |moved[s][e][c][k]| == nSamp
        {
          assert moved[s][e][c][k] == stacked[k][s][e][c];
          assert |data.Subject(s).samples[e][c]| == nSamp;
        }
      }
      CheckShape(moved, Dims(nEpoch, nCh, |bands|, nSamp))
  }
}
