/** compute_sync: turns an analytic signal into synchrony matrices between
    every channel of subject 0 and every channel of subject 1, per frequency,
    either epoch by epoch (optionally averaged over epochs) or once over all
    epochs joined in time. The floating-point parts (pre-transforms, metric
    kernels, NaN-skipping mean) are abstract functions. */
module Engine {
  import opened Errors
  import opened Tensors
  import opened Signals
  import opened Modes

  /** The numerics the engine calls but does not define: the elementwise
      pre-transforms, the metric kernels and np.nanmean. `pre` is never
      consulted for `Raw`, which leaves the signal as it is. */
  datatype Numerics<!T, !R> = Numerics(
    pre: (Transform, T) -> T,
    metric: (Kernel, seq<T>, seq<T>) -> R,
    nanMean: seq<R> -> R)

  /** The two result layouts: (n_freq, n_epochs, n_ch, n_ch) per epoch, or
      (n_freq, n_ch, n_ch) after averaging or concatenation. In both, the
      channel axis of subject 1 comes before that of subject 0. */
  datatype Connectivity<R> =
    | PerEpoch(byEpoch: seq<seq<seq<seq<R>>>>)
    | Collapsed(matrices: seq<seq<seq<R>>>)

  /** Frequency-axis length of a result. */
  function FreqCount<R>(c: Connectivity<R>): nat {
    match c
    case PerEpoch(r) => |r|
    case Collapsed(r) => |r|
  }

  /** One sample under a pre-transform; the raw modes use the sample itself. */
  function PreFn<T, R>(num: Numerics<T, R>, t: Transform): T -> T {
    (v: T) => if t == Raw then v else num.pre(t, v)
  }

  /** One series under an elementwise pre-transform: same length, and the
      raw modes see the series unchanged. */
  function PreSeries<T, R>(num: Numerics<T, R>, t: Transform, series: seq<T>): (r: seq<T>)
    ensures |r| == |series|
    ensures t == Raw ==> r == series
    ensures t != Raw ==> forall k | 0 <= k < |series| :: r[k] == num.pre(t, series[k])
  {
    MapSeq(PreFn(num, t), series)
  }

  /** The pre-transform applied to the whole analytic signal; for the raw
      modes the signal is handed on unchanged. */
  function Transformed<T, R>(x: Analytic<T>, t: Transform, num: Numerics<T, R>): (y: Analytic<T>)
    requires x.Valid()
    ensures y.Valid() && y.dims == x.dims
    ensures forall s, e, c, f | 0 <= s < 2 && 0 <= e < x.dims.nEpoch && 0 <= c < x.dims.nCh && 0 <= f < x.dims.nFreq ::
              y.values[s][e][c][f] == PreSeries(num, t, x.values[s][e][c][f])
    ensures t == Raw ==> y == x
  {
    if t == Raw then x
    else
      var d := x.dims;
      Analytic(d,
        seq(2, s requires 0 <= s < 2 =>
          seq(d.nEpoch, e requires 0 <= e < d.nEpoch =>
            seq(d.nCh, c requires 0 <= c < d.nCh =>
              seq(d.nFreq, f requires 0 <= f < d.nFreq => PreSeries(num, t, x.values[s][e][c][f]))))))
  }

  /** The nested comprehension of the epoch-wise branch: frequency, epoch,
      then channel j of subject 1 (outer), then channel i of subject 0
      (inner). */
  function EpochWise<T, R>(v: Analytic<T>, k: Kernel, num: Numerics<T, R>): (r: seq<seq<seq<seq<R>>>>)
    requires v.Valid()
    ensures Shape4(r, v.dims.nFreq, v.dims.nEpoch, v.dims.nCh, v.dims.nCh)
  {
    var d := v.dims;
    seq(d.nFreq, f requires 0 <= f < d.nFreq =>
      seq(d.nEpoch, e requires 0 <= e < d.nEpoch =>
        seq(d.nCh, j requires 0 <= j < d.nCh =>
          seq(d.nCh, i requires 0 <= i < d.nCh =>
            num.metric(k, v.values[0][e][i][f], v.values[1][e][j][f])))))
  }

  /** np.nanmean(result, axis=1). Over an empty frequency axis the
      comprehension is an empty list, a one-dimensional array with no axis 1,
      and numpy raises; otherwise only the epoch axis goes. */
  function ReduceEpochs<T, R>(r4: seq<seq<seq<seq<R>>>>, d: Dims, num: Numerics<T, R>): (r: Result<seq<seq<seq<R>>>, Error>)
    requires Shape4(r4, d.nFreq, d.nEpoch, d.nCh, d.nCh)
    ensures r.Err? <==> d.nFreq == 0
    ensures r.Err? ==> r.error == AxisOutOfRange
    ensures r.Ok? ==> Shape3(r.value, d.nFreq, d.nCh, d.nCh)
  {
    if d.nFreq == 0 then Err(AxisOutOfRange)
    else
      Ok(seq(d.nFreq, f requires 0 <= f < d.nFreq =>
           seq(d.nCh, j requires 0 <= j < d.nCh =>
             seq(d.nCh, i requires 0 <= i < d.nCh =>
               num.nanMean(seq(d.nEpoch, e requires 0 <= e < d.nEpoch => r4[f][e][j][i]))))))
  }

  /** The series of subject `s`, channel `c`, frequency `f`, one per epoch. */
  function EpochSeries<T>(x: Analytic<T>, s: nat, c: nat, f: nat): (r: seq<seq<T>>)
    requires x.Valid() && s < 2 && c < x.dims.nCh && f < x.dims.nFreq
    ensures |r| == x.dims.nEpoch
    ensures forall e | 0 <= e < x.dims.nEpoch :: r[e] == x.values[s][e][c][f] && |r[e]| == x.dims.nSamp
  {
    seq(x.dims.nEpoch, e requires 0 <= e < x.dims.nEpoch => x.values[s][e][c][f])
  }

  /** The series of subject `s`, channel `c`, frequency `f` of every epoch,
      joined in epoch order. */
  function Strand<T>(x: Analytic<T>, s: nat, c: nat, f: nat): seq<T>
    requires x.Valid() && s < 2 && c < x.dims.nCh && f < x.dims.nFreq
  {
    Flatten(EpochSeries(x, s, c, f))
  }

  /** A strand holds n_epochs * n_times samples, and sample `t` of epoch `e`
      sits at position e * n_times + t. */
  lemma StrandLaw<T>(x: Analytic<T>, s: nat, c: nat, f: nat)
    requires x.Valid() && s < 2 && c < x.dims.nCh && f < x.dims.nFreq
    ensures |Strand(x, s, c, f)| == x.dims.nEpoch * x.dims.nSamp
    ensures forall e, t | 0 <= e < x.dims.nEpoch && 0 <= t < x.dims.nSamp ::
              e * x.dims.nSamp + t < |Strand(x, s, c, f)| &&
              Strand(x, s, c, f)[e * x.dims.nSamp + t] == x.values[s][e][c][f][t]
  {
    var n := x.dims.nSamp;
    var pieces := EpochSeries(x, s, c, f);
    FlattenUniform(pieces, n);
  }

  /** np.concatenate(values[s], axis=2): shape (n_ch, n_freq, n_epochs * n_times). */
  function Strands<T>(v: Analytic<T>, s: nat): seq<seq<seq<T>>>
    requires v.Valid() && s < 2
  {
    seq(v.dims.nCh, c requires 0 <= c < v.dims.nCh =>
      seq(v.dims.nFreq, f requires 0 <= f < v.dims.nFreq => Strand(v, s, c, f)))
  }

  /** The nested comprehension of the concatenated branch: frequency, then
      channel j of subject 1, then channel i of subject 0. */
  function Concatenated<T, R>(v: Analytic<T>, k: Kernel, num: Numerics<T, R>): (r: seq<seq<seq<R>>>)
    requires v.Valid()
    ensures Shape3(r, v.dims.nFreq, v.dims.nCh, v.dims.nCh)
  {
    var d := v.dims;
    var strands := seq(2, s requires 0 <= s < 2 => Strands(v, s));
    seq(d.nFreq, f requires 0 <= f < d.nFreq =>
      seq(d.nCh, j requires 0 <= j < d.nCh =>
        seq(d.nCh, i requires 0 <= i < d.nCh =>
          num.metric(k, strands[0][i][f], strands[1][j][f]))))
  }

  /** compute_sync. It fails exactly when the metric name is unsupported
      (UnsupportedMetric naming it, in either branch), when averaging over
      epochs with an empty frequency axis, or when concatenating zero epochs;
      a per-epoch tensor comes back exactly when epoch_wise is set
      and time_resolved is not; the frequency axis and both channel axes keep
      their lengths. */
  function ComputeSync<T, R>(x: Analytic<T>, mode: string, epochWise: bool, timeResolved: bool, num: Numerics<T, R>): (r: Result<Connectivity<R>, Error>)
    requires x.Valid()
    ensures r.Err? <==>
              || ParseMode(mode).Err?
              || (epochWise && timeResolved && x.dims.nFreq == 0)
              || (!epochWise && x.dims.nEpoch == 0)
    ensures r.Err? ==>
              r.error == (if ParseMode(mode).Err? then UnsupportedMetric(mode)
                          else if epochWise then AxisOutOfRange
                          else NothingToConcatenate)
    ensures r.Ok? ==> (r.value.PerEpoch? <==> epochWise && !timeResolved)
    ensures r.Ok? && r.value.PerEpoch? ==> Shape4(r.value.byEpoch, x.dims.nFreq, x.dims.nEpoch, x.dims.nCh, x.dims.nCh)
    ensures r.Ok? && r.value.Collapsed? ==> Shape3(r.value.matrices, x.dims.nFreq, x.dims.nCh, x.dims.nCh)
  {
    DispatchAgrees(mode);
    if epochWise then
      var p :- EpochWiseDispatch(mode);
      var values := Transformed(x, p.pre, num);
      var result := EpochWise(values, p.kernel, num);
      if timeResolved then
        var averaged :- ReduceEpochs(result, x.dims, num);
        Ok(Collapsed(averaged))
      else Ok(PerEpoch(result))
    else
      var p :- ConcatenatedDispatch(mode);
      var values := Transformed(x, p.pre, num);
      if x.dims.nEpoch == 0 then Err(NothingToConcatenate)
      else Ok(Collapsed(Concatenated(values, p.kernel, num)))
  }

  /** Epoch-wise, not averaged: entry [f][e][j][i] is the selected kernel on
      subject 0 channel i against subject 1 channel j, both in epoch e at
      frequency f, each pre-transformed elementwise. */
  lemma EpochWiseLaw<T, R>(x: Analytic<T>, mode: string, num: Numerics<T, R>)
    requires x.Valid() && ParseMode(mode).Ok?
    ensures var r := ComputeSync(x, mode, true, false, num);
            var p := PairingOf(ParseMode(mode).value);
            && r.Ok? && r.value.PerEpoch?
            && forall f, e, j, i | 0 <= f < x.dims.nFreq && 0 <= e < x.dims.nEpoch && 0 <= j < x.dims.nCh && 0 <= i < x.dims.nCh ::
                 r.value.byEpoch[f][e][j][i] ==
                 num.metric(p.kernel, PreSeries(num, p.pre, x.values[0][e][i][f]), PreSeries(num, p.pre, x.values[1][e][j][f]))
  {
    DispatchAgrees(mode);
  }

  /** Averaging over epochs reduces only the epoch axis: entry [f][j][i] is
      the NaN-skipping mean, over epochs in order, of entry [f][e][j][i] of
      the unaveraged result. An unsupported name fails both calls alike; over
      an empty frequency axis the unaveraged call returns the empty result and
      the averaged one fails. */
  lemma TimeResolvedLaw<T, R>(x: Analytic<T>, mode: string, num: Numerics<T, R>)
    requires x.Valid()
    ensures var full := ComputeSync(x, mode, true, false, num);
            var avg := ComputeSync(x, mode, true, true, num);
            && (full.Err? ==> avg == Err(full.error))
            && (full.Ok? && x.dims.nFreq == 0 ==> full == Ok(PerEpoch([])) && avg == Err(AxisOutOfRange))
            && (full.Ok? && x.dims.nFreq > 0 ==>
                  && full.value.PerEpoch? && avg.Ok? && avg.value.Collapsed?
                  && forall f, j, i | 0 <= f < x.dims.nFreq && 0 <= j < x.dims.nCh && 0 <= i < x.dims.nCh ::
                       avg.value.matrices[f][j][i] ==
                       num.nanMean(seq(x.dims.nEpoch, e requires 0 <= e < x.dims.nEpoch => full.value.byEpoch[f][e][j][i])))
  {
  }

  /** Joining epochs commutes with the elementwise pre-transform. */
  lemma StrandOfTransformed<T, R>(x: Analytic<T>, t: Transform, num: Numerics<T, R>, s: nat, c: nat, f: nat)
    requires x.Valid() && s < 2 && c < x.dims.nCh && f < x.dims.nFreq
    ensures Strand(Transformed(x, t, num), s, c, f) == PreSeries(num, t, Strand(x, s, c, f))
  {
    var v := Transformed(x, t, num);
    var pieces := EpochSeries(x, s, c, f);
    var mapped := seq(|pieces|, k requires 0 <= k < |pieces| => MapSeq(PreFn(num, t), pieces[k]));
    FlattenMap(PreFn(num, t), pieces);
    assert EpochSeries(v, s, c, f) == mapped;
  }

  /** Concatenated mode, any time_resolved: one matrix per frequency whose
      entry [f][j][i] is the selected kernel on the pre-transformed strand of
      subject 0 channel i against that of subject 1 channel j; time_resolved
      changes nothing. */
  lemma ConcatenatedLaw<T, R>(x: Analytic<T>, mode: string, timeResolved: bool, num: Numerics<T, R>)
    requires x.Valid() && ParseMode(mode).Ok? && x.dims.nEpoch > 0
    ensures var r := ComputeSync(x, mode, false, timeResolved, num);
            var p := PairingOf(ParseMode(mode).value);
            && r == ComputeSync(x, mode, false, !timeResolved, num)
            && r.Ok? && r.value.Collapsed?
            && forall f, j, i | 0 <= f < x.dims.nFreq && 0 <= j < x.dims.nCh && 0 <= i < x.dims.nCh ::
                 r.value.matrices[f][j][i] ==
                 num.metric(p.kernel, PreSeries(num, p.pre, Strand(x, 0, i, f)), PreSeries(num, p.pre, Strand(x, 1, j, f)))
  {
    DispatchAgrees(mode);
    var p := PairingOf(ParseMode(mode).value);
    forall s, c, f | 0 <= s < 2 && 0 <= c < x.dims.nCh && 0 <= f < x.dims.nFreq
      ensures Strand(Transformed(x, p.pre, num), s, c, f) == PreSeries(num, p.pre, Strand(x, s, c, f))
    {
      StrandOfTransformed(x, p.pre, num, s, c, f);
    }
  }

  /** proj, imagcoh and coh pass the analytic signal itself to their kernel:
      epoch-wise entry [f][e][j][i] is the kernel on the raw series of
      subject 0 channel i and subject 1 channel j. */
  lemma RawModesUseSignal<T, R>(x: Analytic<T>, mode: string, num: Numerics<T, R>)
    requires x.Valid() && (mode == "proj" || mode == "imagcoh" || mode == "coh")
    ensures var r := ComputeSync(x, mode, true, false, num);
            var k := PairingOf(ParseMode(mode).value).kernel;
            && r.Ok? && r.value.PerEpoch?
            && forall f, e, j, i | 0 <= f < x.dims.nFreq && 0 <= e < x.dims.nEpoch && 0 <= j < x.dims.nCh && 0 <= i < x.dims.nCh ::
                 r.value.byEpoch[f][e][j][i] == num.metric(k, x.values[0][e][i][f], x.values[1][e][j][f])
  {
    var m := if mode == "proj" then Proj else if mode == "imagcoh" then ImagCoh else Coh;
    ParseName(m);
    EpochWiseLaw(x, mode, num);
  }

  /** Over a single epoch, joining epochs changes nothing: concatenated entry
      [f][j][i] equals epoch-wise entry [f][0][j][i]. */
  lemma SingleEpochAgrees<T, R>(x: Analytic<T>, mode: string, num: Numerics<T, R>)
    requires x.Valid() && ParseMode(mode).Ok? && x.dims.nEpoch == 1
    ensures var ew := ComputeSync(x, mode, true, false, num);
            var cc := ComputeSync(x, mode, false, false, num);
            && ew.Ok? && ew.value.PerEpoch? && cc.Ok? && cc.value.Collapsed?
            && forall f, j, i | 0 <= f < x.dims.nFreq && 0 <= j < x.dims.nCh && 0 <= i < x.dims.nCh ::
                 cc.value.matrices[f][j][i] == ew.value.byEpoch[f][0][j][i]
  {
    ConcatenatedLaw(x, mode, false, num);
    EpochWiseLaw(x, mode, num);
    forall s, c, f | 0 <= s < 2 && 0 <= c < x.dims.nCh && 0 <= f < x.dims.nFreq
      ensures Strand(x, s, c, f) == x.values[s][0][c][f]
    {
      var pieces := EpochSeries(x, s, c, f);
      assert pieces[1..] == [];
      assert Flatten(pieces) == pieces[0] + Flatten(pieces[1..]);
    }
  }
}
