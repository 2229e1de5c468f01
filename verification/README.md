# Dyadic synchrony pipeline of HyPyP `analyses.py`, structural model

HyPyP computes inter-brain synchrony between two subjects recorded at the same
time. `simple_corr` takes both subjects' recordings, shaped (n_epochs,
n_channels, n_times). It checks that their epoch counts agree. It then builds a
complex analytic signal shaped (2, n_epochs, n_channels, n_freq, n_times). A
frequency list gives one multitaper transform per integer frequency. A
frequency dict gives a band-pass filter plus Hilbert transform per named band.
Finally `compute_sync` evaluates one of seven synchrony metrics between every
channel of subject 0 and every channel of subject 1, at every frequency. It
does this either epoch by epoch, optionally averaged over epochs, or once over
all epochs joined in time.

This project models the structure of that pipeline in Dafny: the metric-name
dispatch, the index laws of the nested comprehensions, the epoch reduction,
the concatenation of epochs, the construction of the frequency axis, the band
axis move with its shape assertion, and the checks and routing of the facade.
Sample values are a type parameter. Everything numeric is an abstract function:
the pre-transforms (`np.abs`, `np.abs(.)**2`, `x/np.abs(x)`, `np.angle`), the
metric kernels, `np.nanmean`, the multitaper transform, the band-pass filter
and the Hilbert transform.

Modules:

- `Errors`: `Result` and the seven ways the modelled code raises.
- `Tensors`: shape predicates, `Flatten` (np.concatenate), and `MoveAxis0To3` (np.moveaxis) with its inverse.
- `Signals`: `Recording`, `Dyad` and `Analytic`. Each carries its dimensions, as a numpy array does.
- `Modes`: the seven metric names, the metric table, the two dispatch chains of `compute_sync`, and a reference parser.
- `Builders`: `compute_single_freq` and `compute_freq_bands`.
- `Engine`: `compute_sync`.
- `Facade`: `simple_corr`.

The foreign primitives are parameters of the form `f(series, params, t)`. Each
gives output sample `t` of one (epoch, channel) time series. So each keeps the
series length (the multitaper is called with `decim=1`), and its output for one
series depends only on that series. The same holds for filtering and for the
Hilbert transform, which act along the time axis.

Points of the code the model follows exactly:

- The outer channel loop is `ch_j` (subject 1) and the inner is `ch_i` (subject 0). So entry `[f][e][j][i]` pairs subject 0 channel `i` with subject 1 channel `j`.
- `np.concatenate` raises on zero epochs. The model has `NothingToConcatenate`.
- A frequency list or a band with fewer than two entries raises `IndexError`. The model has `FrequencyRangeTooShort`.
- A specification that is neither a list nor a dict leaves `values` unbound. The model has `NoFrequencyBuilder`.
- An empty band dict becomes an array of shape (0,), and `np.moveaxis` to position 3 raises `AxisError`. Likewise, an empty frequency axis makes the epoch-wise comprehension an array of shape (0,), and `np.nanmean(..., axis=1)` raises `AxisError`. The model has `AxisOutOfRange` for both.
- The metric name is checked only inside `compute_sync`, after the analytic signal has been built. In the model, this ordering shows up as error precedence: epoch mismatch first, then builder errors, then an unsupported metric, then averaging over an empty frequency axis or concatenating zero epochs.

## Model

| member | source | states |
|---|---|---|
| `Modes.ParseMode` | hypyp/analyses.py:33-41 | A name parses exactly when one of the seven modes has it, and then to that mode. Any other name gives `UnsupportedMetric` carrying the name. |
| `Modes.Lookup` | hypyp/analyses.py:99-144 | Searching the modes in the order the if-chain tests them: a hit is a listed mode with that name. A miss means no listed mode has the name, and the error carries the name. |
| `Modes.ParseName` | hypyp/analyses.py:33-41 | Every mode's name parses back to that mode. |
| `Modes.PairingInjective` | hypyp/analyses.py:99-142 | No two modes share both their pre-transform and their kernel. |
| `Modes.DispatchAgrees` | hypyp/analyses.py:98-203 | Both if-chains (epoch-wise and concatenated) equal the reference dispatch on every string. A supported name gets its mode's pre-transform and kernel. Any other name gets `UnsupportedMetric` naming it. |
| `Tensors.FlattenLength` | hypyp/analyses.py:154-155 | Joining m pieces of length n gives m * n items. |
| `Tensors.FlattenIndex` | hypyp/analyses.py:154-155 | Item t of piece k lands at position k * n + t of the join, so the pieces stay in order. |
| `Tensors.FlattenMap` | hypyp/analyses.py:153-155 | Transforming each epoch and then joining equals joining and then transforming. |
| `Tensors.MoveAxis0To3` | hypyp/analyses.py:265 | A (B, n1, n2, n3, ...) tensor becomes (n1, n2, n3, B, ...), and entry [a][e][c][b] is input entry [b][a][e][c]. |
| `Tensors.MoveAxisRoundTrip` | hypyp/analyses.py:265 | Moving the axis back restores the input, so the move loses and duplicates nothing. |
| `Builders.MultitaperSeries` | hypyp/analyses.py:225-229 | The multitaper output for one series at one frequency is as long as the series. This is the stated assumption about the primitive, which the call's `decim=1` justifies; the model does not derive it from `decim`. |
| `Builders.BandSeries` | hypyp/analyses.py:259-262 | Filtering then the Hilbert transform keeps a series' length. This is the stated assumption about both primitives, which act along the time axis. |
| `Builders.FreqAxis` | hypyp/analyses.py:226-227 | `np.arange(f0, f1, 1)` has max(0, f1 - f0) entries, and entry k is f0 + k. |
| `Builders.FreqAxisMembers` | hypyp/analyses.py:226-227 | The axis holds exactly the integers f with f0 <= f < f1, in strictly ascending order. |
| `Builders.SingleFreq` | hypyp/analyses.py:208-232 | Fails exactly when the list has fewer than two entries. Otherwise the result has shape (2, n_epochs, n_channels, max(0, f1 - f0), n_times), and frequency f is the multitaper series at f0 + f of the same subject, epoch and channel, with sampling rate n_times. |
| `Builders.CheckShape` | hypyp/analyses.py:266 | The shape assertion passes exactly when the tensor has shape (2, n_epochs, n_channels, n_bands, n_times), and then hands the tensor on unchanged. Otherwise it fails with `ShapeMismatch`. |
| `Builders.FreqBands` | hypyp/analyses.py:235-268 | Fails exactly when the epoch counts differ (`InputMismatch`), when a band lists fewer than two edges (`FrequencyRangeTooShort`), or when the dict is empty (`AxisOutOfRange` from the axis move), with that precedence. The shape assertion never fires. Otherwise the shape is (2, n_epochs, n_channels, n_bands, n_times), and band k of the frequency axis is the k-th band of the dict in insertion order, filtered between its first two edges and Hilbert-transformed. |
| `Engine.Transformed` | hypyp/analyses.py:100-196 | Each metric's pre-transform (`np.abs`, `np.abs(.)**2`, `x/np.abs(x)`, `np.angle`) acts elementwise on the whole analytic signal. The shape is kept and every series is mapped sample by sample. For proj, imagcoh and coh the analytic signal itself is handed on. |
| `Engine.EpochWise` | hypyp/analyses.py:101-104 | The per-epoch comprehension has shape (n_freq, n_epochs, n_ch, n_ch). |
| `Engine.ReduceEpochs` | hypyp/analyses.py:147-148 | Averaging over axis 1 fails with `AxisOutOfRange` exactly when the frequency axis is empty. Otherwise it leaves shape (n_freq, n_ch, n_ch). |
| `Engine.Concatenated` | hypyp/analyses.py:156-158 | The concatenated comprehension has shape (n_freq, n_ch, n_ch). |
| `Engine.ComputeSync` | hypyp/analyses.py:73-205 | Fails exactly in three cases. An unsupported name gives `UnsupportedMetric` naming it, in either branch. Averaging over an empty frequency axis gives `AxisOutOfRange`. Concatenating zero epochs gives `NothingToConcatenate`. A per-epoch tensor comes back exactly when epoch_wise is set and time_resolved is not. The frequency and channel axes keep their lengths. |
| `Engine.EpochWiseLaw` | hypyp/analyses.py:98-104 | Epoch-wise, not averaged: entry [f][e][j][i] is the selected kernel on the pre-transformed series of subject 0 channel i against subject 1 channel j, in epoch e at frequency f. For proj, imagcoh and coh the kernel sees the analytic series themselves. |
| `Engine.TimeResolvedLaw` | hypyp/analyses.py:146-148 | With time_resolved, entry [f][j][i] is the NaN-skipping mean of entries [f][e][j][i] of the unaveraged result, over e in order. Only the epoch axis goes. An unsupported name fails both calls alike. Over an empty frequency axis, the unaveraged call returns the empty result and the averaged call fails with `AxisOutOfRange`. |
| `Engine.RawModesUseSignal` | hypyp/analyses.py:124-142 | Epoch-wise proj, imagcoh and coh: entry [f][e][j][i] is the kernel applied directly to the analytic series of subject 0 channel i and subject 1 channel j. |
| `Engine.SingleEpochAgrees` | hypyp/analyses.py:98-201 | Over a single epoch the two branches agree: concatenated entry [f][j][i] equals epoch-wise entry [f][0][j][i], for every supported metric. |
| `Engine.StrandLaw` | hypyp/analyses.py:154-155 | A strand holds n_epochs * n_times samples, with sample t of epoch e at position e * n_times + t. |
| `Engine.StrandOfTransformed` | hypyp/analyses.py:153-155 | Joining the pre-transformed epochs equals pre-transforming the joined strand. |
| `Engine.ConcatenatedLaw` | hypyp/analyses.py:150-201 | Concatenated mode over at least one epoch: entry [f][j][i] is the selected kernel on the pre-transformed strands of subject 0 channel i and subject 1 channel j at frequency f. For proj, imagcoh and coh the strands are those of the analytic signal itself. time_resolved changes nothing. |
| `Facade.AnalyticOf` | hypyp/analyses.py:61-66 | The chosen builder gives an analytic signal of the recordings' epoch, channel and sample counts. Its frequency-axis length is the one the specification calls for. Any other specification fails. |
| `Facade.SimpleCorr` | hypyp/analyses.py:18-70 | Different epoch counts give `InputMismatch` whatever the other arguments. A success implies a supported metric name and a frequency axis of the length the specification calls for. |
| `Facade.Routing` | hypyp/analyses.py:61-68 | A list goes to the single-frequency builder and a dict to the band builder. The builder's output reaches `compute_sync` unchanged, with the caller's mode and flags. |
| `Facade.ListEpochWiseLaw` | hypyp/analyses.py:62-68 | End to end, list specification, per epoch: shape (max(0, f1 - f0), n_epochs, n_ch, n_ch). Entry [f][e][j][i] is the kernel on the multitaper series of subject 0 channel i and subject 1 channel j at frequency f0 + f, pre-transformed except under proj, imagcoh and coh, where the kernel sees the multitaper series themselves. |
| `Facade.BandEpochWiseLaw` | hypyp/analyses.py:65-68 | End to end, dict specification, per epoch. A band with fewer than two edges fails with `FrequencyRangeTooShort`, and an empty dict with `AxisOutOfRange`. Otherwise the shape is (n_bands, n_epochs, n_ch, n_ch), and entry [f][e][j][i] is the kernel on both channels' analytic signals in the f-th band of the dict, pre-transformed except under proj, imagcoh and coh, where the kernel sees the band's analytic series themselves. |
| `Facade.EmptyFrequencyAxisFails` | hypyp/analyses.py:146-148 | End to end, for a specification that yields no frequency: the default flags (epoch-wise, averaged) fail with `AxisOutOfRange`, and the unaveraged call returns the empty result. For a list, this assumes the multitaper accepts an empty frequency list (see Left out). |
| `Facade.EmptySpecifications` | hypyp/analyses.py:258-265 | An empty band dict fails with `AxisOutOfRange` whatever the metric and flags. The reversed list [10, 5] fails the same way under the default flags, assuming the multitaper accepts an empty frequency list (see Left out). |
| `Facade.UnsupportedMetricFails` | hypyp/analyses.py:143-203 | End to end: once the epoch counts agree and the builder succeeds, an unsupported name gives `UnsupportedMetric` naming it, in the epoch-wise and the concatenated branch alike. |
| `Facade.ConcatenatedShape` | hypyp/analyses.py:150-201 | End to end, concatenated mode over at least one epoch with a supported name: one n_ch × n_ch matrix per frequency of the specification, whatever time_resolved says. |
| `Facade.TwoChannelScenario` | hypyp/analyses.py:18-70 | One epoch, two channels, frequencies [8, 10): the averaged envelope result is 2 × 2 × 2. The name "notametric" fails, naming itself, in both branches. |

## Left out

- The arithmetic of `_plv`, `_coh`, `_icoh`, `_corrcoef` and `_proj_power_corr` (hypyp/analyses.py:273-360), and of astropy's `circcorrcoef` (imported at hypyp/analyses.py:14, called at :120 and :178). This is floating-point and complex arithmetic with NaN semantics, so the kernels are abstract. Properties such as plv lying in [0, 1] or a value of 1 on identical signals are not stated.
- The pre-transforms other than the identity of the raw modes, and `np.nanmean`, are abstract functions. The NaN-skipping of the mean is not modelled.
- `tfr_array_multitaper`, `filter_data` and `hilbert` are foreign library calls. They are parameters that produce one output per input sample. Their algorithms are not modelled.
- `mode is 'envelope'` compares string identity in Python. The model compares string contents, which is what the code intends.
- The concatenated `plv` branch divides by the magnitude where a comment asks for `np.angle`, and `_coh`/`_icoh` subtract unit phasors. Both are numeric behaviour inside the abstract pre-transforms and kernels.
- Engine.ReduceEpochs: with zero epochs (and at least one frequency), numpy builds the per-epoch result as an (n_freq, 0) array, so averaging yields n_freq NaNs. The model yields n_freq × n_ch × n_ch means of the empty sequence. The nested-sequence result cannot express numpy's collapsed shape.
- Engine.ComputeSync: for the same input (zero epochs, at least one frequency, epoch-wise and averaged), its shape (n_freq, n_ch, n_ch) is the model's, not numpy's (n_freq,), for the reason given on the line above.
- The foreign primitives are total functions in the model. Any error that `tfr_array_multitaper`, `filter_data` or `hilbert` raises is not modelled: for example an empty frequency list passed to the multitaper, band edges the filter rejects, or zero-length series.
- Frequency bounds are integers. Python would also accept floats in `np.arange` and in band edges.
- Recordings whose channel or sample counts differ between subjects are excluded by a precondition (`Dyad.Valid`). numpy fails on the ragged stack, and the documented input shape rules such recordings out.
- Band names are carried but unused, as in the code. Duplicate keys cannot occur in a Python dict, and nothing in the model depends on their absence.
- Determinism of repeated calls holds by construction, since every member is a pure function.
