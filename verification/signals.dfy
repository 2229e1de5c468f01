/** The tensors that flow through the pipeline: each subject's raw recording,
    the pair of recordings handed to the facade, and the complex analytic
    signal built from them. Each carries its dimensions explicitly, as a numpy
    array does, so a zero-length axis does not hide the others. */
module Signals {
  import opened Tensors

  /** One subject's recording, shape (n_epochs, n_channels, n_times). */
  datatype Recording<X> = Recording(nEpoch: nat, nCh: nat, nSamp: nat, samples: seq<seq<seq<X>>>) {

    predicate Valid() {
      Shape3(samples, nEpoch, nCh, nSamp)
    }
  }

  /** The two subjects' recordings, `data[0]` and `data[1]`. */
  datatype Dyad<X> = Dyad(first: Recording<X>, second: Recording<X>) {

    /** Both recordings are rectangular arrays sharing channel and sample
        counts, the documented (2, n_epochs, n_channels, n_times) layout. Equal
        epoch counts are checked by the pipeline, not assumed. */
    predicate Valid() {
      && first.Valid()
      && second.Valid()
      && first.nCh == second.nCh
      && first.nSamp == second.nSamp
    }

    predicate SameEpochs() {
      first.nEpoch == second.nEpoch
    }

    /** `data[s]`. */
    function Subject(s: nat): Recording<X>
      requires s < 2
    {
      if s == 0 then first else second
    }
  }

  /** The shape of an analytic signal after its leading subject axis. */
  datatype Dims = Dims(nEpoch: nat, nCh: nat, nFreq: nat, nSamp: nat)

  /** Complex analytic signal, shape (2, n_epochs, n_channels, n_frequencies,
      n_times); `values[s][e][c][f]` is one time series. */
  datatype Analytic<T> = Analytic(dims: Dims, values: seq<seq<seq<seq<seq<T>>>>>) {

    predicate Valid() {
      Shape5(values, 2, dims.nEpoch, dims.nCh, dims.nFreq, dims.nSamp)
    }
  }
}
