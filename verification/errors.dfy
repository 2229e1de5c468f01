/** Success and failure values of the synchrony pipeline, and the conditions
    under which hypyp/analyses.py stops without producing a result. */
module Errors {

  /** A value or the reason there is none; usable with `:-`. */
  datatype Result<+T, +E> = Ok(value: T) | Err(error: E) {

    predicate IsFailure() {
      Err?
    }

    function PropagateFailure<U>(): Result<U, E>
      requires Err?
    {
      Err(error)
    }

    function Extract(): T
      requires Ok?
    {
      value
    }
  }

  /** Every way the modelled code raises; errors inside the foreign
      numerical primitives are not among these. */
  datatype Error =
      /** The two subjects have different epoch counts (the AssertionError of
          simple_corr and of compute_freq_bands). */
    | InputMismatch
      /** A metric name outside the seven supported ones (NameError naming it). */
    | UnsupportedMetric(name: string)
      /** The band-path analytic signal does not have the shape
          (2, n_epochs, n_channels, n_bands, n_times) (AssertionError). */
    | ShapeMismatch
      /** A frequency list or a band with fewer than two entries (IndexError
          on freq_range[1] or freq_band[1]). */
    | FrequencyRangeTooShort
      /** Concatenated mode over zero epochs (np.concatenate refuses an empty
          list of arrays). */
    | NothingToConcatenate
      /** A frequency specification that is neither a list nor a dict: no
          builder runs and the analytic signal is never bound. */
    | NoFrequencyBuilder
      /** numpy's AxisError: an axis argument beyond the array's dimensions.
          An empty list becomes a one-dimensional array of shape (0,), so
          moving axis 0 of no bands to position 3, or averaging an empty
          frequency axis over axis 1, has no such axis. */
    | AxisOutOfRange
}
