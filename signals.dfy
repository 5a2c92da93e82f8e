/** Values shared by every stage of the separation page's numeric core. */
module Signals {

  /** One channel of audio: one real amplitude per frame. */
  type Row = seq<real>

  /** The exceptions the numeric core of `fast_ica` can raise. */
  datatype Error =
    | EmptySignal     // `audio[0]` on a decoded file without frames raises IndexError
    | MissingColumn   // `frames[:, j]` on frames with no entry j raises IndexError
    | EmptyReduction  // `v.min()` on a vector without samples raises ValueError

  /** Either a value or the exception that aborted the computation; usable with `:-`. */
  datatype Result<+T> = Ok(value: T) | Err(error: Error) {

    predicate IsFailure() {
      Err?
    }

    function PropagateFailure<U>(): Result<U>
      requires Err?
    {
      Err(error)
    }

    function Extract(): T
      requires Ok?
    {
      value
    }
  }

  /** The smaller of two lengths, as Python's `min` on two ints. */
  function MinLen(m: nat, n: nat): nat {
    if m <= n then m else n
  }
}
