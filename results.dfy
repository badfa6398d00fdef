/** Outcomes shared by every module: Python raises exceptions, the model returns them. */
module Results {

  datatype Option<+T> = None | Some(value: T)

  /** Why a `ValueError` was raised. */
  datatype Reason =
    | BadKey               // `_norm_key` could not read the `#KEY` value
    | UnsupportedKey       // the key normalises but has no pitch in the table
    | BadTempo             // `#TEMPO` is not an integer literal
    | BadTime              // `#TIME` is not two integers separated by `/`
    | TimeNotPowerOfTwo    // `den & (den - 1) != 0`
    | BadDuration          // `float(dur)` on a `/N` duration code
    | MeasureOverflow      // a bar line closes a measure holding too many beats
    | FinalMeasureOverflow // the last measure holds too many beats
    | BadToken             // a body token that is no bar, rest, chord or note
    | UnknownChordRoot     // a chord symbol whose root has no pitch in the table
    | BadHeader            // a `#` line without `=`
    | DataByteRange        // a MIDI message with a note or velocity outside 0..127
    | MetaRange            // a `time_signature` numerator outside 0..255 or denominator above 2**255

  datatype Error =
    | ValueError(reason: Reason)
    | ZeroDivisionError
    | IndexError
    /** The Python loop would never exit. */
    | NonTermination

  datatype Result<+T> = Ok(value: T) | Err(error: Error)
}
