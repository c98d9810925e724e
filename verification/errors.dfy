/** The error kinds of the audio separation core, and the Result type that the
    stages return instead of raising them. */
module Errors {

  /** One constructor per exception class of the system's error module. */
  datatype PipelineError =
    | AudioDurationMismatch     // audios of different lengths were mixed
    | AudioTypeMismatch         // audios of different representation kinds were mixed
    | AudioSampleRateMismatch   // audios of different sample rates were mixed
    | SpecShapeTooBig           // a trim target exceeds the spectrogram's extent

  /** Either the value a stage produced or the error it raised. */
  datatype Result<+T> = Ok(value: T) | Err(error: PipelineError) {

    predicate IsFailure() {
      Err?
    }

    function PropagateFailure<U>(): Result<U>
      requires Err?
    {
      Err(error)
    }

    function Extract(): T
      requires Ok?
    {
      value
    }
  }
}
