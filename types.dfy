/**
 * Shared value types of the sonifier: optional values, the Rust error
 * enumeration and result type, the outcome of a Python call that may raise,
 * and the (value, auxiliary data) pair every sampler produces.
 */
module Types {

  datatype Option<T> = None | Some(value: T)

  /** The error enumeration of the Rust copy (src/error.rs). Payloads that
      wrap foreign error objects are kept as their message text. */
  datatype SonifyError =
    | KubeError(message: string)
    | KubeConfigError(message: string)
    | AudioError(message: string)
    | ConfigError(message: string)
    | InvalidMetric(name: string)
    | IoError(message: string)
    | InvalidFrequency(frequency: real)
    | ClientNotInitialized
    | NoAudioDevice

  /** `Result<T>` of the Rust copy: `Result<T, SonifyError>`. */
  datatype Result<T> = Ok(value: T) | Err(error: SonifyError)

  /** The exceptions the Python copies raise or catch in the modelled code. */
  datatype PyException =
    | ValueError
    | IndexError
    | ApiException(message: string)
    | OtherException

  /** A Python call either returns a value or raises. */
  datatype PyOutcome<T> = Returned(value: T) | Raised(exception: PyException)

  /** A value of the auxiliary ("extra") mapping. The Rust copy stores strings;
      the Python copies store strings, integers, booleans and `None`; a float
      whose textual rendering is language-specific is kept as a number. */
  datatype ExtraValue =
    | Text(text: string)
    | Int(integer: int)
    | Number(number: real)
    | Flag(flag: bool)
    | NoneValue

  type Extra = map<string, ExtraValue>

  /** One reading of one metric: the value and its side-channel data. */
  datatype Sample = Sample(value: real, extra: Extra)
}
