/** Values shared by every part of the model: optional values, results of
    operations that may raise, and the exceptions the Python code raises. */
module Common {

  datatype Option<+T> = None | Some(value: T) {
    function GetOr(default: T): T {
      match this
      case Some(v) => v
      case None => default
    }
  }

  /** A Python exception, reduced to what the modelled code inspects of it. */
  datatype Failure =
    | ValueError(message: string)
    | RuntimeError(message: string)
    | IndexError
    | ZeroDivisionError
      /** box_sdk_gen.BoxSDKError: its HTTP status, its text and the id of the
          first entry of context_info.conflicts, when the error carries one. */
    | SdkError(status: int, message: string, conflictId: Option<string>)
      /** Any other exception, with its str(). */
    | AttributeError(message: string)
    | OtherError(message: string)
  {
    /** str(e) */
    function Message(): string {
      match this
      case ValueError(m) => m
      case RuntimeError(m) => m
      case IndexError => "list index out of range"
      case ZeroDivisionError => "integer division or modulo by zero"
      case SdkError(_, m, _) => m
      case AttributeError(m) => m
      case OtherError(m) => m
    }
  }

  /** The outcome of a Python call: a value, or the exception it raised. */
  datatype Result<+T> = Ok(value: T) | Err(failure: Failure)

  /** Python truthiness of an optional string: neither None nor "". */
  predicate Truthy(s: Option<string>) {
    s.Some? && s.value != ""
  }
}
