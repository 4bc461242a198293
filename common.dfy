/** Values shared by the updater and the plugins form: optional values, the
    exceptions the modelled code can raise, and the JSON scalars stored in
    plugin manifests. */
module Common {

  datatype Option<+T> = None | Some(value: T)

  /** The Python exceptions that escape (or are caught by) the modelled code. */
  datatype Exception =
    | IndexError
    | KeyError
    | CabernetException(message: string)

  /** A computation that either returns a value or raises. */
  datatype Result<+T> = Ok(value: T) | Raised(error: Exception)

  /** A manifest scalar: JSON null (Python None) or a string. */
  datatype Scalar = Null | Str(text: string)

  /** Python truthiness of a scalar: None and '' are false. */
  predicate Truthy(v: Scalar) {
    v.Str? && v.text != ""
  }

  /** Python truthiness of an optional query value (dict.get returns None when absent). */
  predicate Present(v: Option<string>) {
    v.Some? && v.value != ""
  }

  /** Python's str() of a scalar. */
  function Display(v: Scalar): string {
    match v
    case Null => "None"
    case Str(s) => s
  }
}
