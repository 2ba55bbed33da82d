/** Optional values, results, and the values a JavaScript `throw` can carry. */
module Wrappers {

  datatype Option<+T> = None | Some(value: T)

  datatype Result<+T> = Ok(value: T) | Err(error: Thrown)

  /** What a rejected promise or a `catch` clause receives: an `Error` object
      with its message, or some other thrown value. */
  datatype Thrown = ErrorThrown(message: string) | ValueThrown

  /** The source's `error instanceof Error ? error.message : 'Unknown error occurred'`. */
  function ErrorMessage(t: Thrown): (m: string)
    ensures t.ErrorThrown? ==> m == t.message
    ensures t.ValueThrown? ==> m == "Unknown error occurred"
  {
    match t
    case ErrorThrown(msg) => msg
    case ValueThrown => "Unknown error occurred"
  }

  /** JavaScript truthiness of an optional string attribute: present and non-empty. */
  predicate Truthy(s: Option<string>) {
    s.Some? && s.value != ""
  }
}
