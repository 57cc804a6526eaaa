/** Optional values: JavaScript's `undefined`/`null` next to a present value. */
module Wrappers {

  datatype Option<+T> = None | Some(value: T)

  /** JavaScript truthiness of an optional string: present and non-empty. */
  predicate Truthy(s: Option<string>) {
    s.Some? && s.value != ""
  }

  /** `s || fallback` on an optional string. */
  function OrElse(s: Option<string>, fallback: string): (r: string)
    ensures Truthy(s) ==> r == s.value
    ensures !Truthy(s) ==> r == fallback
  {
    if Truthy(s) then s.value else fallback
  }
}

/**
 * The outcome of one backend call as the client sees it: the awaited promise
 * either resolves with a decoded value or rejects with whatever was thrown.
 * The HTTP transport itself (lib/api.ts) is not part of this model.
 */
module Outcomes {

  /** What a rejected call threw: an `Error` instance (with its message) or any other value. */
  datatype Thrown = ErrorInstance(message: string) | OtherValue

  datatype Outcome<+T> = Resolved(value: T) | Rejected(thrown: Thrown)

  /** `err instanceof Error ? err.message : fallback`, the message every catch block stores. */
  function ErrorText(thrown: Thrown, fallback: string): (text: string)
    ensures thrown.ErrorInstance? ==> text == thrown.message
    ensures thrown.OtherValue? ==> text == fallback
  {
    match thrown
    case ErrorInstance(m) => m
    case OtherValue => fallback
  }
}
