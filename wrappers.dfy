/** Optional values and results. `None` stands for JavaScript's `undefined`
    or `null` wherever the code does not tell the two apart. */
module Wrappers {

  datatype Option<+T> = None | Some(value: T) {
    function GetOr(default: T): T {
      match this
      case Some(v) => v
      case None => default
    }
  }

  datatype Result<+T, +E> = Success(value: T) | Failure(error: E)

  /** JavaScript truthiness of an optional string: `undefined`, `null` and
      `""` are falsy. */
  predicate Truthy(s: Option<string>) {
    s.Some? && s.value != ""
  }

  /** The property name a value becomes when used as an object key:
      `obj[undefined]` is `obj["undefined"]`. */
  function PropertyKey(s: Option<string>): string {
    match s
    case Some(k) => k
    case None => "undefined"
  }
}
