/** Small building blocks shared by every module: optional values, the
    outcome of an operation that may throw, and JavaScript truthiness of the
    values the site tests with `||` and `if (x)`. */
module Base {

  /** A key that may be absent (`undefined`) or present with a value. */
  datatype Option<+T> = None | Some(value: T) {

    /** `value` when present, `default` otherwise. */
    function GetOr(default: T): T {
      match this
      case Some(v) => v
      case None => default
    }
  }

  /** The settled state of a promise: resolved with a value, or rejected
      with an error whose `message` is kept. */
  datatype Result<+T> = Ok(value: T) | Err(message: string)

  /** JavaScript truthiness of an optional string: `undefined` and `""` are
      falsy, every other string is truthy. */
  predicate Truthy(s: Option<string>) {
    s.Some? && s.value != ""
  }

  /** `a || b` where `a` is an optional string and `b` a fallback string. */
  function OrElse(a: Option<string>, b: string): string {
    if Truthy(a) then a.value else b
  }
}
