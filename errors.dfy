/** Go's error values and the two result shapes the client's functions return. */
module Errors {

  /** An error value. `Plain` is what errors.New and fmt.Errorf with %v build: the
      cause, if any, survives only as part of the text. `Wrapped` is what fmt.Errorf
      with %w builds: the cause stays reachable through errors.Unwrap and errors.Is. */
  datatype Error = Plain(text: string) | Wrapped(text: string, inner: Error)
  {
    /** errors.Is: this error, or one it wraps, is `target`. */
    predicate Is(target: Error) {
      this == target || (Wrapped? && inner.Is(target))
    }
  }

  /** A Go `error` result: nil (`Pass`) or an error. */
  datatype Outcome = Pass | Fail(error: Error)

  /** A Go `(T, error)` result: a value with a nil error, or the zero value with an error. */
  datatype Result<T> = Ok(value: T) | Err(error: Error)

  /** `part` occurs somewhere inside `s`. */
  predicate Contains(s: string, part: string) {
    exists i :: 0 <= i <= |s| && part <= s[i..]
  }

  /** `s` ends with `part`. */
  predicate EndsWith(s: string, part: string) {
    |part| <= |s| && s[|s| - |part|..] == part
  }
}
