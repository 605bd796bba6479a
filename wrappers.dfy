/** Option and Result, used for Python's `None` and for calls that raise. */
module Wrappers {

  datatype Option<+T> = None | Some(value: T)

  /** `Err` carries the text of the exception that Python would raise. */
  datatype Result<+T> = Ok(value: T) | Err(error: string)

  /**
   * `f` gives what `spec` gives on every input. The fact is used only where `spec` is
   * applied, so a proof about `f` does not see the body of `spec`.
   */
  ghost predicate Agrees<T(!new), U>(f: T -> U, spec: T -> U)
  {
    forall x {:trigger spec(x)} :: f(x) == spec(x)
  }

  /** `Agrees` for two-argument functions. */
  ghost predicate Agrees2<T(!new), V(!new), U>(f: (T, V) -> U, spec: (T, V) -> U)
  {
    forall x, y {:trigger spec(x, y)} :: f(x, y) == spec(x, y)
  }
}
