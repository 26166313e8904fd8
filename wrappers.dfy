/** Rust's `Option` and `Result`, and the two `Option` operations the contracts use. */
module Wrappers {

  datatype Option<+T> = None | Some(value: T)

  datatype Result<+T, +E> = Ok(value: T) | Err(error: E)

  /** `opt.unwrap_or(default)` */
  function UnwrapOr<T>(opt: Option<T>, default: T): T
  {
    match opt
    case Some(v) => v
    case None => default
  }

  /** `a > b` under Rust's derived ordering of `Option`, in which `None` is below every `Some`. */
  predicate OptionGreater(a: Option<int>, b: Option<int>)
  {
    match (a, b)
    case (None, _) => false
    case (Some(_), None) => true
    case (Some(x), Some(y)) => x > y
  }
}
