/** Optional values and fallible results, as Rust's `Option` and `Result`. */
module Wrappers {

  datatype Option<+T> = None | Some(value: T) {

    /** Rust's `or_else`: this value when present, otherwise the fallback. */
    function OrElse(fallback: Option<T>): Option<T>
    {
      if Some? then this else fallback
    }

    /** Rust's `unwrap_or`: the value when present, otherwise the default. */
    function UnwrapOr(default: T): T
    {
      if Some? then value else default
    }

    /** The zero or one values held, as a sequence (what `cmd.args(opt)` appends). */
    function ToSeq(): seq<T>
    {
      if Some? then [value] else []
    }
  }

  datatype Result<+R, +E> = Ok(value: R) | Err(error: E)
}
