/** Optional values, the errors `make_design_configs` raises, and a result
    type that carries one of them instead of raising. */
module Errors {

  /** Python's `Optional[T]`: `None` or a value. */
  datatype Option<T> = None | Some(value: T)

  /** The three kinds of `ValueError` the builder raises; the fields are the
      values its messages name (the message text itself is not modelled). */
  datatype ConfigError =
    | InvalidFastWays(fastWays: int, assoc: int)
      // the resolved fast-ways count lies outside [0, assoc]
    | PriorityExceedsCapacity(name: string, priority: nat, capacity: int, assoc: int)
      // a priority design asks for more priority ways than min(fast_ways, assoc // 2)
    | UnknownDesign(name: string)
      // the name matches no design family

  /** Either a value or the error that aborted the computation; usable with `:-`. */
  datatype Result<T> = Ok(value: T) | Err(error: ConfigError) {

    predicate IsFailure() {
      Err?
    }

    function PropagateFailure<U>(): Result<U>
      requires Err?
    {
      Err(error)
    }

    function Extract(): T
      requires Ok?
    {
      value
    }
  }
}
