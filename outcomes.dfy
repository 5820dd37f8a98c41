/** Optional values and the outcome of a call into a collaborator that may raise. */
module Outcomes {

  datatype Option<T> = None | Some(value: T) {
    /** `d.get(key, default)`-style fallback. */
    function GetOr(default: T): T {
      if Some? then value else default
    }
  }

  /** What a call produced: a value, or a Python exception carrying `str(e)`. */
  datatype Outcome<T> = Ok(value: T) | Raised(msg: string) {
    /** Lets `var x :- call;` stop at the first exception, as Python does. */
    predicate IsFailure() {
      Raised?
    }

    function PropagateFailure<U>(): Outcome<U>
      requires Raised?
    {
      Raised(msg)
    }

    function Extract(): T
      requires Ok?
    {
      value
    }
  }
}
