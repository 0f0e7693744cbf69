/**
  Results that may be missing: the source's rejections, as a value to pass on.
 */
module Options {
  datatype Option<+T> = None | Some(value: T) {
    predicate IsFailure() { None? }
    function PropagateFailure<U>(): Option<U>
      requires None?
    { None }
    function Extract(): T
      requires Some?
    { value }
    function GetOr(default: T): T { if Some? then value else default }
  }

  /** Continues only under a condition the source checks before going on. */
  function Need(condition: bool): Option<()> { if condition then Some(()) else None }
}
