/** Swift's `Optional` (written `T?`) and its nil-coalescing operator `??`. */
module Optionals {

  datatype Optional<T> = None | Some(value: T) {

    /** `opt ?? fallback`: the wrapped value, or `fallback` when there is none. */
    function Coalesce(fallback: T): (r: T)
      ensures Some? ==> r == value
      ensures None? ==> r == fallback
    {
      if Some? then value else fallback
    }
  }
}
