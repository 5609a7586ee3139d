/** Optional values: Python's `None` versus a present value. */
module Wrappers {

  datatype Option<T> = None | Some(value: T)

  /** Python truthiness of an optional string: None and "" are both false. */
  predicate Truthy(o: Option<string>)
  {
    o.Some? && o.value != ""
  }

  /** Renders an optional string the way Python's '%s' does: None prints as "None". */
  function Show(o: Option<string>): string
  {
    if o.Some? then o.value else "None"
  }

  /** Concatenation regroups; loops that append a piece at a time use it to keep their
      invariant. */
  lemma AppendAssoc<T>(a: seq<T>, b: seq<T>, c: seq<T>)
    ensures (a + b) + c == a + (b + c)
  {
  }
}
