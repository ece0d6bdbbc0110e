/** Optional values: the translation cache's `get` answers `None` for an absent
    key, and a provider call either yields a translation or fails. */
module Wrappers {

  datatype Option<+T> = None | Some(value: T) {

    /** What a lookup yields: the value found, or `fallback` when the
        lookup came back empty. */
    function ValueOr(fallback: T): T {
      match this
      case Some(v) => v
      case None => fallback
    }
  }
}
