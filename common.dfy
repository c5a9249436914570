/** Small shared vocabulary: an optional value, the clock readings the
    dashboard stamps new records with, and integer min/max. */
module Common {

  datatype Option<T> = None | Some(value: T)

  /** The two readings of the wall clock a freshly created record uses:
      `now` is the text of `Date.now()` (used inside identifiers) and
      `stamp` is the text of `new Date().toLocaleString()` (the displayed
      timestamp). Both are opaque inputs to the model. */
  datatype Clock = Clock(now: string, stamp: string)

  function Min(a: int, b: int): int { if a <= b then a else b }

  function Max(a: int, b: int): int { if a <= b then b else a }
}
