/** Small types and functions that several modules use. */
module Common {

  datatype Option<+T> = None | Some(value: T)

  /** A truth value as a count. */
  function Unit(b: bool): nat { if b then 1 else 0 }
}
