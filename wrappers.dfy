/** The optional value used wherever the Python code reads a key that may be
    missing (`dict.get`) or a call that may return `None`. */
module Wrappers {

  datatype Option<T> = None | Some(value: T) {

    /** `x if x is not None else d` */
    function GetOr(d: T): T {
      match this
      case Some(v) => v
      case None => d
    }
  }
}
