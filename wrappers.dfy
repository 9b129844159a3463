/** The optional value used wherever the script may find nothing: a numeric
    input that does not parse, a string that is not an invoice number. */
module Wrappers {

  datatype Option<+T> = None | Some(value: T) {

    /** The value, or `default` when there is none. */
    function GetOr(default: T): T {
      match this
      case Some(v) => v
      case None => default
    }
  }
}
