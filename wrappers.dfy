/** The optional value used for the dashboard's optional record fields, for `Array.find` results and
    for the absent-key side of a partial record. */
module Wrappers {
  datatype Option<+T> = None | Some(value: T)

  /** `o ?? d`: the present value, or the default when absent. */
  function GetOr<T>(o: Option<T>, d: T): T
  {
    match o
    case Some(v) => v
    case None => d
  }
}
