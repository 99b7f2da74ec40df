/** Values the join produces, and the ways the merge script stops early. */
module Outcomes {

  /** A cell that is either missing (Python `None`) or holds a value. */
  datatype Option<+T> = None | Some(value: T)

  /** The exceptions that end the merge script; each one aborts the whole run. */
  datatype Fault =
    | InvalidDate      // `datetime(year, month, day)` raises ValueError
    | EmptyAxis        // `argmin` of an empty coordinate array raises ValueError
    | IndexOutOfRange  // indexing a weather field outside its shape raises IndexError

  /** The result of a computation that may raise one of the faults above. */
  datatype Result<+T> = Ok(value: T) | Err(fault: Fault)
}
