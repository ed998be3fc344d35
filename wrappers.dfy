/** Outcomes of operations that can panic in the source: a Rust panic is
    modelled as an explicit error value, so that the conditions under which
    it happens can be stated and proved. */
module Wrappers {
  datatype Option<+T> = None | Some(value: T)

  /** Why an operation panicked. */
  datatype Panic =
    | ShapeMismatch(rows: nat, cols: nat)   // a matrix of this shape was refused
    | IndexOutOfBounds                      // a vector or matrix was indexed past its end
    | IllegalDomainNumber(number: nat)      // a subdivision label outside 0..19
    | NoTransformation(number: nat)         // a path entry with no subdivision table
    | EmptyPath                             // a transformation was asked for an empty path

  datatype Result<+T> = Ok(value: T) | Err(error: Panic)
}
