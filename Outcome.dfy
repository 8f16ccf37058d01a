/** How a conversion can end early: the exceptions tools_misc/wrl_to_obj.py lets escape. */
module Outcome {

  /** A value or the failure that stopped the computation; `:-` propagates the failure. */
  datatype Result<+T> = Ok(value: T) | Err(error: Failure) {
    predicate IsFailure() { Err? }
    function PropagateFailure<U>(): Result<U>
      requires Err?
    {
      Err(error)
    }
    function Extract(): T
      requires Ok?
    {
      value
    }
  }

  datatype Failure =
    | SyntaxError       // the grammar rejects the input text
    | ColorInfoUnbound  // a separator without diffuse colours: the suffix is read before it is set
    | FaceTooShort      // an IndexedFaceSet group with fewer than three indices
    | LineTooShort      // an IndexedLineSet group with fewer than two indices
    | CoordsMissing     // a separator without a Coordinate3 block: its absent point list is iterated
}
