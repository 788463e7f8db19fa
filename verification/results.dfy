/** Outcomes of the generator's operations: a value, or the error the Ruby
    code raises instead of returning one. */
module Results {

  /** Ruby's `nil`-or-value. */
  datatype Option<+T> = None | Some(value: T)

  /** The errors the modelled code can raise. */
  datatype Error =
    | UnmappedType(typeName: string)  // the `raise` of lib_type_for, naming the type
    | ZeroDivision                    // Ruby's ZeroDivisionError from Integer#/ or Integer#%

  /** A value, or the error that aborts the generation pass. */
  datatype Result<+T> = Ok(value: T) | Err(error: Error) {

    predicate IsFailure() {
      Err?
    }

    function PropagateFailure<U>(): Result<U>
      requires Err?
    {
      Err(error)
    }

    function Extract(): T
      requires Ok?
    {
      value
    }
  }
}
