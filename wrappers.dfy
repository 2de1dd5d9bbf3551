/** Option and Result types shared by the model, and the failures the engine can raise. */
module Wrappers {

  datatype Option<+T> = None | Some(value: T)

  /** The ways a computation of the engine can fail (each is an exception in the source). */
  datatype Error =
    | UnknownPolicy(name: string)   // a decision, weight or coordinate name no branch handles
    | ShapeMismatch                 // an array assignment or stacking of incompatible shapes
    | LabelLengthMismatch           // a label list whose length differs from the trial table
    | UnknownColumn(name: string)   // a label column the trial table does not have
    | NothingToConcatenate          // stacking an empty list of arrays

  datatype Result<+T> = Ok(value: T) | Err(error: Error) {
    predicate IsFailure() { Err? }

    function PropagateFailure<U>(): Result<U>
      requires Err?
    {
      Err(error)
    }

    function Extract(): T
      requires Ok?
    {
      value
    }
  }

  /** Turns a missing value into the given failure. */
  function Need<T>(o: Option<T>, e: Error): (r: Result<T>)
    ensures r.Ok? <==> o.Some?
    ensures r.Ok? ==> r.value == o.value
    ensures r.Err? ==> r.error == e
  {
    match o
    case Some(v) => Ok(v)
    case None => Err(e)
  }
}
