/** Result and Option types shared by every module, and the exception kinds
    the state machine code raises. */
module Wrappers {

  /** The exception classes the modelled code raises. */
  datatype Error =
    | MachineError      // configuration problems found while building a machine
    | TransitionError   // a trigger or state change that cannot be carried out
    | KeyError
    | IndexError
    | TypeError
    | AttributeError
    | ValueError

  datatype Option<T> = None | Some(value: T)

  datatype Result<T> = Ok(value: T) | Err(error: Error)
  {
    predicate IsFailure() { Err? }

    function PropagateFailure<U>(): Result<U>
      requires Err?
    {
      Err(error)
    }

    function Extract(): T
      requires Ok?
    {
      value
    }
  }
}
