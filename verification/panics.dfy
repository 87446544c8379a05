/** Aborting calls. A NEAR contract call that panics (env::panic_str, assert!, expect, or a
    checked-arithmetic overflow) reverts every state change it made, so a panicking call is
    modelled as a Panic result that carries only the message and no state. */
module Panics {

  /** The outcome of a contract call: its value, or the panic that aborted it. */
  datatype Result<+T> = Ok(value: T) | Panic(message: string) {

    predicate IsFailure() {
      Panic?
    }

    function PropagateFailure<U>(): Result<U>
      requires Panic?
    {
      Panic(message)
    }

    function Extract(): T
      requires Ok?
    {
      value
    }
  }

  /** Message of the `Default` implementations of both contracts. */
  const NotInitialized := "The contract should be initialized before usage"
}
