/** The exceptions the bot raises or lets escape, and the failure-compatible
    wrappers every operation of the model returns. */
module Exceptions {

  /** The exception classes of the library, plus the built-in Python
      exceptions the modelled code can raise on bad input, plus the two
      kinds of I/O failure (JSON-RPC node and plain HTTP). */
  datatype Exception =
    | WrongChainId
    | WrongCoinSymbol
    | InvalidProxy(ip: string)
    | TransactionException
    | NetworkNotAdded(name: string)
    | TypeError
    | ValueError
    | KeyError
    | AttributeError
    | IndexError
    | RpcError
    | HttpError
    | UnboundLocalError
}

module Wrappers {
  import opened Exceptions

  /** Python's `None` next to a present value. */
  datatype Option<+T> = None | Some(value: T)

  /** A computation that either returns a value or raises an exception. */
  datatype Result<+T> = Ok(value: T) | Err(error: Exception) {
    predicate IsFailure() {
      Err?
    }

    function PropagateFailure<U>(): Result<U>
      requires Err?
    {
      Err(error)
    }

    function Extract(): T
      requires Ok?
    {
      value
    }
  }
}
