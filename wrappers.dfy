/**
 * Optional values, the Python exceptions the modelled code can raise, a result type
 * carrying them, and the identities of asyncio tasks and Telegram chats.
 */
module Wrappers {

  datatype Option<+T> = None | Some(value: T)

  /** The Python exception classes that escape (or are caught in) the modelled code. */
  datatype PyError =
    | ValueError
    | TypeError
    | AttributeError
    | KeyError
    | IndexError
    | UnboundLocalError
    | InvalidStateError

  /** Either a value or the exception that an operation raised instead. */
  datatype Result<+T> = Ok(value: T) | Err(error: PyError)

  /** An asyncio task, known by its identity only. */
  type TaskId = nat

  /** A Telegram chat id. */
  type ChatId = int
}
