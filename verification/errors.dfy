/**
 * The contract's closed error taxonomy and the shape of every state-changing
 * operation's outcome.
 */
module Errors {
  import opened Wrappers

  /**
   * `NotOwner` is the owner machine's own error; the other three are the
   * framework errors the contract propagates: an address that fails
   * validation, a storage item that was never saved, and a message-only error.
   */
  datatype Error = NotOwner | Invalid | NotFound | Generic(msg: string)

  /**
   * What an invocation leaves behind: `store` is the storage as the code has
   * written it when it returns, whether it returns a value or an error; the
   * host commits it only on success.
   */
  datatype Effect<S, T> = Effect(store: S, result: Result<T, Error>)
}
