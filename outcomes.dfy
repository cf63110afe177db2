/** Results and errors shared by the store, the broker and the worker. */
module Outcomes {

  datatype Option<T> = None | Some(value: T)

  /** The failures the core can observe: a database statement that reports an error,
      a Redis command that reports a transport error, and Redis's "no such element"
      reply (redis.Nil) to a pop from an empty list. */
  datatype Error = StoreError | BrokerError | NotFound

  datatype Result<T> = Ok(value: T) | Err(error: Error)
}
