/** Values shared by every handler: optional query parameters, the outcome of
    a store call that may throw, and an HTTP reply. */
module Http {

  datatype Option<+T> = None | Some(value: T)

  /** The outcome of one call into a store client: a value, or an exception. */
  datatype Attempt<+T> = Done(value: T) | Threw

  /** An HTTP reply: a status code and a body. */
  datatype Reply<+B> = Reply(status: int, body: B)

  /** JavaScript truthiness of a query parameter: an absent parameter and the
      empty string are both falsy. */
  predicate Present(q: Option<string>)
  {
    q.Some? && q.value != ""
  }
}
