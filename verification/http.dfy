/** What a request handler hands back to the HTTP layer. */
module Http {

  /**
   * A bare status code, a response body, or nothing at all (a handler path
   * that falls off the end without returning).
   */
  datatype Reply<+T> = Status(code: int) | Body(value: T) | NoReply
}
