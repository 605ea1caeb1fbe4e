/**
 * HTTP errors in the shape of @hapi/boom, the other errors a step can throw,
 * and what a hapi lifecycle method (a route pre-method or an extension) does.
 */
module Errors {

  /**
   * A Boom error: its HTTP status code and its message. For a 500 the message stays on
   * the error object (and in the logs); the response body hapi sends says only
   * "An internal server error occurred".
   */
  datatype Boom = Boom(statusCode: int, message: string)

  /** The message `Boom.notFound()` carries when it is given none: the status text. */
  const NOT_FOUND_TEXT := "Not Found"

  function NotFound(message: string): Boom { Boom(404, message) }
  function Conflict(message: string): Boom { Boom(409, message) }
  function BadRequest(message: string): Boom { Boom(400, message) }
  function Internal(message: string): Boom { Boom(500, message) }

  /** Anything a step can throw: a Boom error (`isBoom` set) or any other error with its message. */
  datatype Thrown = BoomError(boom: Boom) | PlainError(message: string)

  /**
   * A catch block that rethrows Boom errors as they are and turns every other
   * error into a 500 whose message is `prefix` followed by the error's message.
   */
  function Rethrow(e: Thrown, prefix: string): (b: Boom)
    ensures e.BoomError? ==> b == e.boom
    ensures e.PlainError? ==> b.statusCode == 500 && b.message == prefix + e.message
  {
    match e
    case BoomError(boom) => boom
    case PlainError(message) => Internal(prefix + message)
  }

  /** What a lifecycle method answers: `h.continue`, or an error thrown to hapi. */
  datatype Lifecycle = Continue | Fail(error: Thrown)
}
