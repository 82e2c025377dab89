/**
 * Outcomes of the product handlers: an optional value, the error kinds the
 * controller throws, and the result every handler returns.
 */
module Outcomes {

  datatype Option<+T> = None | Some(value: T)

  /**
   * The errors a handler can raise. An absent product and a product owned by
   * someone else are two tags that share one HTTP status (404), so that a
   * caller cannot tell "not yours" from "does not exist" by the status.
   */
  datatype Error = NotFound | NotOwner | AlreadyReviewed {

    /** The HTTP status the handler sets before throwing. */
    function Code(): (code: int)
      ensures code == 404 <==> (NotFound? || NotOwner?)
      ensures code == 400 <==> AlreadyReviewed?
    {
      if AlreadyReviewed? then 400 else 404
    }

    /** The message of the thrown error. */
    function Message(): string
    {
      match this
      case NotFound => "Product not found"
      case NotOwner => "You are not the owner of this product."
      case AlreadyReviewed => "Product already reviewed"
    }
  }

  /** What a handler answers: a payload, or an error. */
  datatype Result<+T> = Ok(value: T) | Err(error: Error)
}
