/** Shared vocabulary of the code-generation engine: optional values, results, and
    the errors the engine can throw or rethrow. */
module Common {

  datatype Option<+T> = None | Some(value: T)

  datatype Result<+T, +E> = Ok(value: T) | Err(error: E)

  /** Every value the engine can reject with. */
  datatype Error =
      /** An HTTP client failure; `status` is the response status, `None` when there was no response. */
    | RequestError(status: Option<int>, message: string)
      /** A failure of the captcha gate, which the engine only awaits. */
    | CaptchaError(message: string)
      /** "Max retries reached for 503 errors": every attempt answered 503. */
    | MaxRetriesReached
      /** "No valid codes found": the matcher collected no coupon code. */
    | NoValidCodes
      /** "Burger code activation failed": an activation response is not 200. */
    | ActivationFailed
      /** "Missing choices for burger type": a non-ice-cream request lacks a choice. */
    | MissingChoices
      /** A property read on `undefined` (an unknown product, a missing second code). */
    | TypeError

}
