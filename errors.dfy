/**
 * The error taxonomy of the client: the closed set of outcomes that a request can
 * end in besides success, and the purchase-specific kinds nested inside it.
 */
module Errors {

  /** Rust's `u16`: status codes and Roblox error codes. */
  newtype u16 = x: int | 0 <= x < 0x1_0000

  /** Rust's `u64`: ids, prices, amounts. */
  newtype u64 = x: int | 0 <= x < 0x1_0000_0000_0000_0000

  /** A transport-level failure (connection, timeout, TLS); opaque to the client. */
  datatype TransportError = TransportError(description: string)

  /** The errors a purchase of a tradable limited can end in when the service answers 200. */
  datatype PurchaseTradableLimitedError =
    | PendingTransaction
    | ItemNotForSale
    | NotEnoughRobux
    | PriceChanged
    | CannotBuyOwnItem
    | UnknownRobloxErrorMsg(text: string)

  /** The errors of every client operation. */
  datatype RobloxError =
    | BadRequest
    | InvalidRoblosecurity
    | InvalidXcsrf(token: string)
    | XcsrfNotReturned
    | ChallengeRequired(challengeId: string)
    | UnknownRobloxErrorCode(code: u16, message: string)
    | UnknownStatus403Format
    | TooManyRequests
    | InternalServerError
    | UnidentifiedStatusCode(status: u16)
    | MalformedResponse
    | ReqwestError(cause: TransportError)
    | PurchaseFailed(kind: PurchaseTradableLimitedError)
  {
    /** The outcomes that tell the caller to refresh the anti-forgery token. */
    predicate IsXcsrfOutcome() {
      InvalidXcsrf? || XcsrfNotReturned?
    }
  }
}
