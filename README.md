# Roblox economy client: response classifier and economy operations

This project models the request engine of a Roblox economy client library (rsblox / roboat).

- **`Validation`**: the response classifier. It turns one HTTP outcome into the 200 response or into exactly one `RobloxError`. The outcome is a transport error, or a status code with headers and a body. A 403 is the hard case. The same status means either a stale anti-forgery (x-csrf) token or a verification challenge. The classifier tells them apart by:
  - whether the body parses as `{errors:[{code,message}]}`;
  - whether the first error's code is the sentinel 0;
  - whether the message is the exact challenge literal;
  - which headers are present.
- **`Economy`**: the operations built on the classifier.
  - `robux`, `resellers` and `user_sales`: read-only requests. The two list operations convert raw JSON records into `Listing` and `UserSale` pages and pass the next-page cursor through.
  - `put_limited_on_sale`, `take_limited_off_sale` and `purchase_tradable_limited`: each makes one attempt. On `InvalidXcsrf(t)` it stores `t` as the client's token and makes exactly one more attempt.
  - `purchase_limited_internal`: maps a failed purchase's message onto a closed set of purchase errors.
- **`Errors`**: the error taxonomy (`RobloxError`, `PurchaseTradableLimitedError`) and the `u16`/`u64` integer types.
- **`Decimal`**: how `format!("{}", n)` writes a `u64` into a URL, with its round trip.
- **`Wrappers`**: `Option` and `Result`.

The client is the class `Economy.RobloxApi`. Its field `xcsrf` is the anti-forgery token, and the retry wrappers update it in place. Its field `requests` records every request sent, with the token that request carried. The remote service is a constant function of the request history and the new request. This lets a scripted service answer a stale token with a fresh one and then accept that fresh one.

Decoding is a library concern the model does not look into:
- JSON deserialisation and base64 decoding are total function values (`Validation.Decoders`, `Economy.BodyParsers`). Each returns `None` where the library returns an error.
- Several `unwrap`s in the classifier depend on the input. The `to_str().unwrap()` calls on header values (src-tauri/src/client/validation.rs:57, 83, 110) and the `text().unwrap()` on the body (src-tauri/src/client/validation.rs:172) are not modelled, because header values and bodies arrive as text (see "## Left out"). The remaining one is the base64 decode of the challenge metadata (src-tauri/src/client/validation.rs:92). It becomes the precondition `Validation.MetadataDecodes`, and the client's `Valid()` requires it of every answer the service can give.

Some facts of the code worth stating on their own:
- A 400 whose body lists an error gives `UnknownRobloxErrorCode{code, message}` with the first error (src-tauri/src/client/validation.rs:130-134); only a 400 without errors is `BadRequest`.
- The error kinds keep the code's names (`InvalidXcsrf`, `XcsrfNotReturned`, `UnknownStatus403Format`, ...), with one exception: the code's `RobloxError::PurchaseTradableLimitedError(..)` (src-tauri/src/client/economy/mod.rs:629, 633, 649) is `PurchaseFailed(kind)` here.
- For the pending-transaction message, see "## Findings".

## Model

| member | source | states |
|---|---|---|
| `Validation.XcsrfError` | src-tauri/src/client/validation.rs:108-115 | The token outcome is `InvalidXcsrf` exactly when the `x-csrf-token` header is present, and then carries that header's value. Otherwise it is `XcsrfNotReturned`. |
| `Validation.Process403` | src-tauri/src/client/validation.rs:40-118 | A 403 yields only token outcomes, `ChallengeRequired`, `UnknownRobloxErrorCode` or `UnknownStatus403Format`. It yields a token outcome iff the body does not parse or the first code is 0. `ChallengeRequired(id)` implies a first error with the challenge literal and a nonzero code, a present metadata header, and `id` decoded from it. `UnknownRobloxErrorCode` happens iff the first code is nonzero and the message is not the literal; it carries that first error. |
| `Validation.Process400` | src-tauri/src/client/validation.rs:122-137 | A 400 yields `BadRequest` or `UnknownRobloxErrorCode`. It yields the latter iff the body parses with at least one error, and then carries the first error's code and message. |
| `Validation.HandleNon200StatusCodes` | src-tauri/src/client/validation.rs:139-153 | Success iff status 200, and then the response itself. 401, 429 and 500 map to `InvalidRoblosecurity`, `TooManyRequests` and `InternalServerError`, each in both directions. A status outside {200,400,401,403,429,500} maps to `UnidentifiedStatusCode` with that status, in both directions. 400 and 403 are delegated. |
| `Validation.ValidateRequestResult` | src-tauri/src/client/validation.rs:155-166 | A success is the received response and has status 200. A transport error becomes `ReqwestError` with that error. Classification never yields `MalformedResponse` or a purchase error. |
| `Validation.ParseToRaw` | src-tauri/src/client/validation.rs:168-182 | Success iff the body parses into the target shape, and then the parsed value. Otherwise `MalformedResponse`. |
| `Validation.StatusAloneDecides` | src-tauri/src/client/validation.rs:142-152 | For 401, 429, 500 and every unidentified status, two responses with the same status are classified alike, whatever their bodies and headers. |
| `Validation.Process400FirstErrorDecides` | src-tauri/src/client/validation.rs:130-136 | Two 400 bodies with the same first error are classified alike: later errors are ignored. |
| `Validation.Process400WithoutErrors` | src-tauri/src/client/validation.rs:123-128 | A 400 with an unparseable body, or with an empty error list, is `BadRequest`. |
| `Validation.UnparseableBody403` | src-tauri/src/client/validation.rs:105-116 | A 403 with an unparseable body is `InvalidXcsrf(v)` when the token header holds `v`, and `XcsrfNotReturned` when the header is absent. |
| `Validation.SentinelCodeLikeUnparseable` | src-tauri/src/client/validation.rs:52-63 | A 403 whose first code is 0 is classified exactly like an unparseable 403 with the same headers, whatever its message. |
| `Validation.EmptyErrors403` | src-tauri/src/client/validation.rs:72-74 | A 403 whose body parses with an empty error list is `UnknownStatus403Format`. |
| `Validation.UnknownError403` | src-tauri/src/client/validation.rs:65-70 | A 403 whose first error has a nonzero code and a message other than the challenge literal is `UnknownRobloxErrorCode` with that code and message. |
| `Validation.Challenge403` | src-tauri/src/client/validation.rs:77-103 | A 403 asking for a challenge never yields a token outcome. A missing metadata header, or metadata JSON that does not parse, gives `UnknownStatus403Format`. Otherwise the result is `ChallengeRequired` with the decoded challenge id. |
| `Validation.ErrorProvenance` | src-tauri/src/client/validation.rs:139-166 | What each error implies about its input:<br>- `ReqwestError` iff a transport error;<br>- `InvalidXcsrf(t)` only from a stale-token 403 whose header holds `t`;<br>- `XcsrfNotReturned` only from a stale-token 403 without the header;<br>- `ChallengeRequired` only from a challenge 403;<br>- `BadRequest` only from a 400 without errors;<br>- `UnknownRobloxErrorCode` only from a 400 or 403 whose first error it carries;<br>- `UnknownStatus403Format` only from a 403. |
| `Decimal.DecimalString` | src-tauri/src/client/economy/mod.rs:203-206 | A `u64` is written into a URL as non-empty ASCII digits with no leading zero. |
| `Decimal.DecimalRoundTrip` | src-tauri/src/client/economy/mod.rs:139 | Reading the digits `format!` writes for an id back gives the id. |
| `Decimal.DecimalStringInjective` | src-tauri/src/client/economy/mod.rs:531-534 | `format!` writes distinct ids as distinct strings. |
| `Economy.ListingsPage` | src-tauri/src/client/economy/mod.rs:218-238 | The listings have the length and order of `raw.data`. Field by field: `uaid`←`user_asset_id`, `price`, `reseller.user_id`←`seller.id`, `reseller.name`←`seller.name`, `serial_number`. The next-page cursor is returned unchanged. |
| `Economy.UserSalesPage` | src-tauri/src/client/economy/mod.rs:315-341 | The sales have the length and order of `raw.data`. Field by field: `sale_id`←`id`, `asset_id`←`details.id`, `robux_received`←`currency.amount`, `is_pending`, `user_id`←`agent.id`, `user_display_name`←`agent.name`, `asset_name`←`details.name`. The cursor is returned unchanged. |
| `Economy.CursorValue` | src-tauri/src/client/economy/mod.rs:200 | `unwrap_or_default`: a present cursor is used as it is, an absent one is the empty string. |
| `Economy.RobuxUrlNamesUser` | src-tauri/src/client/economy/mod.rs:139 | The balance URL starts with the users endpoint, then the user id in decimal, and ends with the currency path. |
| `Economy.ResellersUrlNamesItem` | src-tauri/src/client/economy/mod.rs:203-206 | The listings URL starts with the assets endpoint, then the item id in decimal, and ends with `&limit=` and the limit in decimal. |
| `Economy.UserSalesUrlNamesUser` | src-tauri/src/client/economy/mod.rs:293-301 | The sales URL starts with the transactions endpoint, then the user id in decimal, and ends with the limit and `&transactionType=Sale`. |
| `Economy.PurchaseUrlNamesProduct` | src-tauri/src/client/economy/mod.rs:595-598 | The purchase URL is the products endpoint followed only by digits, which read back as the product id. |
| `Economy.ToggleSaleUrlDeterminesIds` | src-tauri/src/client/economy/mod.rs:531-534 | A resellable-copy URL determines both the item id and the copy id: different id pairs never share a URL. |
| `Economy.AbsentCursorIsEmptyValue` | src-tauri/src/client/economy/mod.rs:199-206 | No cursor renders as an empty `cursor=` value: the same URL as the empty cursor, in both list URLs. |
| `Economy.ResellersUrlKeepsCursor` | src-tauri/src/client/economy/mod.rs:200-206 | The cursor goes into the resellers URL unchanged: two cursors giving the same URL are equal. |
| `Economy.UserSalesUrlKeepsCursor` | src-tauri/src/client/economy/mod.rs:289-301 | The cursor goes into the sales URL unchanged: two cursors giving the same URL are equal. |
| `Economy.PurchaseErrorKind` | src-tauri/src/client/economy/mod.rs:627-653 | Corrected mapping. A known kind comes only from its own message; see `KnownMessage`. Every other text, the empty one included, gives `UnknownRobloxErrorMsg` with exactly that text. |
| `Economy.KnownMessageRoundTrip` | src-tauri/src/client/economy/mod.rs:627-648 | In the corrected mapping `PurchaseErrorKind`, each known kind is reached from its own message: the corrected table is a bijection onto the known kinds. The code as written is not: see `PendingTransactionMisreported`. |
| `Economy.UnknownMessageKept` | src-tauri/src/client/economy/mod.rs:649-653 | Any message outside the five literals maps to `UnknownRobloxErrorMsg` carrying the original text. |
| `Economy.PurchaseErrorKindAsWritten` | src-tauri/src/client/economy/mod.rs:627-653 | The mapping as the code writes it. It never produces `PendingTransaction`. |
| `Economy.PendingTransactionMisreported` | src-tauri/src/client/economy/mod.rs:628-632 | As written, the pending-transaction message gives `CannotBuyOwnItem`, while the intended mapping gives `PendingTransaction`. On every other message the two agree. |
| `Economy.PurchaseResult` | src-tauri/src/client/economy/mod.rs:625-655 | Success iff `purchased`, whatever `error_msg` holds. Otherwise the result is a purchase error of the kind the intended mapping gives the message. |
| `Economy.OperationRequest` | src-tauri/src/client/economy/mod.rs:609-618 | Every state-changing request carries the stored token. Purchases are POSTs; the toggles are PATCHes. |
| `Economy.OperationOutcome` | src-tauri/src/client/economy/mod.rs:620-655 | An attempt succeeds only on a 200 answer. Every classifier error, token outcomes included, is returned as it is. For the toggles, success is exactly a 200. For a purchase answered with 200, a body that decodes gives `PurchaseResult` of it and one that does not gives `MalformedResponse`. |
| `Economy.RobloxApi.Xcsrf` | src-tauri/src/client/economy/mod.rs:546 | Returns the stored token. |
| `Economy.RobloxApi.SetXcsrf` | src-tauri/src/client/economy/mod.rs:392 | The stored token becomes the given one. |
| `Economy.RobloxApi.Send` | src-tauri/src/client/economy/mod.rs:542-549 | The request is appended to the history, and the answer is the service's answer to that history and request. |
| `Economy.RobloxApi.FirstAttemptSucceeds` | src-tauri/src/client/economy/mod.rs:385-389 | A first attempt that succeeds ends the call: `Ok`, one request, token unchanged. |
| `Economy.RobloxApi.StaleTokenRetriedOnce` | src-tauri/src/client/economy/mod.rs:390-396 | After `InvalidXcsrf(t)`, the stored token becomes `t`. Exactly one more request is sent, carrying `t`. Its result is returned verbatim, even a second `InvalidXcsrf`. |
| `Economy.RobloxApi.OtherErrorsNotRetried` | src-tauri/src/client/economy/mod.rs:397 | Any other first error is returned unchanged, with one request and the token unchanged. |
| `Economy.RobloxApi.RetryOnStaleToken` | src-tauri/src/client/economy/mod.rs:385-399 | A call sends one or two requests, the first with the stored token. With one request the token is unchanged and the result is not `InvalidXcsrf`: a stale token is always retried. With two, the second carries the token left stored. |
| `Economy.RobloxApi.PutLimitedOnSaleInternal` | src-tauri/src/client/economy/mod.rs:525-556 | Sends one PATCH to the resellable-copy URL with the stored token and the price. The result is the classification of the answer. |
| `Economy.RobloxApi.TakeLimitedOffSaleInternal` | src-tauri/src/client/economy/mod.rs:558-586 | Sends one PATCH with the stored token and an empty body. The result is the classification of the answer. |
| `Economy.RobloxApi.PurchaseLimitedInternal` | src-tauri/src/client/economy/mod.rs:588-656 | Sends one POST to the product URL with the stored token and the expected price, seller and uaid. It classifies the answer, decodes a 200 body, and maps `purchased`/`error_msg` to the outcome with `PurchaseResult`. |
| `Economy.RobloxApi.PutLimitedOnSale` | src-tauri/src/client/economy/mod.rs:379-400 | The result, the requests sent and the token left stored are those of `RetryOnStaleToken`. Earlier history is unchanged. |
| `Economy.RobloxApi.TakeLimitedOffSale` | src-tauri/src/client/economy/mod.rs:436-448 | Same as `PutLimitedOnSale`, for taking an item off sale. |
| `Economy.RobloxApi.PurchaseTradableLimited` | src-tauri/src/client/economy/mod.rs:491-513 | Same as `PutLimitedOnSale`, for a purchase. |
| `Economy.RobloxApi.Robux` | src-tauri/src/client/economy/mod.rs:137-155 | Sends one GET to the currency URL without a token. Returns the classifier's error, `MalformedResponse`, or the decoded balance. |
| `Economy.RobloxApi.Resellers` | src-tauri/src/client/economy/mod.rs:193-239 | Sends one GET without a token to the resellers URL, built from the item id, the cursor (empty when absent) and the limit. Returns the classifier's error, `MalformedResponse`, or the listings converted in order with the cursor passed through. |
| `Economy.RobloxApi.UserSales` | src-tauri/src/client/economy/mod.rs:283-342 | Sends one GET without a token to the transactions URL, with the cursor (empty when absent), the limit and `transactionType=Sale`. Returns the classifier's error, `MalformedResponse`, or the sales converted in order with the cursor passed through. |

## Findings

| source | as written | input that shows it | evidently intended | confidence | as-written member | corrected member |
|---|---|---|---|---|---|---|
| src-tauri/src/client/economy/mod.rs:628-632 | The message "You have a pending transaction. Please wait 1 minute and try again." maps to `CannotBuyOwnItem`, so no branch ever produces `PendingTransaction`. | `purchased = false` with `error_msg` set to the pending-transaction message | `PendingTransaction`, as its doc comment describes (src-tauri/src/client/economy/mod.rs:38-44) | high; not executed | `Economy.PurchaseErrorKindAsWritten` (with `Economy.PendingTransactionMisreported`) | `Economy.PurchaseErrorKind` |

`PurchaseResult`, and through it `OperationOutcome`, `PurchaseLimitedInternal` and `PurchaseTradableLimited`, use the corrected mapping. The difference from the code lies only in the pending-transaction message, and `PendingTransactionMisreported` states it.

## Left out

- Economy.PurchaseResult: maps the pending-transaction message to `PendingTransaction`, where the code as written gives `CannotBuyOwnItem`; `PurchaseErrorKindAsWritten` models the code as written (see "## Findings").
- Economy.OperationOutcome: for a purchase, follows `PurchaseResult` and so differs from the code on the pending-transaction message.
- Economy.RobloxApi.PurchaseLimitedInternal: follows `PurchaseResult` and so differs from the code on the pending-transaction message.
- Economy.RobloxApi.PurchaseTradableLimited: follows `PurchaseResult` and so differs from the code on the pending-transaction message.
- Network I/O: each request is answered by the constant `remote` function of the client. Cookie attachment, the `Cookie`, `User-Agent` and `Content-Type` headers, and `reqwest` request building are not modelled.
- The cookie and user-id lookups (`cookie_string`, `user_id`) and their failures are not modelled. The user id is a parameter of `Robux` and `UserSales`.
- Async execution, the lock around the token, and concurrent token refreshes are not modelled. The token is a plain field of a sequential object.
- `Limit::to_u64` and the `request_types` module are not part of this model. The limit is a plain `u64`, and the raw response shapes are records with only the fields the code reads.
- JSON and base64 decoding are abstract total functions. Their internals are not modelled: which texts parse, that a `code` above 65535 fails to parse as `u16`, and how an empty cursor field becomes `None`.
- The panics of `header.to_str().unwrap()` and `response.text().unwrap()` are not modelled: header values and bodies arrive as text. The base64 `unwrap` is the precondition `MetadataDecodes`.
- Header names are looked up in lower case in a map. Repeated headers and case-insensitive matching of other spellings are not modelled.
- The client's construction (`ClientBuilder`) is not part of this model. The constructor takes the initial token, the service and the decoders.
- The remote service answers as a function of the request history and the new request. A service whose answers depend on anything else, such as time or other clients, is outside the model.
- The Tauri command handlers in src-tauri/src/commands/users.rs only forward calls and are not modelled.
