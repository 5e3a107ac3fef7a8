/**
 * The response classifier: turns one HTTP outcome (a transport error, or a status
 * code with headers and a body) into either the 200 response or exactly one error
 * of the closed taxonomy in `Errors`.
 *
 * JSON and base64 decoding are library calls the model does not look into; they are
 * the total functions of a `Decoders` value, each answering `None` where the library
 * would return an error.
 */
module Validation {
  import opened Wrappers
  import opened Errors

  newtype byte = x: int | 0 <= x < 0x100

  /** Header names, lower-case as the client spells them (header lookup ignores case). */
  const XCSRF_HEADER: string := "x-csrf-token"
  const CHALLENGE_METADATA_HEADER: string := "rblx-challenge-metadata"

  /** The message of a 403 error that asks for a verification challenge. */
  const CHALLENGE_REQUIRED_MESSAGE: string := "Challenge is required to authorize the request"

  /** Every status code the classifier gives a meaning of its own. */
  const KNOWN_STATUSES: set<u16> := {200, 400, 401, 403, 429, 500}

  datatype RobloxErrorRaw = RobloxErrorRaw(code: u16, message: string)

  /** The `{errors: [{code, message}, ...]}` body Roblox sends with 400 and 403. */
  datatype RobloxErrorResponse = RobloxErrorResponse(errors: seq<RobloxErrorRaw>)

  /** The JSON document carried, base64-encoded, by the challenge metadata header. */
  datatype ChallengeMetadata = ChallengeMetadata(
    userId: string,
    challengeId: string,
    shouldShowRememberDeviceCheckbox: bool,
    rememberDevice: bool,
    sessionCookie: string,
    verificationToken: string,
    actionType: string,
    requestPath: string,
    requestMethod: string)

  /** A received HTTP response: header values are already text, the body already read. */
  datatype Response = Response(status: u16, headers: map<string, string>, body: string)

  /** The decoding library calls the classifier relies on. */
  datatype Decoders = Decoders(
    errorResponse: string -> Option<RobloxErrorResponse>,
    base64: string -> Option<seq<byte>>,
    challengeMetadata: seq<byte> -> Option<ChallengeMetadata>)

  /** The first Roblox error in the body, when the body parses and lists at least one. */
  function FirstError(r: Response, d: Decoders): Option<RobloxErrorRaw> {
    match d.errorResponse(r.body)
    case None => None
    case Some(x) => if |x.errors| == 0 then None else Some(x.errors[0])
  }

  /** A 403 body that says the anti-forgery token is stale: it does not parse, or its first code is the sentinel 0. */
  predicate SignalsStaleToken(r: Response, d: Decoders) {
    d.errorResponse(r.body).None? || (FirstError(r, d).Some? && FirstError(r, d).value.code == 0)
  }

  /** A 403 body whose first error asks for a verification challenge. */
  predicate AsksForChallenge(r: Response, d: Decoders) {
    && FirstError(r, d).Some?
    && FirstError(r, d).value.code != 0
    && FirstError(r, d).value.message == CHALLENGE_REQUIRED_MESSAGE
  }

  /**
   * The source decodes the challenge metadata header with an unwrapping base64 call:
   * on the challenge path the header must be valid base64.
   */
  predicate MetadataDecodes(r: Response, d: Decoders) {
    AsksForChallenge(r, d) && CHALLENGE_METADATA_HEADER in r.headers ==>
      d.base64(r.headers[CHALLENGE_METADATA_HEADER]).Some?
  }

  /** What the classifier demands of one transport outcome. */
  predicate ReplyDecodes(rr: Result<Response, TransportError>, d: Decoders) {
    rr.Success? && rr.value.status == 403 ==> MetadataDecodes(rr.value, d)
  }

  /** The token outcome of a 403: the fresh token from the header, or word that none came back. */
  function XcsrfError(headers: map<string, string>): (e: RobloxError)
    ensures e.IsXcsrfOutcome()
    ensures e.InvalidXcsrf? <==> XCSRF_HEADER in headers
    ensures e.InvalidXcsrf? ==> e.token == headers[XCSRF_HEADER]
  {
    match Get(headers, XCSRF_HEADER)
    case Some(x) => InvalidXcsrf(x)
    case None => XcsrfNotReturned
  }

  function Get(headers: map<string, string>, name: string): Option<string> {
    if name in headers then Some(headers[name]) else None
  }

  /** The challenge id carried by the metadata header, when the header is there and its JSON parses. */
  function ChallengeIdOf(r: Response, d: Decoders): Option<string>
    requires MetadataDecodes(r, d)
    requires AsksForChallenge(r, d)
  {
    match Get(r.headers, CHALLENGE_METADATA_HEADER)
    case None => None
    case Some(encoded) =>
      match d.challengeMetadata(d.base64(encoded).value)
      case None => None
      case Some(metadata) => Some(metadata.challengeId)
  }

  /** Classifies a 403: a stale anti-forgery token, a verification challenge, or an unknown error. */
  function Process403(r: Response, d: Decoders): (e: RobloxError)
    requires MetadataDecodes(r, d)
    ensures e.IsXcsrfOutcome() || e.ChallengeRequired? || e.UnknownRobloxErrorCode? || e.UnknownStatus403Format?
    ensures e.IsXcsrfOutcome() <==> SignalsStaleToken(r, d)
    ensures e.IsXcsrfOutcome() ==> e == XcsrfError(r.headers)
    ensures e.ChallengeRequired? ==>
      && AsksForChallenge(r, d)
      && CHALLENGE_METADATA_HEADER in r.headers
      && ChallengeIdOf(r, d) == Some(e.challengeId)
    ensures e.UnknownRobloxErrorCode? <==>
      FirstError(r, d).Some? && FirstError(r, d).value.code != 0 && FirstError(r, d).value.message != CHALLENGE_REQUIRED_MESSAGE
    ensures e.UnknownRobloxErrorCode? ==> FirstError(r, d) == Some(RobloxErrorRaw(e.code, e.message))
  {
    match d.errorResponse(r.body)
    case None => XcsrfError(r.headers)
    case Some(x) =>
      if |x.errors| == 0 then UnknownStatus403Format
      else if x.errors[0].code == 0 then XcsrfError(r.headers)
      else if x.errors[0].message != CHALLENGE_REQUIRED_MESSAGE then
        UnknownRobloxErrorCode(x.errors[0].code, x.errors[0].message)
      else
        match Get(r.headers, CHALLENGE_METADATA_HEADER)
        case None => UnknownStatus403Format
        case Some(encoded) =>
          match d.challengeMetadata(d.base64(encoded).value)
          case None => UnknownStatus403Format
          case Some(metadata) => ChallengeRequired(metadata.challengeId)
  }

  /** Classifies a 400: a plain bad request, or the first Roblox error the body carries. */
  function Process400(r: Response, d: Decoders): (e: RobloxError)
    ensures e.BadRequest? || e.UnknownRobloxErrorCode?
    ensures e.UnknownRobloxErrorCode? <==> FirstError(r, d).Some?
    ensures e.UnknownRobloxErrorCode? ==> FirstError(r, d) == Some(RobloxErrorRaw(e.code, e.message))
  {
    match d.errorResponse(r.body)
    case None => BadRequest
    case Some(x) =>
      if |x.errors| == 0 then BadRequest
      else UnknownRobloxErrorCode(x.errors[0].code, x.errors[0].message)
  }

  /** Passes a 200 response through and turns every other status into its error. */
  function HandleNon200StatusCodes(r: Response, d: Decoders): (res: Result<Response, RobloxError>)
    requires r.status == 403 ==> MetadataDecodes(r, d)
    ensures res.Success? <==> r.status == 200
    ensures res.Success? ==> res.value == r
    ensures r.status == 400 ==> res == Failure(Process400(r, d))
    ensures r.status == 403 ==> res == Failure(Process403(r, d))
    ensures res == Failure(InvalidRoblosecurity) <==> r.status == 401
    ensures res == Failure(TooManyRequests) <==> r.status == 429
    ensures res == Failure(InternalServerError) <==> r.status == 500
    ensures res.Failure? && res.error.UnidentifiedStatusCode? <==> r.status !in KNOWN_STATUSES
    ensures res.Failure? && res.error.UnidentifiedStatusCode? ==> res.error.status == r.status
  {
    match r.status
    case 200 => Success(r)
    case 400 => Failure(Process400(r, d))
    case 401 => Failure(InvalidRoblosecurity)
    case 403 => Failure(Process403(r, d))
    case 429 => Failure(TooManyRequests)
    case 500 => Failure(InternalServerError)
    case _ => Failure(UnidentifiedStatusCode(r.status))
  }

  /**
   * Classifies the outcome of sending a request. A success is always the response
   * itself, with status 200.
   */
  function ValidateRequestResult(rr: Result<Response, TransportError>, d: Decoders): (res: Result<Response, RobloxError>)
    requires ReplyDecodes(rr, d)
    ensures res.Success? ==> rr.Success? && res.value == rr.value && res.value.status == 200
    ensures rr.Failure? ==> res == Failure(ReqwestError(rr.error))
    ensures rr.Success? ==> res == HandleNon200StatusCodes(rr.value, d)
    ensures res.Failure? ==> !res.error.MalformedResponse? && !res.error.PurchaseFailed?
  {
    match rr
    case Success(response) => HandleNon200StatusCodes(response, d)
    case Failure(e) => Failure(ReqwestError(e))
  }

  /** Decodes the body of a 200 response into the shape the caller expects. */
  function ParseToRaw<T>(r: Response, parse: string -> Option<T>): (res: Result<T, RobloxError>)
    ensures res.Success? <==> parse(r.body).Some?
    ensures res.Success? ==> res.value == parse(r.body).value
    ensures res.Failure? ==> res.error == MalformedResponse
  {
    match parse(r.body)
    case Some(x) => Success(x)
    case None => Failure(MalformedResponse)
  }

  // Properties of the classifier, one per branch of its design.

  /** 401, 429 and 500 are classified by their status alone, whatever the body and headers. */
  lemma StatusAloneDecides(r1: Response, r2: Response, d: Decoders)
    requires r1.status == r2.status
    requires r1.status in {401, 429, 500} || r1.status !in KNOWN_STATUSES
    ensures HandleNon200StatusCodes(r1, d) == HandleNon200StatusCodes(r2, d)
  {
  }

  /** A 400 is decided by the first error alone; every later error is ignored. */
  lemma Process400FirstErrorDecides(r1: Response, r2: Response, d: Decoders)
    requires d.errorResponse(r1.body).Some? && d.errorResponse(r2.body).Some?
    requires |d.errorResponse(r1.body).value.errors| > 0 && |d.errorResponse(r2.body).value.errors| > 0
    requires d.errorResponse(r1.body).value.errors[0] == d.errorResponse(r2.body).value.errors[0]
    ensures Process400(r1, d) == Process400(r2, d)
    ensures Process400(r1, d).UnknownRobloxErrorCode?
  {
  }

  /** A 400 whose body does not parse, or lists no error, is a plain bad request. */
  lemma Process400WithoutErrors(r: Response, d: Decoders)
    requires d.errorResponse(r.body).None? || |d.errorResponse(r.body).value.errors| == 0
    ensures Process400(r, d) == BadRequest
  {
  }

  /** A 403 whose body does not parse reports the token header: the fresh token, or its absence. */
  lemma UnparseableBody403(r: Response, d: Decoders)
    requires d.errorResponse(r.body).None?
    ensures XCSRF_HEADER in r.headers ==> Process403(r, d) == InvalidXcsrf(r.headers[XCSRF_HEADER])
    ensures XCSRF_HEADER !in r.headers ==> Process403(r, d) == XcsrfNotReturned
  {
  }

  /**
   * A 403 whose first error has the sentinel code 0 is classified exactly like a 403 whose
   * body does not parse, whatever the message says.
   */
  lemma SentinelCodeLikeUnparseable(r1: Response, r2: Response, d: Decoders)
    requires r1.headers == r2.headers
    requires FirstError(r1, d).Some? && FirstError(r1, d).value.code == 0
    requires d.errorResponse(r2.body).None?
    ensures Process403(r1, d) == Process403(r2, d)
  {
  }

  /** A 403 whose body parses but lists no error has an unknown format. */
  lemma EmptyErrors403(r: Response, d: Decoders)
    requires d.errorResponse(r.body).Some? && |d.errorResponse(r.body).value.errors| == 0
    ensures Process403(r, d) == UnknownStatus403Format
  {
  }

  /** A 403 whose first error is neither the sentinel nor the challenge request is reported with its code and message. */
  lemma UnknownError403(r: Response, d: Decoders, code: u16, message: string)
    requires FirstError(r, d) == Some(RobloxErrorRaw(code, message))
    requires code != 0 && message != CHALLENGE_REQUIRED_MESSAGE
    ensures Process403(r, d) == UnknownRobloxErrorCode(code, message)
  {
  }

  /**
   * A 403 that asks for a challenge yields the challenge id from the decoded metadata, or an
   * unknown format when the header is missing or its JSON does not parse; never a token outcome.
   */
  lemma Challenge403(r: Response, d: Decoders)
    requires MetadataDecodes(r, d)
    requires AsksForChallenge(r, d)
    ensures !Process403(r, d).IsXcsrfOutcome()
    ensures CHALLENGE_METADATA_HEADER !in r.headers ==> Process403(r, d) == UnknownStatus403Format
    ensures CHALLENGE_METADATA_HEADER in r.headers ==>
      var decoded := d.base64(r.headers[CHALLENGE_METADATA_HEADER]).value;
      match d.challengeMetadata(decoded)
      case None => Process403(r, d) == UnknownStatus403Format
      case Some(metadata) => Process403(r, d) == ChallengeRequired(metadata.challengeId)
  {
  }

  /**
   * Where each error of the classifier comes from: the conditions on the transport outcome
   * that every error implies.
   */
  lemma ErrorProvenance(rr: Result<Response, TransportError>, d: Decoders)
    requires ReplyDecodes(rr, d)
    ensures var res := ValidateRequestResult(rr, d);
      && (res.Failure? && res.error.ReqwestError? <==> rr.Failure?)
      && (res.Failure? && res.error.InvalidXcsrf? ==>
            rr.Success? && rr.value.status == 403 && SignalsStaleToken(rr.value, d)
            && Get(rr.value.headers, XCSRF_HEADER) == Some(res.error.token))
      && (res == Failure(XcsrfNotReturned) ==>
            rr.Success? && rr.value.status == 403 && SignalsStaleToken(rr.value, d)
            && XCSRF_HEADER !in rr.value.headers)
      && (res.Failure? && res.error.ChallengeRequired? ==>
            rr.Success? && rr.value.status == 403 && AsksForChallenge(rr.value, d))
      && (res == Failure(BadRequest) ==>
            rr.Success? && rr.value.status == 400 && FirstError(rr.value, d).None?)
      && (res.Failure? && res.error.UnknownRobloxErrorCode? ==>
            rr.Success? && rr.value.status in {400, 403}
            && FirstError(rr.value, d) == Some(RobloxErrorRaw(res.error.code, res.error.message)))
      && (res == Failure(UnknownStatus403Format) ==> rr.Success? && rr.value.status == 403)
  {
  }
}
