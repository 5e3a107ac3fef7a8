/**
 * The economy operations of the client: the pages of resale listings and of the
 * user's sales, putting a limited item on sale and taking it off, and buying one.
 *
 * `RobloxApi` is the client object. Its anti-forgery token `xcsrf` is the one field
 * the operations update in place; `requests` records every request sent, in order,
 * and the remote service is a fixed function of that history and the new request.
 */
module Economy {
  import opened Wrappers
  import opened Errors
  import opened Validation
  import opened Decimal

  const ROBUX_API_PART_1: string := "https://economy.roblox.com/v1/users/"
  const ROBUX_API_PART_2: string := "/currency"

  const RESELLERS_API_PART_1: string := "https://economy.roblox.com/v1/assets/"
  const RESELLERS_API_PART_2: string := "/resellers"

  const TRANSACTIONS_API_PART_1: string := "https://economy.roblox.com/v2/users/"
  const TRANSACTIONS_API_PART_2: string := "/transactions"

  const TOGGLE_SALE_API_PART_1: string := "https://economy.roblox.com/v1/assets/"
  const TOGGLE_SALE_API_PART_2: string := "/resellable-copies/"

  const PURCHASE_API: string := "https://economy.roblox.com/v1/purchases/products/"

  const USER_SALES_TRANSACTION_TYPE: string := "Sale"

  // The purchase failure messages the service is known to send.
  const PENDING_TRANSACTION_MESSAGE: string := "You have a pending transaction. Please wait 1 minute and try again."
  const ALREADY_OWNED_MESSAGE: string := "You already own this item."
  const NOT_FOR_SALE_MESSAGE: string := "This item is not for sale."
  const NOT_ENOUGH_ROBUX_MESSAGE: string := "You do not have enough Robux to purchase this item."
  const PRICE_CHANGED_MESSAGE: string := "This item has changed price. Please try again."

  /** The seller of a resale listing. */
  datatype Reseller = Reseller(userId: u64, name: string)

  /** A resale listing of a limited item. */
  datatype Listing = Listing(uaid: u64, price: u64, reseller: Reseller, serialNumber: Option<u64>)

  /** A sale from the user's transaction history. */
  datatype UserSale = UserSale(
    saleId: u64,
    isPending: bool,
    userId: u64,
    userDisplayName: string,
    robuxReceived: u64,
    assetId: u64,
    assetName: string)

  // The JSON shapes the service answers with, as plain records.

  datatype CurrencyResponse = CurrencyResponse(robux: u64)

  datatype SellerRaw = SellerRaw(id: u64, name: string)
  datatype ListingRaw = ListingRaw(userAssetId: u64, seller: SellerRaw, price: u64, serialNumber: Option<u64>)
  datatype ResellersResponse = ResellersResponse(nextPageCursor: Option<string>, data: seq<ListingRaw>)

  datatype AgentRaw = AgentRaw(id: u64, name: string)
  datatype DetailsRaw = DetailsRaw(id: u64, name: string)
  datatype CurrencyRaw = CurrencyRaw(amount: u64)
  datatype UserSaleRaw = UserSaleRaw(id: u64, isPending: bool, agent: AgentRaw, details: DetailsRaw, currency: CurrencyRaw)
  datatype UserSalesResponse = UserSalesResponse(nextPageCursor: Option<string>, data: seq<UserSaleRaw>)

  datatype PurchaseLimitedResponse = PurchaseLimitedResponse(purchased: bool, errorMsg: string)

  /** The JSON decoders for the bodies of 200 responses. */
  datatype BodyParsers = BodyParsers(
    currency: string -> Option<CurrencyResponse>,
    resellers: string -> Option<ResellersResponse>,
    userSales: string -> Option<UserSalesResponse>,
    purchase: string -> Option<PurchaseLimitedResponse>)

  // Page conversions.

  /** `l` is the listing made from the raw record `raw`, field for field. */
  predicate IsListingOf(l: Listing, raw: ListingRaw) {
    && l.uaid == raw.userAssetId
    && l.price == raw.price
    && l.reseller.userId == raw.seller.id
    && l.reseller.name == raw.seller.name
    && l.serialNumber == raw.serialNumber
  }

  /** `s` is the sale made from the raw record `raw`, field for field. */
  predicate IsUserSaleOf(s: UserSale, raw: UserSaleRaw) {
    && s.saleId == raw.id
    && s.assetId == raw.details.id
    && s.robuxReceived == raw.currency.amount
    && s.isPending == raw.isPending
    && s.userId == raw.agent.id
    && s.userDisplayName == raw.agent.name
    && s.assetName == raw.details.name
  }

  /** Converts a page of raw resale records, keeping their order, and passes the cursor through. */
  method ListingsPage(raw: ResellersResponse) returns (listings: seq<Listing>, nextPageCursor: Option<string>)
    ensures nextPageCursor == raw.nextPageCursor
    ensures |listings| == |raw.data|
    ensures forall i :: 0 <= i < |raw.data| ==> IsListingOf(listings[i], raw.data[i])
  {
    nextPageCursor := raw.nextPageCursor;
    listings := [];
    for i := 0 to |raw.data|
      invariant |listings| == i
      invariant forall k :: 0 <= k < i ==> IsListingOf(listings[k], raw.data[k])
    {
      var listing := raw.data[i];
      var reseller := Reseller(listing.seller.id, listing.seller.name);
      listings := listings + [Listing(listing.userAssetId, listing.price, reseller, listing.serialNumber)];
    }
  }

  /** Converts a page of raw sale records, keeping their order, and passes the cursor through. */
  method UserSalesPage(raw: UserSalesResponse) returns (sales: seq<UserSale>, nextPageCursor: Option<string>)
    ensures nextPageCursor == raw.nextPageCursor
    ensures |sales| == |raw.data|
    ensures forall i :: 0 <= i < |raw.data| ==> IsUserSaleOf(sales[i], raw.data[i])
  {
    nextPageCursor := raw.nextPageCursor;
    sales := [];
    for i := 0 to |raw.data|
      invariant |sales| == i
      invariant forall k :: 0 <= k < i ==> IsUserSaleOf(sales[k], raw.data[k])
    {
      var rawSale := raw.data[i];
      var sale := UserSale(
        rawSale.id, rawSale.isPending, rawSale.agent.id, rawSale.agent.name,
        rawSale.currency.amount, rawSale.details.id, rawSale.details.name);
      sales := sales + [sale];
    }
  }

  // Request URLs.

  /** The cursor query value: an absent cursor is the empty string. */
  function CursorValue(cursor: Option<string>): (v: string)
    ensures cursor.Some? ==> v == cursor.value
    ensures cursor.None? ==> v == ""
  {
    match cursor
    case Some(c) => c
    case None => ""
  }

  function RobuxUrl(userId: u64): string {
    ROBUX_API_PART_1 + DecimalString(userId as nat) + ROBUX_API_PART_2
  }

  function ResellersUrl(itemId: u64, limit: u64, cursor: Option<string>): string {
    RESELLERS_API_PART_1 + DecimalString(itemId as nat) + RESELLERS_API_PART_2
    + "?cursor=" + CursorValue(cursor) + "&limit=" + DecimalString(limit as nat)
  }

  function UserSalesUrl(userId: u64, limit: u64, cursor: Option<string>): string {
    TRANSACTIONS_API_PART_1 + DecimalString(userId as nat) + TRANSACTIONS_API_PART_2
    + "?cursor=" + CursorValue(cursor) + "&limit=" + DecimalString(limit as nat)
    + "&transactionType=" + USER_SALES_TRANSACTION_TYPE
  }

  function ToggleSaleUrl(itemId: u64, uaid: u64): string {
    TOGGLE_SALE_API_PART_1 + DecimalString(itemId as nat) + TOGGLE_SALE_API_PART_2 + DecimalString(uaid as nat)
  }

  function PurchaseUrl(productId: u64): string {
    PURCHASE_API + DecimalString(productId as nat)
  }

  lemma Regroup(a: string, b: string, c: string)
    ensures a + b + c == a + (b + c)
  {
  }

  /** A URL made of an endpoint, a number in decimal and a tail that does not start with a digit. */
  lemma NumberAfterEndpoint(endpoint: string, n: nat, tail: string)
    requires tail == [] || !IsDigit(tail[0])
    ensures var url := endpoint + DecimalString(n) + tail;
      && endpoint <= url
      && DecimalValue(LeadingDigits(url[|endpoint|..])) == n
      && url[|url| - |tail|..] == tail
  {
    var id := DecimalString(n);
    DecimalRoundTrip(n);
    LeadingDigitsOf(id, tail);
    assert (endpoint + id + tail)[|endpoint|..] == id + tail;
  }

  /** The balance URL is the users endpoint, the user id in decimal, then the currency path. */
  lemma RobuxUrlNamesUser(userId: u64)
    ensures ROBUX_API_PART_1 <= RobuxUrl(userId)
    ensures DecimalValue(LeadingDigits(RobuxUrl(userId)[|ROBUX_API_PART_1|..])) == userId as nat
    ensures var url := RobuxUrl(userId); url[|url| - |ROBUX_API_PART_2|..] == ROBUX_API_PART_2
  {
    NumberAfterEndpoint(ROBUX_API_PART_1, userId as nat, ROBUX_API_PART_2);
  }

  /** The resale listings URL is the assets endpoint, the item id in decimal, ..., the limit last. */
  lemma ResellersUrlNamesItem(itemId: u64, limit: u64, cursor: Option<string>)
    ensures RESELLERS_API_PART_1 <= ResellersUrl(itemId, limit, cursor)
    ensures DecimalValue(LeadingDigits(ResellersUrl(itemId, limit, cursor)[|RESELLERS_API_PART_1|..])) == itemId as nat
    ensures var url, tail := ResellersUrl(itemId, limit, cursor), "&limit=" + DecimalString(limit as nat);
      |tail| <= |url| && url[|url| - |tail|..] == tail
  {
    var head := RESELLERS_API_PART_1 + DecimalString(itemId as nat);
    var c, l := CursorValue(cursor), DecimalString(limit as nat);
    Regroup(head, RESELLERS_API_PART_2, "?cursor=");
    Regroup(head, RESELLERS_API_PART_2 + "?cursor=", c);
    Regroup(head, RESELLERS_API_PART_2 + "?cursor=" + c, "&limit=");
    Regroup(head, RESELLERS_API_PART_2 + "?cursor=" + c + "&limit=", l);
    var tail := RESELLERS_API_PART_2 + "?cursor=" + c + "&limit=" + l;
    NumberAfterEndpoint(RESELLERS_API_PART_1, itemId as nat, tail);
    Regroup(RESELLERS_API_PART_2 + "?cursor=" + c, "&limit=", l);
  }

  /** The sales history URL is the transactions endpoint, the user id in decimal, ..., the limit and the sale filter last. */
  lemma UserSalesUrlNamesUser(userId: u64, limit: u64, cursor: Option<string>)
    ensures TRANSACTIONS_API_PART_1 <= UserSalesUrl(userId, limit, cursor)
    ensures DecimalValue(LeadingDigits(UserSalesUrl(userId, limit, cursor)[|TRANSACTIONS_API_PART_1|..])) == userId as nat
    ensures var url := UserSalesUrl(userId, limit, cursor);
      var tail := "&limit=" + DecimalString(limit as nat) + "&transactionType=" + USER_SALES_TRANSACTION_TYPE;
      |tail| <= |url| && url[|url| - |tail|..] == tail
  {
    var head := TRANSACTIONS_API_PART_1 + DecimalString(userId as nat);
    var c, l := CursorValue(cursor), DecimalString(limit as nat);
    var p := TRANSACTIONS_API_PART_2 + "?cursor=" + c;
    Regroup(head, TRANSACTIONS_API_PART_2, "?cursor=");
    Regroup(head, TRANSACTIONS_API_PART_2 + "?cursor=", c);
    Regroup(head, p, "&limit=");
    Regroup(head, p + "&limit=", l);
    Regroup(head, p + "&limit=" + l, "&transactionType=");
    Regroup(head, p + "&limit=" + l + "&transactionType=", USER_SALES_TRANSACTION_TYPE);
    NumberAfterEndpoint(TRANSACTIONS_API_PART_1, userId as nat, p + "&limit=" + l + "&transactionType=" + USER_SALES_TRANSACTION_TYPE);
    Regroup(p, "&limit=", l);
    Regroup(p, "&limit=" + l, "&transactionType=");
    Regroup(p, "&limit=" + l + "&transactionType=", USER_SALES_TRANSACTION_TYPE);
  }

  /** The purchase URL is the products endpoint followed by nothing but the product id in decimal. */
  lemma PurchaseUrlNamesProduct(productId: u64)
    ensures PURCHASE_API <= PurchaseUrl(productId)
    ensures IsDigits(PurchaseUrl(productId)[|PURCHASE_API|..])
    ensures DecimalValue(PurchaseUrl(productId)[|PURCHASE_API|..]) == productId as nat
  {
    DecimalRoundTrip(productId as nat);
    assert PurchaseUrl(productId)[|PURCHASE_API|..] == DecimalString(productId as nat);
  }

  /** A copy's URL names exactly one item and one copy: different ids never share a URL. */
  lemma ToggleSaleUrlDeterminesIds(itemId1: u64, uaid1: u64, itemId2: u64, uaid2: u64)
    requires ToggleSaleUrl(itemId1, uaid1) == ToggleSaleUrl(itemId2, uaid2)
    ensures itemId1 == itemId2 && uaid1 == uaid2
  {
    var u1, u2 := DecimalString(uaid1 as nat), DecimalString(uaid2 as nat);
    Regroup(TOGGLE_SALE_API_PART_1 + DecimalString(itemId1 as nat), TOGGLE_SALE_API_PART_2, u1);
    Regroup(TOGGLE_SALE_API_PART_1 + DecimalString(itemId2 as nat), TOGGLE_SALE_API_PART_2, u2);
    NumberAfterEndpoint(TOGGLE_SALE_API_PART_1, itemId1 as nat, TOGGLE_SALE_API_PART_2 + u1);
    NumberAfterEndpoint(TOGGLE_SALE_API_PART_1, itemId2 as nat, TOGGLE_SALE_API_PART_2 + u2);
    assert itemId1 == itemId2;
    var head := TOGGLE_SALE_API_PART_1 + DecimalString(itemId1 as nat) + TOGGLE_SALE_API_PART_2;
    assert u1 == (head + u1)[|head|..];
    assert u2 == (head + u2)[|head|..];
    DecimalStringInjective(uaid1 as nat, uaid2 as nat);
  }

  /** The first page is asked for with an empty cursor value: no cursor and the empty cursor give the same URL. */
  lemma AbsentCursorIsEmptyValue(id: u64, limit: u64)
    ensures ResellersUrl(id, limit, None) == ResellersUrl(id, limit, Some(""))
    ensures UserSalesUrl(id, limit, None) == UserSalesUrl(id, limit, Some(""))
    ensures ResellersUrl(id, limit, None)
         == RESELLERS_API_PART_1 + DecimalString(id as nat) + "/resellers?cursor=&limit=" + DecimalString(limit as nat)
  {
  }

  /** The cursor is carried into the resellers URL unchanged: different cursors give different URLs. */
  lemma {:induction false} ResellersUrlKeepsCursor(id: u64, limit: u64, c1: string, c2: string)
    requires ResellersUrl(id, limit, Some(c1)) == ResellersUrl(id, limit, Some(c2))
    ensures c1 == c2
  {
    var prefix := RESELLERS_API_PART_1 + DecimalString(id as nat) + RESELLERS_API_PART_2 + "?cursor=";
    var suffix := "&limit=" + DecimalString(limit as nat);
    var u1, u2 := prefix + c1 + suffix, prefix + c2 + suffix;
    assert ResellersUrl(id, limit, Some(c1)) == u1;
    assert ResellersUrl(id, limit, Some(c2)) == u2;
    assert |c1| == |c2|;
    assert c1 == u1[|prefix|..|prefix| + |c1|];
    assert c2 == u2[|prefix|..|prefix| + |c2|];
  }

  /** The cursor is carried into the sales history URL unchanged: different cursors give different URLs. */
  lemma {:induction false} UserSalesUrlKeepsCursor(id: u64, limit: u64, c1: string, c2: string)
    requires UserSalesUrl(id, limit, Some(c1)) == UserSalesUrl(id, limit, Some(c2))
    ensures c1 == c2
  {
    var prefix := TRANSACTIONS_API_PART_1 + DecimalString(id as nat) + TRANSACTIONS_API_PART_2 + "?cursor=";
    var l := DecimalString(limit as nat);
    var suffix := "&limit=" + l + "&transactionType=" + USER_SALES_TRANSACTION_TYPE;
    var u1, u2 := prefix + c1 + suffix, prefix + c2 + suffix;
    Regroup(prefix + c1, "&limit=", l);
    Regroup(prefix + c1, "&limit=" + l, "&transactionType=");
    Regroup(prefix + c1, "&limit=" + l + "&transactionType=", USER_SALES_TRANSACTION_TYPE);
    Regroup(prefix + c2, "&limit=", l);
    Regroup(prefix + c2, "&limit=" + l, "&transactionType=");
    Regroup(prefix + c2, "&limit=" + l + "&transactionType=", USER_SALES_TRANSACTION_TYPE);
    assert UserSalesUrl(id, limit, Some(c1)) == u1;
    assert UserSalesUrl(id, limit, Some(c2)) == u2;
    assert |c1| == |c2|;
    assert c1 == u1[|prefix|..|prefix| + |c1|];
    assert c2 == u2[|prefix|..|prefix| + |c2|];
  }

  // Purchase outcome.

  /**
   * The purchase error a failure message stands for: each known message its own kind,
   * every other text (the empty one included) an unknown message that keeps the text.
   */
  function PurchaseErrorKind(msg: string): (k: PurchaseTradableLimitedError)
    ensures k.UnknownRobloxErrorMsg? ==> k.text == msg
    ensures !k.UnknownRobloxErrorMsg? ==> msg == KnownMessage(k)
  {
    if msg == PENDING_TRANSACTION_MESSAGE then PendingTransaction
    else if msg == ALREADY_OWNED_MESSAGE then CannotBuyOwnItem
    else if msg == NOT_FOR_SALE_MESSAGE then ItemNotForSale
    else if msg == NOT_ENOUGH_ROBUX_MESSAGE then NotEnoughRobux
    else if msg == PRICE_CHANGED_MESSAGE then PriceChanged
    else UnknownRobloxErrorMsg(msg)
  }

  /** The message the service sends for each known purchase error. */
  function KnownMessage(k: PurchaseTradableLimitedError): string
    requires !k.UnknownRobloxErrorMsg?
  {
    match k
    case PendingTransaction => PENDING_TRANSACTION_MESSAGE
    case CannotBuyOwnItem => ALREADY_OWNED_MESSAGE
    case ItemNotForSale => NOT_FOR_SALE_MESSAGE
    case NotEnoughRobux => NOT_ENOUGH_ROBUX_MESSAGE
    case PriceChanged => PRICE_CHANGED_MESSAGE
  }

  /** Every known kind is reached from exactly its own message. */
  lemma KnownMessageRoundTrip(k: PurchaseTradableLimitedError)
    requires !k.UnknownRobloxErrorMsg?
    ensures PurchaseErrorKind(KnownMessage(k)) == k
  {
  }

  /** Any text that is not one of the known messages is reported as unknown, verbatim. */
  lemma UnknownMessageKept(msg: string)
    requires msg !in {PENDING_TRANSACTION_MESSAGE, ALREADY_OWNED_MESSAGE, NOT_FOR_SALE_MESSAGE,
                      NOT_ENOUGH_ROBUX_MESSAGE, PRICE_CHANGED_MESSAGE}
    ensures PurchaseErrorKind(msg) == UnknownRobloxErrorMsg(msg)
  {
  }

  /** The purchase error kind as the source writes it: the pending-transaction message is mapped to `CannotBuyOwnItem`. */
  function PurchaseErrorKindAsWritten(msg: string): (k: PurchaseTradableLimitedError)
    ensures k != PendingTransaction
  {
    if msg == PENDING_TRANSACTION_MESSAGE then CannotBuyOwnItem
    else if msg == ALREADY_OWNED_MESSAGE then CannotBuyOwnItem
    else if msg == NOT_FOR_SALE_MESSAGE then ItemNotForSale
    else if msg == NOT_ENOUGH_ROBUX_MESSAGE then NotEnoughRobux
    else if msg == PRICE_CHANGED_MESSAGE then PriceChanged
    else UnknownRobloxErrorMsg(msg)
  }

  /**
   * The as-written mapping reports a pending transaction as an attempt to buy one's own
   * item; on every other message it agrees with the intended mapping.
   */
  lemma PendingTransactionMisreported(msg: string)
    ensures PurchaseErrorKindAsWritten(PENDING_TRANSACTION_MESSAGE) == CannotBuyOwnItem
    ensures PurchaseErrorKind(PENDING_TRANSACTION_MESSAGE) == PendingTransaction
    ensures msg != PENDING_TRANSACTION_MESSAGE ==> PurchaseErrorKindAsWritten(msg) == PurchaseErrorKind(msg)
  {
  }

  /**
   * The outcome of a purchase the service answered with 200, with the failure message
   * mapped by the intended mapping (see `PendingTransactionMisreported` for the one
   * message on which the code as written differs).
   */
  function PurchaseResult(raw: PurchaseLimitedResponse): (r: Result<(), RobloxError>)
    ensures r.Success? <==> raw.purchased
    ensures r.Failure? ==> r.error.PurchaseFailed? && r.error.kind == PurchaseErrorKind(raw.errorMsg)
  {
    if raw.purchased then Success(()) else Failure(PurchaseFailed(PurchaseErrorKind(raw.errorMsg)))
  }

  // The client object and its operations.

  datatype HttpMethod = Get | Patch | Post

  /** A request as sent: its method, URL, the anti-forgery token it carries, and its JSON body. */
  datatype Request = Request(verb: HttpMethod, url: string, xcsrf: Option<string>, json: map<string, int>)

  /** The three state-changing operations, each wrapped in the retry on a stale token. */
  datatype Operation =
    | PutOnSale(itemId: u64, uaid: u64, price: u64)
    | TakeOffSale(itemId: u64, uaid: u64)
    | PurchaseLimited(productId: u64, price: u64, sellerId: u64, uaid: u64)

  /** The request one attempt at `op` sends while the stored token is `xcsrf`. */
  function OperationRequest(op: Operation, xcsrf: string): (q: Request)
    ensures q.xcsrf == Some(xcsrf)
    ensures q.verb == (if op.PurchaseLimited? then Post else Patch)
  {
    match op
    case PutOnSale(itemId, uaid, price) =>
      Request(Patch, ToggleSaleUrl(itemId, uaid), Some(xcsrf), map["price" := price as int])
    case TakeOffSale(itemId, uaid) =>
      Request(Patch, ToggleSaleUrl(itemId, uaid), Some(xcsrf), map[])
    case PurchaseLimited(productId, price, sellerId, uaid) =>
      Request(Post, PurchaseUrl(productId), Some(xcsrf),
        map["expectedCurrency" := 1, "expectedPrice" := price as int,
            "expectedSellerId" := sellerId as int, "userAssetId" := uaid as int])
  }

  /** What one attempt at `op` returns when the service answers `reply`. */
  function OperationOutcome(op: Operation, reply: Result<Response, TransportError>, d: Decoders, p: BodyParsers)
    : (r: Result<(), RobloxError>)
    requires ReplyDecodes(reply, d)
    ensures r.Success? ==> reply.Success? && reply.value.status == 200
    ensures !op.PurchaseLimited? ==> (r.Success? <==> ValidateRequestResult(reply, d).Success?)
    ensures r.Failure? && r.error.IsXcsrfOutcome() ==> ValidateRequestResult(reply, d) == Failure(r.error)
    ensures ValidateRequestResult(reply, d).Failure? ==> r == Failure(ValidateRequestResult(reply, d).error)
    ensures op.PurchaseLimited? && ValidateRequestResult(reply, d).Success? ==>
      var raw := p.purchase(ValidateRequestResult(reply, d).value.body);
      r == if raw.Some? then PurchaseResult(raw.value) else Failure(MalformedResponse)
  {
    match ValidateRequestResult(reply, d)
    case Failure(e) => Failure(e)
    case Success(response) =>
      if op.PurchaseLimited? then
        match ParseToRaw(response, p.purchase)
        case Failure(e) => Failure(e)
        case Success(raw) => PurchaseResult(raw)
      else Success(())
  }

  /** One call of a retrying operation: its result, the requests it sent, and the token it leaves stored. */
  datatype Run = Run(result: Result<(), RobloxError>, sent: seq<Request>, xcsrf: string)

  /** A page of a list operation: the converted records and the cursor of the next page. */
  type Page<T> = (seq<T>, Option<string>)

  class RobloxApi {
    /** The anti-forgery token attached to every state-changing request. */
    var xcsrf: string
    /** Every request sent so far, oldest first. */
    var requests: seq<Request>
    /** The remote service: its answer to a request, given the requests it received before. */
    const remote: (seq<Request>, Request) -> Result<Response, TransportError>
    const decoders: Decoders
    const parsers: BodyParsers

    /** Every answer of the service can be classified without a decoding panic. */
    ghost predicate Valid() {
      forall h, q :: ReplyDecodes(remote(h, q), decoders)
    }

    constructor (remote: (seq<Request>, Request) -> Result<Response, TransportError>,
                 decoders: Decoders, parsers: BodyParsers, xcsrf: string)
      requires forall h, q :: ReplyDecodes(remote(h, q), decoders)
      ensures Valid()
      ensures this.remote == remote && this.decoders == decoders && this.parsers == parsers
      ensures this.xcsrf == xcsrf && requests == []
    {
      this.remote := remote;
      this.decoders := decoders;
      this.parsers := parsers;
      this.xcsrf := xcsrf;
      requests := [];
    }

    /** The stored token, read when a state-changing request is built. */
    method Xcsrf() returns (token: string)
      ensures token == xcsrf
    {
      token := xcsrf;
    }

    /** Replaces the stored token; later requests carry the new one. */
    method SetXcsrf(token: string)
      modifies this`xcsrf
      ensures xcsrf == token
    {
      xcsrf := token;
    }

    /** Sends one request and waits for the service's answer. */
    method Send(q: Request) returns (reply: Result<Response, TransportError>)
      modifies this`requests
      ensures requests == old(requests) + [q]
      ensures reply == remote(old(requests), q)
    {
      reply := remote(requests, q);
      requests := requests + [q];
    }

    /**
     * What a retrying call of `op` does from the history `history` with `token` stored:
     * one attempt; after a stale-token answer, store the fresh token and one attempt more.
     * A stale-token result therefore only ever comes from the second attempt.
     */
    ghost function RetryOnStaleToken(op: Operation, history: seq<Request>, token: string): (run: Run)
      requires Valid()
      ensures 1 <= |run.sent| <= 2 && run.sent[0] == OperationRequest(op, token)
      ensures |run.sent| == 1 ==> run.xcsrf == token && !(run.result.Failure? && run.result.error.InvalidXcsrf?)
      ensures |run.sent| == 2 ==> run.sent[1] == OperationRequest(op, run.xcsrf)
    {
      var first := OperationRequest(op, token);
      var outcome := OperationOutcome(op, remote(history, first), decoders, parsers);
      if outcome.Failure? && outcome.error.InvalidXcsrf? then
        var newToken := outcome.error.token;
        var second := OperationRequest(op, newToken);
        Run(OperationOutcome(op, remote(history + [first], second), decoders, parsers), [first, second], newToken)
      else
        Run(outcome, [first], token)
    }

    /** A first attempt that succeeds ends the call: one request, the token untouched. */
    lemma FirstAttemptSucceeds(op: Operation, history: seq<Request>, token: string)
      requires Valid()
      requires OperationOutcome(op, remote(history, OperationRequest(op, token)), decoders, parsers).Success?
      ensures RetryOnStaleToken(op, history, token) == Run(Success(()), [OperationRequest(op, token)], token)
    {
    }

    /**
     * A stale token answered with a fresh one: the fresh token is stored, exactly one more
     * attempt is made with it, and that attempt's result is returned as it is, even when it
     * is a stale token again.
     */
    lemma StaleTokenRetriedOnce(op: Operation, history: seq<Request>, token: string, newToken: string)
      requires Valid()
      requires OperationOutcome(op, remote(history, OperationRequest(op, token)), decoders, parsers)
            == Failure(InvalidXcsrf(newToken))
      ensures var run := RetryOnStaleToken(op, history, token);
        && run.xcsrf == newToken
        && run.sent == [OperationRequest(op, token), OperationRequest(op, newToken)]
        && run.sent[1].xcsrf == Some(newToken)
        && run.result == OperationOutcome(op, remote(history + [run.sent[0]], run.sent[1]), decoders, parsers)
    {
    }

    /** Every other error of the first attempt is returned at once, without a retry or a token change. */
    lemma OtherErrorsNotRetried(op: Operation, history: seq<Request>, token: string, e: RobloxError)
      requires Valid()
      requires OperationOutcome(op, remote(history, OperationRequest(op, token)), decoders, parsers) == Failure(e)
      requires !e.InvalidXcsrf?
      ensures RetryOnStaleToken(op, history, token) == Run(Failure(e), [OperationRequest(op, token)], token)
    {
    }

    method PutLimitedOnSaleInternal(itemId: u64, uaid: u64, price: u64) returns (r: Result<(), RobloxError>)
      requires Valid()
      modifies this`requests
      ensures requests == old(requests) + [OperationRequest(PutOnSale(itemId, uaid, price), xcsrf)]
      ensures r == OperationOutcome(PutOnSale(itemId, uaid, price), remote(old(requests), requests[|old(requests)|]), decoders, parsers)
    {
      var url := ToggleSaleUrl(itemId, uaid);
      var token := Xcsrf();
      var reply := Send(Request(Patch, url, Some(token), map["price" := price as int]));
      var validated := ValidateRequestResult(reply, decoders);
      if validated.Failure? {
        return Failure(validated.error);
      }
      return Success(());
    }

    method TakeLimitedOffSaleInternal(itemId: u64, uaid: u64) returns (r: Result<(), RobloxError>)
      requires Valid()
      modifies this`requests
      ensures requests == old(requests) + [OperationRequest(TakeOffSale(itemId, uaid), xcsrf)]
      ensures r == OperationOutcome(TakeOffSale(itemId, uaid), remote(old(requests), requests[|old(requests)|]), decoders, parsers)
    {
      var url := ToggleSaleUrl(itemId, uaid);
      var token := Xcsrf();
      var reply := Send(Request(Patch, url, Some(token), map[]));
      var validated := ValidateRequestResult(reply, decoders);
      if validated.Failure? {
        return Failure(validated.error);
      }
      return Success(());
    }

    method PurchaseLimitedInternal(productId: u64, price: u64, sellerId: u64, uaid: u64) returns (r: Result<(), RobloxError>)
      requires Valid()
      modifies this`requests
      ensures requests == old(requests) + [OperationRequest(PurchaseLimited(productId, price, sellerId, uaid), xcsrf)]
      ensures r == OperationOutcome(PurchaseLimited(productId, price, sellerId, uaid),
                                    remote(old(requests), requests[|old(requests)|]), decoders, parsers)
    {
      var url := PurchaseUrl(productId);
      var token := Xcsrf();
      var json := map["expectedCurrency" := 1, "expectedPrice" := price as int,
                      "expectedSellerId" := sellerId as int, "userAssetId" := uaid as int];
      var reply := Send(Request(Post, url, Some(token), json));
      var validated := ValidateRequestResult(reply, decoders);
      if validated.Failure? {
        return Failure(validated.error);
      }
      var raw := ParseToRaw(validated.value, parsers.purchase);
      if raw.Failure? {
        return Failure(raw.error);
      }
      return PurchaseResult(raw.value);
    }

    /** Puts a limited item on sale, retrying once with a fresh token if the stored one is stale. */
    method PutLimitedOnSale(itemId: u64, uaid: u64, price: u64) returns (r: Result<(), RobloxError>)
      requires Valid()
      modifies this`xcsrf, this`requests
      ensures |requests| >= |old(requests)| && requests[..|old(requests)|] == old(requests)
      ensures Run(r, requests[|old(requests)|..], xcsrf) == RetryOnStaleToken(PutOnSale(itemId, uaid, price), old(requests), old(xcsrf))
    {
      r := PutLimitedOnSaleInternal(itemId, uaid, price);
      if r.Failure? && r.error.InvalidXcsrf? {
        SetXcsrf(r.error.token);
        r := PutLimitedOnSaleInternal(itemId, uaid, price);
      }
    }

    /** Takes a limited item off sale, retrying once with a fresh token if the stored one is stale. */
    method TakeLimitedOffSale(itemId: u64, uaid: u64) returns (r: Result<(), RobloxError>)
      requires Valid()
      modifies this`xcsrf, this`requests
      ensures |requests| >= |old(requests)| && requests[..|old(requests)|] == old(requests)
      ensures Run(r, requests[|old(requests)|..], xcsrf) == RetryOnStaleToken(TakeOffSale(itemId, uaid), old(requests), old(xcsrf))
    {
      r := TakeLimitedOffSaleInternal(itemId, uaid);
      if r.Failure? && r.error.InvalidXcsrf? {
        SetXcsrf(r.error.token);
        r := TakeLimitedOffSaleInternal(itemId, uaid);
      }
    }

    /** Buys a tradable limited item, retrying once with a fresh token if the stored one is stale. */
    method PurchaseTradableLimited(productId: u64, sellerId: u64, uaid: u64, price: u64) returns (r: Result<(), RobloxError>)
      requires Valid()
      modifies this`xcsrf, this`requests
      ensures |requests| >= |old(requests)| && requests[..|old(requests)|] == old(requests)
      ensures Run(r, requests[|old(requests)|..], xcsrf)
           == RetryOnStaleToken(PurchaseLimited(productId, price, sellerId, uaid), old(requests), old(xcsrf))
    {
      r := PurchaseLimitedInternal(productId, price, sellerId, uaid);
      if r.Failure? && r.error.InvalidXcsrf? {
        SetXcsrf(r.error.token);
        r := PurchaseLimitedInternal(productId, price, sellerId, uaid);
      }
    }

    /** The Robux balance of the signed-in user; `userId` is that user's id. */
    method Robux(userId: u64) returns (r: Result<u64, RobloxError>)
      requires Valid()
      modifies this`requests
      ensures requests == old(requests) + [Request(Get, RobuxUrl(userId), None, map[])]
      ensures var validated := ValidateRequestResult(remote(old(requests), requests[|old(requests)|]), decoders);
        match validated
        case Failure(e) => r == Failure(e)
        case Success(response) =>
          match ParseToRaw(response, parsers.currency)
          case Failure(e) => r == Failure(e)
          case Success(raw) => r == Success(raw.robux)
    {
      var url := RobuxUrl(userId);
      var reply := Send(Request(Get, url, None, map[]));
      var validated := ValidateRequestResult(reply, decoders);
      if validated.Failure? {
        return Failure(validated.error);
      }
      var raw := ParseToRaw(validated.value, parsers.currency);
      if raw.Failure? {
        return Failure(raw.error);
      }
      return Success(raw.value.robux);
    }

    /** One page of the resale listings of an item. */
    method Resellers(itemId: u64, limit: u64, cursor: Option<string>) returns (r: Result<Page<Listing>, RobloxError>)
      requires Valid()
      modifies this`requests
      ensures requests == old(requests) + [Request(Get, ResellersUrl(itemId, limit, cursor), None, map[])]
      ensures var validated := ValidateRequestResult(remote(old(requests), requests[|old(requests)|]), decoders);
        match validated
        case Failure(e) => r == Failure(e)
        case Success(response) =>
          match ParseToRaw(response, parsers.resellers)
          case Failure(e) => r == Failure(e)
          case Success(raw) =>
            && r.Success?
            && r.value.1 == raw.nextPageCursor
            && |r.value.0| == |raw.data|
            && forall i :: 0 <= i < |raw.data| ==> IsListingOf(r.value.0[i], raw.data[i])
    {
      var url := ResellersUrl(itemId, limit, cursor);
      var reply := Send(Request(Get, url, None, map[]));
      var validated := ValidateRequestResult(reply, decoders);
      if validated.Failure? {
        return Failure(validated.error);
      }
      var raw := ParseToRaw(validated.value, parsers.resellers);
      if raw.Failure? {
        return Failure(raw.error);
      }
      var listings, nextPageCursor := ListingsPage(raw.value);
      return Success((listings, nextPageCursor));
    }

    /** One page of the signed-in user's sales; `userId` is that user's id. */
    method UserSales(userId: u64, limit: u64, cursor: Option<string>) returns (r: Result<Page<UserSale>, RobloxError>)
      requires Valid()
      modifies this`requests
      ensures requests == old(requests) + [Request(Get, UserSalesUrl(userId, limit, cursor), None, map[])]
      ensures var validated := ValidateRequestResult(remote(old(requests), requests[|old(requests)|]), decoders);
        match validated
        case Failure(e) => r == Failure(e)
        case Success(response) =>
          match ParseToRaw(response, parsers.userSales)
          case Failure(e) => r == Failure(e)
          case Success(raw) =>
            && r.Success?
            && r.value.1 == raw.nextPageCursor
            && |r.value.0| == |raw.data|
            && forall i :: 0 <= i < |raw.data| ==> IsUserSaleOf(r.value.0[i], raw.data[i])
    {
      var url := UserSalesUrl(userId, limit, cursor);
      var reply := Send(Request(Get, url, None, map[]));
      var validated := ValidateRequestResult(reply, decoders);
      if validated.Failure? {
        return Failure(validated.error);
      }
      var raw := ParseToRaw(validated.value, parsers.userSales);
      if raw.Failure? {
        return Failure(raw.error);
      }
      var sales, nextPageCursor := UserSalesPage(raw.value);
      return Success((sales, nextPageCursor));
    }
  }
}
