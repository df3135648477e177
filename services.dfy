/**
 * The payment coordinator and its token cache (server/services/service.go).
 *
 * Every upstream HTTP exchange is an input: the reply the provider gives
 * (or the transport failure), already decoded as far as Go's JSON decoder
 * would take it. The wall clock is the input `now`, in nanoseconds since
 * Go's zero Time. The ghost field `exchanges` logs the requests sent
 * upstream, in order, so that contracts can say which calls happened.
 */
module Services {
  import opened Outcomes
  import opened GoTime
  import opened Dao

  /** The JSON body the pay endpoint forwards to the provider. */
  datatype CreatePaymentRequest = CreatePaymentRequest(
    uuid: string,
    amount: int,
    currency: string,
    beneficiaryName: string,
    beneficiaryReference: string,
    beneficiarySortCode: string,
    beneficiaryAccountNumber: string,
    remitterReference: string,
    redirectUri: string,
    remitterProviderId: string)

  /** The decoded fields of the token endpoint's answer that the cache uses. */
  datatype TokenResponse = TokenResponse(accessToken: string, expiresIn: Int64)

  /** One element of `results` in the payment-creation answer. */
  datatype CreatePaymentResult = CreatePaymentResult(simpId: string, authUri: string)

  /** One element of `results` in the payment-status answer. */
  datatype PaymentResult = PaymentResult(status: string)

  /** A response body: unreadable, not JSON of the expected shape, or decoded. */
  datatype Body<T> = Unreadable | Malformed | Decoded(value: T)

  /** An upstream HTTP exchange as the client sees it. */
  datatype Reply<T> = TransportFailed | Answered(code: int, body: Body<T>)

  /** A request sent upstream. */
  datatype Exchange =
    | IssueToken(clientId: string, clientSecret: string)
    | CreatePaymentCall(bearer: string, request: CreatePaymentRequest)
    | StatusQuery(bearer: string, paymentId: string)

  const StatusOK: int := 200
  const Not200Message: string := "truelayer API did not respond with code 200"

  /** The cache slot: `authToken` and `authTokenExpireTime`. */
  datatype TokenSlot = TokenSlot(token: string, expireTime: int)

  /** The slot of a freshly built service: empty token, zero Time. */
  const InitialSlot: TokenSlot := TokenSlot("", 0)

  /** GetAccessToken refreshes when the time until expiry is not positive. */
  predicate Expired(slot: TokenSlot, now: int)
    ensures Expired(slot, now) <==> slot.expireTime <= now
  {
    Until(slot.expireTime, now) <= 0
  }

  /** The slot SetAccessToken leaves: the new token if the body decoded, else the old slot. */
  function Refreshed(slot: TokenSlot, now: int, reply: Reply<TokenResponse>): (r: TokenSlot)
    ensures reply.Answered? && reply.body.Decoded? ==>
      r.token == reply.body.value.accessToken && Until(r.expireTime, now) == Seconds(reply.body.value.expiresIn)
    ensures !(reply.Answered? && reply.body.Decoded?) ==> r == slot
  {
    if reply.Answered? && reply.body.Decoded? then
      TokenSlot(reply.body.value.accessToken, Add(now, Seconds(reply.body.value.expiresIn)))
    else
      slot
  }

  /** The slot GetAccessToken leaves. */
  function SlotAfter(slot: TokenSlot, now: int, reply: Reply<TokenResponse>): (r: TokenSlot)
    ensures slot.expireTime > now ==> r == slot
    ensures slot.expireTime <= now ==> r == Refreshed(slot, now, reply)
  {
    if Expired(slot, now) then Refreshed(slot, now, reply) else slot
  }

  /** The token GetAccessToken returns; a failed refresh yields the empty token. */
  function TokenAfter(slot: TokenSlot, now: int, reply: Reply<TokenResponse>): (t: string)
    ensures Expired(slot, now) && !(reply.Answered? && reply.body.Decoded?) ==> t == ""
    ensures !(Expired(slot, now) && !(reply.Answered? && reply.body.Decoded?)) ==> t == SlotAfter(slot, now, reply).token
  {
    if !Expired(slot, now) then slot.token
    else if reply.Answered? && reply.body.Decoded? then reply.body.value.accessToken
    else ""
  }

  /** A fresh service always refreshes first: the zero Time lies before every reading. */
  lemma InitialSlotExpired(now: nat)
    ensures Expired(InitialSlot, now)
  {
  }

  /** A cache hit returns the cached token and leaves the slot alone. */
  lemma CacheHit(slot: TokenSlot, now: int, reply: Reply<TokenResponse>)
    requires slot.expireTime > now
    ensures SlotAfter(slot, now, reply) == slot
    ensures TokenAfter(slot, now, reply) == slot.token
  {
  }

  /** A successful refresh stores the token with expiry now + expires_in seconds, and returns it. */
  lemma RefreshStoresToken(slot: TokenSlot, now: int, code: int, tr: TokenResponse)
    requires slot.expireTime <= now
    requires -MaxSeconds <= tr.expiresIn <= MaxSeconds
    ensures SlotAfter(slot, now, Answered(code, Decoded(tr))) == TokenSlot(tr.accessToken, now + tr.expiresIn * Second)
    ensures TokenAfter(slot, now, Answered(code, Decoded(tr))) == tr.accessToken
  {
  }

  /** A failed refresh is swallowed: the slot is unchanged and the token is empty. */
  lemma FailedRefreshSwallowed(slot: TokenSlot, now: int, reply: Reply<TokenResponse>)
    requires slot.expireTime <= now
    requires !(reply.Answered? && reply.body.Decoded?)
    ensures SlotAfter(slot, now, reply) == slot
    ensures TokenAfter(slot, now, reply) == ""
  {
  }

  /**
   * A token refreshed at `now` with a positive lifetime is served from the
   * cache, without a further refresh, at every instant before it expires.
   */
  lemma RefreshedTokenReused(slot: TokenSlot, now: int, later: int, code: int, tr: TokenResponse, next: Reply<TokenResponse>)
    requires Expired(slot, now)
    requires 0 < tr.expiresIn <= MaxSeconds
    requires now <= later < now + tr.expiresIn * Second
    ensures !Expired(SlotAfter(slot, now, Answered(code, Decoded(tr))), later)
    ensures TokenAfter(SlotAfter(slot, now, Answered(code, Decoded(tr))), later, next) == tr.accessToken
  {
  }

  /**
   * An expires_in too large for a Duration, up to twice the largest that
   * fits, wraps around to a negative lifetime, so the stored token is
   * already stale and the next call refreshes again.
   */
  lemma OverlongLifetimeIsStale(slot: TokenSlot, now: int, code: int, token: string, n: Int64)
    requires Expired(slot, now)
    requires MaxSeconds < n <= 2 * MaxSeconds + 1
    ensures Expired(SlotAfter(slot, now, Answered(code, Decoded(TokenResponse(token, n)))), now)
  {
  }

  /**
   * One second further the wrap-around lands on a positive lifetime of
   * under a second: the token is stored as fresh although the provider
   * granted far longer.
   */
  lemma WrappedLifetimeCanBeFresh(slot: TokenSlot, now: int, code: int, token: string)
    requires Expired(slot, now)
    ensures !Expired(SlotAfter(slot, now, Answered(code, Decoded(TokenResponse(token, 2 * MaxSeconds + 2)))), now)
    ensures Until(SlotAfter(slot, now, Answered(code, Decoded(TokenResponse(token, 2 * MaxSeconds + 2)))).expireTime, now) < Second
  {
  }

  /** createPayment goes on to map the payment exactly for a 200 answer with a non-empty `results`. */
  predicate CreateAccepted(reply: Reply<seq<CreatePaymentResult>>)
  {
    reply.Answered? && reply.code == StatusOK && reply.body.Decoded? && |reply.body.value| > 0
  }

  /** What createPayment returns for an answer from the payment-creation endpoint. */
  function CreateOutcome(reply: Reply<seq<CreatePaymentResult>>): (r: Result<string>)
    ensures r.Ok? <==> CreateAccepted(reply)
    ensures r.Ok? ==> r.value == reply.body.value[0].authUri
    ensures r.Panic? <==> reply.Answered? && reply.code == StatusOK && reply.body == Decoded([])
    ensures reply.Answered? && reply.code != StatusOK && !reply.body.Unreadable? ==> r == Err(Upstream(Not200Message))
    ensures reply.Answered? && reply.body.Unreadable? ==> r == Err(BodyRead)
    ensures reply.TransportFailed? ==> r == Err(Transport)
  {
    match reply
    case TransportFailed => Err(Transport)
    case Answered(code, body) =>
      if code != StatusOK then
        (if body.Unreadable? then Err(BodyRead) else Err(Upstream(Not200Message)))
      else
        match body
        case Unreadable => Err(BodyRead)
        case Malformed => Err(Decode)
        case Decoded(results) =>
          if |results| == 0 then Panic else Ok(results[0].authUri)
  }

  /** The status query decoded with at least one result; its HTTP code is never inspected. */
  predicate StatusReported(reply: Reply<seq<PaymentResult>>)
  {
    reply.Answered? && reply.body.Decoded? && |reply.body.value| > 0
  }

  /** The coordinator: the payments DAO, client credentials and the token cache. */
  class Service {
    const payments: PaymentTable
    const clientId: string
    const clientSecret: string
    var authToken: string
    var authTokenExpireTime: int
    ghost var exchanges: seq<Exchange>

    ghost predicate Valid()
      reads this, payments
    {
      payments.Valid()
    }

    function Slot(): TokenSlot
      reads this
    {
      TokenSlot(authToken, authTokenExpireTime)
    }

    /** The token request GetAccessToken sends for a given slot: one if it is stale, else none. */
    function TokenCalls(slot: TokenSlot, now: int): seq<Exchange>
    {
      if Expired(slot, now) then [IssueToken(clientId, clientSecret)] else []
    }

    /** GetService: the token fields start at their zero values. */
    constructor GetService(payments: PaymentTable, clientId: string, clientSecret: string)
      requires payments.Valid()
      ensures Valid()
      ensures this.payments == payments && this.clientId == clientId && this.clientSecret == clientSecret
      ensures Slot() == InitialSlot && exchanges == []
    {
      this.payments := payments;
      this.clientId := clientId;
      this.clientSecret := clientSecret;
      authToken := "";
      authTokenExpireTime := 0;
      exchanges := [];
    }

    /**
     * Asks the auth endpoint for a token and, when the body decodes, stores
     * it with its expiry. The HTTP status code is not checked: any body
     * that decodes is taken, its missing fields as zero values.
     */
    method SetAccessToken(now: nat, reply: Reply<TokenResponse>) returns (r: Result<string>)
      modifies this
      ensures reply.TransportFailed? ==> r == Err(Transport)
      ensures reply.Answered? && reply.body.Unreadable? ==> r == Err(BodyRead)
      ensures reply.Answered? && reply.body.Malformed? ==> r == Err(Decode)
      ensures reply.Answered? && reply.body.Decoded? ==> r == Ok(reply.body.value.accessToken)
      ensures Slot() == Refreshed(old(Slot()), now, reply)
      ensures exchanges == old(exchanges) + [IssueToken(clientId, clientSecret)]
    {
      exchanges := exchanges + [IssueToken(clientId, clientSecret)];
      match reply
      case TransportFailed =>
        return Err(Transport);
      case Answered(_, body) =>
        match body
        case Unreadable =>
          return Err(BodyRead);
        case Malformed =>
          return Err(Decode);
        case Decoded(response) =>
          authTokenExpireTime := Add(now, Seconds(response.expiresIn));
          authToken := response.accessToken;
          return Ok(response.accessToken);
    }

    /** Serves the cached token while it is unexpired, else refreshes; never reports an error. */
    method GetAccessToken(now: nat, reply: Reply<TokenResponse>) returns (r: Result<string>)
      modifies this
      ensures r == Ok(TokenAfter(old(Slot()), now, reply))
      ensures Slot() == SlotAfter(old(Slot()), now, reply)
      ensures exchanges == old(exchanges) + TokenCalls(old(Slot()), now)
    {
      var diff := Until(authTokenExpireTime, now);
      if diff <= 0 {
        var refreshed := SetAccessToken(now, reply);
        if !refreshed.Ok? {
          return Ok("");
        }
        return Ok(refreshed.value);
      }
      return Ok(authToken);
    }

    /** createPayment: posts the request and, on a usable answer, maps the row `uuid` to the upstream id. */
    method CreatePayment(token: string, uuid: string, data: CreatePaymentRequest, reply: Reply<seq<CreatePaymentResult>>)
      returns (r: Result<string>)
      requires Valid()
      modifies this, payments
      ensures Valid()
      ensures Slot() == old(Slot())
      ensures exchanges == old(exchanges) + [CreatePaymentCall(token, data)]
      ensures r == CreateOutcome(reply)
      ensures payments.rows ==
        if CreateAccepted(reply) then SetTruelayerIdWhere(old(payments.rows), uuid, reply.body.value[0].simpId)
        else old(payments.rows)
    {
      exchanges := exchanges + [CreatePaymentCall(token, data)];
      if reply.TransportFailed? {
        return Err(Transport);
      }
      if reply.code != StatusOK {
        if reply.body.Unreadable? {
          return Err(BodyRead);
        }
        return Err(Upstream(Not200Message));
      }
      match reply.body
      case Unreadable =>
        return Err(BodyRead);
      case Malformed =>
        return Err(Decode);
      case Decoded(results) =>
        if |results| == 0 {
          return Panic;
        }
        payments.MapToTruelayer(uuid, results[0].simpId);
        return Ok(results[0].authUri);
    }

    /**
     * RequestPaymentURL: gets a token, then creates the payment upstream for
     * `request.uuid`. GetAccessToken reports no error, so its error check
     * never fires.
     */
    method RequestPaymentURL(request: CreatePaymentRequest, now: nat, tokenReply: Reply<TokenResponse>,
                             createReply: Reply<seq<CreatePaymentResult>>) returns (r: Result<string>)
      requires Valid()
      modifies this, payments
      ensures Valid()
      ensures Slot() == SlotAfter(old(Slot()), now, tokenReply)
      ensures exchanges == old(exchanges) + TokenCalls(old(Slot()), now)
                           + [CreatePaymentCall(TokenAfter(old(Slot()), now, tokenReply), request)]
      ensures r == CreateOutcome(createReply)
      ensures payments.rows ==
        if CreateAccepted(createReply)
        then SetTruelayerIdWhere(old(payments.rows), request.uuid, createReply.body.value[0].simpId)
        else old(payments.rows)
    {
      var token := GetAccessToken(now, tokenReply);
      r := CreatePayment(token.value, request.uuid, request, createReply);
    }

    /**
     * RequestPaymentData, the callback reconciliation: builds the status
     * request (`urlParses` says whether net/url accepts the URL made from
     * `paymentId`), gets a token, queries the status, reads the row by
     * upstream id and then overwrites the status of every row with that
     * upstream id. It returns the row as read BEFORE the update.
     */
    method RequestPaymentData(paymentId: string, urlParses: bool, now: nat, tokenReply: Reply<TokenResponse>,
                              statusReply: Reply<seq<PaymentResult>>) returns (r: Result<Payment>)
      requires Valid()
      modifies this, payments
      ensures Valid()
      ensures !urlParses ==> r == Err(InvalidUrl) && Slot() == old(Slot()) && exchanges == old(exchanges)
      ensures urlParses ==> Slot() == SlotAfter(old(Slot()), now, tokenReply)
      ensures urlParses ==> exchanges == old(exchanges) + TokenCalls(old(Slot()), now)
                                         + [StatusQuery(TokenAfter(old(Slot()), now, tokenReply), paymentId)]
      ensures urlParses && statusReply.TransportFailed? ==> r == Err(Transport)
      ensures urlParses && statusReply.Answered? && statusReply.body.Unreadable? ==> r == Err(BodyRead)
      ensures urlParses && statusReply.Answered? && statusReply.body.Malformed? ==> r == Err(Decode)
      ensures (urlParses && statusReply.Answered? && statusReply.body.Decoded?
               && !HasTruelayerId(old(payments.rows), paymentId)) ==> r == Err(NoRows)
      ensures (urlParses && statusReply.Answered? && statusReply.body == Decoded([])
               && HasTruelayerId(old(payments.rows), paymentId)) ==> r == Panic
      ensures r.Ok? <==> urlParses && StatusReported(statusReply) && HasTruelayerId(old(payments.rows), paymentId)
      ensures r.Ok? ==> r.value in old(payments.rows) && r.value.truelayerId == paymentId
      ensures payments.rows ==
        if r.Ok? then SetStatusWhere(old(payments.rows), paymentId, statusReply.body.value[0].status)
        else old(payments.rows)
    {
      if !urlParses {
        return Err(InvalidUrl);
      }
      var token := GetAccessToken(now, tokenReply);
      exchanges := exchanges + [StatusQuery(token.value, paymentId)];
      if statusReply.TransportFailed? {
        return Err(Transport);
      }
      match statusReply.body
      case Unreadable =>
        return Err(BodyRead);
      case Malformed =>
        return Err(Decode);
      case Decoded(results) =>
        var paymentDetails := payments.GetPaymentByTruelayerID(paymentId);
        if !paymentDetails.Ok? {
          return Err(NoRows);
        }
        if |results| == 0 {
          return Panic;
        }
        payments.UpdatePaymentStatus(paymentId, results[0].status);
        return paymentDetails;
    }

    /** PreparePayment: inserts a new row under the chosen uuid; no upstream call. */
    method PreparePayment(id: string, receiverId: string, amount: int) returns (r: Result<string>)
      requires Valid()
      modifies payments
      ensures Valid()
      ensures HasId(old(payments.rows), id) ==> r == Err(UniqueViolation) && payments.rows == old(payments.rows)
      ensures !HasId(old(payments.rows), id) ==>
                r == Ok(id) && payments.rows == old(payments.rows) + [NewPayment(id, receiverId, amount)]
    {
      r := payments.InsertPayment(id, receiverId, amount);
    }

    /** GetPaymentData: the stored row with that uuid; no upstream call, no change. */
    method GetPaymentData(id: string) returns (r: Result<Payment>)
      requires Valid()
      ensures r.Ok? || r == Err(NoRows)
      ensures r.Ok? <==> HasId(payments.rows, id)
      ensures r.Ok? ==> r.value in payments.rows && r.value.id == id
    {
      r := payments.GetPayment(id);
    }
  }
}
