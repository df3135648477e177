/**
 * End-to-end call sequences a client of the service can run, proved from
 * the contracts of the service and the table alone: each builds a service
 * over an empty table and drives it through the handlers' calls.
 */
module Flows {
  import opened Outcomes
  import opened GoTime
  import opened Dao
  import opened Services

  const ClientId: string := "client-id"
  const ClientSecret: string := "client-secret"

  /** A 200 answer of the payment-creation endpoint with one result. */
  function Created(simpId: string, authUri: string): Reply<seq<CreatePaymentResult>>
  {
    Answered(StatusOK, Decoded([CreatePaymentResult(simpId, authUri)]))
  }

  /** An answer of the status endpoint reporting one status. */
  function Reported(status: string): Reply<seq<PaymentResult>>
  {
    Answered(StatusOK, Decoded([PaymentResult(status)]))
  }

  /** Prepare, then read back: the new row carries the column defaults. */
  method PrepareThenRead(id: string, receiverId: string, amount: int) returns (prepared: Result<string>, read: Result<Payment>)
    ensures prepared == Ok(id)
    ensures read == Ok(Payment(id, receiverId, amount, "unpaid", ""))
  {
    var table := new PaymentTable.Open([]);
    var service := new Service.GetService(table, ClientId, ClientSecret);
    prepared := service.PreparePayment(id, receiverId, amount);
    assert table.rows == [NewPayment(id, receiverId, amount)] && table.rows[0].id == id;
    read := service.GetPaymentData(id);
  }

  /**
   * Prepare, then request the payment URL: the caller gets the upstream
   * auth_uri and the row is mapped to the upstream simp_id.
   */
  method PayFlow(id: string, request: CreatePaymentRequest, now: nat, tokenReply: Reply<TokenResponse>,
                 simpId: string, authUri: string) returns (url: Result<string>, read: Result<Payment>)
    requires request.uuid == id
    ensures url == Ok(authUri)
    ensures read.Ok? && read.value.id == id && read.value.truelayerId == simpId && read.value.status == "unpaid"
  {
    var table := new PaymentTable.Open([]);
    var service := new Service.GetService(table, ClientId, ClientSecret);
    var _ := service.PreparePayment(id, "receiver", request.amount);
    ghost var prepared := table.rows;
    assert prepared[0].id == id;
    url := service.RequestPaymentURL(request, now, tokenReply, Created(simpId, authUri));
    MapThenLookup(prepared, id, simpId);
    read := service.GetPaymentData(id);
  }

  /**
   * Two callbacks for one mapped payment. Each returns the row as it was
   * before its own update, and the second status replaces the first
   * whatever it was, "succeeded" and the other terminal statuses included.
   */
  method CallbacksOverwriteStatus(id: string, simpId: string, first: string, second: string, now: nat,
                                  tokenReply: Reply<TokenResponse>) returns (r1: Result<Payment>, r2: Result<Payment>, read: Result<Payment>)
    ensures r1.Ok? && r1.value.id == id && r1.value.status == "unpaid"
    ensures r2.Ok? && r2.value.id == id && r2.value.status == first
    ensures read.Ok? && read.value.status == second && read.value.truelayerId == simpId
  {
    var table := new PaymentTable.Open([]);
    var service := new Service.GetService(table, ClientId, ClientSecret);
    var _ := service.PreparePayment(id, "receiver", 100);
    var request := CreatePaymentRequest(id, 100, "GBP", "", "", "", "", "", "", "");
    var _ := service.RequestPaymentURL(request, now, tokenReply, Created(simpId, "uri"));
    assert table.rows == [Payment(id, "receiver", 100, "unpaid", simpId)];
    r1 := service.RequestPaymentData(simpId, true, now, tokenReply, Reported(first));
    assert table.rows == [Payment(id, "receiver", 100, first, simpId)];
    r2 := service.RequestPaymentData(simpId, true, now, tokenReply, Reported(second));
    assert table.rows == [Payment(id, "receiver", 100, second, simpId)];
    read := service.GetPaymentData(id);
  }

  /**
   * A callback with an empty payment_id finds an unmapped row and then
   * sets the status of every unmapped row.
   */
  method EmptyPaymentIdRewritesUnmapped(a: string, b: string, status: string, now: nat,
                                        tokenReply: Reply<TokenResponse>) returns (r: Result<Payment>, readA: Result<Payment>, readB: Result<Payment>)
    requires a != b
    ensures r.Ok? && r.value.status == "unpaid"
    ensures readA.Ok? && readA.value.status == status
    ensures readB.Ok? && readB.value.status == status
  {
    var table := new PaymentTable.Open([]);
    var service := new Service.GetService(table, ClientId, ClientSecret);
    var _ := service.PreparePayment(a, "receiver", 1);
    var _ := service.PreparePayment(b, "receiver", 2);
    assert HasTruelayerId(table.rows, "") by {
      assert table.rows[0].truelayerId == "";
    }
    r := service.RequestPaymentData("", true, now, tokenReply, Reported(status));
    assert table.rows == [Payment(a, "receiver", 1, status, ""), Payment(b, "receiver", 2, status, "")];
    readA := service.GetPaymentData(a);
    readB := service.GetPaymentData(b);
  }

  /**
   * Two token lookups on a fresh service: the first refreshes, the second,
   * before the lifetime ends, is served from the cache; one token request
   * is sent in all.
   */
  method TokenIssuedOnce(now: nat, later: nat, token: string, expiresIn: Int64, secondReply: Reply<TokenResponse>)
    returns (first: Result<string>, second: Result<string>, ghost sent: seq<Exchange>)
    requires 0 < expiresIn <= MaxSeconds && now <= later < now + expiresIn * Second
    ensures first == Ok(token) && second == Ok(token)
    ensures sent == [IssueToken(ClientId, ClientSecret)]
  {
    var table := new PaymentTable.Open([]);
    var service := new Service.GetService(table, ClientId, ClientSecret);
    var reply := Answered(StatusOK, Decoded(TokenResponse(token, expiresIn)));
    InitialSlotExpired(now);
    RefreshedTokenReused(InitialSlot, now, later, StatusOK, TokenResponse(token, expiresIn), secondReply);
    first := service.GetAccessToken(now, reply);
    second := service.GetAccessToken(later, secondReply);
    sent := service.exchanges;
  }
}
