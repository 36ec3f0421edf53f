/**
 * The payment-initiation handler: a fixed chain of early-return guards over
 * the request and the shipment row, the derivation of the return and
 * webhook URLs, the call to the payment gateway and the one bookkeeping
 * write that records the initiated payment.
 *
 * The gateway, the store's read and write errors and the environment are
 * inputs: what the gateway would answer is `GatewayOutcome`, a failed read
 * or write is a flag, and the configured application URL and the sandbox
 * flag are a `Config`.
 */
module PaymentInitiate {
  import opened JsValues
  import opened Shipments

  // ---------------------------------------------------------------------
  // Requests, responses and the gateway
  // ---------------------------------------------------------------------

  /** The JSON body: either it does not parse, or it may carry a `shipmentId`. */
  datatype Body = Unparseable | Body(shipmentId: Option<string>)

  /** The request: its body and the two headers the handler reads. */
  datatype Request = Request(body: Body, host: Option<string>, forwardedProto: Option<string>)

  /** The environment: the configured public application URL and whether salt-key (sandbox) credentials are set. */
  datatype Config = Config(appUrl: Option<string>, saltKeyCredentials: bool)

  /** What the handler sends to the gateway's standard checkout. */
  datatype CheckoutRequest = CheckoutRequest(
    shipmentId: string,
    shipmentNumber: string,
    amountInRupees: real,
    customerPhone: string,
    redirectUrl: string,
    callbackUrl: string)

  /** What the gateway call does: it throws, or it returns a result object. */
  datatype GatewayOutcome =
    | Threw
    | Returned(success: bool, redirectUrl: Option<string>, merchantTransactionId: Option<string>, error: Option<string>)

  /** The JSON response and its HTTP status. */
  datatype Response =
    | ErrorResponse(status: nat, error: string)
    | SuccessResponse(redirectUrl: Option<string>, merchantTransactionId: Option<string>, amount: real, isUATSandbox: bool)

  const BadRequest: nat := 400
  const NotFound: nat := 404
  const InternalServerError: nat := 500

  const IdRequiredMessage := "Shipment ID is required"
  const NotFoundMessage := "Shipment not found"
  const NotArrivedMessage := "Payment can only be initiated for arrived shipments"
  const OtpNotVerifiedMessage := "OTP must be verified before payment"
  const AlreadyPaidMessage := "Payment already completed"
  const InvalidAmountMessage := "Invalid payment amount"
  const GatewayFailedMessage := "Failed to create payment"
  const InternalErrorMessage := "Internal server error"

  // ---------------------------------------------------------------------
  // The guard chain
  // ---------------------------------------------------------------------

  /** `revenue || 0`: the payable amount, with a missing revenue read as zero. */
  function Amount(s: Shipment): (r: real)
    ensures s.revenue.Some? ==> r == s.revenue.value
    ensures s.revenue.None? ==> r == 0.0
  {
    match s.revenue
    case Some(v) => v
    case None => 0.0
  }

  /**
   * When payment may start: the shipment has arrived, its OTP was verified,
   * it is not already paid and it has a positive revenue.
   */
  predicate Payable(s: Shipment)
  {
    && s.status == Arrived
    && Truthy(s.otpVerifiedAt)
    && s.paymentStatus != Some(PaymentCompleted)
    && s.revenue.Some? && s.revenue.value > 0.0
  }

  /**
   * The guards over a found shipment, in the order they run: the message of
   * the first one that fails, or None when all pass.
   */
  function ShipmentGuard(s: Shipment): (r: Option<string>)
    ensures r == None <==> Payable(s)
    ensures r == Some(NotArrivedMessage) <==> s.status != Arrived
    ensures r == Some(OtpNotVerifiedMessage) <==> s.status == Arrived && !Truthy(s.otpVerifiedAt)
    ensures r == Some(AlreadyPaidMessage) <==>
      s.status == Arrived && Truthy(s.otpVerifiedAt) && s.paymentStatus == Some(PaymentCompleted)
    ensures r == Some(InvalidAmountMessage) <==>
      s.status == Arrived && Truthy(s.otpVerifiedAt) && s.paymentStatus != Some(PaymentCompleted)
      && (s.revenue.None? || s.revenue.value <= 0.0)
  {
    if s.status != Arrived then Some(NotArrivedMessage)
    else if !Truthy(s.otpVerifiedAt) then Some(OtpNotVerifiedMessage)
    else if s.paymentStatus == Some(PaymentCompleted) then Some(AlreadyPaidMessage)
    else if Amount(s) <= 0.0 then Some(InvalidAmountMessage)
    else None
  }

  /**
   * Only `completed` blocks initiation: any other payment status, null
   * included, leads the guards to the same outcome as no payment status.
   */
  lemma OnlyCompletedBlocks(s: Shipment, p: Option<string>)
    requires p != Some(PaymentCompleted)
    ensures ShipmentGuard(s.(paymentStatus := p)) == ShipmentGuard(s.(paymentStatus := None))
  {
  }

  // ---------------------------------------------------------------------
  // URL derivation
  // ---------------------------------------------------------------------

  const DefaultHost := "localhost:3000"
  const CallbackPath := "/api/payment/callback?shipmentId="
  const WebhookPath := "/api/payment/webhook"

  /** The `host` header, or `localhost:3000` when it is missing or empty. */
  function RequestHost(host: Option<string>): (r: string)
    ensures Truthy(host) ==> r == host.value
    ensures !Truthy(host) ==> r == DefaultHost
  {
    OrElse(host, DefaultHost)
  }

  /**
   * The `x-forwarded-proto` header when present; otherwise `http` for a host
   * that mentions localhost and `https` for any other.
   */
  function Protocol(forwardedProto: Option<string>, host: string): (r: string)
    ensures Truthy(forwardedProto) ==> r == forwardedProto.value
    ensures !Truthy(forwardedProto) ==>
      (r == "http" <==> exists i: nat :: i <= |host| && OccursAt(host, "localhost", i))
    ensures !Truthy(forwardedProto) ==> r == "http" || r == "https"
  {
    OrElse(forwardedProto, if Includes(host, "localhost") then "http" else "https")
  }

  /** The configured application URL when set, else `protocol://host` from the request. */
  function AppUrl(config: Config, req: Request): (r: string)
    ensures Truthy(config.appUrl) ==> r == config.appUrl.value
    ensures !Truthy(config.appUrl) ==>
      r == Protocol(req.forwardedProto, RequestHost(req.host)) + "://" + RequestHost(req.host)
  {
    var host := RequestHost(req.host);
    OrElse(config.appUrl, Protocol(req.forwardedProto, host) + "://" + host)
  }

  /**
   * Where the payer returns to after paying: the application URL, the
   * callback path and then the raw shipment id, not URL-encoded.
   */
  function RedirectUrl(appUrl: string, shipmentId: string): (r: string)
    ensures appUrl + CallbackPath <= r
    ensures r[|appUrl + CallbackPath|..] == shipmentId
  {
    appUrl + CallbackPath + shipmentId
  }

  /** Where the gateway posts its server-to-server notification: the application URL and the webhook path. */
  function CallbackUrl(appUrl: string): (r: string)
    ensures appUrl <= r
    ensures r[|appUrl|..] == WebhookPath
  {
    appUrl + WebhookPath
  }

  /**
   * Different shipments get different return URLs on the same application
   * URL, and a return URL never coincides with the webhook URL.
   */
  lemma RedirectUrlsAreDistinct(appUrl: string, a: string, b: string)
    ensures RedirectUrl(appUrl, a) == RedirectUrl(appUrl, b) ==> a == b
    ensures RedirectUrl(appUrl, a) != CallbackUrl(appUrl)
  {
    var r := RedirectUrl(appUrl, a);
    assert r[|appUrl| + 13] == CallbackPath[13] == 'c';
    assert |CallbackUrl(appUrl)| > |appUrl| + 13;
    assert CallbackUrl(appUrl)[|appUrl| + 13] == WebhookPath[13] == 'w';
  }

  /** The default host mentions localhost, so without a forwarded protocol it is served over plain http. */
  lemma DefaultHostIsPlainHttp()
    ensures Protocol(None, DefaultHost) == "http"
  {
    assert DefaultHost[..9] == "localhost";
    assert OccursAt(DefaultHost, "localhost", 0);
  }

  /** With no configuration and no headers the handler builds on `http://localhost:3000`. */
  lemma DefaultAppUrl(body: Body)
    ensures AppUrl(Config(None, false), Request(body, None, None)) == "http://" + DefaultHost
  {
    var req := Request(body, None, None);
    assert RequestHost(req.host) == DefaultHost;
    DefaultHostIsPlainHttp();
    assert "http" + "://" == "http://";
  }

  // ---------------------------------------------------------------------
  // The decision before the gateway call
  // ---------------------------------------------------------------------

  /** `customers?.phone_number || ''`. */
  function CustomerPhone(s: Shipment): (r: string)
    ensures s.customer.None? || !Truthy(s.customer.value.phoneNumber) ==> r == ""
    ensures s.customer.Some? && Truthy(s.customer.value.phoneNumber) ==> r == s.customer.value.phoneNumber.value
  {
    match s.customer
    case None => ""
    case Some(c) => OrElse(c.phoneNumber, "")
  }

  /** The handler either answers early or goes on to call the gateway. */
  datatype Decision = Reject(response: Response) | Proceed(id: string, call: CheckoutRequest)

  /**
   * Everything the handler does before the gateway call: parse the body,
   * check the id, read the row (`readFails` is an error from the store),
   * run the guards and build the checkout request.
   */
  function Screen(rows: map<string, Shipment>, req: Request, config: Config, readFails: bool): (d: Decision)
    ensures req.body.Unparseable? ==> d == Reject(ErrorResponse(InternalServerError, InternalErrorMessage))
    ensures req.body.Body? && !Truthy(req.body.shipmentId) ==>
      d == Reject(ErrorResponse(BadRequest, IdRequiredMessage))
    ensures req.body.Body? && Truthy(req.body.shipmentId) && (readFails || req.body.shipmentId.value !in rows) ==>
      d == Reject(ErrorResponse(NotFound, NotFoundMessage))
    ensures req.body.Body? && Truthy(req.body.shipmentId) && !readFails && req.body.shipmentId.value in rows
            && !Payable(rows[req.body.shipmentId.value]) ==>
      d == Reject(ErrorResponse(BadRequest, ShipmentGuard(rows[req.body.shipmentId.value]).value))
    ensures d.Proceed? <==>
      req.body.Body? && Truthy(req.body.shipmentId) && !readFails && req.body.shipmentId.value in rows
      && Payable(rows[req.body.shipmentId.value])
    ensures d.Proceed? ==>
      && d.id == req.body.shipmentId.value
      && d.call.shipmentId == d.id
      && d.call.shipmentNumber == rows[d.id].shipmentNumber
      && d.call.amountInRupees == rows[d.id].revenue.value
      && d.call.amountInRupees > 0.0
      && d.call.customerPhone == CustomerPhone(rows[d.id])
      && d.call.redirectUrl == AppUrl(config, req) + CallbackPath + d.id
      && d.call.callbackUrl == AppUrl(config, req) + WebhookPath
  {
    match req.body
    case Unparseable => Reject(ErrorResponse(InternalServerError, InternalErrorMessage))
    case Body(shipmentId) =>
      if !Truthy(shipmentId) then Reject(ErrorResponse(BadRequest, IdRequiredMessage))
      else if readFails || shipmentId.value !in rows then Reject(ErrorResponse(NotFound, NotFoundMessage))
      else
        var id := shipmentId.value;
        var shipment := rows[id];
        match ShipmentGuard(shipment)
        case Some(message) => Reject(ErrorResponse(BadRequest, message))
        case None =>
          var appUrl := AppUrl(config, req);
          Proceed(id, CheckoutRequest(
            id, shipment.shipmentNumber, Amount(shipment), CustomerPhone(shipment),
            RedirectUrl(appUrl, id), CallbackUrl(appUrl)))
  }

  /** Every early answer is an error with status 400, 404 or 500. */
  lemma RejectionsAreErrors(rows: map<string, Shipment>, req: Request, config: Config, readFails: bool)
    ensures Screen(rows, req, config, readFails).Reject? ==>
      var resp := Screen(rows, req, config, readFails).response;
      resp.ErrorResponse? && resp.status in {BadRequest, NotFound, InternalServerError}
  {
  }

  // ---------------------------------------------------------------------
  // The bookkeeping write
  // ---------------------------------------------------------------------

  /**
   * The row after `update({ payment_status: 'initiated', phonepe_order_id })`.
   * An undefined transaction id is dropped from the update body, so the
   * stored order id is then left as it was.
   */
  function MarkInitiated(s: Shipment, transactionId: Option<string>): (r: Shipment)
    ensures r.paymentStatus == Some(PaymentInitiated)
    ensures transactionId.Some? ==> r.phonepeOrderId == transactionId
    ensures transactionId.None? ==> r.phonepeOrderId == s.phonepeOrderId
    ensures r.id == s.id && r.shipmentNumber == s.shipmentNumber && r.status == s.status
    ensures r.otpVerifiedAt == s.otpVerifiedAt && r.revenue == s.revenue && r.customer == s.customer
  {
    var orderId := if transactionId.Some? then transactionId else s.phonepeOrderId;
    s.(paymentStatus := Some(PaymentInitiated), phonepeOrderId := orderId)
  }

  /**
   * Initiation does not block a second initiation: once a call has gone
   * through and recorded `initiated`, the same request passes every guard
   * again and reaches the gateway a second time.
   */
  lemma SecondInitiationProceeds(
    rows: map<string, Shipment>, req: Request, config: Config, transactionId: Option<string>)
    requires Screen(rows, req, config, false).Proceed?
    ensures var id := Screen(rows, req, config, false).id;
      Screen(rows[id := MarkInitiated(rows[id], transactionId)], req, config, false).Proceed?
  {
  }

  /** The shipment table, keyed by shipment id. */
  class ShipmentStore {
    var rows: map<string, Shipment>

    /** Every row is stored under its own id. */
    ghost predicate Valid()
      reads this
    {
      forall k :: k in rows ==> rows[k].id == k
    }

    constructor (initial: map<string, Shipment>)
      requires forall k :: k in initial ==> initial[k].id == k
      ensures Valid() && rows == initial
    {
      rows := initial;
    }

    /**
     * `POST /api/payment/initiate`. `call` is the checkout request sent to
     * the gateway, or None when the gateway is not called; `gateway` is what
     * that call does; `writeFails` is an error from the update, which is
     * logged and otherwise ignored.
     */
    method InitiatePayment(req: Request, config: Config, readFails: bool, gateway: GatewayOutcome, writeFails: bool)
      returns (resp: Response, call: Option<CheckoutRequest>)
      requires Valid()
      modifies this
      ensures Valid()
      ensures var d := Screen(old(rows), req, config, readFails);
        d.Reject? ==> resp == d.response && call == None && rows == old(rows)
      ensures var d := Screen(old(rows), req, config, readFails);
        d.Proceed? ==> call == Some(d.call)
      ensures var d := Screen(old(rows), req, config, readFails);
        d.Proceed? && gateway.Threw? ==>
          resp == ErrorResponse(InternalServerError, InternalErrorMessage) && rows == old(rows)
      ensures var d := Screen(old(rows), req, config, readFails);
        d.Proceed? && gateway.Returned? && !gateway.success ==>
          resp == ErrorResponse(InternalServerError, OrElse(gateway.error, GatewayFailedMessage))
          && rows == old(rows)
      ensures var d := Screen(old(rows), req, config, readFails);
        d.Proceed? && gateway.Returned? && gateway.success ==>
          && resp == SuccessResponse(gateway.redirectUrl, gateway.merchantTransactionId,
                                     d.call.amountInRupees, config.saltKeyCredentials)
          && rows == if writeFails then old(rows)
                     else old(rows)[d.id := MarkInitiated(old(rows)[d.id], gateway.merchantTransactionId)]
      ensures rows.Keys == old(rows).Keys
      ensures forall k :: k in rows && k != (if call.Some? then call.value.shipmentId else "") ==>
        rows[k] == old(rows)[k]
    {
      var d := Screen(rows, req, config, readFails);
      if d.Reject? {
        return d.response, None;
      }
      call := Some(d.call);
      match gateway {
        case Threw =>
          resp := ErrorResponse(InternalServerError, InternalErrorMessage);
        case Returned(success, redirectUrl, transactionId, error) =>
          if !success {
            resp := ErrorResponse(InternalServerError, OrElse(error, GatewayFailedMessage));
            return;
          }
          if !writeFails {
            rows := rows[d.id := MarkInitiated(rows[d.id], transactionId)];
          }
          resp := SuccessResponse(redirectUrl, transactionId, d.call.amountInRupees, config.saltKeyCredentials);
      }
    }
  }

  // ---------------------------------------------------------------------
  // Worked scenarios
  // ---------------------------------------------------------------------

  /** An arrived, OTP-verified, unpaid shipment with revenue 500 reaches the gateway with 500. */
  lemma ArrivedShipmentReachesGateway(req: Request, config: Config)
    requires req.body == Body(Some("s-1"))
    ensures var s := Shipment("s-1", "SHP-1", Arrived, None, Some("2024-01-01T00:00:00Z"), Some(500.0), None, None);
      var d := Screen(map["s-1" := s], req, config, false);
      d.Proceed? && d.call.amountInRupees == 500.0
  {
  }

  /** A pending shipment is refused with 400 and the not-arrived message. */
  lemma PendingShipmentRefused(req: Request, config: Config)
    requires req.body == Body(Some("s-2"))
    ensures var s := Shipment("s-2", "SHP-2", Pending, None, None, Some(500.0), None, None);
      Screen(map["s-2" := s], req, config, false)
        == Reject(ErrorResponse(BadRequest, NotArrivedMessage))
  {
  }
}
