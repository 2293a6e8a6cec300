/** The payment server (server/index.js): the create-payment dispatch over
    the three providers, the three webhook handlers, the verify-session
    resolver, the middleware that keeps webhook bodies raw, and the log
    of credit calls. Stripe's SDK, the Paystack HTTP call, HMAC-SHA512 and
    `JSON.stringify` are foreign; they enter as the function-typed fields
    of `Env`, about which nothing is assumed. */
module Server {
  import opened Wrappers
  import opened Strings
  import opened Http

  /** The fields the create-payment handler takes from the JSON body. */
  datatype CreatePaymentBody = CreatePaymentBody(
    provider: Option<string>,
    priceId: Option<string>,
    amount: Option<int>,
    currency: Option<string>,
    email: Option<string>,
    clientReferenceId: Option<string>)

  datatype LineItem = LineItem(price: Option<string>, quantity: int)

  /** The argument of `stripe.checkout.sessions.create`. */
  datatype StripeSessionParams = StripeSessionParams(
    paymentMethodTypes: seq<string>,
    lineItems: seq<LineItem>,
    mode: string,
    uiMode: string,
    clientReferenceId: Option<string>,
    returnUrl: Url)

  /** The JSON body posted to Paystack's transaction/initialize. */
  datatype PaystackParams = PaystackParams(
    email: string,
    amount: int,
    reference: Option<string>,
    callbackUrl: Url,
    channels: seq<string>)

  /** The outbound provider call a create-payment request made. */
  datatype ProviderCall =
    | StripeCheckout(session: StripeSessionParams)
    | PaystackInitialize(transaction: PaystackParams)

  /** What `stripe.webhooks.constructEvent` yields: the event type and
      `event.data.object.client_reference_id`. */
  datatype StripeEvent = StripeEvent(eventType: string, clientReferenceId: Option<string>)

  /** `data`: its `reference`, and its other fields. */
  datatype PaystackData = PaystackData(reference: Option<string>, unread: JsonObject)

  /** The parsed Paystack webhook body: `event`, `data`, and everything
      else in it, which the handler never reads but `JSON.stringify`
      serialises and the signature therefore covers. */
  datatype PaystackBody = PaystackBody(event: Option<string>, data: Option<PaystackData>, unread: JsonObject)

  /** Process configuration and the foreign calls, as oracles:
      - createSession: `checkout.sessions.create`, giving `client_secret`;
      - initializeTransaction: the axios POST, giving
        `data.data.authorization_url` (a throw covers axios rejecting and
        a missing `data.data`);
      - retrieveSession: `checkout.sessions.retrieve`, giving
        `payment_status`;
      - constructEvent: Stripe's signature check and parse of the raw body;
      - hmacSha512Hex: `createHmac('sha512', key).update(text).digest('hex')`;
      - stringify: `JSON.stringify` of the parsed Paystack body. */
  datatype Env = Env(
    clientUrl: Option<string>,
    stripeWebhookSecret: Option<string>,
    paystackSecret: Option<string>,
    createSession: StripeSessionParams -> Attempt<Option<string>>,
    initializeTransaction: PaystackParams -> Attempt<Option<string>>,
    retrieveSession: string -> Attempt<string>,
    constructEvent: (string, Option<string>, Option<string>) -> Attempt<StripeEvent>,
    hmacSha512Hex: (string, string) -> string,
    stringify: PaystackBody -> string)

  /** `${process.env.CLIENT_URL}` in a template: an unset variable prints
      as "undefined". */
  function ClientUrlText(env: Env): string
  {
    match env.clientUrl
    case None => "undefined"
    case Some(u) => u
  }

  /** The placeholder Stripe replaces by the checkout session id. */
  const CheckoutSessionIdTemplate := "{CHECKOUT_SESSION_ID}"

  const SuccessPath := "/payment/success"

  function StripeReturnUrl(env: Env): Url
  {
    Url(ClientUrlText(env), SuccessPath, [("session_id", CheckoutSessionIdTemplate), ("provider", "stripe")])
  }

  function PaystackCallbackUrl(env: Env): Url
  {
    Url(ClientUrlText(env), SuccessPath, [("provider", "paystack")])
  }

  function PaypalApprovalUrl(env: Env): Url
  {
    Url(ClientUrlText(env), SuccessPath, [("provider", "paypal"), ("token", "mock_token")])
  }

  /** The `key=value` pairs of a query, joined by "&". */
  function QueryText(query: seq<(string, string)>): string
  {
    Join(seq(|query|, i requires 0 <= i < |query| => query[i].0 + "=" + query[i].1), "&")
  }

  /** A URL written out as the server's template strings write it. */
  function Render(u: Url): string
  {
    u.origin + u.path + (if |u.query| == 0 then "" else "?" + QueryText(u.query))
  }

  /** `email || 'customer@example.com'`. */
  function PaystackEmail(email: Option<string>): (r: string)
    ensures email.Some? && email.value != "" ==> r == email.value
    ensures email.None? || email.value == "" ==> r == "customer@example.com"
  {
    if email.Some? && email.value != "" then email.value else "customer@example.com"
  }

  /** `(amount || 1000) * 100`: the amount in the currency's minor unit,
      with 1000 major units when the amount is missing or zero. */
  function PaystackAmount(amount: Option<int>): (r: int)
    ensures r % 100 == 0
    ensures amount.Some? && amount.value != 0 ==> r == 100 * amount.value
    ensures amount.None? || amount.value == 0 ==> r == 100000
  {
    (if amount.Some? && amount.value != 0 then amount.value else 1000) * 100
  }

  function StripeParamsFor(env: Env, req: CreatePaymentBody): StripeSessionParams
  {
    StripeSessionParams(["card"], [LineItem(req.priceId, 1)], "payment", "embedded",
                        req.clientReferenceId, StripeReturnUrl(env))
  }

  function PaystackParamsFor(env: Env, req: CreatePaymentBody): PaystackParams
  {
    PaystackParams(PaystackEmail(req.email), PaystackAmount(req.amount), req.clientReferenceId,
                   PaystackCallbackUrl(env),
                   ["card", "bank", "ussd", "qr", "mobile_money", "bank_transfer"])
  }

  /** A field whose value may be `undefined` or `null`: both become an
      omitted key. `res.json` drops an `undefined` field but writes a
      `null` one as `null`; the client reads either as falsy. */
  function OptionalField(key: string, v: Option<string>): JsonObject
  {
    match v
    case None => map[]
    case Some(s) => map[key := JStr(s)]
  }

  function ErrorResponse(code: int, message: string): Response
  {
    Response(code, JsonBody(map["error" := JStr(message)]))
  }

  predicate KnownProvider(p: Option<string>)
  {
    p == Some("stripe") || p == Some("paystack") || p == Some("paypal")
  }

  /** Outcome of one create-payment request: the provider call it made,
      if any, and the response. */
  datatype CreatePaymentOutcome = CreatePaymentOutcome(call: Option<ProviderCall>, response: Response)

  /** POST /api/create-payment. */
  function CreatePayment(env: Env, req: CreatePaymentBody): (r: CreatePaymentOutcome)
    // dispatch: only stripe and paystack call out; an unknown provider gets 400
    ensures r.call.Some? <==> req.provider == Some("stripe") || req.provider == Some("paystack")
    ensures r.response.status == 400 <==> !KnownProvider(req.provider)
    ensures !KnownProvider(req.provider) ==> r.response == ErrorResponse(400, "Invalid provider")
    // a provider call that throws gives 500, and nothing else does
    ensures r.response.status == 500 <==>
              || (r.call.Some? && r.call.value.StripeCheckout? && env.createSession(r.call.value.session).Threw?)
              || (r.call.Some? && r.call.value.PaystackInitialize? && env.initializeTransaction(r.call.value.transaction).Threw?)
    ensures r.response.status == 500 ==> r.response == ErrorResponse(500, "Payment initialization failed")
    ensures r.response.status in {200, 400, 500}
    // stripe: embedded checkout, one line item, the reference passed through
    ensures req.provider == Some("stripe") ==>
              && r.call.value.StripeCheckout?
              && r.call.value.session.clientReferenceId == req.clientReferenceId
              && r.call.value.session.lineItems == [LineItem(req.priceId, 1)]
              && r.call.value.session.uiMode == "embedded"
              && (r.response.status == 200 ==> r.response.body.JsonBody? && r.response.body.fields.Keys == {"clientSecret"})
    // paystack: amount in minor units, default email, the reference passed through
    ensures req.provider == Some("paystack") ==>
              && r.call.value.PaystackInitialize?
              && r.call.value.transaction.reference == req.clientReferenceId
              && r.call.value.transaction.amount == PaystackAmount(req.amount)
              && r.call.value.transaction.email == PaystackEmail(req.email)
              && (r.response.status == 200 ==> r.response.body.JsonBody? && r.response.body.fields.Keys <= {"authorizationUrl"})
    // paypal: a mock approval URL, always 200
    ensures req.provider == Some("paypal") ==>
              r.response == Response(200, JsonBody(map["approvalUrl" := JStr(Render(PaypalApprovalUrl(env))),
                                                       "mock" := JBool(true)]))
  {
    if req.provider == Some("stripe") then
      var p := StripeParamsFor(env, req);
      var resp := match env.createSession(p)
        case Threw(_) => ErrorResponse(500, "Payment initialization failed")
        case Returned(secret) =>
          Response(200, JsonBody(map["clientSecret" := if secret.Some? then JStr(secret.value) else JNull]));
      CreatePaymentOutcome(Some(StripeCheckout(p)), resp)
    else if req.provider == Some("paystack") then
      var p := PaystackParamsFor(env, req);
      var resp := match env.initializeTransaction(p)
        case Threw(_) => ErrorResponse(500, "Payment initialization failed")
        case Returned(url) => Response(200, JsonBody(OptionalField("authorizationUrl", url)));
      CreatePaymentOutcome(Some(PaystackInitialize(p)), resp)
    else if req.provider == Some("paypal") then
      CreatePaymentOutcome(None, Response(200, JsonBody(map["approvalUrl" := JStr(Render(PaypalApprovalUrl(env))),
                                                            "mock" := JBool(true)])))
    else
      CreatePaymentOutcome(None, ErrorResponse(400, "Invalid provider"))
  }

  /** One call of `updateUserCredits(userId, type)`. */
  datatype Credit = Credit(userId: Option<string>, purchase: string)

  /** Outcome of one webhook delivery: the response (none when the handler
      throws before answering) and the credit call it makes, if any. */
  datatype WebhookOutcome = WebhookOutcome(response: Option<Response>, credit: Option<Credit>)

  /** POST /api/webhooks/stripe with the raw body and the
      `stripe-signature` header. */
  function StripeWebhook(env: Env, rawBody: string, signature: Option<string>): (r: WebhookOutcome)
    ensures r.response.Some?
    ensures r.response.value.status == 400 <==> env.constructEvent(rawBody, signature, env.stripeWebhookSecret).Threw?
    ensures r.response.value.status in {200, 400}
    ensures r.credit.Some? <==>
              && env.constructEvent(rawBody, signature, env.stripeWebhookSecret).Returned?
              && env.constructEvent(rawBody, signature, env.stripeWebhookSecret).value.eventType == "checkout.session.completed"
    ensures r.credit.Some? ==>
              r.credit.value == Credit(env.constructEvent(rawBody, signature, env.stripeWebhookSecret).value.clientReferenceId,
                                       "stripe_success")
  {
    match env.constructEvent(rawBody, signature, env.stripeWebhookSecret)
    case Threw(m) => WebhookOutcome(Some(Response(400, TextBody("Webhook Error: " + m))), None)
    case Returned(e) =>
      var credit := if e.eventType == "checkout.session.completed"
                    then Some(Credit(e.clientReferenceId, "stripe_success")) else None;
      WebhookOutcome(Some(Response(200, TextBody(""))), credit)
  }

  /** The Paystack signature check: the hex HMAC-SHA512 of the re-serialised
      body compared to the `x-paystack-signature` header with plain
      equality. */
  predicate PaystackSignatureValid(env: Env, body: PaystackBody, signature: Option<string>)
    requires env.paystackSecret.Some?
  {
    signature == Some(env.hmacSha512Hex(env.paystackSecret.value, env.stringify(body)))
  }

  /** POST /api/webhooks/paystack with the parsed body and the
      `x-paystack-signature` header. Without a secret key `createHmac`
      throws, and so does reading `data.reference` when `data` is
      missing: the handler then sends nothing itself (Express 5 turns the
      rejection into a 500; under Express 4 it is unhandled). */
  function PaystackWebhook(env: Env, body: PaystackBody, signature: Option<string>): (r: WebhookOutcome)
    ensures r.response.None? <==>
              || env.paystackSecret.None?
              || (PaystackSignatureValid(env, body, signature) && body.event == Some("charge.success") && body.data.None?)
    ensures r.response.Some? ==> r.response.value.status in {200, 400}
    ensures r.response.Some? && r.response.value.status == 400 <==>
              env.paystackSecret.Some? && !PaystackSignatureValid(env, body, signature)
    ensures r.credit.Some? <==>
              && env.paystackSecret.Some? && PaystackSignatureValid(env, body, signature)
              && body.event == Some("charge.success") && body.data.Some?
    ensures r.credit.Some? ==> r.credit.value == Credit(body.data.value.reference, "paystack_success")
    ensures r.credit.Some? ==> r.response == Some(SendStatus(200))
  {
    if env.paystackSecret.None? then WebhookOutcome(None, None)
    else if PaystackSignatureValid(env, body, signature) then
      if body.event == Some("charge.success") then
        match body.data
        case None => WebhookOutcome(None, None)
        case Some(d) => WebhookOutcome(Some(SendStatus(200)), Some(Credit(d.reference, "paystack_success")))
      else WebhookOutcome(Some(SendStatus(200)), None)
    else WebhookOutcome(Some(SendStatus(400)), None)
  }

  /** POST /api/webhooks/paypal: acknowledged without any check. */
  function PaypalWebhook(): (r: WebhookOutcome)
    ensures r.response == Some(SendStatus(200)) && r.credit.None?
  {
    WebhookOutcome(Some(SendStatus(200)), None)
  }

  /** A body changed after signing is rejected: if the header carries the
      HMAC of the original body and the changed body's HMAC differs, the
      Paystack handler answers 400 and credits no one. */
  lemma TamperedPaystackBodyRejected(env: Env, original: PaystackBody, delivered: PaystackBody)
    requires env.paystackSecret.Some?
    requires env.hmacSha512Hex(env.paystackSecret.value, env.stringify(delivered))
             != env.hmacSha512Hex(env.paystackSecret.value, env.stringify(original))
    ensures var sig := Some(env.hmacSha512Hex(env.paystackSecret.value, env.stringify(original)));
            PaystackWebhook(env, delivered, sig) == WebhookOutcome(Some(SendStatus(400)), None)
  {
  }

  /** GET /api/verify-session/:sessionId. */
  function VerifySession(env: Env, sessionId: string): (r: Response)
    ensures !StartsWith(sessionId, "cs_") ==> r == Response(200, JsonBody(map["status" := JStr("paid")]))
    ensures r.status == 500 <==> StartsWith(sessionId, "cs_") && env.retrieveSession(sessionId).Threw?
    ensures r.status == 500 ==> r == ErrorResponse(500, env.retrieveSession(sessionId).message)
    ensures StartsWith(sessionId, "cs_") && env.retrieveSession(sessionId).Returned? ==>
              r == Response(200, JsonBody(map["status" := JStr(env.retrieveSession(sessionId).value)]))
  {
    if StartsWith(sessionId, "cs_") then
      match env.retrieveSession(sessionId)
      case Threw(m) => ErrorResponse(500, m)
      case Returned(paymentStatus) => Response(200, JsonBody(map["status" := JStr(paymentStatus)]))
    else
      Response(200, JsonBody(map["status" := JStr("paid")]))
  }

  /** The first middleware: requests whose URL starts with
      "/api/webhooks" skip the global JSON parser, so the Stripe handler
      sees the raw body. */
  predicate UsesGlobalJsonParser(originalUrl: string)
  {
    !StartsWith(originalUrl, "/api/webhooks")
  }

  lemma MiddlewareRoutes(sessionId: string, suffix: string)
    ensures !UsesGlobalJsonParser("/api/webhooks" + suffix)
    ensures UsesGlobalJsonParser("/api/create-payment")
    ensures UsesGlobalJsonParser("/api/verify-session/" + sessionId)
  {
    assert ("/api/webhooks" + suffix)[..13] == "/api/webhooks";
    assert ("/api/verify-session/" + sessionId)[5] == 'v';
    assert "/api/create-payment"[5] == 'c';
  }

  /** The requests the server routes, each with what its handler reads. */
  datatype Request =
    | CreatePaymentRequest(body: CreatePaymentBody)
    | StripeWebhookRequest(rawBody: string, stripeSignature: Option<string>)
    | PaystackWebhookRequest(event: PaystackBody, paystackSignature: Option<string>)
    | PaypalWebhookRequest
    | VerifySessionRequest(sessionId: string)

  /** The response to a request; `None` when the handler throws first. */
  function ResponseTo(env: Env, req: Request): Option<Response>
  {
    match req
    case CreatePaymentRequest(b) => Some(CreatePayment(env, b).response)
    case StripeWebhookRequest(raw, sig) => StripeWebhook(env, raw, sig).response
    case PaystackWebhookRequest(b, sig) => PaystackWebhook(env, b, sig).response
    case PaypalWebhookRequest => PaypalWebhook().response
    case VerifySessionRequest(id) => Some(VerifySession(env, id))
  }

  /** The credit calls one request makes. */
  function CreditsOf(env: Env, req: Request): (r: seq<Credit>)
    ensures |r| <= 1
    ensures r != [] ==>
              || (req.StripeWebhookRequest? && r[0].purchase == "stripe_success")
              || (req.PaystackWebhookRequest? && r[0].purchase == "paystack_success")
    ensures req.CreatePaymentRequest? || req.VerifySessionRequest? || req.PaypalWebhookRequest? ==> r == []
  {
    match req
    case StripeWebhookRequest(raw, sig) => ToSeq(StripeWebhook(env, raw, sig).credit)
    case PaystackWebhookRequest(b, sig) => ToSeq(PaystackWebhook(env, b, sig).credit)
    case _ => []
  }

  /** The server process; its only state is the log of credit calls,
      which only grows. */
  class PaymentServer {
    var credits: seq<Credit>

    constructor ()
      ensures credits == []
    {
      credits := [];
    }

    /** `updateUserCredits`: logs the call and reports success. */
    method UpdateUserCredits(userId: Option<string>, purchase: string) returns (ok: bool)
      modifies this
      ensures credits == old(credits) + [Credit(userId, purchase)]
      ensures ok
    {
      credits := credits + [Credit(userId, purchase)];
      ok := true;
    }

    method ApplyWebhook(outcome: WebhookOutcome) returns (resp: Option<Response>)
      modifies this
      ensures resp == outcome.response
      ensures credits == old(credits) + ToSeq(outcome.credit)
    {
      if outcome.credit.Some? {
        var _ := UpdateUserCredits(outcome.credit.value.userId, outcome.credit.value.purchase);
      }
      resp := outcome.response;
    }

    /** Handles one request: answers it and appends the credit calls it
        makes to the log. */
    method Handle(env: Env, req: Request) returns (resp: Option<Response>)
      modifies this
      ensures resp == ResponseTo(env, req)
      ensures credits == old(credits) + CreditsOf(env, req)
    {
      match req
      case CreatePaymentRequest(b) =>
        resp := Some(CreatePayment(env, b).response);
      case StripeWebhookRequest(raw, sig) =>
        resp := ApplyWebhook(StripeWebhook(env, raw, sig));
      case PaystackWebhookRequest(b, sig) =>
        resp := ApplyWebhook(PaystackWebhook(env, b, sig));
      case PaypalWebhookRequest =>
        resp := ApplyWebhook(PaypalWebhook());
      case VerifySessionRequest(id) =>
        resp := Some(VerifySession(env, id));
    }
  }

  /** The same webhook delivered twice is credited twice: the log keeps one
      entry per delivery and nothing deduplicates by reference. */
  method DeliverTwice(env: Env, req: Request) returns (log: seq<Credit>, first: Option<Response>, second: Option<Response>)
    ensures log == CreditsOf(env, req) + CreditsOf(env, req)
    ensures first == second == ResponseTo(env, req)
  {
    var server := new PaymentServer();
    first := server.Handle(env, req);
    second := server.Handle(env, req);
    log := server.credits;
  }
}
