/** How the browser client and the payment server fit together: the body
    the checkout modal posts is what create-payment reads, the field each
    provider's answer carries is the one the modal looks for, and the
    return URLs the server hands out decide what the landing page reports
    and whether the CV builder unlocks the download. */
module PaymentFlow {
  import opened Wrappers
  import opened Strings
  import opened Http
  import opened Server
  import opened PaymentModal
  import opened PaymentStatus
  import CvBuilder

  /** The request body as `express.json()` hands it to create-payment: the
      four fields the modal sends, and no currency or e-mail. */
  function BodyOf(sent: PaymentRequest): (r: CreatePaymentBody)
    ensures r.provider == Some(sent.provider) && r.priceId == Some(sent.priceId)
    ensures r.amount == Some(sent.amount) && r.clientReferenceId == Some(sent.clientReferenceId)
    ensures r.currency.None? && r.email.None?
  {
    CreatePaymentBody(Some(sent.provider), Some(sent.priceId), Some(sent.amount), None, None, Some(sent.clientReferenceId))
  }

  /** A provider call answered with a non-empty string. */
  predicate GaveText(a: Attempt<Option<string>>)
  {
    a.Returned? && a.value.Some? && a.value.value != ""
  }

  /** Stripe: the server opens an embedded checkout session for the plan's
      price with the generated reference, and the modal shows the embedded
      checkout exactly when Stripe gave a client secret. */
  lemma StripeRoundTrip(env: Env, plan: Plan, now: nat, random36: string)
    ensures var sent := RequestFor(Stripe, plan, ClientReferenceId(now, random36));
            var out := CreatePayment(env, BodyOf(sent));
            && out.call.Some? && out.call.value.StripeCheckout?
            && out.call.value.session.clientReferenceId == Some(sent.clientReferenceId)
            && StartsWith(sent.clientReferenceId, "user_")
            && out.call.value.session.lineItems == [LineItem(Some(plan.id), 1)]
            && (ActionFor(Stripe, Receive(out.response)).ShowEmbeddedCheckout? <==>
                  GaveText(env.createSession(out.call.value.session)))
            && !ActionFor(Stripe, Receive(out.response)).Redirect?
  {
  }

  /** Paystack: the server initialises a transaction for 100 times the
      plan's price (100000 for a price of 0) under the generated reference,
      and the modal redirects exactly when Paystack gave an authorization
      URL. */
  lemma PaystackRoundTrip(env: Env, plan: Plan, now: nat, random36: string)
    ensures var sent := RequestFor(Paystack, plan, ClientReferenceId(now, random36));
            var out := CreatePayment(env, BodyOf(sent));
            && out.call.Some? && out.call.value.PaystackInitialize?
            && out.call.value.transaction.reference == Some(sent.clientReferenceId)
            && out.call.value.transaction.amount == (if plan.price != 0 then 100 * plan.price else 100000)
            && out.call.value.transaction.email == "customer@example.com"
            && (ActionFor(Paystack, Receive(out.response)).Redirect? <==>
                  GaveText(env.initializeTransaction(out.call.value.transaction)))
            && !ActionFor(Paystack, Receive(out.response)).ShowEmbeddedCheckout?
  {
  }

  /** PayPal: no provider is called and the modal always redirects to the
      mock approval URL. */
  lemma PaypalRoundTrip(env: Env, plan: Plan, now: nat, random36: string)
    ensures var sent := RequestFor(PayPal, plan, ClientReferenceId(now, random36));
            var out := CreatePayment(env, BodyOf(sent));
            && out.call.None?
            && ActionFor(PayPal, Receive(out.response)) == Redirect(JStr(Server.Render(PaypalApprovalUrl(env))))
  {
    var u := PaypalApprovalUrl(env);
    assert |Server.Render(u)| >= |SuccessPath|;
  }

  /** The success landing path never contains "cancel": it has no 'l'. */
  lemma SuccessPathNotCanceled()
    ensures !Contains(SuccessPath, "cancel")
  {
    assert "cancel"[5] == 'l' && 'l' !in SuccessPath;
    if Contains(SuccessPath, "cancel") {
      ContainsChars(SuccessPath, "cancel");
      assert false;
    }
  }

  /** The landing page's verdict for a URL and a verify-session reply. */
  function LandingStatus(u: Url, reply: FetchResult): Status
  {
    StatusAfterEffect(Contains(u.path, "cancel"), QueryGet(u.query, "session_id"), reply, InitialStatus(u.path))
  }

  function LandingMarksPaid(u: Url, reply: FetchResult): bool
  {
    MarksPaid(Contains(u.path, "cancel"), QueryGet(u.query, "session_id"), reply)
  }

  /** The Paystack and PayPal return URLs carry no session id, so landing
      from either ends in an error and never marks the CV paid, whatever a
      request would have answered. */
  lemma NonStripeLandingsFail(env: Env, reply: FetchResult)
    ensures LandingStatus(PaystackCallbackUrl(env), reply) == Error
    ensures LandingStatus(PaypalApprovalUrl(env), reply) == Error
    ensures !LandingMarksPaid(PaystackCallbackUrl(env), reply)
    ensures !LandingMarksPaid(PaypalApprovalUrl(env), reply)
  {
    SuccessPathNotCanceled();
    assert QueryGet(PaystackCallbackUrl(env).query, "session_id") == None;
    assert QueryGet(PaypalApprovalUrl(env).query, "session_id") == None;
  }

  /** The return URL after Stripe has put the session id in place of the
      template. */
  function WithSessionId(u: Url, sessionId: string): Url
  {
    u.(query := seq(|u.query|, i requires 0 <= i < |u.query| =>
         if u.query[i].1 == CheckoutSessionIdTemplate then (u.query[i].0, sessionId) else u.query[i]))
  }

  /** Once Stripe has filled in the template, the landing page reads back
      the session id it was given. */
  lemma StripeLandingSessionId(env: Env, sessionId: string)
    ensures var u := WithSessionId(StripeReturnUrl(env), sessionId);
            u.path == SuccessPath && QueryGet(u.query, "session_id") == Some(sessionId)
  {
    var u := WithSessionId(StripeReturnUrl(env), sessionId);
    assert u.query == [("session_id", sessionId), ("provider", "stripe")];
  }

  /** A character RFC 3986 section 2.3 calls unreserved: the URL parser
      never escapes it and percent-decoding never changes it. */
  predicate Unreserved(c: char)
  {
    ('a' <= c <= 'z') || ('A' <= c <= 'Z') || ('0' <= c <= '9') || c == '-' || c == '.' || c == '_' || c == '~'
  }

  /** An id the landing page can splice unencoded into the fetch path and
      that the `:sessionId` route parameter gives back unchanged: one
      segment of unreserved characters, and not a dot segment. Stripe's
      `cs_...` ids are of this form. */
  predicate PlainSegment(id: string)
  {
    (forall k :: 0 <= k < |id| ==> Unreserved(id[k])) && id != "." && id != ".."
  }

  /** Landing from Stripe with a session id: the page asks verify-session
      about it and reports success exactly when the id is non-empty and
      either lacks the `cs_` prefix or Stripe reports it paid; an open
      session stays loading. */
  lemma StripeLanding(env: Env, sessionId: string)
    requires PlainSegment(sessionId)
    ensures var u := WithSessionId(StripeReturnUrl(env), sessionId);
            var reply := Receive(VerifySession(env, sessionId));
            && (LandingStatus(u, reply) == Success <==>
                  sessionId != "" && (!StartsWith(sessionId, "cs_") || env.retrieveSession(sessionId) == Returned("paid")))
            && (LandingMarksPaid(u, reply) <==> LandingStatus(u, reply) == Success)
            && (sessionId != "" && StartsWith(sessionId, "cs_") && env.retrieveSession(sessionId) == Returned("open") ==>
                  LandingStatus(u, reply) == Loading)
  {
    SuccessPathNotCanceled();
    StripeLandingSessionId(env, sessionId);
    VerifiedStatus(env, sessionId);
  }

  /** An id the router does not hand to verify-session unchanged (a '/'
      splits it, a stray '%' fails to decode) gets Express's HTML error
      page: `res.json()` throws on it, the landing ends in an error and
      `cv_paid` is not written. */
  lemma ErrorPageLandingFails(env: Env, sessionId: string, code: int, page: string)
    requires sessionId != ""
    ensures var u := WithSessionId(StripeReturnUrl(env), sessionId);
            var reply := Receive(Response(code, TextBody(page)));
            LandingStatus(u, reply) == Error && !LandingMarksPaid(u, reply)
  {
    SuccessPathNotCanceled();
    StripeLandingSessionId(env, sessionId);
  }

  /** What the landing page makes of a verify-session answer for a
      non-empty id. */
  lemma VerifiedStatus(env: Env, sessionId: string)
    ensures var reply := Receive(VerifySession(env, sessionId));
            && (ReportsPaid(reply) <==> !StartsWith(sessionId, "cs_") || env.retrieveSession(sessionId) == Returned("paid"))
            && (ReportsOpen(reply) <==> StartsWith(sessionId, "cs_") && env.retrieveSession(sessionId) == Returned("open"))
  {
  }

  /** The landing's effect on the builder's next mount: a landing that
      marks the CV paid unlocks the download, and any other landing leaves
      whether it is unlocked as it was. */
  lemma PaidUnlocksDownload(storage: map<string, string>, canceled: bool, sessionId: Option<string>,
                            reply: FetchResult, data: CvBuilder.CvTypes.CvData)
    ensures var after := if MarksPaid(canceled, sessionId, reply) then storage[PaidKey := "true"] else storage;
            && (MarksPaid(canceled, sessionId, reply) ==>
                  CvBuilder.DownloadControlFor(CvBuilder.IsPaidAtMount(after), data).DownloadLink?)
            && (!MarksPaid(canceled, sessionId, reply) ==>
                  CvBuilder.IsPaidAtMount(after) == CvBuilder.IsPaidAtMount(storage))
  {
  }
}
