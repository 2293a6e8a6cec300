/** The checkout modal (src/components/Payment/PaymentModal.tsx): the
    request it posts to create-payment, what it does with each provider's
    answer, and what it shows. `Date.now()`, `Math.random()` and `fetch`
    enter as parameters. */
module PaymentModal {
  import opened Wrappers
  import opened Strings
  import opened Http

  datatype Provider = Stripe | PayPal | Paystack

  /** The provider names the client sends and the server dispatches on. */
  function ProviderName(p: Provider): string
  {
    match p
    case Stripe => "stripe"
    case PayPal => "paypal"
    case Paystack => "paystack"
  }

  /** The response field the client reads for each provider. */
  function ResponseKey(p: Provider): string
  {
    match p
    case Stripe => "clientSecret"
    case PayPal => "approvalUrl"
    case Paystack => "authorizationUrl"
  }

  /** The `plan` prop: `{ id, price, name }`. */
  datatype Plan = Plan(id: string, price: int, name: string)

  /** The JSON body `handlePaymentInit` posts. */
  datatype PaymentRequest = PaymentRequest(provider: string, priceId: string, amount: int, clientReferenceId: string)

  /** `user_${Date.now()}_${Math.random().toString(36).substring(7)}`, with
      the clock reading and the base-36 text of the random number as
      parameters. */
  function ClientReferenceId(now: nat, random36: string): (r: string)
    ensures StartsWith(r, "user_")
  {
    "user_" + NatToString(now) + "_" + Drop(random36, 7)
  }

  function RequestFor(selected: Provider, plan: Plan, clientReferenceId: string): PaymentRequest
  {
    PaymentRequest(ProviderName(selected), plan.id, plan.price, clientReferenceId)
  }

  /** The request body names the chosen provider and carries the plan's id
      and price and the generated reference. */
  lemma RequestCarriesPlan(selected: Provider, plan: Plan, now: nat, random36: string)
    ensures var r := RequestFor(selected, plan, ClientReferenceId(now, random36));
            && r.provider == ProviderName(selected)
            && r.priceId == plan.id && r.amount == plan.price
            && StartsWith(r.clientReferenceId, "user_")
  {
  }

  /** What the client does with the parsed response. */
  datatype Action = ShowEmbeddedCheckout(clientSecret: Json) | Redirect(href: Json) | NoAction

  /** The if/else-if chain over the selected provider and the response
      fields. */
  function Dispatch(selected: Provider, data: JsonObject): (r: Action)
    ensures r.ShowEmbeddedCheckout? <==> selected == Stripe && FieldTruthy(data, "clientSecret")
    ensures r.Redirect? <==>
              || (selected == Paystack && FieldTruthy(data, "authorizationUrl"))
              || (selected == PayPal && FieldTruthy(data, "approvalUrl"))
    ensures r.ShowEmbeddedCheckout? ==> r.clientSecret == data["clientSecret"] && Truthy(r.clientSecret)
    ensures r.Redirect? ==> r.href == data[ResponseKey(selected)] && Truthy(r.href)
    ensures r == NoAction <==> !FieldTruthy(data, ResponseKey(selected))
  {
    if selected == Stripe && FieldTruthy(data, "clientSecret") then ShowEmbeddedCheckout(data["clientSecret"])
    else if selected == Paystack && FieldTruthy(data, "authorizationUrl") then Redirect(data["authorizationUrl"])
    else if selected == PayPal && FieldTruthy(data, "approvalUrl") then Redirect(data["approvalUrl"])
    else NoAction
  }

  /** The action taken on the outcome of the fetch: none when it threw. */
  function ActionFor(selected: Provider, reply: FetchResult): Action
  {
    if reply.FetchReturned? then Dispatch(selected, reply.data) else NoAction
  }

  /** What the modal renders. */
  datatype View = Nothing | ProviderPicker(initializing: bool) | EmbeddedCheckout(clientSecret: Json)

  function ModalView(isOpen: bool, plan: Option<Plan>, clientSecret: Option<Json>, loading: bool): (r: View)
    ensures r == Nothing <==> !isOpen || plan.None?
    ensures r.EmbeddedCheckout? <==> isOpen && plan.Some? && clientSecret.Some? && Truthy(clientSecret.value)
    ensures r.ProviderPicker? ==> r.initializing == loading
  {
    if !isOpen || plan.None? then Nothing
    else if clientSecret.Some? && Truthy(clientSecret.value) then EmbeddedCheckout(clientSecret.value)
    else ProviderPicker(loading)
  }

  /** The modal's state: `provider`, `clientSecret`, `loading`, and the
      last value assigned to `window.location.href`. */
  class PaymentModalState {
    var provider: Option<Provider>
    var clientSecret: Option<Json>
    var loading: bool
    var location: Option<Json>

    /** `clientSecret` is only ever set to a truthy value. */
    ghost predicate Valid()
      reads this
    {
      clientSecret.Some? ==> Truthy(clientSecret.value)
    }

    constructor ()
      ensures Valid()
      ensures provider.None? && clientSecret.None? && !loading && location.None?
    {
      provider, clientSecret, loading, location := None, None, false, None;
    }

    /** `handlePaymentInit(selected)`: posts the request and acts on the
        reply; `loading` is cleared whether the fetch succeeded or threw.
        Returns the body it posted. */
    method HandlePaymentInit(selected: Provider, plan: Plan, now: nat, random36: string, reply: FetchResult)
      returns (sent: PaymentRequest)
      requires Valid()
      modifies this
      ensures Valid()
      ensures sent == RequestFor(selected, plan, ClientReferenceId(now, random36))
      ensures provider == Some(selected) && !loading
      ensures var action := ActionFor(selected, reply);
              && clientSecret == (if action.ShowEmbeddedCheckout? then Some(action.clientSecret) else old(clientSecret))
              && location == (if action.Redirect? then Some(action.href) else old(location))
    {
      provider := Some(selected);
      loading := true;
      var clientReferenceId := ClientReferenceId(now, random36);
      sent := RequestFor(selected, plan, clientReferenceId);
      match reply {
        case FetchThrew =>
        case FetchReturned(data) =>
          var action := Dispatch(selected, data);
          match action {
            case ShowEmbeddedCheckout(secret) => clientSecret := Some(secret);
            case Redirect(href) => location := Some(href);
            case NoAction =>
          }
      }
      loading := false;
    }
  }

  /** With the state's invariant, the embedded checkout is shown exactly
      when a client secret has been stored. */
  lemma CheckoutShownIffSecret(plan: Plan, clientSecret: Option<Json>, loading: bool)
    requires clientSecret.Some? ==> Truthy(clientSecret.value)
    ensures ModalView(true, Some(plan), clientSecret, loading).EmbeddedCheckout? <==> clientSecret.Some?
  {
  }
}
