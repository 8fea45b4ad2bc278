/**
 * The checkout provider as the handlers see it: the events its webhook
 * delivers, the parameters of a checkout-session request, and the result of
 * creating a session. Signature verification and session creation are
 * external; their results arrive as inputs.
 */
module Stripe {
  import opened Common

  /** `metadata` attached to a checkout session or payment intent. */
  datatype Metadata = Metadata(listingId: Option<string>, userId: Option<string>, plan: Option<string>)

  /** The fields of a checkout session the handlers read. */
  datatype Session = Session(
    id: string,
    metadata: Metadata,
    amountTotal: Option<int>,
    currency: Option<string>)

  /** A verified webhook event, dispatched on its `type`. */
  datatype Event =
    | CheckoutCompleted(session: Session)      // 'checkout.session.completed'
    | CheckoutExpired(session: Session)        // 'checkout.session.expired'
    | PaymentFailed(intentMetadata: Metadata)  // 'payment_intent.payment_failed'
    | Unhandled(kind: string)                  // any other type

  /**
   * A webhook delivery. `verified` is what `webhooks.constructEvent(body,
   * signature, secret)` yields: the event when the signature checks out,
   * `None` when it throws. `bodyIsJson` says whether the raw body text is a
   * JSON document.
   */
  datatype WebhookRequest = WebhookRequest(
    httpMethod: string,
    signature: Option<string>,
    body: Option<string>,
    bodyIsJson: bool,
    verified: Option<Event>)

  /** The single line item of a checkout session. */
  datatype LineItem =
    | PriceData(name: string, description: string, unitAmount: int)  // ad-hoc price in cents
    | PriceRef(priceId: string)                                       // a configured price id

  /** What a handler asks the provider for. */
  datatype SessionParams = SessionParams(
    item: LineItem,
    successUrl: string,
    cancelUrl: string,
    metadata: Metadata)

  /** The provider's answer to `checkout.sessions.create`. */
  datatype Provider = Created(id: string, url: string) | ProviderFailed

  /**
   * `session.amount_total ? session.amount_total / 100 : 0`: the amount in
   * currency units, zero when the total is missing or zero.
   */
  function AmountFromTotal(total: Option<int>): (r: real)
    ensures total.None? || total.value == 0 ==> r == 0.0
    ensures total.Some? ==> r * 100.0 == total.value as real
  {
    if total.Some? && total.value != 0 then total.value as real / 100.0 else 0.0
  }

  /** `Math.round(price * 100)`: a price in cents, at most half a cent off. */
  function UnitAmount(price: real): (cents: int)
    ensures price * 100.0 - 0.5 < cents as real <= price * 100.0 + 0.5
  {
    Round(price * 100.0)
  }
}
