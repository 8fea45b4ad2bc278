/**
 * The Express route (`webhookHandler` in src/server/api/webhook.ts): no
 * method check of its own, a `stripe-signature` header, verification, then
 * `handleWebhook` from src/server/stripe.ts.
 */
module ExpressWebhook {
  import opened Common
  import opened Db
  import opened Stripe
  import opened Http
  import Reconcile

  function WebhookHandler(s: Store, req: WebhookRequest, first: Call, second: Call): (r: Outcome)
    ensures !Truthy(req.signature) ==> r == Outcome(s, Response(400, Message(NoSignatureHeader)))
    ensures Truthy(req.signature) && req.verified.None? ==> r == Outcome(s, Response(400, WebhookError))
    ensures r.response.status in {200, 400}
    ensures r.response.status == 200 <==>
      Truthy(req.signature) && req.verified.Some? && !Reconcile.HandleEvent(s, req.verified.value, first, second).threw
    ensures r.response.status == 200 ==> r.response.body == Received
    ensures req.verified.Some? && Truthy(req.signature) ==>
      r.store == Reconcile.HandleEvent(s, req.verified.value, first, second).store
  {
    if !Truthy(req.signature) then
      Outcome(s, Response(400, Message(NoSignatureHeader)))
    else if req.verified.None? then
      Outcome(s, Response(400, WebhookError))
    else
      var eff := Reconcile.HandleEvent(s, req.verified.value, first, second);
      if eff.threw then Outcome(eff.store, Response(400, WebhookError))
      else Outcome(eff.store, Response(200, Received))
  }

  /**
   * A 400 after a verified completion can still leave the listing marked
   * paid: when the payment-row write throws, the listing write before it
   * is not undone.
   */
  lemma PartialWriteOnThrow(s: Store, req: WebhookRequest)
    requires Truthy(req.signature) && req.verified.Some? && req.verified.value.CheckoutCompleted?
    requires var lid := req.verified.value.session.metadata.listingId;
             lid.Some? && lid.value in s.listings && !s.listings[lid.value].isPaid
    ensures var r := WebhookHandler(s, req, Ok, Threw);
            var lid := req.verified.value.session.metadata.listingId.value;
            r.response.status == 400 && r.store.listings[lid].isPaid && r.store != s
  {
    var lid := req.verified.value.session.metadata.listingId.value;
    var r := WebhookHandler(s, req, Ok, Threw);
    assert r.store.listings[lid] != s.listings[lid];
  }
}
