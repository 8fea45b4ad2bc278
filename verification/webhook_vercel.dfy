/**
 * The Vercel webhook function (`handler` in api/webhook.ts): POST only, a
 * `stripe-signature` header, signature verification, then `handleWebhook`.
 */
module VercelWebhook {
  import opened Common
  import opened Db
  import opened Stripe
  import opened Http
  import Reconcile

  function Handler(s: Store, req: WebhookRequest, first: Call, second: Call): (r: Outcome)
    ensures req.httpMethod != "POST" ==> r == Outcome(s, Response(405, Message(MethodNotAllowed)))
    ensures req.httpMethod == "POST" && !Truthy(req.signature) ==>
      r == Outcome(s, Response(400, Message(NoSignatureHeader)))
    ensures req.verified.None? ==> r.store == s && r.response.status != 200
    ensures r.response.status in {200, 400, 405}
    ensures r.response.status == 200 <==>
      && req.httpMethod == "POST" && Truthy(req.signature) && req.verified.Some?
      && !Reconcile.HandleEvent(s, req.verified.value, first, second).threw
    ensures r.response.status == 200 ==> r.response.body == Received
    ensures r.response.status == 200 ==> r.store == Reconcile.HandleEvent(s, req.verified.value, first, second).store
    ensures r.store.listings.Keys == s.listings.Keys && |r.store.payments| == |s.payments|
  {
    if req.httpMethod != "POST" then
      Outcome(s, Response(405, Message(MethodNotAllowed)))
    else if !Truthy(req.signature) then
      Outcome(s, Response(400, Message(NoSignatureHeader)))
    else if req.verified.None? then
      Outcome(s, Response(400, WebhookError))
    else
      var eff := Reconcile.HandleEvent(s, req.verified.value, first, second);
      if eff.threw then Outcome(eff.store, Response(400, WebhookError))
      else Outcome(eff.store, Response(200, Received))
  }

  /** Delivering the same completed checkout twice leaves the store as delivering it once. */
  lemma RedeliveryIdempotent(s: Store, req: WebhookRequest)
    requires req.verified.Some? && req.verified.value.CheckoutCompleted?
    ensures var once := Handler(s, req, Ok, Ok);
            Handler(once.store, req, Ok, Ok) == once
  {
    Reconcile.CompletedIdempotent(s, req.verified.value.session);
  }
}
