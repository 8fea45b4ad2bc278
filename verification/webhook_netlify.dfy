/**
 * The Netlify webhook function (`handler` in netlify/functions/webhook.ts):
 * as the Vercel one, but it also parses the raw body as JSON before
 * verifying the signature, and answers with an explicit 200.
 */
module NetlifyWebhook {
  import opened Common
  import opened Db
  import opened Stripe
  import opened Http
  import Reconcile
  import VercelWebhook

  /** `JSON.parse(event.body || '{}')` succeeds: an empty body parses as `{}`. */
  predicate BodyParses(req: WebhookRequest) {
    !Truthy(req.body) || req.bodyIsJson
  }

  function Handler(s: Store, req: WebhookRequest, first: Call, second: Call): (r: Outcome)
    ensures req.httpMethod != "POST" ==> r == Outcome(s, Response(405, Message(MethodNotAllowed)))
    ensures req.httpMethod == "POST" && !Truthy(req.signature) ==>
      r == Outcome(s, Response(400, Message(NoSignatureHeader)))
    ensures req.httpMethod == "POST" && Truthy(req.signature) && !BodyParses(req) ==>
      r == Outcome(s, Response(400, WebhookError))
    ensures req.verified.None? ==> r.store == s && r.response.status != 200
    ensures r.response.status in {200, 400, 405}
    ensures r.response.status == 200 <==>
      && req.httpMethod == "POST" && Truthy(req.signature) && BodyParses(req) && req.verified.Some?
      && !Reconcile.HandleEvent(s, req.verified.value, first, second).threw
    ensures r.response.status == 200 ==> r.response.body == Received
    ensures r.response.status == 200 ==> r.store == Reconcile.HandleEvent(s, req.verified.value, first, second).store
    ensures r.store.listings.Keys == s.listings.Keys && |r.store.payments| == |s.payments|
  {
    if req.httpMethod != "POST" then
      Outcome(s, Response(405, Message(MethodNotAllowed)))
    else if !Truthy(req.signature) then
      Outcome(s, Response(400, Message(NoSignatureHeader)))
    else if !BodyParses(req) then
      Outcome(s, Response(400, WebhookError))
    else if req.verified.None? then
      Outcome(s, Response(400, WebhookError))
    else
      var eff := Reconcile.HandleEvent(s, req.verified.value, first, second);
      if eff.threw then Outcome(eff.store, Response(400, WebhookError))
      else Outcome(eff.store, Response(200, Received))
  }

  /**
   * A delivery the Vercel function accepts can be refused here only
   * because its body is not JSON; otherwise both functions agree.
   */
  lemma AgreesWithVercel(s: Store, req: WebhookRequest, first: Call, second: Call)
    requires BodyParses(req)
    ensures Handler(s, req, first, second) == VercelWebhook.Handler(s, req, first, second)
  {
  }
}
