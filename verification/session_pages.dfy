/**
 * The Pages create-session function (`onRequestPost` in
 * functions/api/create-payment-session.ts). The platform routes only POST to
 * it, so it has no method check of its own; `request.json()` throws on a
 * malformed body; the provider is called over `fetch`, and a non-ok answer
 * is thrown. The return urls use `FRONTEND_URL` or the placeholder Pages
 * domain.
 */
module PagesCheckout {
  import opened Common
  import opened Db
  import opened Http
  import Checkout
  import VercelCheckout

  const DefaultBase: string := "https://your-domain.pages.dev"

  function OnRequestPost(s: Store, body: Option<Checkout.SessionBody>, frontendUrl: Option<string>,
                         c: Checkout.Calls): (r: SessionOutcome)
    ensures body.None? ==> r == SessionOutcome(s, Response(500, Message(SessionFailed)), None)
    ensures r.response.status != 405
    ensures r == Checkout.Respond(s, body, OrElse(frontendUrl, DefaultBase), c)
    ensures r.response.status == 200 ==> c.provider.Created?
  {
    Checkout.Respond(s, body, OrElse(frontendUrl, DefaultBase), c)
  }

  /** On a POST with the same `FRONTEND_URL`, the Pages and Vercel functions answer alike. */
  lemma AgreesWithVercel(s: Store, body: Option<Checkout.SessionBody>, base: string, c: Checkout.Calls)
    requires base != ""
    ensures OnRequestPost(s, body, Some(base), c) == VercelCheckout.Handler(s, "POST", body, Some(base), c)
  {
  }
}
