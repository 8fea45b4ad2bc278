/**
 * The Vercel create-session function (`handler` in
 * api/create-payment-session.ts): POST only; the return urls are built on
 * `FRONTEND_URL`, or on the placeholder Vercel domain when it is unset.
 */
module VercelCheckout {
  import opened Common
  import opened Db
  import opened Http
  import Checkout

  const DefaultBase: string := "https://your-domain.vercel.app"

  function Handler(s: Store, httpMethod: string, body: Option<Checkout.SessionBody>, frontendUrl: Option<string>,
                   c: Checkout.Calls): (r: SessionOutcome)
    ensures httpMethod != "POST" ==> r == SessionOutcome(s, Response(405, Message(MethodNotAllowed)), None)
    ensures httpMethod == "POST" ==> r == Checkout.Respond(s, body, OrElse(frontendUrl, DefaultBase), c)
    ensures r.sent.Some? && Truthy(frontendUrl) ==>
      Checkout.ReturnedListing(frontendUrl.value, r.sent.value.successUrl) == body.value.listingId
    ensures r.sent.Some? && !Truthy(frontendUrl) ==>
      Checkout.ReturnedListing(DefaultBase, r.sent.value.successUrl) == body.value.listingId
    ensures r.store.listings == s.listings
  {
    if httpMethod != "POST" then
      SessionOutcome(s, Response(405, Message(MethodNotAllowed)), None)
    else
      Checkout.Respond(s, body, OrElse(frontendUrl, DefaultBase), c)
  }
}
