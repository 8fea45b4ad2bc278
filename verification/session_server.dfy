/**
 * The Express create-session path: `createPaymentSession` in
 * src/server/stripe.ts, which throws 'Listing not found' instead of
 * answering, and `createPaymentSessionHandler` in
 * src/server/api/create-payment-session.ts, which turns every exception
 * into a 500. The return urls use `FRONTEND_URL` or the local dev server.
 */
module ServerCheckout {
  import opened Common
  import opened Db
  import opened Http
  import Checkout
  import VercelCheckout

  const DefaultBase: string := "http://localhost:5173"

  /** `createPaymentSession(listingId, userId)`: a missing listing is one more exception. */
  function CreatePaymentSession(s: Store, listingId: string, userId: string, frontendUrl: Option<string>,
                                c: Checkout.Calls): (r: Checkout.Attempt)
    ensures !r.result.NoListing?
    ensures var a := Checkout.Open(s, listingId, userId, OrElse(frontendUrl, DefaultBase), c);
            && (r.result.Started? <==> a.result.Started?)
            && r.store == a.store && r.sent == a.sent
            && (r.result.Started? ==> r.result == a.result)
  {
    var a := Checkout.Open(s, listingId, userId, OrElse(frontendUrl, DefaultBase), c);
    if a.result.NoListing? then a.(result := Checkout.Crashed) else a
  }

  function CreatePaymentSessionHandler(s: Store, body: Option<Checkout.SessionBody>, frontendUrl: Option<string>,
                                       c: Checkout.Calls): (r: SessionOutcome)
    ensures body.None? ==> r == SessionOutcome(s, Response(500, Message(SessionFailed)), None)
    ensures body.Some? && !(Truthy(body.value.listingId) && Truthy(body.value.userId)) ==>
      r == SessionOutcome(s, Response(400, Message(FieldsRequired)), None)
    ensures r.response.status in {200, 400, 500}
    ensures r.response.status == 200 ==> c.provider.Created? && r.response.body == SessionInfo(c.provider.id, c.provider.url)
    ensures r.store.listings == s.listings
  {
    if body.None? then
      SessionOutcome(s, Response(500, Message(SessionFailed)), None)
    else if !(Truthy(body.value.listingId) && Truthy(body.value.userId)) then
      SessionOutcome(s, Response(400, Message(FieldsRequired)), None)
    else
      var a := CreatePaymentSession(s, body.value.listingId.value, body.value.userId.value, frontendUrl, c);
      match a.result
      case Started(id, url) => SessionOutcome(a.store, Response(200, SessionInfo(id, url)), a.sent)
      case _ => SessionOutcome(a.store, Response(500, Message(SessionFailed)), a.sent)
  }

  /**
   * With the same `FRONTEND_URL`, the Express path answers as the Vercel
   * function does on a POST, except that a missing listing is a 500
   * instead of a 404; the store and the provider request are the same.
   */
  lemma {:induction false} AgreesWithVercel(s: Store, body: Option<Checkout.SessionBody>, base: string, c: Checkout.Calls)
    requires base != ""
    ensures var e := CreatePaymentSessionHandler(s, body, Some(base), c);
            var v := VercelCheckout.Handler(s, "POST", body, Some(base), c);
            && e.store == v.store && e.sent == v.sent
            && (v.response.status == 404 ==> e.response == Response(500, Message(SessionFailed)))
            && (v.response.status != 404 ==> e.response == v.response)
  {
    if body.Some? && Truthy(body.value.listingId) && Truthy(body.value.userId) {
      var a := Checkout.Open(s, body.value.listingId.value, body.value.userId.value, base, c);
      assert OrElse(Some(base), DefaultBase) == base;
      assert OrElse(Some(base), VercelCheckout.DefaultBase) == base;
      match a.result
      case NoListing =>
      case Crashed =>
      case Started(_, _) =>
    }
  }
}
