/**
 * The Netlify create-session function (`handler` in
 * netlify/functions/create-payment-session.ts). It parses
 * `event.body || '{}'`, so a missing body reads as an object with no fields
 * (400), while a body that is not JSON throws (500). The return urls are
 * built on the site `URL`, or on the placeholder Netlify domain.
 */
module NetlifyCheckout {
  import opened Common
  import opened Db
  import opened Http
  import Checkout
  import VercelCheckout

  const DefaultBase: string := "https://your-domain.netlify.app"

  /** The object `JSON.parse(event.body || '{}')` yields; `parsed` is the parse of a present body. */
  function ParsedBody(rawBody: Option<string>, parsed: Option<Checkout.SessionBody>): (b: Option<Checkout.SessionBody>)
    ensures !Truthy(rawBody) ==> b == Some(Checkout.SessionBody(None, None, None))
    ensures Truthy(rawBody) ==> b == parsed
  {
    if Truthy(rawBody) then parsed else Some(Checkout.SessionBody(None, None, None))
  }

  function Handler(s: Store, httpMethod: string, rawBody: Option<string>, parsed: Option<Checkout.SessionBody>,
                   siteUrl: Option<string>, c: Checkout.Calls): (r: SessionOutcome)
    ensures httpMethod != "POST" ==> r == SessionOutcome(s, Response(405, Message(MethodNotAllowed)), None)
    ensures httpMethod == "POST" && !Truthy(rawBody) ==> r == SessionOutcome(s, Response(400, Message(FieldsRequired)), None)
    ensures httpMethod == "POST" && Truthy(rawBody) && parsed.None? ==>
      r == SessionOutcome(s, Response(500, Message(SessionFailed)), None)
    ensures httpMethod == "POST" ==> r == Checkout.Respond(s, ParsedBody(rawBody, parsed), OrElse(siteUrl, DefaultBase), c)
    ensures r.store.listings == s.listings
  {
    if httpMethod != "POST" then
      SessionOutcome(s, Response(405, Message(MethodNotAllowed)), None)
    else
      Checkout.Respond(s, ParsedBody(rawBody, parsed), OrElse(siteUrl, DefaultBase), c)
  }

  /** With a body present and the same base url configured, Netlify and Vercel answer alike. */
  lemma AgreesWithVercel(s: Store, httpMethod: string, rawBody: string, parsed: Option<Checkout.SessionBody>,
                         base: string, c: Checkout.Calls)
    requires rawBody != "" && base != ""
    ensures Handler(s, httpMethod, Some(rawBody), parsed, Some(base), c)
         == VercelCheckout.Handler(s, httpMethod, parsed, Some(base), c)
  {
  }
}
