/**
 * Opening a checkout for one listing, the part the Vercel, Netlify and
 * Pages `create-payment-session` functions and `createPaymentSession` in
 * src/server/stripe.ts share: look the listing up by id alone, ask the
 * provider for a one-item session priced at the listing's price, record a
 * `pending` payment row for that session, and hand back its id and url.
 */
module Checkout {
  import opened Common
  import opened Db
  import opened Stripe
  import opened Http

  /** The JSON body of a create-session request; `None` when it does not parse. */
  datatype SessionBody = SessionBody(listingId: Option<string>, userId: Option<string>, plan: Option<string>)

  /** The three external steps of opening a checkout, in order. */
  datatype Calls = Calls(lookup: Call, provider: Provider, insert: Call)

  /** How an attempt to open a checkout ended. */
  datatype Opened =
    | NoListing                       // lookup error or no such row
    | Crashed                         // an exception escaped
    | Started(id: string, url: string)

  /** The store after the attempt, its result, and what was sent to the provider. */
  datatype Attempt = Attempt(store: Store, result: Opened, sent: Option<SessionParams>)

  const ListingPath: string := "/anuncio/"
  const SuccessQuery: string := "?success=true"
  const CancelQuery: string := "?canceled=true"

  /** `${base}/anuncio/${listingId}?success=true`. */
  function SuccessUrl(base: string, listingId: string): (u: string)
    ensures |u| == |base| + |ListingPath| + |listingId| + |SuccessQuery|
    ensures u[..|base|] == base && u[|u| - |SuccessQuery|..] == SuccessQuery
  {
    base + ListingPath + listingId + SuccessQuery
  }

  /** `${base}/anuncio/${listingId}?canceled=true`. */
  function CancelUrl(base: string, listingId: string): (u: string)
    ensures |u| == |base| + |ListingPath| + |listingId| + |CancelQuery|
    ensures u[..|base|] == base && u[|u| - |CancelQuery|..] == CancelQuery
  {
    base + ListingPath + listingId + CancelQuery
  }

  /**
   * The listing a success url returns to: the text between
   * `${base}/anuncio/` and `?success=true`, if the url has that shape.
   */
  function ReturnedListing(base: string, url: string): (r: Option<string>)
    ensures r.Some? ==> SuccessUrl(base, r.value) == url
  {
    var head := base + ListingPath;
    if |url| >= |head| + |SuccessQuery| && url[..|head|] == head && url[|url| - |SuccessQuery|..] == SuccessQuery then
      var id := url[|head|..|url| - |SuccessQuery|];
      assert url == url[..|head|] + id + url[|url| - |SuccessQuery|..];
      Some(id)
    else
      None
  }

  /** The listing id is recoverable from the success url built for it. */
  lemma {:induction false} ReturnedListingOfSuccessUrl(base: string, listingId: string)
    ensures ReturnedListing(base, SuccessUrl(base, listingId)) == Some(listingId)
  {
    var u := SuccessUrl(base, listingId);
    var head := base + ListingPath;
    assert u == head + listingId + SuccessQuery;
    assert u[..|head|] == head;
    assert u[|u| - |SuccessQuery|..] == SuccessQuery;
    assert u[|head|..|u| - |SuccessQuery|] == listingId;
  }

  /** Different listings get different success urls on the same base. */
  lemma SuccessUrlInjective(base: string, a: string, b: string)
    requires SuccessUrl(base, a) == SuccessUrl(base, b)
    ensures a == b
  {
    ReturnedListingOfSuccessUrl(base, a);
    ReturnedListingOfSuccessUrl(base, b);
  }

  /** The session request for `listing`: one ad-hoc item in cents, owner ids in the metadata, no plan. */
  function ListingParams(l: Listing, base: string, listingId: string, userId: string): (p: SessionParams)
    ensures p.item.PriceData? && p.item.name == l.title && p.item.description == l.description
    ensures p.item.unitAmount == UnitAmount(l.price)
    ensures ReturnedListing(base, p.successUrl) == Some(listingId)
    ensures p.cancelUrl == CancelUrl(base, listingId)
    ensures p.metadata == Metadata(Some(listingId), Some(userId), None)
  {
    ReturnedListingOfSuccessUrl(base, listingId);
    SessionParams(PriceData(l.title, l.description, UnitAmount(l.price)),
                  SuccessUrl(base, listingId), CancelUrl(base, listingId),
                  Metadata(Some(listingId), Some(userId), None))
  }

  /** The `listing_payments` row recorded for a new session. */
  function PendingRow(listingId: string, userId: string, sessionId: string, price: real): (p: Payment)
    ensures p.status == PaymentPending && p.sessionId == sessionId && p.amount == price
    ensures p.listingId == listingId && p.userId == userId && p.plan.None? && p.currency.None?
  {
    Payment(listingId, userId, sessionId, price, PaymentPending, None, None)
  }

  /**
   * One attempt. The lookup `.eq('id', listingId).single()` ignores the
   * owner; an error object from the payment insert is ignored; anything
   * that throws (the lookup, the provider, the insert) ends in `Crashed`.
   */
  function Open(s: Store, listingId: string, userId: string, base: string, c: Calls): (r: Attempt)
    ensures r.result.NoListing? <==> c.lookup == Failed || (c.lookup == Ok && listingId !in s.listings)
    ensures r.result.Started? <==>
      c.lookup == Ok && listingId in s.listings && c.provider.Created? && c.insert != Threw
    ensures r.sent.Some? <==> c.lookup == Ok && listingId in s.listings
    ensures r.sent.Some? ==> r.sent.value == ListingParams(s.listings[listingId], base, listingId, userId)
    ensures r.result.Started? ==> r.result.id == c.provider.id && r.result.url == c.provider.url
    ensures r.store.listings == s.listings && r.store.images == s.images && r.store.users == s.users
    ensures r.result.Started? && c.insert == Ok ==>
      r.store.payments == s.payments + [PendingRow(listingId, userId, c.provider.id, s.listings[listingId].price)]
    ensures !(r.result.Started? && c.insert == Ok) ==> r.store.payments == s.payments
  {
    match c.lookup
    case Threw => Attempt(s, Crashed, None)
    case Failed => Attempt(s, NoListing, None)
    case Ok =>
      if listingId !in s.listings then
        Attempt(s, NoListing, None)
      else
        var l := s.listings[listingId];
        var params := ListingParams(l, base, listingId, userId);
        match c.provider
        case ProviderFailed => Attempt(s, Crashed, Some(params))
        case Created(id, url) =>
          match c.insert
          case Threw => Attempt(s, Crashed, Some(params))
          case Failed => Attempt(s, Started(id, url), Some(params))
          case Ok =>
            Attempt(s.(payments := s.payments + [PendingRow(listingId, userId, id, l.price)]), Started(id, url), Some(params))
  }

  /**
   * The shared body of the Vercel, Netlify and Pages handlers once the
   * method is accepted: an unparsable body is an exception (500), a missing
   * id is 400, a missing listing 404, any later exception 500, and success
   * answers `{ sessionId, url }`.
   */
  function Respond(s: Store, body: Option<SessionBody>, base: string, c: Calls): (r: SessionOutcome)
    ensures body.None? ==> r == SessionOutcome(s, Response(500, Message(SessionFailed)), None)
    ensures body.Some? && !(Truthy(body.value.listingId) && Truthy(body.value.userId)) ==>
      r == SessionOutcome(s, Response(400, Message(FieldsRequired)), None)
    ensures r.response.status in {200, 400, 404, 500}
    ensures r.response.status == 200 <==>
      && body.Some? && Truthy(body.value.listingId) && Truthy(body.value.userId)
      && Open(s, body.value.listingId.value, body.value.userId.value, base, c).result.Started?
    ensures r.response.status == 200 ==> r.response.body == SessionInfo(c.provider.id, c.provider.url)
    ensures r.response.status == 404 ==> r.response.body == Message(ListingNotFound) && r.store == s && r.sent.None?
    ensures r.store.listings == s.listings && r.store.images == s.images && r.store.users == s.users
    ensures r.store.payments != s.payments ==>
      r.response.status == 200 && c.insert == Ok
      && r.store.payments == s.payments + [PendingRow(body.value.listingId.value, body.value.userId.value,
                                                      c.provider.id, s.listings[body.value.listingId.value].price)]
    ensures r.sent.Some? ==> ReturnedListing(base, r.sent.value.successUrl) == body.value.listingId
  {
    if body.None? then
      SessionOutcome(s, Response(500, Message(SessionFailed)), None)
    else if !(Truthy(body.value.listingId) && Truthy(body.value.userId)) then
      SessionOutcome(s, Response(400, Message(FieldsRequired)), None)
    else
      var a := Open(s, body.value.listingId.value, body.value.userId.value, base, c);
      match a.result
      case NoListing => SessionOutcome(a.store, Response(404, Message(ListingNotFound)), a.sent)
      case Crashed => SessionOutcome(a.store, Response(500, Message(SessionFailed)), a.sent)
      case Started(id, url) => SessionOutcome(a.store, Response(200, SessionInfo(id, url)), a.sent)
  }

  /**
   * The checkout does not check ownership: any signed-in caller who names
   * someone else's listing gets a session for it, with their own id in the
   * metadata.
   */
  lemma OpenIgnoresOwner(s: Store, listingId: string, userId: string, base: string, c: Calls)
    requires listingId in s.listings && s.listings[listingId].userId != userId
    requires c.lookup == Ok && c.provider.Created? && c.insert == Ok
    ensures var a := Open(s, listingId, userId, base, c);
            a.result.Started? && a.sent.Some? && a.sent.value.metadata.userId == Some(userId)
  {
  }
}
