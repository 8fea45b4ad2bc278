/**
 * The payment page (src/pages/Payment.tsx): it loads the signed-in user's
 * own listing, asks the create-session endpoint for a checkout, or
 * publishes the listing for free for one day.
 */
module PaymentPage {
  import opened Common
  import opened Db
  import opened Http
  import Checkout
  import VercelCheckout

  /** `config.stripe.premiumAmount`: 990 cents. */
  const PremiumAmount: int := 990

  /** Where the page ends up after loading. */
  datatype Load = Shown(listing: Listing) | Redirect(path: string)

  /**
   * The effect hook and `fetchListing`: no user sends the visitor to the
   * login page; otherwise the listing is loaded only if it has this id and
   * this owner, and any error sends the user to their listings.
   */
  function FetchListing(s: Store, listingId: string, user: Option<string>, query: Call): (r: Load)
    ensures user.None? ==> r == Redirect("/login")
    ensures r.Shown? <==> query == Ok && OwnedListing(s, listingId, user).Some?
    ensures r.Shown? ==> listingId in s.listings && r.listing == s.listings[listingId]
                         && r.listing.userId == user.value
    ensures user.Some? && !r.Shown? ==> r == Redirect("/meus-anuncios")
  {
    if user.None? then Redirect("/login")
    else
      match query
      case Ok =>
        var found := OwnedListing(s, listingId, user);
        if found.Some? then Shown(found.value) else Redirect("/meus-anuncios")
      case _ => Redirect("/meus-anuncios")
  }

  /** The JSON body `handlePayment` posts. */
  datatype PaymentRequest = PaymentRequest(listingId: string, userId: string, amount: int, title: string, priceId: string)

  /** What `handlePayment` ends in. */
  datatype PaymentResult =
    | NothingToDo                                       // no listing or no user
    | ErrorToast(request: PaymentRequest)               // non-ok answer, or the redirect failed
    | ToCheckout(request: PaymentRequest, sessionId: string)

  /**
   * `handlePayment`. `answer` is the session id of an ok response (`None`
   * for a non-ok one); `redirected` says whether the provider's redirect
   * started without an error.
   */
  function HandlePayment(listing: Option<Listing>, user: Option<string>, premiumPriceId: string,
                         answer: Option<string>, redirected: bool): (r: PaymentResult)
    ensures r.NothingToDo? <==> listing.None? || user.None?
    ensures !r.NothingToDo? ==>
      r.request == PaymentRequest(listing.value.id, user.value, PremiumAmount, listing.value.title, premiumPriceId)
    ensures r.ToCheckout? <==> listing.Some? && user.Some? && answer.Some? && redirected
    ensures r.ToCheckout? ==> r.sessionId == answer.value
  {
    if listing.None? || user.None? then NothingToDo
    else
      var req := PaymentRequest(listing.value.id, user.value, PremiumAmount, listing.value.title, premiumPriceId);
      if answer.Some? && redirected then ToCheckout(req, answer.value) else ErrorToast(req)
  }

  /** The fields of the posted body a create-session handler reads: the amount and price id are dropped. */
  function AsSessionBody(req: PaymentRequest): (b: Checkout.SessionBody)
    ensures b.listingId == Some(req.listingId) && b.userId == Some(req.userId) && b.plan.None?
  {
    Checkout.SessionBody(Some(req.listingId), Some(req.userId), None)
  }

  /**
   * The amount the page posts is not what is charged: the Vercel handler
   * prices the session from the stored listing's own price.
   */
  lemma ChargedFromStoredPrice(s: Store, req: PaymentRequest, base: string, c: Checkout.Calls)
    requires req.listingId != "" && req.userId != "" && base != ""
    requires req.listingId in s.listings && c.lookup == Ok
    ensures var r := VercelCheckout.Handler(s, "POST", Some(AsSessionBody(req)), Some(base), c);
            r.sent.Some? && r.sent.value.item.unitAmount == Stripe.UnitAmount(s.listings[req.listingId].price)
  {
  }

  /** The result of `handleSkipPayment`: the new store, and whether the page moves on to the user's listings. */
  datatype Skip = Skip(store: Store, navigated: bool)

  /**
   * `handleSkipPayment`: publish the shown listing, unpaid, for one day from
   * `now`. The update is filtered by id only, and no quota is consulted.
   */
  function SkipPayment(s: Store, listing: Option<Listing>, now: int, update: Call): (r: Skip)
    ensures listing.None? ==> r == Skip(s, false)
    ensures r.navigated <==> listing.Some? && update == Ok
    ensures r.navigated && listing.value.id in s.listings ==>
      var id := listing.value.id;
      && OnlyListingChanged(s, r.store, id)
      && r.store.listings[id].status == Published && !r.store.listings[id].isPaid
      && r.store.listings[id].expiresAt == now + DayMs
      && SameContent(s.listings[id], r.store.listings[id])
      && r.store.listings[id].paymentStatus == s.listings[id].paymentStatus
    ensures !(r.navigated && listing.value.id in s.listings) ==> r.store == s
  {
    if listing.None? then Skip(s, false)
    else
      match update
      case Ok =>
        var id := listing.value.id;
        if id in s.listings then
          var l := s.listings[id];
          Skip(PutListing(s, id, l.(status := Published, expiresAt := AddDays(now, 1), isPaid := false)), true)
        else
          Skip(s, true)
      case _ => Skip(s, false)
  }

  /**
   * Skipping payment on one of the user's listings that was not yet a free
   * publication adds one to their free count, however high it already is:
   * the page itself never checks the quota of five.
   */
  lemma {:induction false} SkipRaisesFreeCount(s: Store, listing: Listing, now: int)
    requires listing.id in s.listings
    requires !IsFreePublished(s.listings[listing.id], s.listings[listing.id].userId)
    ensures var user := s.listings[listing.id].userId;
            FreeCount(SkipPayment(s, Some(listing), now, Ok).store, user) == FreeCount(s, user) + 1
  {
    var id := listing.id;
    var l := s.listings[id];
    var l' := l.(status := Published, expiresAt := AddDays(now, 1), isPaid := false);
    FreeCountAfterFreePublish(s, id, l', l.userId);
  }
}
