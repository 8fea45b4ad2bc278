/**
 * The hosted-function webhook (`serve` in supabase/functions/stripe-webhook/
 * index.ts). Unlike the other webhook variants it publishes the listing
 * with a plan-dependent expiry, filters that update by owner as well as id,
 * inserts a new payment row instead of updating pending ones, handles
 * `payment_intent.payment_failed`, and ignores `checkout.session.expired`.
 */
module SupabaseWebhook {
  import opened Common
  import opened Db
  import opened Stripe
  import opened Http

  const NoSignature: string := "No signature"
  const UpdateFailed: string := "Error updating listing"

  /** Expiry of a listing paid for with `plan`, starting at `now`. */
  function PlanExpiry(plan: string, now: int): (t: int)
    ensures plan == "basic" ==> t == now + 30 * DayMs
    ensures plan == "premium" ==> t == now + YearMs
    ensures plan != "basic" && plan != "premium" ==> t == now
  {
    if plan == "basic" then AddDays(now, 30)
    else if plan == "premium" then AddYears(now, 1)
    else now
  }

  /** The metadata check of the completed branch: all three fields truthy. */
  predicate FullMetadata(m: Metadata) {
    Truthy(m.listingId) && Truthy(m.userId) && Truthy(m.plan)
  }

  /**
   * `update({ status: 'published', is_paid: true, expires_at, payment_status:
   * 'paid', stripe_session_id }).eq('id', listingId).eq('user_id', userId)`.
   * Only a listing with that id AND that owner changes, and only in its
   * lifecycle columns.
   */
  function PublishPaid(s: Store, listingId: string, userId: string, sid: string, plan: string, now: int): (r: Store)
    ensures !(listingId in s.listings && s.listings[listingId].userId == userId) ==> r == s
    ensures listingId in s.listings && s.listings[listingId].userId == userId ==>
      && OnlyListingChanged(s, r, listingId)
      && var l, l' := s.listings[listingId], r.listings[listingId];
         && l'.status == Published && l'.isPaid
         && l'.expiresAt == PlanExpiry(plan, now)
         && l'.paymentStatus == Some("paid") && l'.stripeSessionId == Some(sid)
         && SameContent(l, l')
         && l'.paymentSessionId == l.paymentSessionId && l'.planType == l.planType
    ensures WellKeyed(s) ==> WellKeyed(r)
  {
    if listingId in s.listings && s.listings[listingId].userId == userId then
      var l := s.listings[listingId];
      PutListing(s, listingId, l.(status := Published, isPaid := true, expiresAt := PlanExpiry(plan, now),
                                  paymentStatus := Some("paid"), stripeSessionId := Some(sid)))
    else
      s
  }

  /** The `listing_payments` row the completed branch inserts. */
  function CompletedRow(session: Session, listingId: string, userId: string, plan: string): (p: Payment)
    ensures p.status == PaymentCompleted && p.plan == Some(plan) && p.sessionId == session.id
    ensures p.listingId == listingId && p.userId == userId
    ensures p.amount == AmountFromTotal(session.amountTotal)
    ensures p.currency == Some(OrElse(session.currency, "brl"))
  {
    Payment(listingId, userId, session.id, AmountFromTotal(session.amountTotal), PaymentCompleted,
            Some(OrElse(session.currency, "brl")), Some(plan))
  }

  /**
   * `update({ status: 'draft', payment_status: 'failed' }).eq('id', listingId)`:
   * filtered by id only, whoever owns the listing.
   */
  function MarkFailed(s: Store, listingId: string): (r: Store)
    ensures listingId !in s.listings ==> r == s
    ensures listingId in s.listings ==>
      && OnlyListingChanged(s, r, listingId)
      && r.listings[listingId].status == Draft
      && r.listings[listingId].paymentStatus == Some("failed")
      && r.listings[listingId].(status := Draft, paymentStatus := None)
         == s.listings[listingId].(status := Draft, paymentStatus := None)
    ensures WellKeyed(s) ==> WellKeyed(r)
  {
    if listingId in s.listings then
      PutListing(s, listingId, s.listings[listingId].(status := Draft, paymentStatus := Some("failed")))
    else
      s
  }

  /**
   * The completed branch with full metadata. `update` is the outcome of the
   * listing update (an error object is answered with 500); `insert` that of
   * the payment insert (its error object is ignored).
   */
  function Completed(s: Store, session: Session, now: int, update: Call, insert: Call): (r: Outcome)
    requires FullMetadata(session.metadata)
    ensures update == Failed ==> r == Outcome(s, Response(500, Message(UpdateFailed)))
    ensures update == Threw ==> r == Outcome(s, Response(400, WebhookError))
    ensures update == Ok && insert != Threw ==> r.response == Response(200, Received)
    ensures update == Ok ==>
      var m := session.metadata;
      r.store.listings == PublishPaid(s, m.listingId.value, m.userId.value, session.id, m.plan.value, now).listings
    ensures update == Ok && insert == Ok ==>
      var m := session.metadata;
      r.store.payments == s.payments + [CompletedRow(session, m.listingId.value, m.userId.value, m.plan.value)]
    ensures update != Ok ==> r.store.payments == s.payments
    ensures insert != Ok ==> r.store.payments == s.payments
  {
    var m := session.metadata;
    match update
    case Threw => Outcome(s, Response(400, WebhookError))
    case Failed => Outcome(s, Response(500, Message(UpdateFailed)))
    case Ok =>
      var s1 := PublishPaid(s, m.listingId.value, m.userId.value, session.id, m.plan.value, now);
      if insert == Threw then
        Outcome(s1, Response(400, WebhookError))
      else if insert == Ok then
        var row := CompletedRow(session, m.listingId.value, m.userId.value, m.plan.value);
        Outcome(s1.(payments := s1.payments + [row]), Response(200, Received))
      else
        Outcome(s1, Response(200, Received))
  }

  /**
   * One delivery. `first` is the outcome of the listing update, `second`
   * that of the payment insert (unused by the other branches).
   */
  function Serve(s: Store, req: WebhookRequest, now: int, first: Call, second: Call): (r: Outcome)
    ensures !Truthy(req.signature) ==> r == Outcome(s, Response(400, Message(NoSignature)))
    ensures req.verified.None? ==> r.store == s && r.response.status == 400
    ensures r.response.status in {200, 400, 500}
    ensures r.response.status == 500 ==> r.store == s
    ensures r.response.status == 200 ==> r.response.body == Received
    ensures r.store.listings.Keys == s.listings.Keys
    ensures r.store.images == s.images && r.store.users == s.users
    ensures |s.payments| <= |r.store.payments| <= |s.payments| + 1
    ensures r.store.payments[..|s.payments|] == s.payments
    ensures |r.store.payments| == |s.payments| + 1 ==>
      && Truthy(req.signature) && req.verified.Some? && req.verified.value.CheckoutCompleted?
      && FullMetadata(req.verified.value.session.metadata) && first == Ok
      && r.store.payments[|s.payments|].status == PaymentCompleted
      && r.store.payments[|s.payments|].plan == req.verified.value.session.metadata.plan
    ensures Truthy(req.signature) && req.verified.Some? && req.verified.value.CheckoutCompleted?
            && !FullMetadata(req.verified.value.session.metadata) ==>
      r == Outcome(s, Response(200, Received))
    ensures Truthy(req.signature) && req.verified.Some? && (req.verified.value.CheckoutExpired? || req.verified.value.Unhandled?) ==>
      r == Outcome(s, Response(200, Received))
    ensures Truthy(req.signature) && req.verified.Some? && req.verified.value.PaymentFailed? && first == Ok
            && Truthy(req.verified.value.intentMetadata.listingId) ==>
      r == Outcome(MarkFailed(s, req.verified.value.intentMetadata.listingId.value), Response(200, Received))
    ensures WellKeyed(s) ==> WellKeyed(r.store)
  {
    if !Truthy(req.signature) then
      Outcome(s, Response(400, Message(NoSignature)))
    else if req.verified.None? then
      Outcome(s, Response(400, WebhookError))
    else
      match req.verified.value
      case CheckoutCompleted(session) =>
        if FullMetadata(session.metadata) then Completed(s, session, now, first, second)
        else Outcome(s, Response(200, Received))
      case PaymentFailed(m) =>
        if !Truthy(m.listingId) then Outcome(s, Response(200, Received))
        else if first == Threw then Outcome(s, Response(400, WebhookError))
        else if first == Ok then Outcome(MarkFailed(s, m.listingId.value), Response(200, Received))
        else Outcome(s, Response(200, Received))
      case _ =>
        Outcome(s, Response(200, Received))
  }

  /**
   * A second delivery of the same completed checkout leaves every listing
   * as the first left it, but inserts a second, identical payment row.
   */
  lemma {:induction false} RedeliveryDuplicatesPayment(s: Store, req: WebhookRequest, now: int)
    requires Truthy(req.signature) && req.verified.Some? && req.verified.value.CheckoutCompleted?
    requires FullMetadata(req.verified.value.session.metadata)
    ensures var once := Serve(s, req, now, Ok, Ok).store;
            var twice := Serve(once, req, now, Ok, Ok).store;
            && twice.listings == once.listings
            && |twice.payments| == |s.payments| + 2
            && twice.payments[|s.payments|] == twice.payments[|s.payments| + 1]
  {
    var session := req.verified.value.session;
    var m := session.metadata;
    var once := Serve(s, req, now, Ok, Ok).store;
    var p1 := PublishPaid(s, m.listingId.value, m.userId.value, session.id, m.plan.value, now);
    var p2 := PublishPaid(once, m.listingId.value, m.userId.value, session.id, m.plan.value, now);
    assert once.listings == p1.listings;
    assert p2.listings == p1.listings by {
      var lid := m.listingId.value;
      if lid in s.listings && s.listings[lid].userId == m.userId.value {
        assert once.listings[lid].userId == m.userId.value;
        assert p2.listings[lid] == p1.listings[lid];
      }
    }
  }

  /** A basic-plan completion for the owner's listing publishes it, paid, for exactly thirty days. */
  lemma BasicPlanThirtyDays(s: Store, req: WebhookRequest, now: int)
    requires Truthy(req.signature) && req.verified.Some? && req.verified.value.CheckoutCompleted?
    requires var m := req.verified.value.session.metadata;
             FullMetadata(m) && m.plan.value == "basic"
             && m.listingId.value in s.listings && s.listings[m.listingId.value].userId == m.userId.value
    ensures var r := Serve(s, req, now, Ok, Ok);
            var l := r.store.listings[req.verified.value.session.metadata.listingId.value];
            l.isPaid && l.status == Published && l.expiresAt == now + 30 * DayMs
  {
  }
}
