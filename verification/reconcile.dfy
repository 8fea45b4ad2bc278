/**
 * `handleWebhook(event)`, the reconciliation step that api/webhook.ts,
 * netlify/functions/webhook.ts and src/server/stripe.ts each define with the
 * same body: a completed checkout marks the listing paid and the session's
 * payment rows completed; an expired checkout marks the session's payment
 * rows expired; every other event type is only logged. Client errors
 * returned by the two writes are ignored; an exception is rethrown to the
 * caller, after whatever the earlier write already did.
 */
module Reconcile {
  import opened Common
  import opened Db
  import opened Stripe

  /** The store after `handleWebhook`, and whether it threw. */
  datatype Effect = Effect(store: Store, threw: bool)

  /**
   * `update({ is_paid: true }).eq('id', session.metadata?.listingId)`: only
   * the `is_paid` column of that one listing changes; a missing id matches
   * no row.
   */
  function MarkPaid(s: Store, listingId: Option<string>): (r: Store)
    ensures listingId.None? || listingId.value !in s.listings ==> r == s
    ensures listingId.Some? && listingId.value in s.listings ==>
      && OnlyListingChanged(s, r, listingId.value)
      && r.listings[listingId.value].isPaid
      && r.listings[listingId.value].(isPaid := false) == s.listings[listingId.value].(isPaid := false)
    ensures WellKeyed(s) ==> WellKeyed(r)
  {
    if listingId.Some? && listingId.value in s.listings then
      PutListing(s, listingId.value, s.listings[listingId.value].(isPaid := true))
    else
      s
  }

  /** Rewrites the status of every payment row of session `sid`. */
  function SetSessionStatus(s: Store, sid: string, status: string): (r: Store)
    ensures r.listings == s.listings && r.images == s.images && r.users == s.users
    ensures r.payments == SetPaymentStatus(s.payments, sid, status)
  {
    s.(payments := SetPaymentStatus(s.payments, sid, status))
  }

  /**
   * The effect of one event. `first` and `second` are the outcomes of the
   * handler's first and second awaited write (for an expired session there
   * is only one write, `first`).
   */
  function HandleEvent(s: Store, e: Event, first: Call, second: Call): (r: Effect)
    ensures e.PaymentFailed? || e.Unhandled? ==> r == Effect(s, false)
    ensures e.CheckoutExpired? ==> r.store.listings == s.listings
    ensures e.CheckoutExpired? && first == Ok ==>
      r == Effect(SetSessionStatus(s, e.session.id, PaymentExpired), false)
    ensures e.CheckoutCompleted? && first == Ok && second == Ok ==>
      r == Effect(SetSessionStatus(MarkPaid(s, e.session.metadata.listingId), e.session.id, PaymentCompleted), false)
    ensures r.threw <==> (first == Threw && (e.CheckoutCompleted? || e.CheckoutExpired?))
                         || (second == Threw && first != Threw && e.CheckoutCompleted?)
    ensures first == Threw ==> r.store == s
    ensures r.store.listings.Keys == s.listings.Keys
    ensures r.store.images == s.images && r.store.users == s.users
    ensures |r.store.payments| == |s.payments|
    ensures WellKeyed(s) ==> WellKeyed(r.store)
  {
    match e
    case CheckoutCompleted(session) =>
      if first == Threw then
        Effect(s, true)
      else
        var s1 := if first == Ok then MarkPaid(s, session.metadata.listingId) else s;
        if second == Threw then
          Effect(s1, true)
        else if second == Ok then
          Effect(SetSessionStatus(s1, session.id, PaymentCompleted), false)
        else
          Effect(s1, false)
    case CheckoutExpired(session) =>
      if first == Threw then
        Effect(s, true)
      else if first == Ok then
        Effect(SetSessionStatus(s, session.id, PaymentExpired), false)
      else
        Effect(s, false)
    case _ =>
      Effect(s, false)
  }

  /** Re-delivering a completed checkout changes nothing further. */
  lemma {:induction false} CompletedIdempotent(s: Store, session: Session)
    ensures var once := HandleEvent(s, CheckoutCompleted(session), Ok, Ok).store;
            HandleEvent(once, CheckoutCompleted(session), Ok, Ok).store == once
  {
    var lid := session.metadata.listingId;
    var m := MarkPaid(s, lid);
    var once := SetSessionStatus(m, session.id, PaymentCompleted);
    var m2 := MarkPaid(once, lid);
    assert m2 == once by {
      if lid.Some? && lid.value in once.listings {
        assert once.listings[lid.value] == m.listings[lid.value];
        assert m.listings[lid.value].isPaid;
        assert once.listings[lid.value].(isPaid := true) == once.listings[lid.value];
        assert once.listings[lid.value := once.listings[lid.value]] == once.listings;
      }
    }
    SetPaymentStatusIdempotent(m.payments, session.id, PaymentCompleted);
  }

  /**
   * An expiry delivered after a completion for the same session leaves the
   * payment rows `expired` while the listing keeps `is_paid = true`: the
   * expiry handler never touches listings.
   */
  lemma {:induction false} ExpiredAfterCompleted(s: Store, session: Session, expired: Session)
    requires expired.id == session.id
    requires session.metadata.listingId.Some? && session.metadata.listingId.value in s.listings
    ensures var done := HandleEvent(s, CheckoutCompleted(session), Ok, Ok).store;
            var after := HandleEvent(done, CheckoutExpired(expired), Ok, Ok).store;
            && after.listings[session.metadata.listingId.value].isPaid
            && |after.payments| == |s.payments|
            && (forall i :: 0 <= i < |s.payments| && s.payments[i].sessionId == session.id ==>
                  after.payments[i].status == PaymentExpired)
            && after.payments == SetPaymentStatus(s.payments, session.id, PaymentExpired)
  {
    var m := MarkPaid(s, session.metadata.listingId);
    var done := SetSessionStatus(m, session.id, PaymentCompleted);
    SetPaymentStatusLastWins(s.payments, session.id, PaymentCompleted, PaymentExpired);
  }

  /** A completion delivered after an expiry for the same session wins: its rows end `completed`. */
  lemma {:induction false} CompletedAfterExpired(s: Store, session: Session, expired: Session)
    requires expired.id == session.id
    ensures var gone := HandleEvent(s, CheckoutExpired(expired), Ok, Ok).store;
            var after := HandleEvent(gone, CheckoutCompleted(session), Ok, Ok).store;
            after.payments == SetPaymentStatus(s.payments, session.id, PaymentCompleted)
  {
    SetPaymentStatusLastWins(s.payments, session.id, PaymentExpired, PaymentCompleted);
  }
}
