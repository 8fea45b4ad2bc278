/**
 * The payment confirmation page (src/pages/PaymentSuccess.tsx): it finds
 * the listing of the returning checkout session and labels its plan.
 */
module PaymentSuccess {
  import opened Common
  import opened Db
  import SupabaseWebhook

  /** The details the page shows. */
  datatype Details = Details(listingId: string, plan: string, amount: real, status: string)

  /** Keys of the listings whose `payment_session_id` is `sid`. */
  function SessionListings(s: Store, sid: string): set<string> {
    set k | k in s.listings && s.listings[k].paymentSessionId == Some(sid)
  }

  lemma SingletonHasElement(m: set<string>)
    requires |m| == 1
    ensures exists k :: m == {k}
  {
    var k :| k in m;
    assert |m - {k}| == 0;
    assert m == {k};
  }

  /** The details the page derives from the matched row, with its fallbacks. */
  function DetailsOf(l: Listing): (d: Details)
    ensures d.listingId == l.id && d.amount == l.price
    ensures d.plan == (if Truthy(l.planType) then l.planType.value else "unknown")
    ensures d.status == (if Truthy(l.paymentStatus) then l.paymentStatus.value else "completed")
  {
    Details(l.id, OrElse(l.planType, "unknown"), l.price, OrElse(l.paymentStatus, "completed"))
  }

  /**
   * `verifyPayment`: no `session_id` means no lookup; `.single()` succeeds
   * only when exactly one listing carries that payment session id.
   */
  function VerifyPayment(s: Store, sessionId: Option<string>, query: Call): (d: Option<Details>)
    ensures d.Some? <==> Truthy(sessionId) && query == Ok && |SessionListings(s, sessionId.value)| == 1
    ensures d.Some? ==> exists k :: k in s.listings && s.listings[k].paymentSessionId == sessionId
                                   && d.value == DetailsOf(s.listings[k])
  {
    if !Truthy(sessionId) then None
    else
      match query
      case Ok =>
        var m := SessionListings(s, sessionId.value);
        if |m| == 1 then
          SingletonHasElement(m);
          var k :| m == {k};
          assert k in m;
          Some(DetailsOf(s.listings[k]))
        else
          None
      case _ => None
  }

  /** `getPlanName`. */
  function PlanName(plan: string): (name: string)
    ensures plan == "basic" ==> name == "Plano Básico"
    ensures plan == "premium" ==> name == "Plano Premium"
    ensures plan == "free" ==> name == "Plano Gratuito"
    ensures plan !in {"basic", "premium", "free"} ==> name == "Plano"
  {
    if plan == "basic" then "Plano Básico"
    else if plan == "premium" then "Plano Premium"
    else if plan == "free" then "Plano Gratuito"
    else "Plano"
  }

  /** `getPlanDuration`. */
  function PlanDuration(plan: string): (text: string)
    ensures plan == "basic" ==> text == "30 dias"
    ensures plan == "premium" ==> text == "1 ano"
    ensures plan == "free" ==> text == "5 dias"
    ensures plan !in {"basic", "premium", "free"} ==> text == ""
  {
    if plan == "basic" then "30 dias"
    else if plan == "premium" then "1 ano"
    else if plan == "free" then "5 dias"
    else ""
  }

  /** A plan has a specific name exactly when it has a duration. */
  lemma NameAndDurationAgree(plan: string)
    ensures PlanName(plan) != "Plano" <==> PlanDuration(plan) != ""
  {
  }

  /**
   * For the two paid plans the label states the span the hosted webhook
   * grants: thirty days for basic, a year for premium.
   */
  lemma PaidDurationMatchesExpiry(plan: string, now: int)
    requires plan == "basic" || plan == "premium"
    ensures PlanDuration(plan) == "30 dias" ==> SupabaseWebhook.PlanExpiry(plan, now) == now + 30 * DayMs
    ensures PlanDuration(plan) == "1 ano" ==> SupabaseWebhook.PlanExpiry(plan, now) == now + 365 * DayMs
  {
  }

  /** The amount row is shown only for a positive amount. */
  predicate ShowsAmount(d: Details) {
    d.amount > 0.0
  }
}
