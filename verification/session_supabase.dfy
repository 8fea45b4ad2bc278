/**
 * The hosted-function checkout (`serve` in
 * supabase/functions/create-payment-session/index.ts). It answers CORS
 * preflights, requires a plan, enforces the free-plan quota of five
 * published unpaid listings per user, and for a paid plan opens a session
 * on a configured price id. It writes nothing to the store.
 */
module SupabaseCheckout {
  import opened Common
  import opened Db
  import opened Stripe
  import opened Http
  import Checkout

  const FreeQuota: nat := 5
  const PlanFieldsRequired: string := "listingId, userId, and plan are required"
  const FreeCheckFailed: string := "Erro ao verificar anúncios gratuitos"
  const FreeQuotaUsed: string := "Você já usou seus 5 dias gratuitos. Escolha um plano pago."
  const PriceNotConfigured: string := "Price ID não configurado"

  /** The configured price ids, `STRIPE_PREMIUM_PRICE_ID` and `STRIPE_BASIC_PRICE_ID`. */
  datatype PriceIds = PriceIds(premium: Option<string>, basic: Option<string>)

  /** The price id of a paid plan: premium for 'premium', basic for anything else. */
  function PriceFor(plan: string, ids: PriceIds): (p: Option<string>)
    ensures plan == "premium" ==> p == ids.premium
    ensures plan != "premium" ==> p == ids.basic
  {
    if plan == "premium" then ids.premium else ids.basic
  }

  /** The session request of a paid plan; an absent `origin` header renders as "null". */
  function PlanParams(priceId: string, origin: Option<string>, listingId: string, userId: string, plan: string): (p: SessionParams)
    ensures p.item == PriceRef(priceId)
    ensures p.successUrl == Interpolated(origin, "null") + "/payment/success?session_id={CHECKOUT_SESSION_ID}"
    ensures p.cancelUrl == Interpolated(origin, "null") + "/payment/cancel"
    ensures p.metadata == Metadata(Some(listingId), Some(userId), Some(plan))
  {
    SessionParams(PriceRef(priceId),
                  Interpolated(origin, "null") + "/payment/success?session_id={CHECKOUT_SESSION_ID}",
                  Interpolated(origin, "null") + "/payment/cancel",
                  Metadata(Some(listingId), Some(userId), Some(plan)))
  }

  /** The user may still take the free plan: fewer than five published unpaid listings. */
  predicate CanUseFree(s: Store, userId: string) {
    FreeCount(s, userId) < FreeQuota
  }

  /**
   * One request. `body` is the parsed JSON body (`None` when it does not
   * parse), `freeQuery` the outcome of the free-listings query, `provider`
   * the provider's answer if a session is requested.
   */
  function Serve(s: Store, httpMethod: string, body: Option<Checkout.SessionBody>, origin: Option<string>,
                 ids: PriceIds, freeQuery: Call, provider: Provider): (r: SessionOutcome)
    ensures r.store == s
    ensures httpMethod == "OPTIONS" ==> r.response == Response(200, CorsOk) && r.sent.None?
    ensures r.response.status in {200, 400, 500}
    ensures httpMethod != "OPTIONS" && body.Some? && !(Truthy(body.value.listingId) && Truthy(body.value.userId) && Truthy(body.value.plan)) ==>
      r.response == Response(400, Message(PlanFieldsRequired)) && r.sent.None?
    ensures r.response.body == FreePlan <==>
      && httpMethod != "OPTIONS" && body.Some?
      && Truthy(body.value.listingId) && Truthy(body.value.userId) && body.value.plan == Some("free")
      && freeQuery == Ok && CanUseFree(s, body.value.userId.value)
    ensures r.response.body == FreePlan ==> r.response.status == 200
    ensures r.response == Response(400, Message(FreeQuotaUsed)) <==>
      && httpMethod != "OPTIONS" && body.Some?
      && Truthy(body.value.listingId) && Truthy(body.value.userId) && body.value.plan == Some("free")
      && freeQuery == Ok && !CanUseFree(s, body.value.userId.value)
    ensures r.sent.Some? <==>
      && httpMethod != "OPTIONS" && body.Some?
      && Truthy(body.value.listingId) && Truthy(body.value.userId) && Truthy(body.value.plan)
      && body.value.plan != Some("free") && freeQuery == Ok && Truthy(PriceFor(body.value.plan.value, ids))
    ensures r.sent.Some? ==>
      r.sent.value == PlanParams(PriceFor(body.value.plan.value, ids).value, origin,
                                 body.value.listingId.value, body.value.userId.value, body.value.plan.value)
    ensures r.response.body.PlanSession? ==>
      && r.response.status == 200 && r.sent.Some? && provider.Created?
      && r.response.body == PlanSession(provider.id, provider.url, body.value.plan.value)
  {
    if httpMethod == "OPTIONS" then
      SessionOutcome(s, Response(200, CorsOk), None)
    else if body.None? then
      SessionOutcome(s, Response(500, Failure), None)
    else if !(Truthy(body.value.listingId) && Truthy(body.value.userId) && Truthy(body.value.plan)) then
      SessionOutcome(s, Response(400, Message(PlanFieldsRequired)), None)
    else
      var listingId, userId, plan := body.value.listingId.value, body.value.userId.value, body.value.plan.value;
      match freeQuery
      case Threw => SessionOutcome(s, Response(500, Failure), None)
      case Failed => SessionOutcome(s, Response(500, Message(FreeCheckFailed)), None)
      case Ok =>
        if plan == "free" && !CanUseFree(s, userId) then
          SessionOutcome(s, Response(400, Message(FreeQuotaUsed)), None)
        else if plan == "free" then
          SessionOutcome(s, Response(200, FreePlan), None)
        else
          var priceId := PriceFor(plan, ids);
          if !Truthy(priceId) then
            SessionOutcome(s, Response(500, Message(PriceNotConfigured)), None)
          else
            var params := PlanParams(priceId.value, origin, listingId, userId, plan);
            match provider
            case ProviderFailed => SessionOutcome(s, Response(500, Failure), Some(params))
            case Created(id, url) => SessionOutcome(s, Response(200, PlanSession(id, url, plan)), Some(params))
  }

  /**
   * The quota is the only thing the free-listing count decides: for a paid
   * plan the answer is the same whatever the user's count.
   */
  lemma PaidPlanIgnoresQuota(s: Store, t: Store, body: Checkout.SessionBody, origin: Option<string>,
                             ids: PriceIds, provider: Provider)
    requires body.plan != Some("free")
    ensures Serve(s, "POST", Some(body), origin, ids, Ok, provider).response
         == Serve(t, "POST", Some(body), origin, ids, Ok, provider).response
  {
  }
}
