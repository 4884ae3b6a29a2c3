/** The checkout route of app/api/billing/checkout/route.ts: choosing the variant id from the
    requested type and plan, and building the checkout whose custom data carries the user id
    that the billing webhook later requires. `createCheckout` is the parameter `create`. */
module Checkout {
  import opened Common
  import opened Plans

  /** The request body `{ type, plan }`; an absent or non-string field is None. */
  datatype CheckoutBody = CheckoutBody(checkoutType: Option<string>, plan: Option<string>)

  datatype Session = Session(userId: string, email: Option<string>)

  /** `LEMONSQUEEZY_STORE_ID` and `NEXT_PUBLIC_APP_URL`. */
  datatype CheckoutConfig = CheckoutConfig(storeId: string, appUrl: string, variants: VariantConfig)

  /** The arguments of `createCheckout`: store, variant, `checkoutData.email`,
      `checkoutData.custom.user_id` and `productOptions.redirectUrl`. */
  datatype CheckoutRequest = CheckoutRequest(storeId: string, variantId: string, email: Option<string>,
                                             customUserId: string, redirectUrl: string)

  const InvalidPlan := HttpError(400, "Invalid plan")
  const InvalidType := HttpError(400, "Invalid type")
  const CheckoutFailed := HttpError(500, "Failed to create checkout")

  /** The variant id for `type` and `plan`: a credit package's for "credits", a plan's for
      "subscription"; an unknown key is an invalid plan, any other type an invalid type. */
  function SelectVariant(cfg: VariantConfig, body: CheckoutBody): (r: Result<string, HttpError>)
    ensures body.checkoutType == Some("credits") ==>
              (r.Ok? <==> body.plan.Some? && LookupKey(CreditPackages(cfg), body.plan.value).Some?)
              && (r.Ok? ==> r.value == LookupKey(CreditPackages(cfg), body.plan.value).value.variantId)
              && (r.Err? ==> r.error == InvalidPlan)
    ensures body.checkoutType == Some("subscription") ==>
              (r.Ok? <==> body.plan.Some? && LookupKey(SubscriptionPlans(cfg), body.plan.value).Some?)
              && (r.Ok? ==> r.value == LookupKey(SubscriptionPlans(cfg), body.plan.value).value.variantId)
              && (r.Err? ==> r.error == InvalidPlan)
    ensures body.checkoutType != Some("credits") && body.checkoutType != Some("subscription") ==>
              r == Err(InvalidType)
  {
    var table := if body.checkoutType == Some("credits") then Some(CreditPackages(cfg))
                 else if body.checkoutType == Some("subscription") then Some(SubscriptionPlans(cfg))
                 else None;
    if table.None? then Err(InvalidType)
    else if body.plan.None? then Err(InvalidPlan)
    else
      match LookupKey(table.value, body.plan.value)
      case None => Err(InvalidPlan)
      case Some(offer) => Ok(offer.variantId)
  }

  /** The plan key "pro" picks the package's variant for credits and the plan's for a
      subscription. */
  lemma ProDependsOnType(cfg: VariantConfig)
    ensures SelectVariant(cfg, CheckoutBody(Some("credits"), Some("pro"))) == Ok(cfg.proPack)
    ensures SelectVariant(cfg, CheckoutBody(Some("subscription"), Some("pro"))) == Ok(cfg.proSub)
  {
    ProInBothTables(cfg);
  }

  datatype CheckoutResponse = CheckoutRejected(error: HttpError) | CheckoutUrl(url: string)

  /** `POST /api/billing/checkout`. `create` answers the checkout URL, or None when the
      reply carries none. */
  function HandleCheckout(cfg: CheckoutConfig, session: Option<Session>, body: CheckoutBody,
                          create: CheckoutRequest -> Option<string>): (r: CheckoutResponse)
    ensures (session.None? || session.value.userId == "") ==> r == CheckoutRejected(Unauthorized)
    ensures session.Some? && session.value.userId != "" && SelectVariant(cfg.variants, body).Err? ==>
              r == CheckoutRejected(SelectVariant(cfg.variants, body).error)
    ensures session.Some? && session.value.userId != "" && SelectVariant(cfg.variants, body).Ok? ==>
              var req := CheckoutRequest(cfg.storeId, SelectVariant(cfg.variants, body).value, session.value.email,
                                         session.value.userId, cfg.appUrl + "/dashboard/billing?success=true");
              if create(req).Some? && create(req).value != "" then r == CheckoutUrl(create(req).value)
              else r == CheckoutRejected(CheckoutFailed)
    ensures r.CheckoutUrl? ==> r.url != ""
  {
    if session.None? || session.value.userId == "" then CheckoutRejected(Unauthorized)
    else
      match SelectVariant(cfg.variants, body)
      case Err(e) => CheckoutRejected(e)
      case Ok(variantId) =>
        var req := CheckoutRequest(cfg.storeId, variantId, session.value.email, session.value.userId,
                                   cfg.appUrl + "/dashboard/billing?success=true");
        var url := create(req);
        if url.None? || url.value == "" then CheckoutRejected(CheckoutFailed)
        else CheckoutUrl(url.value)
  }

  /** The checkout is created with the session's user id as `custom.user_id`. */
  lemma CustomDataCarriesUserId(cfg: CheckoutConfig, s: Session, body: CheckoutBody, create: CheckoutRequest -> Option<string>)
    requires HandleCheckout(cfg, Some(s), body, create).CheckoutUrl?
    ensures exists req: CheckoutRequest :: req.customUserId == s.userId && create(req) == Some(HandleCheckout(cfg, Some(s), body, create).url)
  {
    var req := CheckoutRequest(cfg.storeId, SelectVariant(cfg.variants, body).value, s.email,
                               s.userId, cfg.appUrl + "/dashboard/billing?success=true");
    assert create(req) == Some(HandleCheckout(cfg, Some(s), body, create).url);
  }
}
