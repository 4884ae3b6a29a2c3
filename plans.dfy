/** The billing tables of lib/lemonsqueezy.ts: three one-off credit packages and two monthly
    subscription plans. Each variant id comes from an environment variable and is a
    parameter (`VariantConfig`) here. Both tables are kept as lists in declaration order,
    because the webhook searches them with `find`, which returns the first match. */
module Plans {
  import opened Common

  /** The five variant-id settings: `LS_VARIANT_STARTER`, `LS_VARIANT_POPULAR`,
      `LS_VARIANT_PRO`, `LS_VARIANT_BASIC_SUB` and `LS_VARIANT_PRO_SUB`. */
  datatype VariantConfig = VariantConfig(starter: string, popular: string, proPack: string,
                                         basicSub: string, proSub: string)

  /** A package (`credits`) or a plan (`monthlyCredits`), under its table key. */
  datatype Offer = Offer(key: string, variantId: string, credits: nat, title: string, price: string)

  /** `CREDIT_PACKAGES`. */
  function CreditPackages(cfg: VariantConfig): (r: seq<Offer>)
    ensures |r| == 3
    ensures r[0].key == "starter" && r[0].variantId == cfg.starter && r[0].credits == 40
    ensures r[1].key == "popular" && r[1].variantId == cfg.popular && r[1].credits == 120
    ensures r[2].key == "pro" && r[2].variantId == cfg.proPack && r[2].credits == 400
  {
    [ Offer("starter", cfg.starter, 40, "Starter — 40 Credits", "$4.99"),
      Offer("popular", cfg.popular, 120, "Popular — 120 Credits", "$11.99"),
      Offer("pro", cfg.proPack, 400, "Pro Pack — 400 Credits", "$29.99") ]
  }

  /** `SUBSCRIPTION_PLANS`. */
  function SubscriptionPlans(cfg: VariantConfig): (r: seq<Offer>)
    ensures |r| == 2
    ensures r[0].key == "basic" && r[0].variantId == cfg.basicSub && r[0].credits == 200
    ensures r[1].key == "pro" && r[1].variantId == cfg.proSub && r[1].credits == 600
  {
    [ Offer("basic", cfg.basicSub, 200, "Basic — 200 credits/month", "$9.99/mo"),
      Offer("pro", cfg.proSub, 600, "Pro — 600 credits/month", "$24.99/mo") ]
  }

  /** The keys of a table, in order (`Object.keys`). */
  function Keys(offers: seq<Offer>): (ks: seq<string>)
    ensures |ks| == |offers| && forall i :: 0 <= i < |offers| ==> ks[i] == offers[i].key
  {
    seq(|offers|, i requires 0 <= i < |offers| => offers[i].key)
  }

  /** `TABLE[key]`: the offer stored under `key`, if any. */
  function LookupKey(offers: seq<Offer>, key: string): (r: Option<Offer>)
    ensures r.Some? ==> r.value in offers && r.value.key == key
    ensures r.None? ==> forall o :: o in offers ==> o.key != key
  {
    if offers == [] then None
    else if offers[0].key == key then Some(offers[0])
    else LookupKey(offers[1..], key)
  }

  /** `Object.values(TABLE).find((p) => p.variantId === variantId)`, as the index found. */
  function FindVariantIndex(offers: seq<Offer>, variantId: string): (r: Option<nat>)
    ensures r.Some? ==> r.value < |offers| && offers[r.value].variantId == variantId
    ensures r.Some? ==> forall j :: 0 <= j < r.value ==> offers[j].variantId != variantId
    ensures r.None? ==> forall j :: 0 <= j < |offers| ==> offers[j].variantId != variantId
  {
    if offers == [] then None
    else if offers[0].variantId == variantId then Some(0)
    else
      match FindVariantIndex(offers[1..], variantId)
      case None => None
      case Some(i) => Some(i + 1)
  }

  /** The first offer, in table order, whose variant id is `variantId`. */
  function FindVariant(offers: seq<Offer>, variantId: string): (r: Option<Offer>)
    ensures r.Some? ==> r.value in offers && r.value.variantId == variantId
    ensures r.Some? ==> exists i :: 0 <= i < |offers| && offers[i] == r.value
                                    && forall j :: 0 <= j < i ==> offers[j].variantId != variantId
    ensures r.None? <==> forall o :: o in offers ==> o.variantId != variantId
  {
    match FindVariantIndex(offers, variantId)
    case None => None
    case Some(i) => Some(offers[i])
  }

  /** Three packages, keyed starter, popular and pro, worth 40, 120 and 400 credits. */
  lemma CreditPackagesTable(cfg: VariantConfig)
    ensures |CreditPackages(cfg)| == 3
    ensures Keys(CreditPackages(cfg)) == ["starter", "popular", "pro"]
    ensures LookupKey(CreditPackages(cfg), "starter") == Some(CreditPackages(cfg)[0])
    ensures LookupKey(CreditPackages(cfg), "starter").value.credits == 40
    ensures LookupKey(CreditPackages(cfg), "popular").value.credits == 120
    ensures LookupKey(CreditPackages(cfg), "pro").value.credits == 400
  {
  }

  /** Two plans, keyed basic and pro, granting 200 and 600 credits a month. */
  lemma SubscriptionPlansTable(cfg: VariantConfig)
    ensures |SubscriptionPlans(cfg)| == 2
    ensures Keys(SubscriptionPlans(cfg)) == ["basic", "pro"]
    ensures LookupKey(SubscriptionPlans(cfg), "basic").value.credits == 200
    ensures LookupKey(SubscriptionPlans(cfg), "pro").value.credits == 600
  {
  }

  /** The key "pro" names a package and a plan, whose variant ids come from the two
      different settings `LS_VARIANT_PRO` and `LS_VARIANT_PRO_SUB`. */
  lemma ProInBothTables(cfg: VariantConfig)
    ensures LookupKey(CreditPackages(cfg), "pro").Some?
    ensures LookupKey(SubscriptionPlans(cfg), "pro").Some?
    ensures LookupKey(CreditPackages(cfg), "pro").value.variantId == cfg.proPack
    ensures LookupKey(SubscriptionPlans(cfg), "pro").value.variantId == cfg.proSub
  {
  }
}
