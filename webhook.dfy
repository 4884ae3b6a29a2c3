/** The Lemon Squeezy webhook of app/api/webhooks/lemon-squeezy/route.ts. A delivery passes
    three gates in order (the signature, the JSON body, the user id in the custom data) and
    is then dispatched on its event name, crediting the ledger and keeping a table of
    subscriptions keyed by their Lemon Squeezy id. The HMAC and `JSON.parse` are parameters;
    the pure functions below say what one delivery does, and `BillingStore` performs it. */
module Webhook {
  import opened Common
  import opened Hex
  import opened Credits
  import opened Plans

  /** `verifyWebhookSignature`: the hex digest of HMAC-SHA256(secret, payload) and the
      signature header are both read with `Buffer.from(_, "hex")` and compared with
      `timingSafeEqual`, whose throw on a length mismatch is caught as `false`. It accepts
      exactly the signatures that hex-decode to the digest. */
  function VerifyWebhookSignature(hmac: (string, string) -> seq<byte>, secret: string,
                                  payload: string, signature: string): (ok: bool)
    ensures ok <==> HexDecode(signature) == hmac(secret, payload)
  {
    var expected := HexDecode(HexEncode(hmac(secret, payload)));
    var given := HexDecode(signature);
    HexRoundTrip(hmac(secret, payload));
    if |expected| != |given| then false
    else expected == given
  }

  /** The digest as `digest("hex")` writes it is accepted. */
  lemma GenuineSignatureAccepted(hmac: (string, string) -> seq<byte>, secret: string, payload: string)
    ensures VerifyWebhookSignature(hmac, secret, payload, HexEncode(hmac(secret, payload)))
  {
    HexRoundTrip(hmac(secret, payload));
  }

  /** A signature of another length than the digest is refused (the caught throw). */
  lemma ShortSignatureRefused(hmac: (string, string) -> seq<byte>, secret: string, payload: string, signature: string)
    requires |HexDecode(signature)| != |hmac(secret, payload)|
    ensures !VerifyWebhookSignature(hmac, secret, payload, signature)
  {
  }

  /** Decoding stops at the first pair that is not hex, so text after the genuine digest
      that decodes to nothing on its own (a non-hex character, a single digit) is ignored. */
  lemma TrailingTextIgnored(hmac: (string, string) -> seq<byte>, secret: string, payload: string, tail: string)
    requires HexDecode(tail) == []
    ensures VerifyWebhookSignature(hmac, secret, payload, HexEncode(hmac(secret, payload)) + tail)
  {
    HexDecodeAfterEncoding(hmac(secret, payload), tail);
  }

  /** The fields of the event the handler reads; each is None when absent (or, for the
      strings compared with `===`, not a string). Ids and variant ids arrive already passed
      through `String(...)`. */
  datatype Event = Event(eventName: Option<string>,        // meta.event_name
                         userId: Option<string>,           // meta.custom_data.user_id
                         dataId: Option<string>,           // data.id
                         firstOrderVariantId: Option<string>, // data.attributes.first_order_item.variant_id
                         variantId: Option<string>,        // data.attributes.variant_id
                         renewsAt: Option<string>,         // data.attributes.renews_at
                         subscriptionId: Option<string>)   // data.attributes.subscription_id

  /** What `JSON.parse(payload)` gives: a throw, the value `null` (on which `event.meta`
      throws a TypeError outside the handler's `try`), or any other value. */
  datatype Parsed = NotJson | JsonNull | JsonValue(event: Event)

  datatype SubStatus = Active | Cancelled

  /** A row of the subscription table. `currentPeriodEnd` is kept as the text it is built from. */
  datatype Subscription = Subscription(userId: UserId, plan: string, status: SubStatus,
                                       lsSubscriptionId: string, currentPeriodEnd: string,
                                       monthlyCredits: nat, renewedAt: Option<Time>)

  /** The table is keyed by `lsSubscriptionId`, which is unique. */
  predicate KeyedById(subs: map<string, Subscription>) {
    forall k :: k in subs ==> subs[k].lsSubscriptionId == k
  }

  datatype BillingState = BillingState(ledger: LedgerState, subs: map<string, Subscription>)

  /** The response: an error body, `{ received: true }`, or the framework's 500 for an
      uncaught throw. */
  datatype WebhookResponse = WebhookRejected(error: HttpError) | WebhookReceived | WebhookCrashed

  datatype Outcome = Outcome(state: BillingState, response: WebhookResponse)

  const InvalidSignature := HttpError(401, "Invalid signature")
  const InvalidJson := HttpError(400, "Invalid JSON")
  const NoUserId := HttpError(400, "No user_id in custom data")
  const InternalError := HttpError(500, "Internal error")

  /** `db.creditTransaction.findFirst({ where: { lsOrderId } })` finds a row. */
  function HasOrder(log: seq<Txn>, lsOrderId: string): (b: bool)
    ensures b <==> exists i :: 0 <= i < |log| && log[i].lsOrderId == Some(lsOrderId)
  {
    if log == [] then false
    else if log[0].lsOrderId == Some(lsOrderId) then true
    else
      assert forall i :: 1 <= i < |log| ==> log[i] == log[1..][i - 1];
      HasOrder(log[1..], lsOrderId)
  }

  /** `addCredits` inside the `try`: its failure is the 500 "Internal error", after whatever
      the branch already wrote to the subscription table. */
  function Grant(s: BillingState, u: UserId, amount: int, kind: TxnType, lsOrderId: Option<string>): (o: Outcome)
    requires kind != Usage
    ensures o.state.subs == s.subs
    ensures Credit(s.ledger, u, amount, kind, lsOrderId, None).Ok? ==>
              o == Outcome(BillingState(Credit(s.ledger, u, amount, kind, lsOrderId, None).value, s.subs), WebhookReceived)
    ensures Credit(s.ledger, u, amount, kind, lsOrderId, None).Err? ==>
              o == Outcome(s, WebhookRejected(InternalError))
  {
    match Credit(s.ledger, u, amount, kind, lsOrderId, None)
    case Ok(l) => Outcome(BillingState(l, s.subs), WebhookReceived)
    case Err(_) => Outcome(s, WebhookRejected(InternalError))
  }

  /** `order_created`: nothing for an order id already in the log or a variant that is no
      package; otherwise the package's credits, as a purchase tagged with the order id. */
  function OrderCreated(s: BillingState, cfg: VariantConfig, ev: Event, u: UserId): (o: Outcome)
    ensures o.state.subs == s.subs
    ensures HasOrder(s.ledger.log, ev.dataId.GetOr("")) ==> o == Outcome(s, WebhookReceived)
    ensures FindVariant(CreditPackages(cfg), ev.firstOrderVariantId.GetOr("")).None? ==> o == Outcome(s, WebhookReceived)
    ensures !HasOrder(s.ledger.log, ev.dataId.GetOr(""))
            && FindVariant(CreditPackages(cfg), ev.firstOrderVariantId.GetOr("")).Some? ==>
              o == Grant(s, u, FindVariant(CreditPackages(cfg), ev.firstOrderVariantId.GetOr("")).value.credits,
                         Purchase, Some(ev.dataId.GetOr("")))
    ensures o.state != s ==>
              && !HasOrder(s.ledger.log, ev.dataId.GetOr(""))
              && var pkg := FindVariant(CreditPackages(cfg), ev.firstOrderVariantId.GetOr(""));
              && pkg.Some? && pkg.value in CreditPackages(cfg)
              && Credit(s.ledger, u, pkg.value.credits, Purchase, Some(ev.dataId.GetOr("")), None).Ok?
              && o.state.ledger == Credit(s.ledger, u, pkg.value.credits, Purchase, Some(ev.dataId.GetOr("")), None).value
  {
    var lsOrderId := ev.dataId.GetOr("");
    if HasOrder(s.ledger.log, lsOrderId) then Outcome(s, WebhookReceived)
    else
      match FindVariant(CreditPackages(cfg), ev.firstOrderVariantId.GetOr(""))
      case None => Outcome(s, WebhookReceived)
      case Some(pkg) => Grant(s, u, pkg.credits, Purchase, Some(lsOrderId))
  }

  /** The `upsert` by subscription id: a new row is active with the plan's key and monthly
      credits; an existing row only becomes active with the new period end. */
  function Upsert(subs: map<string, Subscription>, subId: string, u: UserId, plan: Offer, periodEnd: string)
    : (subs': map<string, Subscription>)
    ensures subs'.Keys == subs.Keys + {subId}
    ensures forall k :: k in subs && k != subId ==> subs'[k] == subs[k]
    ensures subId !in subs ==> subs'[subId] == Subscription(u, plan.key, Active, subId, periodEnd, plan.credits, None)
    ensures subId in subs ==> subs'[subId] == subs[subId].(status := Active, currentPeriodEnd := periodEnd)
    ensures KeyedById(subs) ==> KeyedById(subs')
  {
    if subId in subs then subs[subId := subs[subId].(status := Active, currentPeriodEnd := periodEnd)]
    else subs[subId := Subscription(u, plan.key, Active, subId, periodEnd, plan.credits, None)]
  }

  /** `subscription_created` / `subscription_resumed`: nothing for a variant that is no
      plan; otherwise the upsert, then the plan's monthly credits to the event's user. */
  function SubscriptionStarted(s: BillingState, cfg: VariantConfig, ev: Event, u: UserId, nowIso: string): (o: Outcome)
    ensures FindVariant(SubscriptionPlans(cfg), ev.variantId.GetOr("")).None? ==> o == Outcome(s, WebhookReceived)
    ensures var plan := FindVariant(SubscriptionPlans(cfg), ev.variantId.GetOr(""));
            plan.Some? ==>
              && plan.value in SubscriptionPlans(cfg)
              && o.state.subs == Upsert(s.subs, ev.dataId.GetOr(""), u, plan.value, ev.renewsAt.GetOr(nowIso))
              && o == Grant(BillingState(s.ledger, o.state.subs), u, plan.value.credits, SubscriptionRenewal, None)
  {
    match FindVariant(SubscriptionPlans(cfg), ev.variantId.GetOr(""))
    case None => Outcome(s, WebhookReceived)
    case Some(plan) =>
      var subs := Upsert(s.subs, ev.dataId.GetOr(""), u, plan, ev.renewsAt.GetOr(nowIso));
      Grant(BillingState(s.ledger, subs), u, plan.credits, SubscriptionRenewal, None)
  }

  /** `subscription_payment_success`: nothing for an unknown subscription; otherwise the
      renewal time and period end are updated and the subscription's own user gets its
      stored monthly credits. */
  function PaymentSucceeded(s: BillingState, ev: Event, now: Time, nowIso: string): (o: Outcome)
    ensures ev.subscriptionId.GetOr("") !in s.subs ==> o == Outcome(s, WebhookReceived)
    ensures var subId := ev.subscriptionId.GetOr("");
            subId in s.subs ==>
              var sub := s.subs[subId];
              && o.state.subs == s.subs[subId := sub.(renewedAt := Some(now), currentPeriodEnd := ev.renewsAt.GetOr(nowIso))]
              && o == Grant(BillingState(s.ledger, o.state.subs), sub.userId, sub.monthlyCredits, SubscriptionRenewal, None)
  {
    var subId := ev.subscriptionId.GetOr("");
    if subId !in s.subs then Outcome(s, WebhookReceived)
    else
      var sub := s.subs[subId];
      var subs := s.subs[subId := sub.(renewedAt := Some(now), currentPeriodEnd := ev.renewsAt.GetOr(nowIso))];
      Grant(BillingState(s.ledger, subs), sub.userId, sub.monthlyCredits, SubscriptionRenewal, None)
  }

  /** `updateMany` setting status cancelled on the rows with that id (none or one). */
  function Cancel(subs: map<string, Subscription>, subId: string): (subs': map<string, Subscription>)
    ensures subs'.Keys == subs.Keys
    ensures forall k :: k in subs ==> subs'[k] == if k == subId then subs[k].(status := Cancelled) else subs[k]
  {
    if subId in subs then subs[subId := subs[subId].(status := Cancelled)] else subs
  }

  /** The `switch` on the event name, for a delivery whose user id is `u`. */
  function Dispatch(s: BillingState, cfg: VariantConfig, ev: Event, u: UserId, now: Time, nowIso: string): (o: Outcome)
    ensures var name := ev.eventName.GetOr("");
            && (name == "order_created" ==> o == OrderCreated(s, cfg, ev, u))
            && (name == "subscription_created" || name == "subscription_resumed" ==>
                  o == SubscriptionStarted(s, cfg, ev, u, nowIso))
            && (name == "subscription_payment_success" ==> o == PaymentSucceeded(s, ev, now, nowIso))
            && (name == "subscription_cancelled" || name == "subscription_expired" ==>
                  o == Outcome(s.(subs := Cancel(s.subs, ev.dataId.GetOr(""))), WebhookReceived))
    ensures o.response == WebhookReceived || o.response == WebhookRejected(InternalError)
    ensures o.response != WebhookReceived ==> o.state.ledger == s.ledger
  {
    var name := ev.eventName.GetOr("");
    if name == "order_created" then OrderCreated(s, cfg, ev, u)
    else if name == "subscription_created" || name == "subscription_resumed" then SubscriptionStarted(s, cfg, ev, u, nowIso)
    else if name == "subscription_payment_success" then PaymentSucceeded(s, ev, now, nowIso)
    else if name == "subscription_cancelled" || name == "subscription_expired" then
      Outcome(s.(subs := Cancel(s.subs, ev.dataId.GetOr(""))), WebhookReceived)
    else Outcome(s, WebhookReceived)
  }

  /** One delivery of `POST`: the signature gate, then the JSON gate, then the user id
      gate (an absent or empty id), then the dispatch. `digestOk` is the signature check. */
  function Deliver(s: BillingState, cfg: VariantConfig, digestOk: bool, parsed: Parsed,
                   now: Time, nowIso: string): (o: Outcome)
    ensures !digestOk ==> o == Outcome(s, WebhookRejected(InvalidSignature))
    ensures digestOk && parsed.NotJson? ==> o == Outcome(s, WebhookRejected(InvalidJson))
    ensures digestOk && parsed.JsonNull? ==> o == Outcome(s, WebhookCrashed)
    ensures digestOk && parsed.JsonValue? && parsed.event.userId.GetOr("") == "" ==>
              o == Outcome(s, WebhookRejected(NoUserId))
    ensures digestOk && parsed.JsonValue? && parsed.event.userId.GetOr("") != "" ==>
              o == Dispatch(s, cfg, parsed.event, parsed.event.userId.value, now, nowIso)
    ensures o.response.WebhookRejected? && o.response.error.status != 500 ==> o.state == s
  {
    if !digestOk then Outcome(s, WebhookRejected(InvalidSignature))
    else
      match parsed
      case NotJson => Outcome(s, WebhookRejected(InvalidJson))
      case JsonNull => Outcome(s, WebhookCrashed)
      case JsonValue(ev) =>
        var u := ev.userId.GetOr("");
        if u == "" then Outcome(s, WebhookRejected(NoUserId))
        else Dispatch(s, cfg, ev, u, now, nowIso)
  }

  /** The signature is checked before the body is looked at: a delivery with a bad
      signature has the same outcome whatever its body parses to. */
  lemma SignatureCheckedFirst(s: BillingState, cfg: VariantConfig, p1: Parsed, p2: Parsed, now: Time, nowIso: string)
    ensures Deliver(s, cfg, false, p1, now, nowIso) == Deliver(s, cfg, false, p2, now, nowIso)
    ensures Deliver(s, cfg, false, p1, now, nowIso).response == WebhookRejected(InvalidSignature)
  {
  }

  /** A replayed `order_created` delivery changes nothing: every way the first one can
      change the state logs its order id, which the second one finds and acknowledges. */
  lemma OrderReplayCreditsOnce(s: BillingState, cfg: VariantConfig, ev: Event, u: UserId)
    ensures var first := OrderCreated(s, cfg, ev, u);
            var second := OrderCreated(first.state, cfg, ev, u);
            && second.state == first.state
            && (first.state != s ==> second.response == WebhookReceived)
  {
    var first := OrderCreated(s, cfg, ev, u);
    var id := ev.dataId.GetOr("");
    if first.state != s {
      var pkg := FindVariant(CreditPackages(cfg), ev.firstOrderVariantId.GetOr("")).value;
      var l := first.state.ledger;
      assert l.log == s.ledger.log + [Txn(u, pkg.credits, Purchase, Some(id), None)];
      assert l.log[|l.log| - 1].lsOrderId == Some(id);
      assert HasOrder(l.log, id);
    } else if !HasOrder(s.ledger.log, id) && FindVariant(CreditPackages(cfg), ev.firstOrderVariantId.GetOr("")).Some? {
      // the credit failed for a missing user: the replay meets the same state and fails again
      var pkg := FindVariant(CreditPackages(cfg), ev.firstOrderVariantId.GetOr("")).value;
      assert Credit(s.ledger, u, pkg.credits, Purchase, Some(id), None).Err?;
    }
  }

  /** The same for whole deliveries: a valid `order_created` delivery sent twice leaves
      the state the first one left. */
  lemma OrderDeliveryReplay(s: BillingState, cfg: VariantConfig, ev: Event, now: Time, nowIso: string)
    requires ev.eventName == Some("order_created")
    ensures var first := Deliver(s, cfg, true, JsonValue(ev), now, nowIso);
            Deliver(first.state, cfg, true, JsonValue(ev), now, nowIso).state == first.state
  {
    if ev.userId.GetOr("") != "" {
      OrderReplayCreditsOnce(s, cfg, ev, ev.userId.GetOr(""));
    }
  }

  /** A new order for a package credits its owner exactly the package's credits, and
      logs one purchase entry tagged with the order id. */
  lemma OrderCreditsPackage(s: BillingState, cfg: VariantConfig, ev: Event, u: UserId, pkg: Offer)
    requires u in s.ledger.balances
    requires !HasOrder(s.ledger.log, ev.dataId.GetOr(""))
    requires FindVariant(CreditPackages(cfg), ev.firstOrderVariantId.GetOr("")) == Some(pkg)
    ensures var o := OrderCreated(s, cfg, ev, u);
            && o.response == WebhookReceived
            && o.state.ledger.balances == s.ledger.balances[u := s.ledger.balances[u] + pkg.credits]
            && o.state.ledger.log == s.ledger.log + [Txn(u, pkg.credits, Purchase, Some(ev.dataId.GetOr("")), None)]
            && (pkg.credits == 40 || pkg.credits == 120 || pkg.credits == 400)
  {
  }

  /** Renewals have no replay guard: a second `subscription_payment_success` for the same
      subscription credits its user again. */
  lemma PaymentReplayCreditsAgain(s: BillingState, ev: Event, now: Time, nowIso: string)
    requires ev.subscriptionId.GetOr("") in s.subs
    requires s.subs[ev.subscriptionId.GetOr("")].userId in s.ledger.balances
    ensures var first := PaymentSucceeded(s, ev, now, nowIso);
            var second := PaymentSucceeded(first.state, ev, now, nowIso);
            var sub := s.subs[ev.subscriptionId.GetOr("")];
            && second.response == WebhookReceived
            && second.state.ledger.balances[sub.userId] == s.ledger.balances[sub.userId] + 2 * sub.monthlyCredits
            && |second.state.ledger.log| == |s.ledger.log| + 2
  {
  }

  /** Cancellation and expiry touch only the status of that one subscription. */
  lemma EndingTouchesOnlyStatus(s: BillingState, cfg: VariantConfig, ev: Event, u: UserId, now: Time, nowIso: string)
    requires ev.eventName == Some("subscription_cancelled") || ev.eventName == Some("subscription_expired")
    ensures var o := Dispatch(s, cfg, ev, u, now, nowIso);
            && o.response == WebhookReceived && o.state.ledger == s.ledger && o.state.subs.Keys == s.subs.Keys
            && forall k :: k in s.subs ==>
                 o.state.subs[k] == if k == ev.dataId.GetOr("") then s.subs[k].(status := Cancelled) else s.subs[k]
  {
  }

  /** An event name the handler does not know is acknowledged and changes nothing. */
  lemma UnknownEventIgnored(s: BillingState, cfg: VariantConfig, ev: Event, u: UserId, now: Time, nowIso: string)
    requires ev.eventName.GetOr("") !in {"order_created", "subscription_created", "subscription_resumed",
                                          "subscription_payment_success", "subscription_cancelled",
                                          "subscription_expired"}
    ensures Dispatch(s, cfg, ev, u, now, nowIso) == Outcome(s, WebhookReceived)
  {
  }

  /** Every delivery keeps the subscription table keyed by id. */
  lemma DeliverKeepsKeys(s: BillingState, cfg: VariantConfig, digestOk: bool, parsed: Parsed, now: Time, nowIso: string)
    requires KeyedById(s.subs)
    ensures KeyedById(Deliver(s, cfg, digestOk, parsed, now, nowIso).state.subs)
  {
  }

  /** The ledger and the subscription table behind the webhook. */
  class BillingStore {
    const ledger: Ledger
    var subscriptions: map<string, Subscription>

    function State(): BillingState
      reads this, ledger
    {
      BillingState(ledger.State(), subscriptions)
    }

    ghost predicate Valid()
      reads this, ledger
    {
      ledger.Valid() && KeyedById(subscriptions)
    }

    constructor (ledger: Ledger)
      requires ledger.Valid()
      ensures Valid()
      ensures this.ledger == ledger && subscriptions == map[]
    {
      this.ledger := ledger;
      subscriptions := map[];
    }

    /** `addCredits` with the `catch` around it: true when it threw. */
    method GrantCredits(u: UserId, amount: int, kind: TxnType, lsOrderId: Option<string>) returns (threw: bool)
      requires Valid()
      requires kind != Usage
      modifies ledger
      ensures Valid()
      ensures var o := Grant(old(State()), u, amount, kind, lsOrderId);
              State() == o.state && threw == (o.response != WebhookReceived)
    {
      var r := ledger.AddCredits(u, amount, kind, lsOrderId, None);
      threw := r.Err?;
    }

    /** The `order_created` case. */
    method OrderCreatedCase(cfg: VariantConfig, ev: Event, u: UserId) returns (threw: bool)
      requires Valid()
      modifies ledger
      ensures Valid()
      ensures var o := OrderCreated(old(State()), cfg, ev, u);
              State() == o.state && threw == (o.response != WebhookReceived)
    {
      var variantId := ev.firstOrderVariantId.GetOr("");
      var lsOrderId := ev.dataId.GetOr("");
      if HasOrder(ledger.log, lsOrderId) {
        return false;
      }
      var pkg := FindVariant(CreditPackages(cfg), variantId);
      if pkg.None? {
        return false;
      }
      threw := GrantCredits(u, pkg.value.credits, Purchase, Some(lsOrderId));
    }

    /** The `subscription_created` / `subscription_resumed` case. */
    method SubscriptionStartedCase(cfg: VariantConfig, ev: Event, u: UserId, nowIso: string) returns (threw: bool)
      requires Valid()
      modifies this, ledger
      ensures Valid()
      ensures var o := SubscriptionStarted(old(State()), cfg, ev, u, nowIso);
              State() == o.state && threw == (o.response != WebhookReceived)
    {
      var lsSubId := ev.dataId.GetOr("");
      var subEntry := FindVariant(SubscriptionPlans(cfg), ev.variantId.GetOr(""));
      if subEntry.None? {
        return false;
      }
      var plan := subEntry.value;
      var renewsAt := ev.renewsAt.GetOr(nowIso);
      subscriptions := Upsert(subscriptions, lsSubId, u, plan, renewsAt);
      threw := GrantCredits(u, plan.credits, SubscriptionRenewal, None);
    }

    /** The `subscription_payment_success` case. */
    method PaymentSucceededCase(ev: Event, now: Time, nowIso: string) returns (threw: bool)
      requires Valid()
      modifies this, ledger
      ensures Valid()
      ensures var o := PaymentSucceeded(old(State()), ev, now, nowIso);
              State() == o.state && threw == (o.response != WebhookReceived)
    {
      var lsSubId := ev.subscriptionId.GetOr("");
      if lsSubId !in subscriptions {
        return false;
      }
      var subscription := subscriptions[lsSubId];
      var renewsAt := ev.renewsAt.GetOr(nowIso);
      subscriptions := subscriptions[lsSubId := subscription.(renewedAt := Some(now), currentPeriodEnd := renewsAt)];
      threw := GrantCredits(subscription.userId, subscription.monthlyCredits, SubscriptionRenewal, None);
    }

    /** `POST /api/webhooks/lemon-squeezy`. `hmac` is HMAC-SHA256, `parse` is `JSON.parse`,
        `now` and `nowIso` are `new Date()` and its ISO text. */
    method HandleWebhook(cfg: VariantConfig, secret: string, hmac: (string, string) -> seq<byte>,
                         parse: string -> Parsed, payload: string, signatureHeader: Option<string>,
                         now: Time, nowIso: string) returns (resp: WebhookResponse)
      requires Valid()
      modifies this, ledger
      ensures Valid()
      ensures var o := Deliver(old(State()), cfg, VerifyWebhookSignature(hmac, secret, payload, signatureHeader.GetOr("")),
                               parse(payload), now, nowIso);
              State() == o.state && resp == o.response
    {
      var signature := signatureHeader.GetOr("");
      if !VerifyWebhookSignature(hmac, secret, payload, signature) {
        return WebhookRejected(InvalidSignature);
      }
      var event := parse(payload);
      if event.NotJson? {
        return WebhookRejected(InvalidJson);
      }
      if event.JsonNull? {
        return WebhookCrashed;
      }
      var ev := event.event;
      var eventName := ev.eventName.GetOr("");
      var userId := ev.userId.GetOr("");
      if userId == "" {
        return WebhookRejected(NoUserId);
      }
      var threw := false;
      if eventName == "order_created" {
        threw := OrderCreatedCase(cfg, ev, userId);
      } else if eventName == "subscription_created" || eventName == "subscription_resumed" {
        threw := SubscriptionStartedCase(cfg, ev, userId, nowIso);
      } else if eventName == "subscription_payment_success" {
        threw := PaymentSucceededCase(ev, now, nowIso);
      } else if eventName == "subscription_cancelled" || eventName == "subscription_expired" {
        subscriptions := Cancel(subscriptions, ev.dataId.GetOr(""));
      }
      if threw {
        return WebhookRejected(InternalError);
      }
      resp := WebhookReceived;
    }
  }
}
