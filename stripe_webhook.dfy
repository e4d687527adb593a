/**
 * The payment-provider webhook: the signature gate, the allow-list of event
 * kinds, and the keyed upserts into the products, prices and subscriptions
 * tables. Signature verification, the subscription retrieval, the
 * customer lookup query's failure and each table write's failure are
 * parameters.
 */
module StripeWebhook {
  import opened Common
  import opened BillingData

  // ---------------------------------------------------------------------------
  // The provider's objects, as far as the handler reads them

  datatype StripeProduct = StripeProduct(
    id: string,
    active: bool,
    name: string,
    description: Option<string>,
    images: Option<seq<string>>,
    metadata: map<string, string>)

  /** A price's `product`: an id, or the product object when expanded. */
  datatype ProductRef = ProductId(id: string) | Expanded(product: StripeProduct)

  datatype Recurring = Recurring(interval: string, intervalCount: int, trialPeriodDays: Option<int>)

  datatype StripePrice = StripePrice(
    id: string,
    product: ProductRef,
    active: bool,
    nickname: Option<string>,
    unitAmount: Option<int>,
    currency: string,
    priceType: string,
    recurring: Option<Recurring>,
    metadata: map<string, string>)

  datatype SubscriptionItem = SubscriptionItem(price: StripePrice, quantity: Option<int>)

  datatype StripeSubscription = StripeSubscription(
    id: string,
    customer: string,
    status: string,
    metadata: map<string, string>,
    items: seq<SubscriptionItem>,
    cancelAtPeriodEnd: bool,
    currentPeriodStart: int,
    currentPeriodEnd: int,
    endedAt: Option<int>,
    cancelAt: Option<int>,
    canceledAt: Option<int>,
    trialStart: Option<int>,
    trialEnd: Option<int>)

  datatype CheckoutSession = CheckoutSession(mode: string, subscription: Option<string>)

  datatype EventObject =
    | ProductObject(product: StripeProduct)
    | PriceObject(price: StripePrice)
    | SubscriptionObject(subscription: StripeSubscription)
    | SessionObject(session: CheckoutSession)
    | OtherObject

  datatype StripeEvent = StripeEvent(eventType: string, data: EventObject)

  /** The event kinds whose `object` has the shape the handler casts it to. */
  predicate WellTyped(e: StripeEvent)
  {
    && (e.eventType in {"product.created", "product.updated"} ==> e.data.ProductObject?)
    && (e.eventType in {"price.created", "price.updated"} ==> e.data.PriceObject?)
    && (e.eventType in SubscriptionEvents ==> e.data.SubscriptionObject?)
    && (e.eventType == "checkout.session.completed" ==> e.data.SessionObject?)
  }

  const SubscriptionEvents: set<string> :=
    {"customer.subscription.created", "customer.subscription.updated", "customer.subscription.deleted"}

  const RelevantEvents: set<string> := {
    "checkout.session.completed",
    "customer.subscription.created",
    "customer.subscription.updated",
    "customer.subscription.deleted",
    "product.created",
    "product.updated",
    "price.created",
    "price.updated"
  }

  // ---------------------------------------------------------------------------
  // The rows written

  /** `product.images?.[0] ?? null` */
  function FirstImage(images: Option<seq<string>>): (r: Option<string>)
    ensures r.Some? <==> images.Some? && |images.value| > 0
    ensures r.Some? ==> r.value == images.value[0]
  {
    if images.Some? && |images.value| > 0 then Some(images.value[0]) else None
  }

  function ProductRowOf(p: StripeProduct): (row: ProductRow)
    ensures row.id == p.id && row.active == p.active && row.name == p.name
    ensures row.description == p.description && row.image == FirstImage(p.images) && row.metadata == p.metadata
  {
    ProductRow(p.id, p.active, p.name, p.description, FirstImage(p.images), p.metadata)
  }

  /** `typeof price.product === 'string' ? price.product : price.product.id` */
  function ProductIdOf(ref: ProductRef): (id: string)
    ensures ref.ProductId? ==> id == ref.id
    ensures ref.Expanded? ==> id == ref.product.id
  {
    match ref
    case ProductId(id) => id
    case Expanded(product) => product.id
  }

  function PriceRowOf(p: StripePrice): (row: PriceRow)
    ensures row.id == p.id && row.productId == ProductIdOf(p.product)
    ensures row.description == p.nickname && row.unitAmount == p.unitAmount && row.currency == p.currency
    ensures row.interval.Some? <==> p.recurring.Some?
    ensures p.recurring.Some? ==> row.interval == Some(p.recurring.value.interval)
                                  && row.intervalCount == Some(p.recurring.value.intervalCount)
                                  && row.trialPeriodDays == p.recurring.value.trialPeriodDays
    ensures p.recurring.None? ==> row.intervalCount.None? && row.trialPeriodDays.None?
  {
    var rec := p.recurring;
    PriceRow(p.id, ProductIdOf(p.product), p.active, p.nickname, p.unitAmount, p.currency, p.priceType,
             if rec.Some? then Some(rec.value.interval) else None,
             if rec.Some? then Some(rec.value.intervalCount) else None,
             if rec.Some? then rec.value.trialPeriodDays else None,
             p.metadata)
  }

  /** `t ? toISOString(t * 1000) : null`: a zero or missing time is null. */
  function TimeOrNull(t: Option<int>): (r: Option<int>)
    ensures r.Some? <==> t.Some? && t.value != 0
    ensures r.Some? ==> r == t
  {
    if t.Some? && t.value != 0 then t else None
  }

  function SubscriptionRowOf(s: StripeSubscription, userId: string): (row: SubscriptionRow)
    requires |s.items| > 0
    ensures row.id == s.id && row.userId == userId && row.status == s.status
    ensures row.priceId == s.items[0].price.id && row.quantity == s.items[0].quantity
    ensures row.endedAt == TimeOrNull(s.endedAt) && row.cancelAt == TimeOrNull(s.cancelAt)
    ensures row.canceledAt == TimeOrNull(s.canceledAt)
    ensures row.trialStart == TimeOrNull(s.trialStart) && row.trialEnd == TimeOrNull(s.trialEnd)
  {
    SubscriptionRow(s.id, userId, s.status, s.metadata, s.items[0].price.id, s.items[0].quantity,
                    s.cancelAtPeriodEnd, s.currentPeriodStart, s.currentPeriodEnd,
                    TimeOrNull(s.endedAt), TimeOrNull(s.cancelAt), TimeOrNull(s.canceledAt),
                    TimeOrNull(s.trialStart), TimeOrNull(s.trialEnd))
  }

  /** `getUserIdFromCustomer(customerId)`: `.single()` yields a row only when
      exactly one customer row carries that provider id; otherwise, or when
      the query fails, the answer is null. */
  function UserIdFromCustomer(rows: seq<CustomerRow>, customerId: string, lookupFailed: bool): (r: Option<string>)
    ensures r.Some? ==> !lookupFailed && UsersWithCustomer(rows, customerId) == [r.value]
    ensures r.None? ==> lookupFailed || |UsersWithCustomer(rows, customerId)| != 1
  {
    var ids := UsersWithCustomer(rows, customerId);
    if lookupFailed || |ids| != 1 then None else Some(ids[0])
  }

  /** `metadata.supabase_user_id || getUserIdFromCustomer(customer)`, then
      `if (!userId) return`: the owner, or None when the write is skipped. */
  function SubscriptionOwner(s: StripeSubscription, customers: seq<CustomerRow>, lookupFailed: bool)
    : (r: Option<string>)
    ensures r.Some? ==> r.value != ""
    ensures "supabase_user_id" in s.metadata && s.metadata["supabase_user_id"] != "" ==>
              r == Some(s.metadata["supabase_user_id"])
    ensures !("supabase_user_id" in s.metadata && s.metadata["supabase_user_id"] != "") ==>
              (r.Some? <==> Truthy(UserIdFromCustomer(customers, s.customer, lookupFailed)))
              && (r.Some? ==> r == UserIdFromCustomer(customers, s.customer, lookupFailed))
  {
    var fromMetadata := if "supabase_user_id" in s.metadata then Some(s.metadata["supabase_user_id"]) else None;
    var userId := if Truthy(fromMetadata) then fromMetadata else UserIdFromCustomer(customers, s.customer, lookupFailed);
    if Truthy(userId) then userId else None
  }

  // ---------------------------------------------------------------------------
  // The handler

  /** The tables a write goes to; a write may fail, which throws. */
  datatype Table = Products | Prices | Subscriptions

  datatype WebhookResponse = Received | Rejected(status: nat, error: string)

  const HandlerFailed := "Webhook handler failed"

  /** `upsertProduct(product)` */
  method UpsertProduct(db: BillingTables, p: StripeProduct, writeOk: Table -> bool) returns (threw: bool)
    requires db.Valid()
    modifies db`products
    ensures db.Valid()
    ensures threw <==> !writeOk(Products)
    ensures db.products == if threw then old(db.products) else old(db.products)[p.id := ProductRowOf(p)]
  {
    if !writeOk(Products) {
      return true;
    }
    db.products := db.products[p.id := ProductRowOf(p)];
    threw := false;
  }

  /** `upsertPrice(price)` */
  method UpsertPrice(db: BillingTables, p: StripePrice, writeOk: Table -> bool) returns (threw: bool)
    requires db.Valid()
    modifies db`prices
    ensures db.Valid()
    ensures threw <==> !writeOk(Prices)
    ensures db.prices == if threw then old(db.prices) else old(db.prices)[p.id := PriceRowOf(p)]
  {
    if !writeOk(Prices) {
      return true;
    }
    db.prices := db.prices[p.id := PriceRowOf(p)];
    threw := false;
  }

  /** `upsertSubscription(subscription)`: reading `items.data[0]` of an
      empty item list throws. */
  method UpsertSubscription(db: BillingTables, s: StripeSubscription, lookupFailed: bool, writeOk: Table -> bool)
    returns (threw: bool)
    requires db.Valid()
    modifies db`subscriptions
    ensures db.Valid()
    ensures SubscriptionOwner(s, db.customers, lookupFailed).None? ==> !threw && db.subscriptions == old(db.subscriptions)
    ensures SubscriptionOwner(s, db.customers, lookupFailed).Some? ==>
              && (threw <==> |s.items| == 0 || !writeOk(Subscriptions))
              && db.subscriptions == if threw then old(db.subscriptions)
                                     else old(db.subscriptions)[s.id := SubscriptionRowOf(s, SubscriptionOwner(s, db.customers, lookupFailed).value)]
  {
    var owner := SubscriptionOwner(s, db.customers, lookupFailed);
    if owner.None? {
      return false;
    }
    if |s.items| == 0 || !writeOk(Subscriptions) {
      return true;
    }
    db.subscriptions := db.subscriptions[s.id := SubscriptionRowOf(s, owner.value)];
    threw := false;
  }

  /** `deleteSubscription(subscription)`: the row stays, marked canceled
      with an end time; an unknown id updates nothing. */
  method DeleteSubscription(db: BillingTables, s: StripeSubscription, writeOk: Table -> bool, now: int)
    returns (threw: bool)
    requires db.Valid()
    modifies db`subscriptions
    ensures db.Valid()
    ensures threw <==> !writeOk(Subscriptions)
    ensures threw || s.id !in old(db.subscriptions) ==> db.subscriptions == old(db.subscriptions)
    ensures !threw && s.id in old(db.subscriptions) ==>
              db.subscriptions == old(db.subscriptions)[s.id := Canceled(old(db.subscriptions)[s.id], now)]
  {
    if !writeOk(Subscriptions) {
      return true;
    }
    if s.id in db.subscriptions {
      db.subscriptions := db.subscriptions[s.id := Canceled(db.subscriptions[s.id], now)];
    }
    threw := false;
  }

  /** The subscription row after a delete event. */
  function Canceled(row: SubscriptionRow, now: int): (r: SubscriptionRow)
    ensures r.status == "canceled" && r.endedAt == Some(now)
    ensures r.(status := row.status, endedAt := row.endedAt) == row
  {
    row.(status := "canceled", endedAt := Some(now))
  }

  /** `POST(request)`. `constructed` is the verified event, None when
      verification throws; `retrieved` is the subscription fetched for a
      completed checkout, None when the retrieval throws. */
  method HandleWebhook(db: BillingTables, signature: Option<string>, constructed: Option<StripeEvent>,
                       retrieved: Option<StripeSubscription>, lookupFailed: bool,
                       writeOk: Table -> bool, now: int)
    returns (resp: WebhookResponse)
    requires db.Valid()
    requires constructed.Some? ==> WellTyped(constructed.value)
    // the retrieval asks for the price's product to be expanded
    requires retrieved.Some? && |retrieved.value.items| > 0 ==> retrieved.value.items[0].price.product.Expanded?
    modifies db`products, db`prices, db`subscriptions
    ensures db.Valid()
    ensures !Truthy(signature) ==> resp == Rejected(400, "No signature") && unchanged(db)
    ensures Truthy(signature) && constructed.None? ==> resp == Rejected(400, "Invalid signature") && unchanged(db)
    ensures (Truthy(signature) && constructed.Some? && constructed.value.eventType !in RelevantEvents) ==>
              resp == Received && unchanged(db)
    ensures resp.Rejected? ==> resp == Rejected(400, "No signature") || resp == Rejected(400, "Invalid signature")
                               || resp == Rejected(500, HandlerFailed)
    ensures db.customers == old(db.customers)
    ensures (Truthy(signature) && constructed.Some? && constructed.value.eventType == "checkout.session.completed"
             && !(constructed.value.data.session.mode == "subscription"
                  && Truthy(constructed.value.data.session.subscription))) ==>
              resp == Received && unchanged(db)
    ensures (Truthy(signature) && constructed.Some?
             && constructed.value.eventType in {"product.created", "product.updated"}) ==>
              var p := constructed.value.data.product;
              && db.prices == old(db.prices) && db.subscriptions == old(db.subscriptions)
              && (writeOk(Products) ==> resp == Received && db.products == old(db.products)[p.id := ProductRowOf(p)])
              && (!writeOk(Products) ==> resp == Rejected(500, HandlerFailed) && db.products == old(db.products))
    ensures (Truthy(signature) && constructed.Some?
             && constructed.value.eventType in {"price.created", "price.updated"}) ==>
              var p := constructed.value.data.price;
              && db.products == old(db.products) && db.subscriptions == old(db.subscriptions)
              && (writeOk(Prices) ==> resp == Received && db.prices == old(db.prices)[p.id := PriceRowOf(p)])
              && (!writeOk(Prices) ==> resp == Rejected(500, HandlerFailed) && db.prices == old(db.prices))
    ensures (Truthy(signature) && constructed.Some?
             && constructed.value.eventType == "customer.subscription.deleted") ==>
              var s := constructed.value.data.subscription;
              && db.products == old(db.products) && db.prices == old(db.prices)
              && (s.id in old(db.subscriptions) && writeOk(Subscriptions) ==>
                    db.subscriptions == old(db.subscriptions)[s.id := Canceled(old(db.subscriptions)[s.id], now)])
              && (!writeOk(Subscriptions) || s.id !in old(db.subscriptions) ==> db.subscriptions == old(db.subscriptions))
              && (writeOk(Subscriptions) ==> resp == Received)
              && (!writeOk(Subscriptions) ==> resp == Rejected(500, HandlerFailed))
    ensures (Truthy(signature) && constructed.Some?
             && constructed.value.eventType in {"customer.subscription.created", "customer.subscription.updated"}) ==>
              var s := constructed.value.data.subscription;
              var owner := SubscriptionOwner(s, old(db.customers), lookupFailed);
              && db.products == old(db.products) && db.prices == old(db.prices)
              && (owner.None? ==> resp == Received && db.subscriptions == old(db.subscriptions))
              && (owner.Some? && |s.items| > 0 && writeOk(Subscriptions) ==>
                    resp == Received && db.subscriptions == old(db.subscriptions)[s.id := SubscriptionRowOf(s, owner.value)])
              && (owner.Some? && (|s.items| == 0 || !writeOk(Subscriptions)) ==>
                    resp == Rejected(500, HandlerFailed) && db.subscriptions == old(db.subscriptions))
    ensures (Truthy(signature) && constructed.Some? && constructed.value.eventType == "checkout.session.completed"
             && constructed.value.data.session.mode == "subscription"
             && Truthy(constructed.value.data.session.subscription)) ==>
              CheckoutWrites(old(db.products), old(db.prices), old(db.subscriptions), old(db.customers),
                             retrieved, lookupFailed, writeOk,
                             db.products, db.prices, db.subscriptions, resp)
  {
    if !Truthy(signature) {
      return Rejected(400, "No signature");
    }
    if constructed.None? {
      return Rejected(400, "Invalid signature");
    }
    var event := constructed.value;
    if event.eventType !in RelevantEvents {
      return Received;
    }
    var threw := false;
    if event.eventType == "product.created" || event.eventType == "product.updated" {
      threw := UpsertProduct(db, event.data.product, writeOk);
    } else if event.eventType == "price.created" || event.eventType == "price.updated" {
      threw := UpsertPrice(db, event.data.price, writeOk);
    } else if event.eventType == "checkout.session.completed" {
      var session := event.data.session;
      if session.mode == "subscription" && Truthy(session.subscription) {
        threw := Checkout(db, retrieved, lookupFailed, writeOk);
      }
    } else if event.eventType == "customer.subscription.created" || event.eventType == "customer.subscription.updated" {
      threw := UpsertSubscription(db, event.data.subscription, lookupFailed, writeOk);
    } else {
      threw := DeleteSubscription(db, event.data.subscription, writeOk, now);
    }
    if threw {
      return Rejected(500, HandlerFailed);
    }
    resp := Received;
  }

  /** What a completed subscription checkout writes: the product, then the
      price, then the subscription, stopping at the first throw. */
  ghost predicate CheckoutWrites(products0: map<string, ProductRow>, prices0: map<string, PriceRow>,
                                 subs0: map<string, SubscriptionRow>, customers: seq<CustomerRow>,
                                 retrieved: Option<StripeSubscription>, lookupFailed: bool, writeOk: Table -> bool,
                                 products: map<string, ProductRow>, prices: map<string, PriceRow>,
                                 subs: map<string, SubscriptionRow>, resp: WebhookResponse)
    requires retrieved.Some? && |retrieved.value.items| > 0 ==> retrieved.value.items[0].price.product.Expanded?
  {
    if retrieved.None? || |retrieved.value.items| == 0 then
      resp == Rejected(500, HandlerFailed) && products == products0 && prices == prices0 && subs == subs0
    else
      var s := retrieved.value;
      var price := s.items[0].price;
      var product := price.product.product;
      var products1 := products0[product.id := ProductRowOf(product)];
      var prices1 := prices0[price.id := PriceRowOf(price)];
      var owner := SubscriptionOwner(s, customers, lookupFailed);
      if !writeOk(Products) then
        resp == Rejected(500, HandlerFailed) && products == products0 && prices == prices0 && subs == subs0
      else if !writeOk(Prices) then
        resp == Rejected(500, HandlerFailed) && products == products1 && prices == prices0 && subs == subs0
      else if owner.None? then
        resp == Received && products == products1 && prices == prices1 && subs == subs0
      else if !writeOk(Subscriptions) then
        resp == Rejected(500, HandlerFailed) && products == products1 && prices == prices1 && subs == subs0
      else
        resp == Received && products == products1 && prices == prices1
        && subs == subs0[s.id := SubscriptionRowOf(s, owner.value)]
  }

  /** The `checkout.session.completed` branch for a subscription session. */
  method Checkout(db: BillingTables, retrieved: Option<StripeSubscription>, lookupFailed: bool, writeOk: Table -> bool)
    returns (threw: bool)
    requires db.Valid()
    requires retrieved.Some? && |retrieved.value.items| > 0 ==> retrieved.value.items[0].price.product.Expanded?
    modifies db`products, db`prices, db`subscriptions
    ensures db.Valid()
    ensures CheckoutWrites(old(db.products), old(db.prices), old(db.subscriptions), old(db.customers),
                           retrieved, lookupFailed, writeOk, db.products, db.prices, db.subscriptions,
                           if threw then Rejected(500, HandlerFailed) else Received)
  {
    if retrieved.None? || |retrieved.value.items| == 0 {
      return true;
    }
    var s := retrieved.value;
    var price := s.items[0].price;
    threw := UpsertProduct(db, price.product.product, writeOk);
    if threw {
      return;
    }
    threw := UpsertPrice(db, price, writeOk);
    if threw {
      return;
    }
    threw := UpsertSubscription(db, s, lookupFailed, writeOk);
  }

  // ---------------------------------------------------------------------------
  // Properties

  /** Upserts are keyed: replaying a product event leaves one row for the id,
      holding the latest values. */
  lemma ProductReplay(products: map<string, ProductRow>, p1: StripeProduct, p2: StripeProduct)
    requires p1.id == p2.id
    ensures products[p1.id := ProductRowOf(p1)][p2.id := ProductRowOf(p2)] == products[p2.id := ProductRowOf(p2)]
    ensures |products[p1.id := ProductRowOf(p1)].Keys| <= |products.Keys| + 1
  {
    var m := products[p1.id := ProductRowOf(p1)];
    if p1.id in products {
      assert m.Keys == products.Keys;
    } else {
      assert m.Keys == products.Keys + {p1.id};
    }
  }

  /** A subscription's owner from metadata wins over the customer table. */
  lemma MetadataOwnerWins(s: StripeSubscription, c1: seq<CustomerRow>, c2: seq<CustomerRow>, f1: bool, f2: bool)
    requires "supabase_user_id" in s.metadata && s.metadata["supabase_user_id"] != ""
    ensures SubscriptionOwner(s, c1, f1) == SubscriptionOwner(s, c2, f2)
  {
  }

  /** A customer lookup that resolves names a user whose row carries the
      subscription's customer id. */
  lemma CustomerOwnerIsLinked(s: StripeSubscription, customers: seq<CustomerRow>, lookupFailed: bool)
    requires !("supabase_user_id" in s.metadata && s.metadata["supabase_user_id"] != "")
    requires SubscriptionOwner(s, customers, lookupFailed).Some?
    ensures exists k :: 0 <= k < |customers| && customers[k].id == SubscriptionOwner(s, customers, lookupFailed).value
                        && customers[k].stripeCustomerId == Some(s.customer)
  {
    var u := SubscriptionOwner(s, customers, lookupFailed).value;
    assert u in UsersWithCustomer(customers, s.customer);
  }
}
