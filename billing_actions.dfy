/**
 * The billing server actions: starting a subscription checkout (with the
 * get-or-create step for the provider customer) and opening the billing
 * portal. The provider's calls are parameters: the id of a newly created
 * customer and the URL of the created checkout session.
 */
module BillingActions {
  import opened Common
  import opened BillingData
  import Plans

  /** `STRIPE_PRICES[planId]`: only the two paid plan keys have an entry. */
  function ConfiguredPrice(env: Plans.PriceEnv, planId: string): (r: Option<string>)
    ensures planId == "pro" ==> r == env.pro
    ensures planId == "agency" ==> r == env.agency
    ensures planId != "pro" && planId != "agency" ==> r.None?
  {
    if planId == "pro" then env.pro else if planId == "agency" then env.agency else None
  }

  /** `Price not configured for ${planId} plan. Set STRIPE_PRICE_${planId.toUpperCase()} env var.` */
  function PriceNotConfigured(planId: string): string
  {
    "Price not configured for " + planId + " plan. Set STRIPE_PRICE_" + ToUpper(planId) + " env var."
  }

  const BillingAccountFailed := "Failed to create billing account"
  const CheckoutFailed := "Failed to create checkout session"
  const NoBillingAccount := "No billing account found"

  /** The customer the provider is asked to create. */
  datatype NewCustomer = NewCustomer(email: Option<string>, userId: string)

  /** The checkout session the provider is asked to create: subscription
      mode, one unit of the price, with the user id in the subscription's
      metadata. */
  datatype CheckoutRequest = CheckoutRequest(
    customer: string,
    price: string,
    quantity: nat,
    successUrl: string,
    cancelUrl: string,
    userId: string)

  function AppUrl(appUrl: Option<string>): string
  {
    Coalesce(appUrl, "undefined")
  }

  /** `createCheckoutSession(planId)`. `lookupFailed` is whether the
      customers query returns an error, which the action ignores (its
      `customer` is then null, as for a missing row); `newCustomerId` is the
      id the provider gives a created customer, `upsertFailed` whether
      storing it fails, and `sessionUrl` the created session's URL; the
      result is the redirect target or an error. */
  method CreateCheckoutSession(db: BillingTables, planId: string, env: Plans.PriceEnv, user: Option<AuthUser>,
                               lookupFailed: bool, newCustomerId: string, upsertFailed: bool,
                               sessionUrl: Option<string>, appUrl: Option<string>)
    returns (r: Result<string, string>, created: Option<NewCustomer>, request: Option<CheckoutRequest>)
    requires db.Valid()
    modifies db`customers
    ensures db.Valid()
    ensures !Truthy(ConfiguredPrice(env, planId)) ==>
              r == Err(PriceNotConfigured(planId)) && created.None? && request.None? && db.customers == old(db.customers)
    ensures Truthy(ConfiguredPrice(env, planId)) && user.None? ==>
              r == Err(NotAuthenticated) && created.None? && request.None? && db.customers == old(db.customers)
    ensures (Truthy(ConfiguredPrice(env, planId)) && user.Some? && !lookupFailed
             && CustomerOf(old(db.customers), user.value.id).Some?
             && Truthy(CustomerOf(old(db.customers), user.value.id).value.stripeCustomerId)) ==>
              && created.None? && db.customers == old(db.customers)
              && request.Some?
              && request.value.customer == CustomerOf(old(db.customers), user.value.id).value.stripeCustomerId.value
    ensures (Truthy(ConfiguredPrice(env, planId)) && user.Some?
             && !(!lookupFailed && CustomerOf(old(db.customers), user.value.id).Some?
                  && Truthy(CustomerOf(old(db.customers), user.value.id).value.stripeCustomerId))) ==>
              && created == Some(NewCustomer(user.value.email, user.value.id))
              && (upsertFailed ==> r == Err(BillingAccountFailed) && request.None? && db.customers == old(db.customers))
              && (!upsertFailed ==>
                    && db.customers == UpsertCustomer(old(db.customers), CustomerRow(user.value.id, Some(newCustomerId)))
                    && request.Some? && request.value.customer == newCustomerId)
    ensures request.Some? ==>
              && user.Some? && request.value.userId == user.value.id
              && request.value.price == ConfiguredPrice(env, planId).value && request.value.quantity == 1
              && request.value.successUrl == AppUrl(appUrl) + "/settings?success=true"
              && request.value.cancelUrl == AppUrl(appUrl) + "/settings?canceled=true"
              && (Truthy(sessionUrl) ==> r == Ok(sessionUrl.value))
              && (!Truthy(sessionUrl) ==> r == Err(CheckoutFailed))
  {
    created, request := None, None;
    var priceId := ConfiguredPrice(env, planId);
    if !Truthy(priceId) {
      return Err(PriceNotConfigured(planId)), created, request;
    }
    if user.None? {
      return Err(NotAuthenticated), created, request;
    }
    var uid := user.value.id;
    var customer := if lookupFailed then None else CustomerOf(db.customers, uid);
    var stripeCustomerId := if customer.Some? then customer.value.stripeCustomerId else None;
    if !Truthy(stripeCustomerId) {
      created := Some(NewCustomer(user.value.email, uid));
      stripeCustomerId := Some(newCustomerId);
      if upsertFailed {
        return Err(BillingAccountFailed), created, request;
      }
      UpsertCustomerUnique(db.customers, CustomerRow(uid, stripeCustomerId));
      db.customers := UpsertCustomer(db.customers, CustomerRow(uid, stripeCustomerId));
    }
    request := Some(CheckoutRequest(stripeCustomerId.value, priceId.value, 1,
                                    AppUrl(appUrl) + "/settings?success=true",
                                    AppUrl(appUrl) + "/settings?canceled=true", uid));
    if !Truthy(sessionUrl) {
      return Err(CheckoutFailed), created, request;
    }
    r := Ok(sessionUrl.value);
  }

  /** The portal session the provider is asked to create. */
  datatype PortalRequest = PortalRequest(customer: string, returnUrl: string)

  /** `createPortalSession()`: requires a stored provider customer id.
      `lookupFailed` is whether the customers query returns an error, which
      the action ignores, so it answers as for a missing row. */
  function CreatePortalSession(user: Option<AuthUser>, customers: seq<CustomerRow>, lookupFailed: bool,
                               appUrl: Option<string>)
    : (r: Result<PortalRequest, string>)
    ensures user.None? ==> r == Err(NotAuthenticated)
    ensures r.Ok? <==> user.Some? && !lookupFailed && CustomerOf(customers, user.value.id).Some?
                       && Truthy(CustomerOf(customers, user.value.id).value.stripeCustomerId)
    ensures user.Some? && r.Err? ==> r == Err(NoBillingAccount)
    ensures user.Some? && lookupFailed ==> r == Err(NoBillingAccount)
    ensures r.Ok? ==> exists k :: 0 <= k < |customers| && customers[k].id == user.value.id
                                  && customers[k].stripeCustomerId == Some(r.value.customer)
    ensures r.Ok? ==> r.value.returnUrl == AppUrl(appUrl) + "/settings"
  {
    if user.None? then Err(NotAuthenticated)
    else
      var customer := if lookupFailed then None else CustomerOf(customers, user.value.id);
      if customer.None? || !Truthy(customer.value.stripeCustomerId) then Err(NoBillingAccount)
      else Ok(PortalRequest(customer.value.stripeCustomerId.value, AppUrl(appUrl) + "/settings"))
  }
}
