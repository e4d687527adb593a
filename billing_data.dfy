/**
 * The billing tables the payment-provider webhook and the billing actions
 * write: products, prices and subscriptions keyed by the provider's ids,
 * and the customers table linking a user id to a provider customer id.
 */
module BillingData {
  import opened Common

  datatype ProductRow = ProductRow(
    id: string,
    active: bool,
    name: string,
    description: Option<string>,
    image: Option<string>,
    metadata: map<string, string>)

  datatype PriceRow = PriceRow(
    id: string,
    productId: string,
    active: bool,
    description: Option<string>,
    unitAmount: Option<int>,
    currency: string,
    priceType: string,
    interval: Option<string>,
    intervalCount: Option<int>,
    trialPeriodDays: Option<int>,
    metadata: map<string, string>)

  /** Times are kept as the provider's Unix seconds; the conversion to an
      ISO string is not modelled. */
  datatype SubscriptionRow = SubscriptionRow(
    id: string,
    userId: string,
    status: string,
    metadata: map<string, string>,
    priceId: string,
    quantity: Option<int>,
    cancelAtPeriodEnd: bool,
    currentPeriodStart: int,
    currentPeriodEnd: int,
    endedAt: Option<int>,
    cancelAt: Option<int>,
    canceledAt: Option<int>,
    trialStart: Option<int>,
    trialEnd: Option<int>)

  /** A `customers` row: the user id (primary key) and the provider's
      customer id, which may be null. */
  datatype CustomerRow = CustomerRow(id: string, stripeCustomerId: Option<string>)

  /** Customer rows are keyed by user id. */
  ghost predicate UniqueCustomerIds(rows: seq<CustomerRow>)
  {
    forall i, j :: 0 <= i < j < |rows| ==> rows[i].id != rows[j].id
  }

  /** `.select("stripe_customer_id").eq("id", userId).single()` */
  function CustomerOf(rows: seq<CustomerRow>, userId: string): (r: Option<CustomerRow>)
    ensures r.Some? ==> r.value in rows && r.value.id == userId
    ensures r.None? ==> forall k :: 0 <= k < |rows| ==> rows[k].id != userId
  {
    if rows == [] then None
    else if rows[0].id == userId then Some(rows[0])
    else CustomerOf(rows[1..], userId)
  }

  /** `.upsert({id, stripe_customer_id})` on the customers table: the row
      with that user id is replaced, or the row is added. */
  function UpsertCustomer(rows: seq<CustomerRow>, row: CustomerRow): (r: seq<CustomerRow>)
    ensures CustomerOf(r, row.id) == Some(row)
    ensures forall u :: u != row.id ==> CustomerOf(r, u) == CustomerOf(rows, u)
    ensures forall x :: x in r ==> x in rows || x == row
  {
    if rows == [] then [row]
    else if rows[0].id == row.id then [row] + rows[1..]
    else [rows[0]] + UpsertCustomer(rows[1..], row)
  }

  /** The upsert keeps user ids unique. */
  lemma {:induction false} UpsertCustomerUnique(rows: seq<CustomerRow>, row: CustomerRow)
    requires UniqueCustomerIds(rows)
    ensures UniqueCustomerIds(UpsertCustomer(rows, row))
  {
    if rows != [] && rows[0].id != row.id {
      UpsertCustomerUnique(rows[1..], row);
      var rest := UpsertCustomer(rows[1..], row);
      forall j | 0 <= j < |rest| ensures rest[j].id != rows[0].id {
        assert rest[j] in rest;
        if rest[j] != row {
          var k :| 0 <= k < |rows[1..]| && rows[1..][k] == rest[j];
          assert rows[k + 1] == rest[j];
        }
      }
      var r := [rows[0]] + rest;
      assert forall j :: 1 <= j < |r| ==> r[j] == rest[j - 1];
    } else if rows != [] {
      var r := UpsertCustomer(rows, row);
      assert forall j :: 1 <= j < |r| ==> r[j] == rows[j];
    }
  }

  /** User ids whose row carries the given provider customer id, in table order. */
  function UsersWithCustomer(rows: seq<CustomerRow>, customerId: string): (ids: seq<string>)
    ensures |ids| <= |rows|
    ensures forall u :: u in ids <==> exists k :: 0 <= k < |rows| && rows[k].id == u && rows[k].stripeCustomerId == Some(customerId)
  {
    if rows == [] then []
    else
      var rest := UsersWithCustomer(rows[1..], customerId);
      assert forall k :: 1 <= k < |rows| ==> rows[k] == rows[1..][k - 1];
      (if rows[0].stripeCustomerId == Some(customerId) then [rows[0].id] else []) + rest
  }

  class BillingTables {
    var products: map<string, ProductRow>
    var prices: map<string, PriceRow>
    var subscriptions: map<string, SubscriptionRow>
    var customers: seq<CustomerRow>

    /** Every row is stored under its own id. */
    ghost predicate Valid()
      reads this
    {
      && (forall id :: id in products ==> products[id].id == id)
      && (forall id :: id in prices ==> prices[id].id == id)
      && (forall id :: id in subscriptions ==> subscriptions[id].id == id)
      && UniqueCustomerIds(customers)
    }

    constructor ()
      ensures Valid()
      ensures products == map[] && prices == map[] && subscriptions == map[] && customers == []
    {
      products := map[];
      prices := map[];
      subscriptions := map[];
      customers := [];
    }
  }
}
