/**
 * The billing plan table and its lookups. The two paid plans take their
 * provider price ids from the environment, which is a parameter here.
 */
module Plans {
  import opened Common

  datatype PlanId = Free | Pro | Agency

  datatype Plan = Plan(
    id: PlanId,
    name: string,
    description: string,
    quota: nat,
    priceId: Option<string>,
    priceMonthly: nat,
    features: seq<string>)

  /** The STRIPE_PRICE_PRO and STRIPE_PRICE_AGENCY environment values. */
  datatype PriceEnv = PriceEnv(pro: Option<string>, agency: Option<string>)

  /** `process.env.X || null`: an unset or empty variable gives no price id. */
  function EnvPrice(v: Option<string>): (r: Option<string>)
    ensures r.Some? <==> Truthy(v)
    ensures r.Some? ==> r == v
  {
    if Truthy(v) then v else None
  }

  function FreePlan(): Plan
  {
    Plan(Free, "Free", "Get started with thumbnail generation", 5, None, 0,
         ["5 generations per month", "1 portrait", "Standard quality", "Community support"])
  }

  function ProPlan(env: PriceEnv): Plan
  {
    Plan(Pro, "Pro", "For content creators who need more", 50, EnvPrice(env.pro), 19,
         ["50 generations per month", "Unlimited portraits", "HD quality", "Priority support",
          "Batch downloads"])
  }

  function AgencyPlan(env: PriceEnv): Plan
  {
    Plan(Agency, "Agency", "For teams and agencies", 200, EnvPrice(env.agency), 49,
         ["200 generations per month", "Unlimited portraits", "HD quality", "Priority support",
          "Batch downloads", "API access (coming soon)"])
  }

  /** The keys of the PLANS record, as a plan id is spelled at run time. */
  function PlanKey(id: PlanId): string
  {
    match id
    case Free => "free"
    case Pro => "pro"
    case Agency => "agency"
  }

  /** `PLANS[key]` for any run-time key. */
  function PlanByKey(env: PriceEnv, key: string): (r: Option<Plan>)
    ensures r.Some? <==> key in {"free", "pro", "agency"}
    ensures r.Some? ==> PlanKey(r.value.id) == key
  {
    if key == "free" then Some(FreePlan())
    else if key == "pro" then Some(ProPlan(env))
    else if key == "agency" then Some(AgencyPlan(env))
    else None
  }

  /** `getAllPlans()`: the record's values in insertion order. */
  function GetAllPlans(env: PriceEnv): (r: seq<Plan>)
    ensures |r| == 3 && r[0].id == Free && r[1].id == Pro && r[2].id == Agency
    ensures forall k :: 0 <= k < |r| ==> PlanByKey(env, PlanKey(r[k].id)) == Some(r[k])
  {
    [FreePlan(), ProPlan(env), AgencyPlan(env)]
  }

  /** The loop of `getPlanByPriceId`: the id of the first plan whose price id
      equals the given one, or free when none does. */
  function FindPlan(plans: seq<Plan>, priceId: string): (r: PlanId)
    ensures (forall k :: 0 <= k < |plans| ==> plans[k].priceId != Some(priceId)) ==> r == Free
    ensures (exists k :: 0 <= k < |plans| && plans[k].priceId == Some(priceId)) ==>
              exists k :: 0 <= k < |plans| && plans[k].priceId == Some(priceId) && r == plans[k].id
                && forall j :: 0 <= j < k ==> plans[j].priceId != Some(priceId)
  {
    if plans == [] then Free
    else if plans[0].priceId == Some(priceId) then plans[0].id
    else
      var r := FindPlan(plans[1..], priceId);
      assert forall k :: 1 <= k < |plans| ==> plans[k] == plans[1..][k - 1];
      r
  }

  /** `getPlanByPriceId(priceId)` */
  function GetPlanByPriceId(env: PriceEnv, priceId: Option<string>): (r: PlanId)
    ensures !Truthy(priceId) ==> r == Free
  {
    if !Truthy(priceId) then Free else FindPlan(GetAllPlans(env), priceId.value)
  }

  /** A configured price id maps to its plan; pro wins when both are equal. */
  lemma ConfiguredPriceMapsToPlan(env: PriceEnv)
    ensures Truthy(env.pro) ==> GetPlanByPriceId(env, env.pro) == Pro
    ensures Truthy(env.agency) && env.agency != env.pro ==> GetPlanByPriceId(env, env.agency) == Agency
  {
    var plans := GetAllPlans(env);
    if Truthy(env.pro) {
      assert plans[1].priceId == Some(env.pro.value);
    }
    if Truthy(env.agency) && env.agency != env.pro {
      assert plans[2].priceId == Some(env.agency.value);
    }
  }

  /** With a paid plan's price unset, no price id maps to that plan. */
  lemma UnsetPriceNeverMatches(env: PriceEnv, priceId: Option<string>)
    ensures !Truthy(env.pro) ==> GetPlanByPriceId(env, priceId) != Pro
    ensures !Truthy(env.agency) ==> GetPlanByPriceId(env, priceId) != Agency
  {
  }

  /** An id that is neither configured price maps to the free plan. */
  lemma UnknownPriceIsFree(env: PriceEnv, priceId: string)
    requires Some(priceId) != EnvPrice(env.pro) && Some(priceId) != EnvPrice(env.agency)
    ensures GetPlanByPriceId(env, Some(priceId)) == Free
  {
  }

  /** `getPlanQuota(planId)`: the plan's quota, or the free quota for a key
      that names no plan. */
  function GetPlanQuota(env: PriceEnv, key: string): (r: nat)
    ensures key == "free" ==> r == 5
    ensures key == "pro" ==> r == 50
    ensures key == "agency" ==> r == 200
    ensures PlanByKey(env, key).None? ==> r == FreePlan().quota
  {
    match PlanByKey(env, key)
    case Some(plan) => plan.quota
    case None => FreePlan().quota
  }

  /** `planHasFeature(planId, feature)`: exact membership in the plan's list. */
  function PlanHasFeature(env: PriceEnv, key: string, feature: string): (r: bool)
    ensures r <==> exists plan :: plan in GetAllPlans(env) && PlanKey(plan.id) == key
                                  && feature in plan.features
  {
    match PlanByKey(env, key)
    case Some(plan) => feature in plan.features
    case None => false
  }
}
