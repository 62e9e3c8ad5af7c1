/** lib/plans.ts: the reminder ceiling of each subscription plan. */
module Plans {
  import opened Wrappers
  import opened Types

  /** A ceiling, or `undefined` for a plan name the table lacks. */
  datatype Limit = Limited(n: nat) | Unlimited | Undefined

  /** `PLAN_LIMITS[plan]` for the stored plan name, which the webhook
      writes unchecked: a name outside the table reads as `undefined`. */
  function PlanLimits(plan: string): Limit {
    if plan == PlanName(Starter) then Limited(50)
    else if plan == PlanName(Pro) then Limited(250)
    else if plan == PlanName(Business) then Unlimited
    else Undefined
  }

  /** `getPlanLimit`: a missing or empty plan is treated as the starter
      plan; only the business plan is unlimited, every numeric limit is
      positive, and any other name has no limit entry. */
  function GetPlanLimit(plan: Option<string>): (r: Limit)
    ensures r.Limited? ==> r.n > 0
    ensures r == Limited(50) <==> plan == None || plan == Some("") || plan == Some("starter")
    ensures r == Limited(250) <==> plan == Some("pro")
    ensures r.Unlimited? <==> plan == Some("business")
    ensures r.Undefined? <==> plan.Some? && plan.value !in {"", "starter", "pro", "business"}
  {
    if plan.None? || plan.value == "" then Limited(50) else PlanLimits(plan.value)
  }

  /** The starter ceiling is below the pro ceiling. */
  lemma StarterBelowPro()
    ensures PlanLimits("starter").Limited? && PlanLimits("pro").Limited?
    ensures PlanLimits("starter").n < PlanLimits("pro").n
  {
  }
}
