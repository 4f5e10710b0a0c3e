/** Plan tiers, their included units and the overage price (backend/app/core/billing/plans.py). */
module Plans {
  import opened Wrappers

  datatype Plan = Hobby | Pro | Startup | Enterprise | Development

  /** The two plans a Stripe price can stand for; checkout offers no other. */
  type PaidPlan = p: Plan | p == Pro || p == Startup witness Pro

  datatype Category = Traces | TraceEvals | SessionEvals

  /** One counter for each usage category. */
  datatype Counters = Counters(traces: nat, traceEvals: nat, sessionEvals: nat) {
    function At(c: Category): nat {
      match c
      case Traces => traces
      case TraceEvals => traceEvals
      case SessionEvals => sessionEvals
    }

    function With(c: Category, n: nat): (r: Counters)
      ensures r.At(c) == n
      ensures forall d: Category :: d != c ==> r.At(d) == At(d)
    {
      match c
      case Traces => this.(traces := n)
      case TraceEvals => this.(traceEvals := n)
      case SessionEvals => this.(sessionEvals := n)
    }
  }

  const ZERO := Counters(0, 0, 0)

  /** `base == None` means that no unit count is configured. */
  datatype PlanConfig = PlanConfig(base: Option<Counters>, maxMembers: Option<nat>, payAsYouGo: bool)

  function GetPlanConfig(plan: Plan): PlanConfig {
    match plan
    case Hobby => PlanConfig(Some(Counters(100, 100, 10)), Some(1), false)
    case Pro => PlanConfig(Some(Counters(5_000, 5_000, 100)), Some(2), true)
    case Startup => PlanConfig(Some(Counters(50_000, 50_000, 1_000)), Some(10), true)
    case Enterprise => PlanConfig(Some(Counters(0, 0, 0)), None, true)
    case Development => PlanConfig(None, Some(1), false)
  }

  function GetLimitForCategory(plan: Plan, c: Category): Option<nat> {
    match GetPlanConfig(plan).base
    case None => None
    case Some(b) => Some(b.At(c))
  }

  /** Included units used by the overage arithmetic: an absent configuration counts as zero. */
  function BaseUnits(plan: Plan, c: Category): nat {
    match GetLimitForCategory(plan, c)
    case None => 0
    case Some(n) => n
  }

  /** 0.004 USD for each unit, in tenths of a cent. */
  const OVERAGE_UNIT_PRICE := 4

  const MAX_OWNED_ORGS := 2
}
