/**
 The mutable business state of one planning session (app/agent_runtime/state.py) as a
 value, and the pure decision function over it.
 */
module Session {
  import opened Basics
  import opened TripTypes
  import Acceptance

  datatype Phase = NotStarted | SupplementNeeded | CandidatePending | Completed | Skipped

  datatype Verdict = Accepted | Reverted | Passed

  /**
   What an optimiser stores while its candidate is being measured. Each optimiser uses
   the fields its own baseline attributes have; the others stay None.
   */
  datatype Bundle = Bundle(
    plan: Option<Plan>, routes: Option<Routes>, routeReport: Option<RouteReport>,
    commuteReport: Option<CommuteReport>, scheduleReport: Option<ScheduleReport>,
    constraintReport: Option<ConstraintReport>,
    routeFor: Option<RoutePart>, constraintFor: Option<Plan>,
    candidate: Option<Candidate>, basis: Option<Plan>, weighed: Option<ConstraintInput>)

  const BLANK := Bundle(None, None, None, None, None, None, None, None, None, None, None)

  /** One optimiser: status, attempt counter, stored baseline, verdicts of its history. */
  datatype Optimiser = Optimiser(phase: Phase, count: nat, saved: Bundle, verdicts: seq<Verdict>)
  {
    predicate Pending() { phase.CandidatePending? }
  }

  /** The dictionary `evaluation_input_fingerprints`, one slot per key. */
  datatype Inputs = Inputs(
    route: Option<RouteInput>, commute: Option<RouteInput>, schedule: Option<RouteInput>,
    constraints: Option<ConstraintInput>, validation: Option<ValidationInput>)

  datatype Status = Idle | Running | Succeeded | Failed | BudgetExhausted | ConvergenceStopped | MaxStepsReached

  datatype Mode = Full | Partial

  datatype Known = Known(
    attractions: Option<Facts>, weather: Option<Facts>, hotels: Option<Facts>,
    restaurants: Option<Facts>, restaurantsFor: Option<int>)

  datatype Draft = Draft(plan: Option<Plan>, routes: Option<Routes>, routesFor: Option<RoutePart>)

  /** Each report with the plan fingerprint stored beside it. Two history variables no branch
      reads: `basis` is the plan on which the stored schedule report was computed, `weighed`
      the input on which the stored constraint report was. */
  datatype Reports = Reports(
    route: Option<RouteReport>, routeFor: Option<RoutePart>,
    commute: Option<CommuteReport>, commuteFor: Option<RoutePart>,
    schedule: Option<ScheduleReport>, scheduleFor: Option<RoutePart>,
    constraints: Option<ConstraintReport>, constraintFor: Option<Plan>,
    basis: Option<Plan>, weighed: Option<ConstraintInput>)

  datatype Optimisers = Optimisers(
    route: Optimiser, schedule: Optimiser, constraint: Optimiser, commute: Optimiser, refill: Optimiser)

  /** The supplement query the commute and refill optimisers share, their search counters
      and the candidates they ruled out. */
  datatype Searches = Searches(
    query: Option<Query>, commute: nat, refill: nat,
    commuteExcluded: seq<Identity>, refillExcluded: seq<Identity>)

  datatype Delivery = Delivery(
    contentFor: Option<int>, rebuilds: nat,
    validation: Option<Validation>, acceptance: Option<Acceptance.Report>,
    finished: bool, completion: Option<Mode>)

  datatype Meter = Meter(repairs: nat, toolCalls: nat, llmCalls: nat)

  datatype State = State(
    known: Known, draft: Draft, reports: Reports, opts: Optimisers, searches: Searches,
    delivery: Delivery, inputs: Inputs, meter: Meter, status: Status)

  const IDLE := Optimiser(NotStarted, 0, BLANK, [])
  const NO_INPUTS := Inputs(None, None, None, None, None)
  const NO_REPORTS := Reports(None, None, None, None, None, None, None, None, None, None)

  const FRESH := State(
    Known(None, None, None, None, None), Draft(None, None, None), NO_REPORTS,
    Optimisers(IDLE, IDLE, IDLE, IDLE, IDLE), Searches(None, 0, 0, [], []),
    Delivery(None, 0, None, None, false, None), NO_INPUTS, Meter(0, 0, 0), Idle)

  // ---- Which stored evaluations the decision function trusts ----

  /** A stored fingerprint decides; only without one does the older plan comparison. */
  predicate Current<T(==)>(stored: Option<T>, now: T, legacy: bool) {
    if stored.Some? then stored.value == now else legacy
  }

  function RouteInputOf(s: State): RouteInput
    requires s.draft.plan.Some?
  {
    RouteInput(s.draft.plan.value.route, s.draft.routes)
  }

  function ConstraintInputOf(s: State): ConstraintInput
    requires s.draft.plan.Some?
  {
    ConstraintInput(s.draft.plan.value, s.reports.schedule, s.known.attractions, s.known.weather)
  }

  function ValidationInputOf(s: State): ValidationInput
    requires s.draft.plan.Some?
  {
    ValidationInput(s.draft.plan.value, s.known.attractions, s.known.weather, s.known.hotels, s.draft.routes,
                    s.reports.schedule, s.reports.constraints)
  }

  predicate RoutesUsable(s: State)
    requires s.draft.plan.Some?
  {
    s.draft.routes.Some? && s.draft.routesFor == Some(s.draft.plan.value.route)
  }

  predicate RouteCurrent(s: State)
    requires s.draft.plan.Some?
  {
    && s.reports.route.Some?
    && Current(s.inputs.route, RouteInputOf(s), s.reports.routeFor == Some(s.draft.plan.value.route))
  }

  predicate CommuteCurrent(s: State)
    requires s.draft.plan.Some?
  {
    && s.reports.commute.Some?
    && Current(s.inputs.commute, RouteInputOf(s), s.reports.commuteFor == Some(s.draft.plan.value.route))
  }

  predicate ScheduleCurrent(s: State)
    requires s.draft.plan.Some?
  {
    && s.reports.schedule.Some?
    && Current(s.inputs.schedule, RouteInputOf(s), s.reports.scheduleFor == Some(s.draft.plan.value.route))
  }

  predicate ConstraintsCurrent(s: State)
    requires s.draft.plan.Some?
  {
    && s.reports.constraints.Some?
    && Current(s.inputs.constraints, ConstraintInputOf(s), s.reports.constraintFor == Some(s.draft.plan.value))
  }

  predicate ValidationCurrent(s: State)
    requires s.draft.plan.Some?
  {
    s.delivery.validation.Some? && Current(s.inputs.validation, ValidationInputOf(s), true)
  }

  predicate ContentCurrent(e: Env, s: State)
    requires s.draft.plan.Some?
  {
    s.delivery.contentFor == Some(e.contentKey(s.draft.plan.value, s.draft.routes, s.reports.schedule, s.known.restaurants))
  }

  // ---- decide_next_action ----

  function RequiredAttractions(e: Env): int {
    Min(e.budget.minimumAttractions, Max(1, e.request.travelDays))
  }

  predicate WantsRouteCandidate(e: Env, s: State) {
    && s.opts.route.phase.NotStarted? && s.reports.route.Some? && s.reports.route.value.recommended
    && s.opts.route.count < e.budget.maxRouteAttempts
  }

  predicate WantsConstraintCandidate(s: State) {
    s.opts.constraint.phase.NotStarted? && s.reports.constraints.Some? && s.reports.constraints.value.recommended
  }

  predicate RefillNeeded(e: Env, s: State)
    requires s.draft.plan.Some?
  {
    && CountAttractions(s.draft.plan.value) < RequiredAttractions(e)
    && !s.opts.refill.phase.Completed? && !s.opts.refill.phase.Skipped?
    && s.opts.refill.count < e.budget.maxRefillAttempts
  }

  /** A pending constraint or refill candidate is measured, then judged. */
  function DecideMeasured(s: State, judge: Action): Action
    requires s.draft.plan.Some?
  {
    if !ScheduleCurrent(s) then EvaluateSchedule
    else if !ConstraintsCurrent(s) then EvaluateConstraints
    else judge
  }

  function DecideDelivery(e: Env, s: State): Action
    requires s.draft.plan.Some?
  {
    if s.known.restaurants.None? || s.known.restaurantsFor != Some(e.restaurantKey(s.draft.plan.value)) then SearchRestaurants
    else if !ContentCurrent(e, s) then RebuildContent
    else if !ConstraintsCurrent(s) then EvaluateConstraints
    else if s.opts.constraint.Pending() || WantsConstraintCandidate(s) then OptimizeConstraints
    else if !ValidationCurrent(s) then ValidatePlan
    else if s.delivery.validation.value.valid || (s.delivery.acceptance.Some? && s.delivery.acceptance.value.accepted) then Finish
    else if s.delivery.validation.value.repairable && s.meter.repairs < e.budget.maxRepairs then RepairPlan
    else ValidatePlan
  }

  function DecideRefill(s: State): Action
    requires s.draft.plan.Some?
  {
    if !ConstraintsCurrent(s) then EvaluateConstraints
    else if s.opts.constraint.Pending() || WantsConstraintCandidate(s) then OptimizeConstraints
    else RefillAttractions
  }

  /** The part of the decision in which candidates and reports are dealt with. */
  function DecideMeasuring(e: Env, s: State): Action
    requires s.draft.plan.Some?
  {
    if s.opts.schedule.Pending() then
      if ScheduleCurrent(s) then OptimizeSchedule else EvaluateSchedule
    else if s.opts.constraint.Pending() then DecideMeasured(s, OptimizeConstraints)
    else if s.opts.refill.Pending() then DecideMeasured(s, RefillAttractions)
    else if !CommuteCurrent(s) then EvaluateCommute
    else if !ScheduleCurrent(s) then EvaluateSchedule
    else if s.opts.commute.phase.SupplementNeeded? then SupplementAttractions
    else if s.opts.commute.Pending() || (s.opts.commute.phase.NotStarted? && s.reports.commute.value.recommended) then
      if !ConstraintsCurrent(s) then EvaluateConstraints else ReplaceRemote
    else if s.opts.schedule.phase.NotStarted? && s.reports.schedule.value.figures.recommended then OptimizeSchedule
    else if s.opts.refill.Pending() || RefillNeeded(e, s) || s.opts.constraint.Pending() then DecideRefill(s)
    else DecideDelivery(e, s)
  }

  function Decide(e: Env, s: State): Action {
    if s.known.attractions.None? then SearchAttractions
    else if s.known.weather.None? then GetWeather
    else if s.known.hotels.None? then SearchHotels
    else if s.draft.plan.None? then GeneratePlan
    else if !RoutesUsable(s) then EstimateRoutes
    else if s.opts.refill.phase.SupplementNeeded? then SupplementAttractions
    else if !RouteCurrent(s) || s.opts.route.Pending() || WantsRouteCandidate(e, s) then OptimizeRoutes
    else DecideMeasuring(e, s)
  }
}
