/**
 What holds in every state a session can reach.
 */
module Invariant {
  import opened Basics
  import opened TripTypes
  import opened Session
  import opened Actions
  import Acceptance

  // ---- No nesting ----

  function One(b: bool): nat { if b then 1 else 0 }

  function PendingCount(o: Optimisers): nat {
    One(o.route.Pending()) + One(o.schedule.Pending()) + One(o.constraint.Pending())
    + One(o.commute.Pending()) + One(o.refill.Pending())
  }

  /** A candidate's whole baseline is stored exactly while it is pending. */
  ghost predicate Stored(o: Optimiser, whole: bool) { if o.Pending() then whole else o.saved == BLANK }

  /** At most one candidate is installed, its baseline is stored, and the shared supplement
      query exists exactly when one, and only one, of its two users asked for it. */
  ghost predicate NoNesting(o: Optimisers, query: Option<Query>) {
    && PendingCount(o) <= 1
    && Stored(o.route, RouteBundle(o.route.saved))
    && Stored(o.schedule, ScheduleBundle(o.schedule.saved))
    && Stored(o.constraint, ConstraintBundle(o.constraint.saved))
    && Stored(o.commute, CommuteBundle(o.commute.saved))
    && Stored(o.refill, RefillBundle(o.refill.saved))
    && !o.route.phase.SupplementNeeded? && !o.schedule.phase.SupplementNeeded? && !o.constraint.phase.SupplementNeeded?
    && (query.Some? <==> o.commute.phase.SupplementNeeded? || o.refill.phase.SupplementNeeded?)
    && !(o.commute.phase.SupplementNeeded? && o.refill.phase.SupplementNeeded?)
  }

  predicate RouteSettled(o: Optimisers) { o.route.phase.Completed? || o.route.phase.Skipped? }

  /** The order of the phases that makes nesting impossible: nothing else starts before the
      route optimiser is settled, and a supplement is asked for only between candidates. */
  ghost predicate Ordered(e: Env, o: Optimisers, query: Option<Query>, d: Draft, r: Reports) {
    && (!RouteSettled(o) ==>
          !o.schedule.Pending() && !o.constraint.Pending() && !o.commute.Pending() && !o.refill.Pending() && query.None?)
    && (query.Some? ==> d.routes.Some? && PendingCount(o) == 0)
    && (o.commute.phase.SupplementNeeded? ==> r.commute.Some?)
    && (d.routes.Some? && o.route.phase.NotStarted? ==>
          r.route.Some? && r.route.value.recommended && o.route.count < e.budget.maxRouteAttempts)
    && (o.route.Pending() || o.schedule.Pending() || o.constraint.Pending() || o.refill.Pending() ==> r.commute.None?)
    && (o.route.Pending() || o.schedule.Pending() ==> r.constraints.None?)
  }

  // ---- Freshness ----

  predicate Untouched(o: Optimiser) { o.phase.NotStarted? && o.count == 0 }

  /** Nothing is measured before there is a plan, and no report outlives its snapshot. */
  ghost predicate NoOrphans(s: State) {
    && (s.draft.plan.Some? ==> s.known.attractions.Some? && s.known.weather.Some? && s.known.hotels.Some?)
    && (s.draft.plan.None? ==>
          && s.draft.routes.None? && s.searches.commute == 0 && s.searches.refill == 0
          && Untouched(s.opts.route) && Untouched(s.opts.schedule) && Untouched(s.opts.constraint)
          && Untouched(s.opts.commute) && Untouched(s.opts.refill))
    && (s.draft.routes.None? ==> s.reports == NO_REPORTS && s.delivery.validation.None?)
  }

  ghost predicate RouteFresh(e: Env, d: Draft, r: Reports, i: Inputs) {
    d.routes.Some? ==>
      && Stamped(d) && d.routesFor == Some(d.plan.value.route)
      && r.route == Some(e.evalRoutes(d.plan.value.route, d.routes.value))
      && r.routeFor == d.routesFor
      && i.route == Some(RouteInput(d.plan.value.route, d.routes))
  }

  /** Two plans the schedule evaluator can tell apart by their lunch labels only. */
  predicate SameStops(p: Plan, q: Plan) { p.route == q.route && p.visits == q.visits }

  /** The lunches of these days have the same names in both plans. */
  predicate SameLunches(days: set<nat>, p: Plan, q: Plan) { forall d :: d in days ==> LunchName(p, d) == LunchName(q, d) }

  /** The labels of a report are the lunch names of the plan. */
  predicate Labelled(r: ScheduleReport, p: Plan) {
    forall d :: d in r.figures.lunchDays ==> d in r.labels && r.labels[d] == LunchName(p, d)
  }

  ghost predicate ScheduleFresh(e: Env, d: Draft, r: Reports, i: Inputs) {
    d.routes.Some? && d.plan.Some? ==>
      && r.basis.Some? && SameStops(r.basis.value, d.plan.value)
      && r.schedule == Some(EvalSchedule(e, r.basis.value, d.routes.value))
      && r.scheduleFor == Some(d.plan.value.route)
      && i.schedule == Some(RouteInput(d.plan.value.route, d.routes))
  }

  ghost predicate CommuteFresh(e: Env, d: Draft, r: Reports, i: Inputs) {
    r.commute.Some? ==>
      && d.routes.Some? && d.plan.Some?
      && r.commute == Some(e.evalCommute(d.plan.value.route, d.routes.value))
      && r.commuteFor == Some(d.plan.value.route)
      && i.commute == Some(RouteInput(d.plan.value.route, d.routes))
  }

  /** The constraint report is the answer on `weighed`, whose plan the fingerprints name and
      whose schedule report and weather are the present ones; its pool may be an earlier one. */
  ghost predicate ConstraintNamed(e: Env, k: Known, r: Reports, i: Inputs) {
    r.constraints.Some? ==>
      && Weighed(e, r.weighed, r.constraints, r.constraintFor, r.schedule, k)
      && (i.constraints.Some? ==> r.constraintFor == Some(i.constraints.value.plan))
  }

  ghost predicate Weighed(
    e: Env, w: Option<ConstraintInput>, report: Option<ConstraintReport>, named: Option<Plan>,
    schedule: Option<ScheduleReport>, k: Known)
  {
    && w.Some? && report == Some(e.evalConstraints(w.value)) && named == Some(w.value.plan)
    && w.value.schedule == schedule && w.value.weather == k.weather
  }

  ghost predicate ReportsFresh(e: Env, k: Known, d: Draft, r: Reports, i: Inputs) {
    RouteFresh(e, d, r, i) && ScheduleFresh(e, d, r, i) && CommuteFresh(e, d, r, i) && ConstraintNamed(e, k, r, i)
  }

  /** A stored baseline is itself consistent, so restoring it yields fresh reports. */
  ghost predicate BundleFresh(e: Env, k: Known, b: Bundle) {
    && b.plan.Some? && b.routes.Some?
    && b.routes.value.stamp == b.plan.value.route
    && b.routeReport == Some(e.evalRoutes(b.plan.value.route, b.routes.value))
    && (b.routeFor.Some? ==> b.routeFor.value == b.plan.value.route)
    && (b.scheduleReport.Some? ==>
          && b.basis.Some? && SameStops(b.basis.value, b.plan.value)
          && b.scheduleReport == Some(EvalSchedule(e, b.basis.value, b.routes.value)))
    && (b.commuteReport.Some? ==> b.commuteReport == Some(e.evalCommute(b.plan.value.route, b.routes.value)))
    && (b.constraintFor.Some? ==> b.constraintFor == b.plan)
    && (b.constraintReport.Some? ==> Weighed(e, b.weighed, b.constraintReport, b.constraintFor, b.scheduleReport, k))
  }

  ghost predicate BundlesFresh(e: Env, k: Known, o: Optimisers) {
    && (o.route.Pending() ==> BundleFresh(e, k, o.route.saved))
    && (o.schedule.Pending() ==> BundleFresh(e, k, o.schedule.saved))
    && (o.constraint.Pending() ==> BundleFresh(e, k, o.constraint.saved))
    && (o.commute.Pending() ==> BundleFresh(e, k, o.commute.saved))
    && (o.refill.Pending() ==> BundleFresh(e, k, o.refill.saved))
  }

  // ---- Budgets ----

  /** How many verdicts closed a candidate. */
  function Judged(v: seq<Verdict>): nat {
    if v == [] then 0 else Judged(v[..|v| - 1]) + One(!v[|v| - 1].Passed?)
  }

  /** Candidates ever installed: those judged and the pending one. */
  function Installed(o: Optimiser): nat { Judged(o.verdicts) + One(o.Pending()) }

  /** Every attempt charged belongs to one installed candidate, within the budget. */
  ghost predicate Accounted(o: Optimiser, budget: nat) { Installed(o) == o.count <= budget }

  /** What the schedule optimiser may spend: its budget, and again after every repair. */
  function Allowance(budget: nat, repairs: nat): nat {
    if repairs == 0 then budget else budget + Allowance(budget, repairs - 1)
  }

  /** A repair refunds the attempts charged so far. */
  ghost predicate ScheduleAccounted(o: Optimiser, budget: nat, repairs: nat) {
    o.count <= budget && Installed(o) + budget - o.count <= Allowance(budget, repairs)
  }

  ghost predicate CandidateBudgets(e: Env, o: Optimisers, repairs: nat) {
    && Accounted(o.route, e.budget.maxRouteAttempts)
    && ScheduleAccounted(o.schedule, e.budget.maxScheduleAttempts, repairs)
    && Accounted(o.constraint, e.budget.maxConstraintAttempts)
    && Accounted(o.commute, e.budget.maxCommuteAttempts)
    && Accounted(o.refill, e.budget.maxRefillAttempts)
  }

  ghost predicate SearchBudgets(e: Env, o: Optimisers, q: Searches) {
    && q.commute + One(o.commute.phase.SupplementNeeded?) <= e.budget.maxSupplementSearches
    && q.refill + One(o.refill.phase.SupplementNeeded?) <= e.budget.maxSupplementSearches
  }

  ghost predicate CallBudgets(e: Env, m: Meter) {
    m.toolCalls <= e.budget.maxToolCalls && m.llmCalls <= e.budget.maxLlmCalls && m.repairs <= e.budget.maxRepairs
  }

  // ---- Validation ----

  predicate Conclusive(a: Action) { a.Finish? || a.RepairPlan? || a.ValidatePlan? }

  /** A stored validation result is the validator's answer on the present inputs, its
      grading was made from the present reports, and only FINISH, REPAIR or another
      validation can follow. */
  ghost predicate Validated(e: Env, s: State) {
    && (s.delivery.validation.Some? ==>
          && s.draft.plan.Some?
          && s.delivery.validation == Some(e.validate(ValidationInputOf(s)))
          && s.inputs.validation == Some(ValidationInputOf(s))
          && s.delivery.acceptance == Some(Acceptance.Evaluate(e, EvidenceOf(s), s.delivery.validation.value))
          && Conclusive(Decide(e, s)))
    && (s.delivery.finished ==>
          && s.delivery.validation.Some? && s.delivery.acceptance.Some? && s.delivery.acceptance.value.accepted
          && s.delivery.completion == Some(if s.delivery.validation.value.valid then Full else Partial))
  }

  ghost predicate Inv(e: Env, s: State) {
    && NoNesting(s.opts, s.searches.query)
    && Ordered(e, s.opts, s.searches.query, s.draft, s.reports)
    && NoOrphans(s)
    && ReportsFresh(e, s.known, s.draft, s.reports, s.inputs)
    && BundlesFresh(e, s.known, s.opts)
    && CandidateBudgets(e, s.opts, s.meter.repairs) && SearchBudgets(e, s.opts, s.searches) && CallBudgets(e, s.meter)
    && Validated(e, s)
  }

  /** Its parts that later proofs use one at a time. */
  lemma InvMeans(e: Env, s: State)
    requires Inv(e, s)
    ensures NoNesting(s.opts, s.searches.query) && NoOrphans(s) && Validated(e, s)
    ensures ReportsFresh(e, s.known, s.draft, s.reports, s.inputs)
  {
    hide NoNesting; hide NoOrphans; hide ReportsFresh; hide Validated;
  }

  /** The invariant survives a step that returns and a step that ends the run, and the
      only ValueError left is a rebuild that moved a stop. */
  ghost predicate Kept(e: Env, r: Step) {
    match r
    case Done(t, _) => Inv(e, t)
    case Raised(t) => Inv(e, t)
    case Broken(f) => f.RebuildChangedRoutes?
  }
}
