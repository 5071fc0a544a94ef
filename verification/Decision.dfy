/**
 The decision function on the states a session can reach. There it is a plain list of priorities:
 the routes first, then the open search, then the candidate being measured, and between
 candidates one optimiser after the other, the content, and the validation.
 */
module Decision {
  import opened Basics
  import opened TripTypes
  import opened Session
  import opened Actions
  import opened Invariant
  import opened Preservation
  import opened Bystanders
  import opened Runs
  import opened Progress
  import opened Completeness
  import Acceptance

  /** The constraint report was computed on what is there now; or its input was dropped since and
      it names the present plan. */
  predicate Trusted(s: State)
    requires s.draft.plan.Some?
  {
    && s.reports.constraints.Some?
    && if s.inputs.constraints.Some?
       then s.inputs.constraints.value == ConstraintInput(s.draft.plan.value, s.reports.schedule, s.known.attractions, s.known.weather)
       else s.reports.constraintFor == Some(s.draft.plan.value)
  }

  /** A report, or the number of stops, calls for an optimiser that has not had its turn. */
  predicate Wanted(e: Env, k: Kind, s: State)
    requires s.draft.plan.Some?
  {
    match k
    case RouteOrder =>
      && s.opts.route.phase.NotStarted? && s.opts.route.count < e.budget.maxRouteAttempts
      && s.reports.route.Some? && s.reports.route.value.recommended
    case RemoteStops => s.opts.commute.phase.NotStarted? && s.reports.commute.Some? && s.reports.commute.value.recommended
    case DaySchedule =>
      s.opts.schedule.phase.NotStarted? && s.reports.schedule.Some? && s.reports.schedule.value.figures.recommended
    case Conflicts =>
      s.opts.constraint.phase.NotStarted? && s.reports.constraints.Some? && s.reports.constraints.value.recommended
    case MissingStops =>
      var days := if e.request.travelDays >= 1 then e.request.travelDays else 1;
      && Total(s.draft.plan.value.route.days) < (if e.budget.minimumAttractions <= days then e.budget.minimumAttractions else days)
      && !s.opts.refill.phase.Completed? && !s.opts.refill.phase.Skipped? && s.opts.refill.count < e.budget.maxRefillAttempts
  }

  /** Between candidates. */
  function Between(e: Env, s: State): Action
    requires s.draft.plan.Some?
  {
    var p := s.draft.plan.value;
    if Wanted(e, RouteOrder, s) then OptimizeRoutes
    else if s.reports.commute.None? then EvaluateCommute
    else if Wanted(e, RemoteStops, s) then (if Trusted(s) then ReplaceRemote else EvaluateConstraints)
    else if Wanted(e, DaySchedule, s) then OptimizeSchedule
    else if Wanted(e, MissingStops, s) then
      if !Trusted(s) then EvaluateConstraints else if Wanted(e, Conflicts, s) then OptimizeConstraints else RefillAttractions
    else if s.known.restaurants.None? || s.known.restaurantsFor != Some(e.restaurantKey(p)) then SearchRestaurants
    else if s.delivery.contentFor != Some(e.contentKey(p, s.draft.routes, s.reports.schedule, s.known.restaurants)) then RebuildContent
    else if !Trusted(s) then EvaluateConstraints
    else if Wanted(e, Conflicts, s) then OptimizeConstraints
    else if s.delivery.validation.None? then ValidatePlan
    else if s.delivery.validation.value.valid || (s.delivery.acceptance.Some? && s.delivery.acceptance.value.accepted) then Finish
    else if s.delivery.validation.value.repairable && s.meter.repairs < e.budget.maxRepairs then RepairPlan
    else ValidatePlan
  }

  /** The whole list. */
  function Plainly(e: Env, s: State): Action {
    if s.known.attractions.None? then SearchAttractions
    else if s.known.weather.None? then GetWeather
    else if s.known.hotels.None? then SearchHotels
    else if s.draft.plan.None? then GeneratePlan
    else if s.draft.routes.None? then EstimateRoutes
    else if s.searches.query.Some? then SupplementAttractions
    else if s.opts.route.phase.CandidatePending? then OptimizeRoutes
    else if s.opts.schedule.phase.CandidatePending? then OptimizeSchedule
    else if s.opts.constraint.phase.CandidatePending? then (if Trusted(s) then OptimizeConstraints else EvaluateConstraints)
    else if s.opts.refill.phase.CandidatePending? then (if Trusted(s) then RefillAttractions else EvaluateConstraints)
    else if s.opts.commute.phase.CandidatePending? then
      if s.reports.commute.None? then EvaluateCommute else if Trusted(s) then ReplaceRemote else EvaluateConstraints
    else Between(e, s)
  }

  lemma TrustIs(s: State)
    requires s.draft.plan.Some?
    ensures Trusted(s) == ConstraintsCurrent(s)
  {
  }

  lemma WantedAre(e: Env, s: State)
    requires s.draft.plan.Some?
    ensures Wanted(e, RouteOrder, s) == WantsRouteCandidate(e, s) && Wanted(e, Conflicts, s) == WantsConstraintCandidate(s)
    ensures Wanted(e, MissingStops, s) == RefillNeeded(e, s)
  {
  }

  lemma NoStaleVerdict(e: Env, s: State)
    requires Validated(e, s) && s.draft.plan.Some?
    ensures ValidationCurrent(s) <==> s.delivery.validation.Some?
  {
    hide Decide; hide Acceptance.Evaluate;
  }

  /** With routes there, nothing pending and nothing asked, the middle part is the plain list. */
  lemma BetweenIs(e: Env, s: State)
    requires Inv(e, s) && s.draft.plan.Some? && s.draft.routes.Some? && PendingCount(s.opts) == 0 && s.searches.query.None?
    ensures Decide(e, s) == Between(e, s) || s.known.attractions.None? || s.known.weather.None? || s.known.hotels.None?
  {
    hide Inv; hide RouteCurrent; hide ScheduleCurrent; hide CommuteCurrent; hide ConstraintsCurrent; hide ValidationCurrent;
    hide Trusted; hide RefillNeeded; hide WantsRouteCandidate; hide WantsConstraintCandidate; hide Validated; hide NoNesting;
    InvMeans(e, s);
    ReportsTrusted(e, s);
    TrustIs(s);
    WantedAre(e, s);
    NoStaleVerdict(e, s);
    NobodyAsks(s.opts, s.searches.query);
    MeasuredIs(s);
    NoneWithoutReport(s);
  }

  lemma NobodyAsks(o: Optimisers, query: Option<Query>)
    requires NoNesting(o, query) && query.None?
    ensures !o.commute.phase.SupplementNeeded? && !o.refill.phase.SupplementNeeded?
  {
  }

  lemma MeasuredIs(s: State)
    requires s.draft.plan.Some? && s.reports.route.Some?
    ensures CommuteCurrent(s) ==> s.reports.commute.Some?
    ensures ScheduleCurrent(s) ==> s.reports.schedule.Some?
  {
  }

  lemma NoneWithoutReport(s: State)
    requires s.draft.plan.Some?
    ensures ConstraintsCurrent(s) ==> s.reports.constraints.Some?
  {
  }

  /** On every reachable state of an unfinished session the decision is the plain one. */
  lemma DecidesPlainly(e: Env, r: seq<State>, m: seq<Move>, i: nat)
    requires IsRun(e, r, m) && i < |r| && !r[i].delivery.finished
    ensures Decide(e, r[i]) == Plainly(e, r[i])
  {
    hide IsRun; hide Inv; hide Decide; hide Between; hide Trusted; hide NoNesting; hide Validated;
    AlwaysInv(e, r, m, i);
    var s := r[i];
    InvMeans(e, s);
    if s.draft.plan.Some? && s.draft.routes.Some? {
      if s.searches.query.Some? {
        QueryComesFirst(e, s);
      } else if PendingCount(s.opts) == 0 {
        BetweenIs(e, s);
        NobodyPending(s.opts);
      } else {
        PendingIsMeasured(e, s);
      }
    } else {
      BeforeRoutes(e, s);
    }
    if s.known.attractions.None? || s.known.weather.None? || s.known.hotels.None? || s.draft.plan.None? { SurveyFirst(e, s); }
  }

  lemma NobodyPending(o: Optimisers)
    requires PendingCount(o) == 0
    ensures !o.route.phase.CandidatePending? && !o.schedule.phase.CandidatePending? && !o.constraint.phase.CandidatePending?
    ensures !o.commute.phase.CandidatePending? && !o.refill.phase.CandidatePending?
  {
  }

  lemma SurveyFirst(e: Env, s: State)
    requires s.known.attractions.None? || s.known.weather.None? || s.known.hotels.None? || s.draft.plan.None?
    ensures Decide(e, s) == Plainly(e, s)
  {
  }

  lemma BeforeRoutes(e: Env, s: State)
    requires s.draft.plan.None? || s.draft.routes.None?
    ensures Decide(e, s) == Plainly(e, s)
  {
    hide Between; hide DecideMeasuring;
  }

  /** A pending candidate is measured and judged before anything else. */
  lemma PendingIsMeasured(e: Env, s: State)
    requires Inv(e, s) && s.draft.plan.Some? && s.draft.routes.Some? && PendingCount(s.opts) != 0 && s.searches.query.None?
    ensures Decide(e, s) == Plainly(e, s)
  {
    hide Inv; hide RouteCurrent; hide ScheduleCurrent; hide CommuteCurrent; hide ConstraintsCurrent; hide Between;
    hide Trusted; hide RefillNeeded; hide WantsConstraintCandidate; hide Validated; hide DecideDelivery;
    InvMeans(e, s);
    ReportsTrusted(e, s);
    TrustIs(s);
    MeasuredIs(s);
    RouteSettledWhilePending(e, s);
    hide NoNesting;
  }

  lemma RouteSettledWhilePending(e: Env, s: State)
    requires Inv(e, s) && s.draft.plan.Some? && PendingCount(s.opts) != 0
    ensures !s.opts.route.Pending() ==> !WantsRouteCandidate(e, s)
    ensures PendingCount(s.opts) == 1 && !s.opts.refill.phase.SupplementNeeded? && !s.opts.commute.phase.SupplementNeeded?
  {
    hide Decide; hide BundlesFresh; hide ReportsFresh; hide CandidateBudgets; hide Validated;
  }
}
