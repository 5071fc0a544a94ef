/**
 Every decided action keeps the invariant. Each lemma below handles one body; `Guards`
 collects what the decision function has established when it picks an action.
 */
module Preservation {
  import opened Basics
  import opened TripTypes
  import opened Session
  import opened Actions
  import opened Invariant
  import Acceptance

  lemma IdleAccounted(o: Optimiser, budget: nat)
    requires Untouched(o) && o.verdicts == []
    ensures Accounted(o, budget) && ScheduleAccounted(o, budget, 0)
  {
  }

  lemma FreshBudgets(e: Env)
    ensures CandidateBudgets(e, Optimisers(IDLE, IDLE, IDLE, IDLE, IDLE), 0)
  {
    var b := e.budget;
    IdleAccounted(IDLE, b.maxRouteAttempts);
    IdleAccounted(IDLE, b.maxScheduleAttempts);
    IdleAccounted(IDLE, b.maxConstraintAttempts);
    IdleAccounted(IDLE, b.maxCommuteAttempts);
    IdleAccounted(IDLE, b.maxRefillAttempts);
    hide Accounted; hide ScheduleAccounted;
  }

  lemma InitiallyInv(e: Env)
    ensures Inv(e, FRESH)
  {
    FreshBudgets(e);
    hide CandidateBudgets; hide Decide; hide BundleFresh;
  }

  // ---- What a decision guarantees ----

  /** A session between candidates, with fresh route and schedule reports. */
  ghost predicate Open(s: State) {
    && s.draft.plan.Some? && s.draft.routes.Some? && RouteSettled(s.opts)
    && s.delivery.validation.None? && s.searches.query.None?
  }

  ghost predicate Ready(e: Env, s: State, a: Action) {
    var o := s.opts;
    match a
    case OptimizeRoutes =>
      && s.draft.plan.Some? && s.draft.routes.Some? && s.delivery.validation.None?
      && (o.route.Pending()
          || (PendingCount(o) == 0 && o.route.phase.NotStarted? && o.route.count < e.budget.maxRouteAttempts))
    case EvaluateCommute =>
      Open(s) && !o.schedule.Pending() && !o.constraint.Pending() && !o.refill.Pending()
    case EvaluateSchedule => false
    case OptimizeSchedule =>
      && Open(s) && (o.schedule.Pending() || (PendingCount(o) == 0 && o.schedule.phase.NotStarted?))
    case EvaluateConstraints => Open(s) && !o.route.Pending() && !o.schedule.Pending()
    case OptimizeConstraints =>
      && Open(s) && s.reports.constraints.Some? && s.reports.constraintFor == s.draft.plan
      && (o.constraint.Pending() || (PendingCount(o) == 0 && o.constraint.phase.NotStarted?))
    case ReplaceRemote =>
      && Open(s) && s.reports.commute.Some? && s.reports.constraints.Some? && s.reports.constraintFor == s.draft.plan
      && (o.commute.Pending() || (PendingCount(o) == 0 && o.commute.phase.NotStarted?))
    case RefillAttractions =>
      && Open(s) && s.reports.constraints.Some? && s.reports.constraintFor == s.draft.plan
      && (o.refill.Pending()
          || (PendingCount(o) == 0 && o.refill.phase.NotStarted? && o.refill.count < e.budget.maxRefillAttempts))
    case RebuildContent => Open(s) && PendingCount(o) == 0
    case SearchRestaurants => Open(s) && PendingCount(o) == 0
    case ValidatePlan => s.draft.plan.Some? && s.draft.routes.Some?
    case SupplementAttractions => s.searches.query.Some? && s.delivery.validation.None?
    case EstimateRoutes => s.draft.plan.Some? && s.draft.routes.None?
    case GeneratePlan =>
      s.draft.plan.None? && s.known.attractions.Some? && s.known.weather.Some? && s.known.hotels.Some?
    case RepairPlan =>
      && s.draft.plan.Some? && PendingCount(o) == 0 && s.searches.query.None? && s.meter.repairs < e.budget.maxRepairs
    case Finish =>
      && s.delivery.validation.Some? && s.delivery.acceptance.Some?
      && (s.delivery.validation.value.valid || s.delivery.acceptance.value.accepted)
    case SearchAttractions => s.draft.plan.None?
    case GetWeather => s.draft.plan.None?
    case SearchHotels => s.draft.plan.None?
  }

  /** With a measured plan, both evaluations recomputed with the routes are trusted. */
  lemma ReportsTrusted(e: Env, s: State)
    requires ReportsFresh(e, s.known, s.draft, s.reports, s.inputs) && s.draft.routes.Some?
    ensures s.draft.plan.Some? && RoutesUsable(s) && RouteCurrent(s) && ScheduleCurrent(s)
    ensures ConstraintsCurrent(s) ==> s.reports.constraintFor == s.draft.plan
    ensures s.reports.commute.Some? ==> CommuteCurrent(s)
  {
  }

  lemma GuardsInDelivery(e: Env, s: State)
    requires s.draft.plan.Some?
    requires s.delivery.validation.Some? ==> s.delivery.acceptance.Some? && Conclusive(DecideDelivery(e, s))
    requires ConstraintsCurrent(s) ==> s.reports.constraintFor == s.draft.plan
    requires s.draft.routes.Some? && RouteSettled(s.opts) && PendingCount(s.opts) == 0 && s.searches.query.None?
    ensures Ready(e, s, DecideDelivery(e, s))
  {
  }

  /** The reports an action needs are there whenever it is decided, candidates are judged
      only while pending and installed only while nothing is, and EVALUATE_SCHEDULE is
      never decided at all: the schedule report is always recomputed with the routes. */
  lemma Guards(e: Env, s: State)
    requires Inv(e, s) && !s.delivery.finished
    ensures Ready(e, s, Decide(e, s))
  {
    hide CandidateBudgets; hide BundlesFresh; hide SearchBudgets; hide CallBudgets;
    if s.draft.plan.Some? && s.draft.routes.Some? {
      ReportsTrusted(e, s);
      hide ReportsFresh; hide RouteCurrent; hide ScheduleCurrent; hide ConstraintsCurrent; hide CommuteCurrent; hide Stored;
      if Decide(e, s) == DecideDelivery(e, s) && RouteSettled(s.opts) && PendingCount(s.opts) == 0 && s.searches.query.None? {
        GuardsInDelivery(e, s);
      } else {
        hide DecideDelivery;
      }
    }
  }

  // ---- The optimisers ----

  lemma {:induction false} OneMoreVerdict(v: seq<Verdict>, x: Verdict)
    ensures Judged(v + [x]) == Judged(v) + One(!x.Passed?)
  {
    assert (v + [x])[..|v|] == v;
  }

  /** A session that is not concluding: the usual premise of the lemmas below. */
  ghost predicate Active(e: Env, s: State) {
    Inv(e, s) && !s.delivery.finished && s.delivery.validation.None? && s.draft.plan.Some? && s.draft.routes.Some?
  }

  lemma InstallRoutesKeeps(e: Env, s: State, c: Candidate)
    requires Active(e, s) && Ready(e, s, OptimizeRoutes) && !s.opts.route.Pending()
    ensures Inv(e, InstallRoutes(s, c))
  {
    hide Decide; hide Judged;
  }

  lemma PassRoutesKeeps(e: Env, s: State)
    requires Active(e, s) && s.opts.route.phase.NotStarted?
    ensures Inv(e, s.(opts := s.opts.(route := Pass(s.opts.route))))
  {
    OneMoreVerdict(s.opts.route.verdicts, Passed);
    hide Decide; hide Judged;
  }

  lemma ProposeRoutesKeeps(e: Env, s: State)
    requires Active(e, s) && Ready(e, s, OptimizeRoutes) && !s.opts.route.Pending() && s.reports.route.Some?
    ensures Inv(e, ProposeRoutes(e, s))
  {
    hide Inv;
    var proposal := e.proposeRoutes(s.draft.plan.value);
    if proposal.Some? { InstallRoutesKeeps(e, s, proposal.value); }
    PassRoutesKeeps(e, s);
  }

  lemma JudgeRoutesKeeps(e: Env, s: State)
    requires Active(e, s) && s.opts.route.Pending()
    ensures Kept(e, JudgeRoutes(e, s))
  {
    OneMoreVerdict(s.opts.route.verdicts, Accepted);
    OneMoreVerdict(s.opts.route.verdicts, Reverted);
    hide Decide; hide Judged; hide RouteAccepted;
  }

  lemma RefreshCommuteKeeps(e: Env, s: State)
    requires Active(e, s) && Ready(e, s, EvaluateCommute)
    ensures Inv(e, RefreshCommute(e, s))
  {
    hide Decide; hide Judged;
  }

  lemma InstallReplacementKeeps(e: Env, s: State, c: Candidate)
    requires Active(e, s) && Ready(e, s, ReplaceRemote) && !s.opts.commute.Pending()
    requires s.opts.commute.count < e.budget.maxCommuteAttempts
    ensures Inv(e, InstallReplacement(s, c))
  {
    hide Decide; hide Judged;
  }

  lemma PassReplacementKeeps(e: Env, s: State)
    requires Active(e, s) && Open(s) && s.opts.commute.phase.NotStarted?
    ensures Inv(e, s.(opts := s.opts.(commute := Pass(s.opts.commute))))
  {
    OneMoreVerdict(s.opts.commute.verdicts, Passed);
    hide Decide; hide Judged;
  }

  lemma AskForReplacementKeeps(e: Env, s: State, q: Query)
    requires Active(e, s) && Ready(e, s, ReplaceRemote) && !s.opts.commute.Pending()
    requires s.searches.commute < e.budget.maxSupplementSearches
    ensures Inv(e, s.(searches := s.searches.(query := Some(q)),
                      opts := s.opts.(commute := s.opts.commute.(phase := SupplementNeeded))))
  {
    hide Decide; hide Judged;
  }

  lemma ProposeReplacementKeeps(e: Env, s: State)
    requires Active(e, s) && Ready(e, s, ReplaceRemote) && !s.opts.commute.Pending()
    ensures Inv(e, ProposeReplacement(e, s))
  {
    hide Inv;
    var plan := s.draft.plan.value;
    var proposal := e.proposeReplacement(plan, s.reports.commute.value, s.known.attractions, Members(s.searches.commuteExcluded));
    var query := e.commuteQuery(plan, s.reports.commute.value, s.searches.commute);
    if s.opts.commute.count < e.budget.maxCommuteAttempts && proposal.Some? { InstallReplacementKeeps(e, s, proposal.value); }
    if s.searches.commute < e.budget.maxSupplementSearches && query.Some? { AskForReplacementKeeps(e, s, query.value); }
    PassReplacementKeeps(e, s);
  }

  lemma JudgeReplacementKeeps(e: Env, s: State)
    requires Active(e, s) && Ready(e, s, ReplaceRemote) && s.opts.commute.Pending()
    ensures Kept(e, JudgeReplacement(e, s))
  {
    OneMoreVerdict(s.opts.commute.verdicts, Accepted);
    OneMoreVerdict(s.opts.commute.verdicts, Reverted);
    hide Decide; hide Judged; hide CommuteAccepted; hide AddIdentities;
  }

  lemma InstallScheduleKeeps(e: Env, s: State, c: Candidate)
    requires Active(e, s) && Ready(e, s, OptimizeSchedule) && !s.opts.schedule.Pending()
    requires s.opts.schedule.count < e.budget.maxScheduleAttempts
    ensures Inv(e, InstallSchedule(s, c))
  {
    hide Decide; hide Judged;
  }

  lemma PassScheduleKeeps(e: Env, s: State)
    requires Active(e, s) && s.opts.schedule.phase.NotStarted?
    ensures Inv(e, s.(opts := s.opts.(schedule := Pass(s.opts.schedule))))
  {
    OneMoreVerdict(s.opts.schedule.verdicts, Passed);
    hide Decide; hide Judged;
  }

  lemma ProposeScheduleKeeps(e: Env, s: State)
    requires Active(e, s) && Ready(e, s, OptimizeSchedule) && !s.opts.schedule.Pending() && s.reports.schedule.Some?
    requires s.reports.route.Some?
    ensures Kept(e, ProposeSchedule(e, s))
  {
    hide Inv;
    var proposal := e.proposeSchedule(s.draft.plan.value, s.reports.schedule.value);
    if s.opts.schedule.count < e.budget.maxScheduleAttempts && proposal.Some? { InstallScheduleKeeps(e, s, proposal.value); }
    PassScheduleKeeps(e, s);
  }

  lemma JudgeScheduleKeeps(e: Env, s: State)
    requires Active(e, s) && Ready(e, s, OptimizeSchedule) && s.opts.schedule.Pending()
    ensures Kept(e, JudgeSchedule(e, s))
  {
    OneMoreVerdict(s.opts.schedule.verdicts, Accepted);
    OneMoreVerdict(s.opts.schedule.verdicts, Reverted);
    hide Decide; hide Judged; hide ScheduleAccepted;
  }

  lemma RefreshConstraintsKeeps(e: Env, s: State)
    requires Active(e, s) && Ready(e, s, EvaluateConstraints)
    ensures Inv(e, RefreshConstraints(e, s))
  {
    hide Decide; hide Judged;
  }

  lemma InstallConstraintsKeeps(e: Env, s: State, c: Candidate)
    requires Active(e, s) && Ready(e, s, OptimizeConstraints) && !s.opts.constraint.Pending()
    requires s.opts.constraint.count < e.budget.maxConstraintAttempts
    ensures Inv(e, InstallConstraints(s, c))
  {
    hide Decide; hide Judged;
  }

  lemma PassConstraintsKeeps(e: Env, s: State)
    requires Active(e, s) && s.opts.constraint.phase.NotStarted?
    ensures Inv(e, s.(opts := s.opts.(constraint := Pass(s.opts.constraint))))
  {
    OneMoreVerdict(s.opts.constraint.verdicts, Passed);
    hide Decide; hide Judged;
  }

  lemma ProposeConstraintsKeeps(e: Env, s: State)
    requires Active(e, s) && Ready(e, s, OptimizeConstraints) && !s.opts.constraint.Pending() && Measured(s)
    ensures Inv(e, ProposeConstraints(e, s))
  {
    hide Inv;
    var proposal := e.proposeConstraints(s.draft.plan.value, s.reports.constraints.value, s.known.attractions, s.known.weather);
    if s.opts.constraint.count < e.budget.maxConstraintAttempts && proposal.Some? {
      InstallConstraintsKeeps(e, s, proposal.value);
    }
    PassConstraintsKeeps(e, s);
  }

  lemma JudgeConstraintsKeeps(e: Env, s: State)
    requires Active(e, s) && Ready(e, s, OptimizeConstraints) && s.opts.constraint.Pending()
    ensures Kept(e, JudgeConstraints(e, s))
  {
    OneMoreVerdict(s.opts.constraint.verdicts, Accepted);
    OneMoreVerdict(s.opts.constraint.verdicts, Reverted);
    hide Decide; hide Judged; hide ConstraintsAccepted;
  }

  lemma InstallRefillKeeps(e: Env, s: State, c: Candidate)
    requires Active(e, s) && Ready(e, s, RefillAttractions) && !s.opts.refill.Pending()
    ensures Inv(e, InstallRefill(s, c))
  {
    hide Decide; hide Judged;
  }

  lemma PassRefillKeeps(e: Env, s: State)
    requires Active(e, s) && Open(s) && s.opts.refill.phase.NotStarted?
    ensures Inv(e, s.(opts := s.opts.(refill := Pass(s.opts.refill))))
    ensures Inv(e, s.(opts := s.opts.(refill := s.opts.refill.(phase := Completed))))
  {
    hide Decide; hide Judged; hide EvalSchedule; hide BundleFresh; hide Acceptance.Evaluate; hide EvidenceOf;
    OneMoreVerdict(s.opts.refill.verdicts, Passed);
  }

  lemma AskForRefillKeeps(e: Env, s: State, q: Query)
    requires Active(e, s) && Ready(e, s, RefillAttractions) && !s.opts.refill.Pending()
    requires s.searches.refill < e.budget.maxSupplementSearches
    ensures Inv(e, s.(searches := s.searches.(query := Some(q)),
                      opts := s.opts.(refill := s.opts.refill.(phase := SupplementNeeded))))
  {
    hide Decide; hide Judged;
  }

  lemma ProposeRefillKeeps(e: Env, s: State)
    requires Active(e, s) && Ready(e, s, RefillAttractions) && !s.opts.refill.Pending()
    ensures Inv(e, ProposeRefill(e, s))
  {
    hide Inv;
    var plan := s.draft.plan.value;
    var proposal := e.proposeRefill(plan, s.known.attractions, Members(s.searches.refillExcluded));
    var query := e.refillQuery(plan, s.searches.refill);
    if proposal.Some? { InstallRefillKeeps(e, s, proposal.value); }
    if s.searches.refill < e.budget.maxSupplementSearches && query.Some? { AskForRefillKeeps(e, s, query.value); }
    PassRefillKeeps(e, s);
  }

  lemma JudgeRefillKeeps(e: Env, s: State)
    requires Active(e, s) && Ready(e, s, RefillAttractions) && s.opts.refill.Pending()
    ensures Kept(e, JudgeRefill(e, s))
  {
    OneMoreVerdict(s.opts.refill.verdicts, Accepted);
    OneMoreVerdict(s.opts.refill.verdicts, Reverted);
    hide Decide; hide Judged; hide RefillAccepted; hide AddIdentities;
  }

  lemma RefillStepKeeps(e: Env, s: State)
    requires Active(e, s) && Ready(e, s, RefillAttractions) && Measured(s)
    ensures Kept(e, RefillStep(e, s))
  {
    hide Inv;
    if s.opts.refill.Pending() {
      JudgeRefillKeeps(e, s);
    } else {
      ProposeRefillKeeps(e, s);
      PassRefillKeeps(e, s);
    }
  }

  // ---- Content, validation, delivery ----

  lemma RebuildKeeps(e: Env, s: State)
    requires Active(e, s) && Ready(e, s, RebuildContent)
    ensures Kept(e, RebuildStep(e, s))
  {
    hide Decide; hide Judged;
  }

  /** A validation leaves nothing to do but to finish, to repair or to validate again. */
  lemma ValidationConcludes(e: Env, s: State, t: State)
    requires Decide(e, s) == ValidatePlan
    requires t.known == s.known && t.draft == s.draft && t.reports == s.reports && t.opts == s.opts && t.searches == s.searches
    requires t.meter == s.meter && t.delivery.contentFor == s.delivery.contentFor
    requires t.inputs.(validation := s.inputs.validation) == s.inputs
    requires s.draft.plan.Some? && t.delivery.validation.Some? && t.inputs.validation == Some(ValidationInputOf(s))
    ensures Conclusive(Decide(e, t))
  {
  }

  lemma ValidateKeeps(e: Env, s: State)
    requires Inv(e, s) && !s.delivery.finished && Decide(e, s) == ValidatePlan && Ready(e, s, ValidatePlan)
    ensures Kept(e, ValidateStep(e, s))
  {
    var v := e.validate(ValidationInputOf(s));
    var r := Acceptance.Evaluate(e, EvidenceOf(s), v);
    var t := s.(delivery := s.delivery.(validation := Some(v), acceptance := Some(r)),
                inputs := s.inputs.(validation := Some(ValidationInputOf(s))));
    ValidationConcludes(e, s, t);
    ValidationConcludes(e, s, t.(status := Failed));
    hide Decide; hide Judged; hide Acceptance.Evaluate;
  }

  lemma FinishKeeps(e: Env, s: State)
    requires Inv(e, s) && !s.delivery.finished && Decide(e, s) == Finish && Ready(e, s, Finish)
    ensures Kept(e, FinishStep(s))
  {
    hide Decide; hide Judged; hide Acceptance.Evaluate; hide Acceptance.Deliverable;
    DecideIgnores(e, s, FinishStep(s).state);
    Acceptance.AcceptedIff(e, EvidenceOf(s), s.delivery.validation.value);
  }

  // ---- Tools ----

  /** `t` differs from `s` in call counters, status and the mark of completion only. */
  predicate SameButMeter(s: State, t: State) {
    && t.known == s.known && t.draft == s.draft && t.reports == s.reports && t.opts == s.opts
    && t.searches == s.searches && t.inputs == s.inputs
    && t.delivery.contentFor == s.delivery.contentFor && t.delivery.validation == s.delivery.validation
    && t.delivery.acceptance == s.delivery.acceptance
  }

  lemma CurrencyIgnores(s: State, t: State)
    requires SameButMeter(s, t) && s.draft.plan.Some?
    ensures RouteCurrent(t) == RouteCurrent(s) && CommuteCurrent(t) == CommuteCurrent(s)
    ensures ScheduleCurrent(t) == ScheduleCurrent(s) && ConstraintsCurrent(t) == ConstraintsCurrent(s)
    ensures ValidationCurrent(t) == ValidationCurrent(s)
  {
  }

  lemma DeliveryIgnores(e: Env, s: State, t: State)
    requires SameButMeter(s, t) && t.meter.repairs == s.meter.repairs && s.draft.plan.Some?
    ensures DecideDelivery(e, t) == DecideDelivery(e, s) && DecideRefill(t) == DecideRefill(s)
    ensures DecideMeasured(t, OptimizeConstraints) == DecideMeasured(s, OptimizeConstraints)
    ensures DecideMeasured(t, RefillAttractions) == DecideMeasured(s, RefillAttractions)
    ensures WantsRouteCandidate(e, t) == WantsRouteCandidate(e, s) && RefillNeeded(e, t) == RefillNeeded(e, s)
  {
    hide RouteCurrent; hide CommuteCurrent; hide ScheduleCurrent; hide ConstraintsCurrent; hide ValidationCurrent;
    hide CountAttractions; hide RequiredAttractions;
    CurrencyIgnores(s, t);
  }

  lemma MeasuringIgnores(e: Env, s: State, t: State)
    requires SameButMeter(s, t) && t.meter.repairs == s.meter.repairs && s.draft.plan.Some?
    ensures DecideMeasuring(e, t) == DecideMeasuring(e, s)
  {
    hide DecideDelivery; hide DecideRefill; hide DecideMeasured; hide RefillNeeded; hide WantsRouteCandidate;
    hide RouteCurrent; hide CommuteCurrent; hide ScheduleCurrent; hide ConstraintsCurrent; hide ValidationCurrent;
    DeliveryIgnores(e, s, t);
    CurrencyIgnores(s, t);
  }

  /** Counting a call or closing the run changes no decision. */
  lemma DecideIgnores(e: Env, s: State, t: State)
    requires SameButMeter(s, t) && t.meter.repairs == s.meter.repairs
    ensures Decide(e, t) == Decide(e, s)
  {
    hide DecideMeasuring; hide WantsRouteCandidate; hide RouteCurrent;
    if s.draft.plan.Some? {
      DeliveryIgnores(e, s, t);
      CurrencyIgnores(s, t);
      MeasuringIgnores(e, s, t);
    }
  }

  lemma StatusKeeps(e: Env, s: State, status: Status)
    requires Inv(e, s)
    ensures Inv(e, s.(status := status))
  {
    DecideIgnores(e, s, s.(status := status));
    hide Decide; hide Judged; hide Acceptance.Evaluate;
  }

  lemma ChargedKeeps(e: Env, s: State, a: Action)
    requires Inv(e, s) && !OverBudget(e, s.meter, a, false)
    ensures Inv(e, Charged(e, s, a))
  {
    DecideIgnores(e, s, Charged(e, s, a));
    hide Decide; hide Judged; hide Acceptance.Evaluate;
  }

  lemma AfterSupplementKeeps(e: Env, s: State, next: Phase)
    requires Inv(e, s) && !s.delivery.finished && s.delivery.validation.None? && s.searches.query.Some?
    requires next.NotStarted? || next.Skipped?
    ensures Inv(e, AfterSupplement(s, next))
  {
    hide Decide; hide Judged;
  }

  lemma SaveNearbyKeeps(e: Env, s: State, facts: Facts)
    requires Inv(e, s) && !s.delivery.finished && s.delivery.validation.None? && s.searches.query.Some?
    ensures Inv(e, SaveNearby(e, s, facts))
  {
    hide Decide; hide Judged;
  }

  lemma SaveRestaurantsKeeps(e: Env, s: State, facts: Facts)
    requires Active(e, s)
    ensures Inv(e, SaveRestaurants(e, s, facts))
  {
    hide Decide; hide Judged;
  }

  lemma SaveRoutesKeeps(e: Env, s: State, r: Routes)
    requires Inv(e, s) && !s.delivery.finished && Ready(e, s, EstimateRoutes) && r.stamp == s.draft.plan.value.route
    ensures Inv(e, SaveRoutes(e, s, r))
  {
    hide Decide; hide Judged; hide EvalSchedule; hide BundleFresh; hide Acceptance.Evaluate; hide EvidenceOf;
  }

  lemma SavePlanKeeps(e: Env, s: State, p: Plan)
    requires Inv(e, s) && !s.delivery.finished && Ready(e, s, GeneratePlan)
    ensures Inv(e, SavePlan(e, s, p))
  {
    hide Decide; hide Judged;
  }

  lemma SaveRepairKeeps(e: Env, s: State, p: Plan)
    requires Inv(e, s) && !s.delivery.finished && Ready(e, s, RepairPlan)
    ensures Inv(e, SaveRepair(e, s, p))
  {
    hide Decide; hide Judged; hide EvalSchedule; hide BundleFresh; hide Acceptance.Evaluate; hide EvidenceOf;
  }

  lemma SaveKnownKeeps(e: Env, s: State, k: Known)
    requires Inv(e, s) && !s.delivery.finished && s.draft.plan.None?
    ensures Inv(e, s.(known := k))
  {
    hide Decide; hide Judged;
  }

  predicate CallsTool(a: Action) {
    || a.SearchAttractions? || a.GetWeather? || a.SearchHotels? || a.SearchRestaurants? || a.GeneratePlan?
    || a.EstimateRoutes? || a.SupplementAttractions? || a.RepairPlan?
  }

  /** What `Ready` asks of a tool action does not depend on the meter. */
  lemma ApplyKeeps(e: Env, s: State, a: Action, p: Payload)
    requires Inv(e, s) && !s.delivery.finished && CallsTool(a) && Ready(e, s, a)
    ensures var r := Apply(e, s, a, p); r.Some? ==> Inv(e, r.value)
  {
    hide Inv; hide NoNesting;
    if Apply(e, s, a, p).Some? {
      match a
      case SupplementAttractions => SaveNearbyKeeps(e, s, p.facts);
      case SearchRestaurants => SaveRestaurantsKeeps(e, s, p.facts);
      case EstimateRoutes => SaveRoutesKeeps(e, s, p.routes);
      case GeneratePlan => SavePlanKeeps(e, s, p.plan);
      case RepairPlan => SaveRepairKeeps(e, s, p.plan);
      case SearchAttractions => SaveKnownKeeps(e, s, s.known.(attractions := Some(p.facts)));
      case GetWeather => SaveKnownKeeps(e, s, s.known.(weather := Some(p.facts)));
      case SearchHotels => SaveKnownKeeps(e, s, s.known.(hotels := Some(p.facts)));
    }
  }

  lemma GiveUpKeeps(e: Env, s: State, a: Action, retryable: bool, retry: RetryAnswer)
    requires Inv(e, s) && !s.delivery.finished && CallsTool(a) && Ready(e, s, a)
    ensures Kept(e, GiveUpOrRetry(s, a, retryable, retry))
  {
    hide Inv; hide NoNesting;
    StatusKeeps(e, s, BudgetExhausted);
    StatusKeeps(e, s, Failed);
    if a.SupplementAttractions? { AfterSupplementKeeps(e, s, Skipped); }
  }

  lemma ToolKeeps(e: Env, s: State, a: Action, w: Wire)
    requires Inv(e, s) && !s.delivery.finished && CallsTool(a) && Ready(e, s, a)
    ensures Kept(e, ToolStep(e, s, a, w))
  {
    hide Inv; hide NoNesting; hide Apply; hide GiveUpOrRetry;
    StatusKeeps(e, s, BudgetExhausted);
    if !OverBudget(e, s.meter, a, w.late) {
      if !w.permitted {
        GiveUpKeeps(e, s, a, false, w.retry);
      } else {
        var t := Charged(e, s, a);
        ChargedKeeps(e, s, a);
        match w.response
        case Failure(retryable) => GiveUpKeeps(e, t, a, retryable, w.retry);
        case Returned(p) =>
          ApplyKeeps(e, t, a, p);
          GiveUpKeeps(e, t, a, true, w.retry);
      }
    }
  }

  // ---- Any decided action ----

  /** One turn of the loop body, whatever the tools answer: the invariant holds after it and
      none of the "missing data" errors can occur. */
  lemma NextKeeps(e: Env, s: State, w: Wire)
    requires Inv(e, s) && !s.delivery.finished
    ensures Kept(e, Next(e, s, w))
  {
    hide Inv; hide Decide; hide Ready; hide Kept; hide ToolStep; hide ValidateStep; hide FinishStep;
    var a := Decide(e, s);
    Guards(e, s);
    if CallsTool(a) {
      ToolKeeps(e, s, a, w);
    } else if a.ValidatePlan? {
      ValidateKeeps(e, s);
    } else if a.Finish? {
      FinishKeeps(e, s);
    } else {
      hide Execute;
      LocalKeeps(e, s, a);
    }
  }

  lemma LocalIsActive(e: Env, s: State, a: Action)
    requires Inv(e, s) && !s.delivery.finished && Ready(e, s, a) && !CallsTool(a) && !a.ValidatePlan? && !a.Finish?
    ensures Active(e, s) && Stamped(s.draft) && s.reports.route.Some? && s.reports.schedule.Some?
    ensures s.reports.routeFor == Some(s.draft.plan.value.route) && s.reports.scheduleFor == Some(s.draft.plan.value.route)
  {
    hide Inv; hide Decide; hide Validated; hide NoNesting;
    InvMeans(e, s);
    ReportsTrusted(e, s);
  }

  lemma LocalKeeps(e: Env, s: State, a: Action)
    requires Inv(e, s) && !s.delivery.finished && Ready(e, s, a) && !CallsTool(a) && !a.ValidatePlan? && !a.Finish?
    ensures forall w :: Kept(e, Execute(e, s, a, w))
  {
    hide Inv; hide Decide;
    LocalIsActive(e, s, a);
    match a
    case OptimizeRoutes => if s.opts.route.Pending() { JudgeRoutesKeeps(e, s); } else { ProposeRoutesKeeps(e, s); }
    case EvaluateCommute => RefreshCommuteKeeps(e, s);
    case ReplaceRemote => if s.opts.commute.Pending() { JudgeReplacementKeeps(e, s); } else { ProposeReplacementKeeps(e, s); }
    case OptimizeSchedule => if s.opts.schedule.Pending() { JudgeScheduleKeeps(e, s); } else { ProposeScheduleKeeps(e, s); }
    case EvaluateConstraints => RefreshConstraintsKeeps(e, s);
    case OptimizeConstraints =>
      if s.opts.constraint.Pending() { JudgeConstraintsKeeps(e, s); } else { ProposeConstraintsKeeps(e, s); }
    case RefillAttractions => RefillStepKeeps(e, s);
    case RebuildContent => RebuildKeeps(e, s);
  }
}
