/**
 What one turn of a session leaves behind: calls, their answers and failures, the local
 evaluations, and what follows a verdict. Each law is about a step of any run and names the
 fields themselves.
 */
module Effects {
  import opened Basics
  import opened TripTypes
  import opened Session
  import opened Actions
  import opened Invariant
  import opened Preservation
  import opened Bystanders
  import opened Runs
  import opened Completeness
  import Acceptance

  /** The call may still be paid for: in time, and within both budgets. */
  predicate Affordable(e: Env, s: State, a: Action, late: bool) {
    !late && s.meter.toolCalls < e.budget.maxToolCalls && s.meter.llmCalls + e.llmCost(a) <= e.budget.maxLlmCalls
  }

  /** The data has the shape the action asks for, and a supplement answers the open query. */
  predicate WellFormed(s: State, a: Action, p: Payload) {
    match a
    case GeneratePlan | RepairPlan => p.PlanData?
    case EstimateRoutes => p.RouteData? && s.draft.plan.Some? && p.routes.stamp == s.draft.plan.value.route
    case SupplementAttractions =>
      p.NearbyData? && s.searches.query == Some(Query(p.center, p.radius, p.page))
    case _ => p.FactsData?
  }

  /** A search given up or answered counts for the optimiser that asked. */
  predicate SearchCounted(s: State, t: State, next: Phase) {
    && t.searches.query.None?
    && if s.opts.refill.phase.SupplementNeeded?
       then t.searches.refill == s.searches.refill + 1 && t.searches.commute == s.searches.commute
            && t.opts == s.opts.(refill := s.opts.refill.(phase := NotStarted))
       else t.searches.commute == s.searches.commute + 1 && t.searches.refill == s.searches.refill
            && t.opts == s.opts.(commute := s.opts.commute.(phase := next))
  }

  /** What a failed attempt leaves of the state `s` it was charged to. */
  predicate FailedCall(s: State, a: Action, retryable: bool, retry: RetryAnswer, t: State) {
    if retryable && retry.NoTimeLeft? then t == s.(status := BudgetExhausted)
    else if retryable && retry.Again? then t == s
    else if a.SupplementAttractions? then
      SearchCounted(s, t, Skipped) && t.(searches := s.searches, opts := s.opts) == s
    else t == s.(status := Failed)
  }

  /** No grading is kept. */
  predicate Withdrawn(d: Delivery) { d.acceptance.None? && d.completion.None? }

  /** What a well-formed answer leaves of the state `s` it was charged to. */
  ghost predicate Answered(e: Env, s: State, a: Action, p: Payload, t: State)
    requires WellFormed(s, a, p)
  {
    && t.meter.toolCalls == s.meter.toolCalls && t.meter.llmCalls == s.meter.llmCalls && t.status == s.status
    && match a
       case SearchAttractions => t == s.(known := s.known.(attractions := Some(p.facts)))
       case GetWeather => t == s.(known := s.known.(weather := Some(p.facts)))
       case SearchHotels => t == s.(known := s.known.(hotels := Some(p.facts)))
       case SearchRestaurants =>
         && t.draft == s.draft && t.reports == s.reports && t.opts == s.opts && t.searches == s.searches
         && s.draft.plan.Some?
         && t.known == s.known.(restaurants := Some(p.facts), restaurantsFor := Some(e.restaurantKey(s.draft.plan.value)))
         && t.delivery.contentFor.None? && t.inputs.constraints.None? && t.inputs.validation.None? && Withdrawn(t.delivery)
       case GeneratePlan =>
         && t.draft == Draft(Some(e.dropDuplicates(p.plan)), None, None) && t.reports == NO_REPORTS && t.known == s.known
         && t.meter.repairs == s.meter.repairs && t.delivery.validation.None? && t.delivery.contentFor.None?
         && Withdrawn(t.delivery) && t.inputs == NO_INPUTS
         && t.opts.route.count == 0 && t.opts.schedule.count == 0 && t.opts.constraint.count == 0 && t.opts.commute.count == 0
         && t.searches == Searches(None, 0, s.searches.refill, [], s.searches.refillExcluded)
       case RepairPlan =>
         && t.draft == Draft(Some(e.dropDuplicates(p.plan)), None, None) && t.reports == NO_REPORTS && t.known == s.known
         && t.meter.repairs == s.meter.repairs + 1 && t.delivery.validation.None? && t.delivery.contentFor.None?
         && Withdrawn(t.delivery) && t.inputs == NO_INPUTS
         && t.opts.route.count == s.opts.route.count && t.opts.schedule.count == 0
         && t.opts.constraint.count == s.opts.constraint.count && t.opts.commute.count == s.opts.commute.count
         && t.opts.refill == s.opts.refill
         && t.opts.route.phase.NotStarted? && t.opts.schedule.phase.NotStarted? && t.opts.constraint.phase.NotStarted?
         && t.opts.commute.phase.NotStarted? && t.searches == s.searches.(query := None)
       case EstimateRoutes =>
         && s.draft.plan.Some? && t.delivery.validation.None? && Withdrawn(t.delivery)
         && var plan := s.draft.plan.value;
            var quality, timed := e.evalRoutes(plan.route, p.routes), EvalSchedule(e, plan, p.routes);
            && t.draft == Draft(s.draft.plan, Some(p.routes), Some(plan.route)) && t.known == s.known && t.searches == s.searches
            && t.reports == s.reports.(route := Some(quality), routeFor := Some(plan.route),
                                       schedule := Some(timed), scheduleFor := Some(plan.route), basis := s.draft.plan)
            && t.opts == s.opts.(
                 route := if s.opts.route.phase.NotStarted?
                             && !(quality.recommended && s.opts.route.count < e.budget.maxRouteAttempts)
                          then s.opts.route.(phase := Skipped) else s.opts.route,
                 schedule := if s.opts.schedule.phase.NotStarted? && !timed.figures.recommended
                             then s.opts.schedule.(phase := Skipped) else s.opts.schedule)
       case SupplementAttractions =>
         && t.known == s.known.(attractions := Some(e.mergePool(s.known.attractions, p.facts)))
         && t.draft == s.draft && t.reports == s.reports && t.inputs.constraints.None? && t.inputs.validation.None?
         && Withdrawn(t.delivery)
         && SearchCounted(s, t, NotStarted)
       case _ => true
  }

  lemma AppliedAnswers(e: Env, s: State, a: Action, p: Payload)
    requires CallsTool(a) && (a.SupplementAttractions? ==> s.searches.query.Some?)
    requires a.SearchRestaurants? || a.EstimateRoutes? ==> s.draft.plan.Some?
    requires a.GeneratePlan? || a.RepairPlan? ==> s.draft.plan.None? || !s.opts.refill.Pending()
    ensures Apply(e, s, a, p).Some? <==> WellFormed(s, a, p)
    ensures WellFormed(s, a, p) ==> Answered(e, s, a, p, Apply(e, s, a, p).value)
  {
    hide EvalSchedule;
  }

  lemma GivenUp(s: State, a: Action, retryable: bool, retry: RetryAnswer)
    requires a.SupplementAttractions? ==> s.searches.query.Some?
    ensures var r := GiveUpOrRetry(s, a, retryable, retry); !r.Broken? && FailedCall(s, a, retryable, retry, r.state)
  {
  }

  /** A call out of time or budget ends the run uncharged; one the breaker refuses is given up
      uncharged; any other is charged once, and then answered, retried, given up or fatal. */
  lemma CallLeaves(e: Env, r: seq<State>, m: seq<Move>, i: nat)
    requires IsRun(e, r, m) && i < |m| && m[i].Act? && CallsTool(Decide(e, r[i]))
    ensures var a, w := Decide(e, r[i]), m[i].w;
            if !Affordable(e, r[i], a, w.late) then r[i + 1] == r[i].(status := BudgetExhausted)
            else if !w.permitted then FailedCall(r[i], a, false, w.retry, r[i + 1])
            else
              var paid := r[i].(meter := Meter(r[i].meter.repairs, r[i].meter.toolCalls + 1,
                                               r[i].meter.llmCalls + e.llmCost(a)));
              match w.response
              case Failure(retryable) => FailedCall(paid, a, retryable, w.retry, r[i + 1])
              case Returned(p) =>
                if WellFormed(r[i], a, p) then Answered(e, paid, a, p, r[i + 1])
                else FailedCall(paid, a, true, w.retry, r[i + 1])
  {
    hide IsRun; hide Inv; hide Decide; hide Answered; hide FailedCall; hide WellFormed; hide Apply; hide GiveUpOrRetry; hide Moves;
    Turn(e, r, m, i);
    var s, a, w := r[i], Decide(e, r[i]), m[i].w;
    StepOf(e, r, m, i);
    Guards(e, s);
    ReadyForCall(e, s, a);
    var paid := Charged(e, s, a);
    SameShape(e, s, a, w);
    if Affordable(e, s, a, w.late) {
      if !w.permitted {
        GivenUp(s, a, false, w.retry);
      } else {
        match w.response
        case Failure(retryable) => GivenUp(paid, a, retryable, w.retry);
        case Returned(p) =>
          AppliedAnswers(e, paid, a, p);
          GivenUp(paid, a, true, w.retry);
      }
    }
  }

  lemma SameShape(e: Env, s: State, a: Action, w: Wire)
    ensures forall p :: WellFormed(Charged(e, s, a), a, p) == WellFormed(s, a, p)
  {
  }

  lemma ReadyForCall(e: Env, s: State, a: Action)
    requires Ready(e, s, a) && CallsTool(a)
    ensures PayloadReady(s, a)
    ensures a.GeneratePlan? || a.RepairPlan? ==> s.draft.plan.None? || !s.opts.refill.Pending()
  {
  }

  /** A decided call, as the function that specifies it. */
  lemma StepOf(e: Env, r: seq<State>, m: seq<Move>, i: nat)
    requires IsRun(e, r, m) && i < |m| && m[i].Act? && CallsTool(Decide(e, r[i]))
    ensures !r[i].delivery.finished && r[i].status.Running?
    ensures !ToolStep(e, r[i], Decide(e, r[i]), m[i].w).Broken?
    ensures r[i + 1] == ToolStep(e, r[i], Decide(e, r[i]), m[i].w).state
  {
    hide Decide; hide ToolStep; hide FRESH;
    assert Moves(e, r[i], m[i], r[i + 1]);
  }

  // ---- Local evaluations ----

  /** Each local evaluation stores the evaluator's answer beside the plan it is about. An optimiser
      not started is skipped if the answer calls for nothing; one finished with remote stops
      starts again on a new plan that calls for it. */
  lemma EvaluationLeaves(e: Env, r: seq<State>, m: seq<Move>, i: nat)
    requires IsRun(e, r, m) && i < |m| && m[i].Act?
    requires Decide(e, r[i]).EvaluateCommute? || Decide(e, r[i]).EvaluateConstraints?
    ensures r[i].draft.plan.Some? && r[i].draft.routes.Some?
    ensures var s, t, p := r[i], r[i + 1], r[i].draft.plan.value;
            && t.known == s.known && t.draft == s.draft && t.searches == s.searches && t.meter == s.meter && t.delivery == s.delivery
            && (Decide(e, s).EvaluateCommute? ==>
                  var c := e.evalCommute(p.route, s.draft.routes.value);
                  var phase := s.opts.commute.phase;
                  var moved := s.reports.commuteFor != Some(p.route);
                  && t.reports == s.reports.(commute := Some(c), commuteFor := Some(p.route))
                  && t.opts == s.opts.(commute := s.opts.commute.(
                       phase := if c.recommended && moved && (phase.Completed? || phase.Skipped?) then NotStarted
                                else if !c.recommended && phase.NotStarted? then Skipped else phase)))
            && (Decide(e, s).EvaluateConstraints? ==>
                  var input := ConstraintInput(p, s.reports.schedule, s.known.attractions, s.known.weather);
                  var c := e.evalConstraints(input);
                  && t.reports == s.reports.(constraints := Some(c), constraintFor := Some(p), weighed := Some(input))
                  && t.opts == s.opts.(constraint := s.opts.constraint.(
                       phase := if !c.recommended && s.opts.constraint.phase.NotStarted? then Skipped else s.opts.constraint.phase)))
  {
    hide IsRun; hide Inv; hide Decide;
    Turn(e, r, m, i);
    Guards(e, r[i]);
  }

  lemma Turn(e: Env, r: seq<State>, m: seq<Move>, i: nat)
    requires IsRun(e, r, m) && i < |m|
    ensures i + 1 < |r| && Inv(e, r[i]) && Moves(e, r[i], m[i], r[i + 1])
  {
    hide Moves; hide Inv;
    AlwaysInv(e, r, m, i);
  }

  /** A content rebuild changes texts and lunches, nothing an evaluator of routes or times reads,
      and reopens the validation. */
  lemma RebuildLeaves(e: Env, r: seq<State>, m: seq<Move>, i: nat)
    requires IsRun(e, r, m) && i < |m| && m[i].Act? && Decide(e, r[i]).RebuildContent?
    ensures r[i].draft.plan.Some? && r[i + 1].draft.plan.Some?
    ensures var s, t := r[i], r[i + 1];
            var p, q := s.draft.plan.value, t.draft.plan.value;
            && q.route == p.route && q.visits == p.visits && q.city == p.city && q.startDate == p.startDate && q.endDate == p.endDate
            && q.lunches == e.rebuild(p, s.draft.routes, s.reports.schedule, s.known.restaurants).lunches
            && q.text == e.rebuild(p, s.draft.routes, s.reports.schedule, s.known.restaurants).text
            && t.draft == s.draft.(plan := Some(q)) && t.reports == s.reports && t.opts == s.opts && t.known == s.known
            && t.delivery.contentFor == Some(e.contentKey(q, s.draft.routes, s.reports.schedule, s.known.restaurants))
            && t.delivery.validation.None? && t.delivery.rebuilds == s.delivery.rebuilds + 1
  {
    hide IsRun; hide Inv; hide Decide;
    Turn(e, r, m, i);
    Guards(e, r[i]);
  }

  /** A rebuild is refused exactly if the transportation texts it writes would change a day's mode. */
  lemma RebuildRefusedIff(e: Env, r: seq<State>, m: seq<Move>, i: nat, w: Wire)
    requires IsRun(e, r, m) && i < |r| && !r[i].delivery.finished && Decide(e, r[i]).RebuildContent?
    ensures r[i].draft.plan.Some?
    ensures var s := r[i];
            var p := s.draft.plan.value;
            Next(e, s, w).Broken?
            <==> e.rebuild(p, s.draft.routes, s.reports.schedule, s.known.restaurants).detail != p.route.detail
  {
    hide IsRun; hide Inv; hide Decide;
    AlwaysInv(e, r, m, i);
    Guards(e, r[i]);
  }

  /** A validation stores the validator's answer on the present inputs and its grading; it ends the
      run as failed exactly if the plan is neither valid nor deliverable nor repairable. */
  lemma ValidationLeaves(e: Env, r: seq<State>, m: seq<Move>, i: nat)
    requires IsRun(e, r, m) && i < |m| && m[i].Act? && Decide(e, r[i]).ValidatePlan?
    ensures r[i].draft.plan.Some?
    ensures var s, t := r[i], r[i + 1];
            var v := e.validate(ValidationInput(s.draft.plan.value, s.known.attractions, s.known.weather, s.known.hotels,
                                                s.draft.routes, s.reports.schedule, s.reports.constraints));
            var deliverable := v.valid || Acceptance.Deliverable(e, EvidenceOf(s), v);
            && t.known == s.known && t.draft == s.draft && t.reports == s.reports && t.opts == s.opts && t.searches == s.searches
            && t.meter == s.meter && t.delivery.validation == Some(v)
            && t.delivery.acceptance.Some? && (t.delivery.acceptance.value.accepted <==> deliverable)
            && t.status == (if deliverable || (v.repairable && s.meter.repairs < e.budget.maxRepairs) then s.status else Failed)
            && t.delivery.contentFor == s.delivery.contentFor && !t.delivery.finished
  {
    hide IsRun; hide Inv; hide Decide; hide Acceptance.Evaluate; hide Acceptance.Deliverable;
    Turn(e, r, m, i);
    Guards(e, r[i]);
    Acceptance.AcceptedIff(e, EvidenceOf(r[i]), e.validate(ValidationInputOf(r[i])));
  }

  /** Finishing only marks the session. */
  lemma FinishLeaves(e: Env, r: seq<State>, m: seq<Move>, i: nat)
    requires IsRun(e, r, m) && i < |m| && m[i].Act? && Decide(e, r[i]).Finish?
    ensures r[i + 1].delivery.finished && r[i + 1].status.Succeeded?
    ensures r[i + 1] == r[i].(status := Succeeded, delivery := r[i].delivery.(
                                finished := true, completion := r[i + 1].delivery.completion))
  {
    hide IsRun; hide Inv; hide Decide;
    Turn(e, r, m, i);
  }

  // ---- After a verdict ----

  /** Whether the optimiser goes on after a verdict: on routes, schedule and constraints never; on
      remote stops after a revert, or while the commute still calls for it, as long as attempts
      remain; on missing stops after a revert, as long as attempts remain. */
  function NextPhase(e: Env, k: Kind, s: State, reverted: bool): Phase {
    match k
    case RouteOrder => Completed
    case DaySchedule => Completed
    case Conflicts => Completed
    case RemoteStops =>
      if reverted || (s.reports.commute.Some? && s.reports.commute.value.recommended)
      then (if s.opts.commute.count < e.budget.maxCommuteAttempts then NotStarted else Skipped) else Completed
    case MissingStops =>
      if reverted then (if s.opts.refill.count < e.budget.maxRefillAttempts then NotStarted else Skipped) else Completed
  }

  /** The identities of a reverted candidate are ruled out from then on, and only those. */
  ghost predicate RulesOut(k: Kind, s: State, c: Candidate, reverted: bool, t: State) {
    && (forall x :: x in t.searches.commuteExcluded <==>
          x in s.searches.commuteExcluded || (k.RemoteStops? && reverted && x in c.identities))
    && (forall x :: x in t.searches.refillExcluded <==>
          x in s.searches.refillExcluded || (k.MissingStops? && reverted && x in c.identities))
  }

  ghost predicate AfterVerdict(e: Env, k: Kind, s: State, t: State) {
    var o, p := Of(s.opts, k), Of(t.opts, k);
    var reverted := p.verdicts == o.verdicts + [Reverted];
    && o.saved.candidate.Some? && p.count == o.count && p.saved == BLANK
    && p.phase == NextPhase(e, k, s, reverted) && RulesOut(k, s, o.saved.candidate.value, reverted, t)
    && OnlyOf(k, s.opts, t.opts.(schedule := if k.RouteOrder? then s.opts.schedule else t.opts.schedule))
    && (k.RouteOrder? && !reverted ==> t.opts.schedule == s.opts.schedule)
    && (k.RouteOrder? && reverted ==>
          && t.reports.schedule.Some?
          && t.opts.schedule.phase == if t.reports.schedule.value.figures.recommended then NotStarted else Skipped)
    && t.delivery.validation.None? && (k.RemoteStops? || k.MissingStops? ==> t.delivery.contentFor.None?)
    && t.known == s.known && t.meter == s.meter && t.searches.query == s.searches.query
  }

  lemma {:induction false} IdentitiesAdd(known: seq<Identity>, ids: seq<Identity>)
    ensures forall x :: x in AddIdentities(known, ids) <==> x in known || x in ids
    decreases |ids|
  {
    if ids != [] {
      var grown := if ids[0] in known then known else known + [ids[0]];
      IdentitiesAdd(grown, ids[1..]);
      assert forall x :: x in ids <==> x == ids[0] || x in ids[1..];
    }
  }

  lemma VerdictsApart(v: seq<Verdict>)
    ensures v + [Accepted] != v + [Reverted]
  {
    assert (v + [Accepted])[|v|] != (v + [Reverted])[|v|];
  }

  lemma RouteVerdictLeaves(e: Env, s: State)
    requires Active(e, s) && Ready(e, s, OptimizeRoutes) && s.opts.route.Pending() && OptimizeRoutesStep(e, s).Done?
    ensures AfterVerdict(e, RouteOrder, s, OptimizeRoutesStep(e, s).state)
  {
    hide Decide; hide Judged; hide RouteAccepted; hide EvalSchedule;
    VerdictsApart(s.opts.route.verdicts);
  }

  lemma ScheduleVerdictLeaves(e: Env, s: State)
    requires Active(e, s) && Ready(e, s, OptimizeSchedule) && s.opts.schedule.Pending() && OptimizeScheduleStep(e, s).Done?
    ensures AfterVerdict(e, DaySchedule, s, OptimizeScheduleStep(e, s).state)
  {
    hide Decide; hide Judged; hide ScheduleAccepted; hide EvalSchedule;
    VerdictsApart(s.opts.schedule.verdicts);
  }

  lemma ConflictsVerdictLeaves(e: Env, s: State)
    requires Active(e, s) && Ready(e, s, OptimizeConstraints) && s.opts.constraint.Pending() && OptimizeConstraintsStep(e, s).Done?
    ensures AfterVerdict(e, Conflicts, s, OptimizeConstraintsStep(e, s).state)
  {
    hide Decide; hide Judged; hide ConstraintsAccepted; hide EvalSchedule;
    VerdictsApart(s.opts.constraint.verdicts);
  }

  lemma ReplacementVerdictLeaves(e: Env, s: State)
    requires Active(e, s) && Ready(e, s, ReplaceRemote) && s.opts.commute.Pending() && ReplaceRemoteStep(e, s).Done?
    ensures AfterVerdict(e, RemoteStops, s, ReplaceRemoteStep(e, s).state)
  {
    hide Decide; hide Judged; hide CommuteAccepted; hide EvalSchedule; hide AddIdentities;
    VerdictsApart(s.opts.commute.verdicts);
    if s.opts.commute.saved.candidate.Some? {
      IdentitiesAdd(s.searches.commuteExcluded, s.opts.commute.saved.candidate.value.identities);
    }
  }

  lemma RefillVerdictLeaves(e: Env, s: State)
    requires Active(e, s) && Ready(e, s, RefillAttractions) && s.opts.refill.Pending() && RefillStep(e, s).Done?
    ensures AfterVerdict(e, MissingStops, s, RefillStep(e, s).state)
  {
    hide Decide; hide Judged; hide RefillAccepted; hide EvalSchedule; hide AddIdentities; hide CountAttractions;
    VerdictsApart(s.opts.refill.verdicts);
    if s.opts.refill.saved.candidate.Some? {
      IdentitiesAdd(s.searches.refillExcluded, s.opts.refill.saved.candidate.value.identities);
    }
  }

  lemma PendingOwner(k: Kind, s: State, a: Action, t: State)
    requires Traced(s, a, t) && Of(s.opts, k).Pending() && !Of(t.opts, k).Pending()
    ensures a == Owner(k)
  {
    hide Snapshot;
  }

  lemma OwnerIsActive(e: Env, s: State, k: Kind)
    requires Inv(e, s) && !s.delivery.finished && Ready(e, s, Owner(k))
    ensures Active(e, s)
  {
    hide Inv;
  }

  /** On every run: after a verdict the optimiser stops or goes on as budgets and reports say, its
      baseline is gone, and what a reverted candidate proposed is not proposed again. */
  lemma VerdictLeaves(e: Env, r: seq<State>, m: seq<Move>, k: Kind, j: nat)
    requires IsRun(e, r, m) && j < |m| && Of(r[j].opts, k).Pending() && !Of(r[j + 1].opts, k).Pending()
    ensures AfterVerdict(e, k, r[j], r[j + 1])
  {
    hide IsRun; hide Inv; hide Decide; hide Ready; hide Active; hide Traced; hide AfterVerdict; hide Of;
    hide OptimizeRoutesStep; hide OptimizeScheduleStep; hide OptimizeConstraintsStep; hide ReplaceRemoteStep; hide RefillStep;
    Turn(e, r, m, j);
    RunTraced(e, r, m, j);
    if m[j].Act? {
      var s := r[j];
      Guards(e, s);
      PendingOwner(k, s, Decide(e, s), r[j + 1]);
      OwnerIsActive(e, s, k);
      OwnersReturn(e, s, k, m[j].w);
      PendingIs(s.opts, k);
      match k
      case RouteOrder => RouteVerdictLeaves(e, s);
      case DaySchedule => ScheduleVerdictLeaves(e, s);
      case Conflicts => ConflictsVerdictLeaves(e, s);
      case RemoteStops => ReplacementVerdictLeaves(e, s);
      case MissingStops => RefillVerdictLeaves(e, s);
    }
  }

  lemma PendingIs(o: Optimisers, k: Kind)
    requires Of(o, k).Pending()
    ensures match k
            case RouteOrder => o.route.Pending()
            case DaySchedule => o.schedule.Pending()
            case Conflicts => o.constraint.Pending()
            case RemoteStops => o.commute.Pending()
            case MissingStops => o.refill.Pending()
  {
  }
}
