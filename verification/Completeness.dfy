/**
 What the decision function owes: nothing called for is skipped before delivery, and nothing is
 installed, asked for or given up without a reason. Each law names the evaluators' answers and
 the budgets themselves.
 */
module Completeness {
  import opened Basics
  import opened TripTypes
  import opened Session
  import opened Actions
  import opened Invariant
  import opened Preservation
  import opened Bystanders
  import opened Runs
  import Acceptance

  // ---- Nothing is skipped ----

  lemma DeliveryMeans(e: Env, s: State)
    requires s.draft.plan.Some? && Conclusive(DecideDelivery(e, s))
    ensures s.known.restaurants.Some? && s.known.restaurantsFor == Some(e.restaurantKey(s.draft.plan.value))
    ensures s.delivery.contentFor
            == Some(e.contentKey(s.draft.plan.value, s.draft.routes, s.reports.schedule, s.known.restaurants))
    ensures s.reports.constraints.Some? && ConstraintsCurrent(s) && !s.opts.constraint.phase.CandidatePending?
    ensures s.opts.constraint.phase.NotStarted? ==> !s.reports.constraints.value.recommended
  {
    hide ConstraintsCurrent; hide ValidationCurrent;
    TrustedIsThere(s);
  }

  lemma TrustedIsThere(s: State)
    requires s.draft.plan.Some?
    ensures ConstraintsCurrent(s) ==> s.reports.constraints.Some?
  {
  }

  /** What the whole decision passed by on its way to a conclusion. */
  lemma ConclusionMeans(e: Env, s: State)
    requires Conclusive(Decide(e, s))
    ensures s.known.attractions.Some? && s.known.weather.Some? && s.known.hotels.Some? && s.draft.plan.Some?
    ensures DecideDelivery(e, s) == Decide(e, s)
    ensures s.draft.routes.Some? && s.reports.route.Some? && s.reports.commute.Some? && s.reports.schedule.Some?
    ensures var o := s.opts;
            && !o.route.phase.CandidatePending? && !o.schedule.phase.CandidatePending? && !o.constraint.phase.CandidatePending?
            && !o.commute.phase.CandidatePending? && !o.refill.phase.CandidatePending?
            && !o.commute.phase.SupplementNeeded? && !o.refill.phase.SupplementNeeded?
            && (o.route.phase.NotStarted? && s.reports.route.value.recommended ==> o.route.count >= e.budget.maxRouteAttempts)
            && (o.schedule.phase.NotStarted? ==> !s.reports.schedule.value.figures.recommended)
            && (o.commute.phase.NotStarted? ==> !s.reports.commute.value.recommended)
    ensures var days := if e.request.travelDays >= 1 then e.request.travelDays else 1;
            var least := if e.budget.minimumAttractions <= days then e.budget.minimumAttractions else days;
            Total(s.draft.plan.value.route.days) < least ==>
              || s.opts.refill.phase.Completed? || s.opts.refill.phase.Skipped?
              || s.opts.refill.count >= e.budget.maxRefillAttempts
  {
    hide DecideDelivery; hide ConstraintsCurrent; hide Total;
  }

  /** A finished session skipped nothing. It knows restaurants for the very plan, its content was
      rebuilt from what it holds, its reports are the evaluators' on the present plan, no
      candidate and no search is open, no optimiser was left untried that its report calls for,
      and with too few stops the refill was tried to its end. */
  lemma FinishedSkippedNothing(e: Env, r: seq<State>, m: seq<Move>, i: nat)
    requires IsRun(e, r, m) && i < |r| && r[i].delivery.finished
    ensures r[i].draft.plan.Some? && r[i].draft.routes.Some?
    ensures var s := r[i];
            var p := s.draft.plan.value;
            var q := s.draft.routes.value;
            && s.known.attractions.Some? && s.known.weather.Some? && s.known.hotels.Some?
            && s.known.restaurants.Some? && s.known.restaurantsFor == Some(e.restaurantKey(p))
            && s.delivery.contentFor == Some(e.contentKey(p, Some(q), s.reports.schedule, s.known.restaurants))
            && q.stamp == p.route
            && s.reports.route == Some(e.evalRoutes(p.route, q))
            && s.reports.commute == Some(e.evalCommute(p.route, q))
            && s.reports.schedule.Some? && s.reports.schedule.value.figures == e.evalFigures(p.route, p.visits, q)
            && s.reports.constraints.Some? && s.reports.constraintFor == Some(p)
    ensures var s := r[i];
            var o := s.opts;
            && !o.route.phase.CandidatePending? && !o.schedule.phase.CandidatePending? && !o.constraint.phase.CandidatePending?
            && !o.commute.phase.CandidatePending? && !o.refill.phase.CandidatePending?
            && s.searches.query.None?
            && (o.route.phase.NotStarted? && s.reports.route.value.recommended ==> o.route.count >= e.budget.maxRouteAttempts)
            && (o.schedule.phase.NotStarted? ==> !s.reports.schedule.value.figures.recommended)
            && (o.commute.phase.NotStarted? ==> !s.reports.commute.value.recommended)
            && (o.constraint.phase.NotStarted? ==> !s.reports.constraints.value.recommended)
    ensures var days := if e.request.travelDays >= 1 then e.request.travelDays else 1;
            var least := if e.budget.minimumAttractions <= days then e.budget.minimumAttractions else days;
            Total(r[i].draft.plan.value.route.days) < least ==>
              || r[i].opts.refill.phase.Completed? || r[i].opts.refill.phase.Skipped?
              || r[i].opts.refill.count >= e.budget.maxRefillAttempts
  {
    hide IsRun; hide Inv; hide Decide; hide DecideDelivery; hide Total; hide ConstraintsCurrent; hide Validated;
    AlwaysInv(e, r, m, i);
    InvMeans(e, r[i]);
    FinishedConcludes(e, r[i]);
    ConclusionMeans(e, r[i]);
    DeliveryMeans(e, r[i]);
    OneAsker(r[i].opts, r[i].searches.query);
    ReportsTrusted(e, r[i]);
    SameStopsSameFigures(e, r[i].reports.basis.value, r[i].draft.plan.value, r[i].draft.routes.value);
    hide NoNesting; hide EvalSchedule;
  }

  lemma FinishedConcludes(e: Env, s: State)
    requires Validated(e, s) && s.delivery.finished
    ensures Conclusive(Decide(e, s))
  {
    hide Decide; hide Acceptance.Evaluate;
  }

  /** With a validation result at hand: finish exactly if it is valid or graded deliverable, repair
      exactly if it is neither but repairable within the budget. */
  lemma ConcludesAsGraded(e: Env, r: seq<State>, m: seq<Move>, i: nat)
    requires IsRun(e, r, m) && i < |r| && r[i].delivery.validation.Some?
    ensures r[i].draft.plan.Some?
    ensures var v := e.validate(ValidationInputOf(r[i]));
            var deliverable := v.valid || Acceptance.Deliverable(e, EvidenceOf(r[i]), v);
            var repairable := !deliverable && v.repairable && r[i].meter.repairs < e.budget.maxRepairs;
            && r[i].delivery.validation == Some(v)
            && (Decide(e, r[i]).Finish? <==> deliverable) && (Decide(e, r[i]).RepairPlan? <==> repairable)
            && (Decide(e, r[i]).ValidatePlan? <==> !deliverable && !repairable)
  {
    hide IsRun; hide Inv; hide Decide; hide DecideDelivery; hide Acceptance.Evaluate; hide Acceptance.Deliverable; hide Validated;
    AlwaysInv(e, r, m, i);
    InvMeans(e, r[i]);
    VerdictIsPresent(e, r[i]);
    ConcludesInDelivery(e, r[i]);
    Acceptance.AcceptedIff(e, EvidenceOf(r[i]), r[i].delivery.validation.value);
    GradeDecides(e, r[i]);
  }

  lemma VerdictIsPresent(e: Env, s: State)
    requires Validated(e, s) && s.delivery.validation.Some?
    ensures s.draft.plan.Some? && s.delivery.validation == Some(e.validate(ValidationInputOf(s))) && ValidationCurrent(s)
    ensures s.delivery.acceptance == Some(Acceptance.Evaluate(e, EvidenceOf(s), s.delivery.validation.value))
    ensures Conclusive(Decide(e, s))
  {
    hide Decide; hide Acceptance.Evaluate;
  }

  lemma GradeDecides(e: Env, s: State)
    requires s.draft.plan.Some? && s.delivery.validation.Some? && s.delivery.acceptance.Some? && ValidationCurrent(s)
    requires Conclusive(DecideDelivery(e, s))
    ensures var v := s.delivery.validation.value;
            var done := v.valid || s.delivery.acceptance.value.accepted;
            var again := !done && v.repairable && s.meter.repairs < e.budget.maxRepairs;
            && (DecideDelivery(e, s).Finish? <==> done) && (DecideDelivery(e, s).RepairPlan? <==> again)
            && (DecideDelivery(e, s).ValidatePlan? <==> !done && !again)
  {
    hide ConstraintsCurrent; hide ContentCurrent;
  }

  /** The days' stops, counted one day after the other. */
  lemma {:induction false} TotalAdds(days: seq<nat>, n: nat)
    ensures Total([]) == 0 && Total(days + [n]) == Total(days) + n
  {
    if days == [] {
      assert [n][1..] == [];
    } else {
      TotalAdds(days[1..], n);
      assert (days + [n])[1..] == days[1..] + [n];
    }
  }

  // ---- Nothing is done without a reason ----

  function Owner(k: Kind): Action {
    match k
    case RouteOrder => OptimizeRoutes
    case DaySchedule => OptimizeSchedule
    case Conflicts => OptimizeConstraints
    case RemoteStops => ReplaceRemote
    case MissingStops => RefillAttractions
  }

  /** The candidate is the plan now, its routes are still to be queried, nothing reported or built
      for the old plan is left, and an attempt is spent. */
  predicate Installs(k: Kind, s: State, t: State, c: Candidate) {
    && Restarts(k, s.opts, t.opts) && t.known == s.known && t.meter == s.meter
    && Of(t.opts, k).phase.CandidatePending? && Of(t.opts, k).count == Of(s.opts, k).count + 1
    && t.draft == Draft(Some(c.plan), None, None) && t.reports == NO_REPORTS && t.searches == s.searches.(query := None)
    && t.delivery.contentFor.None? && t.delivery.validation.None?
    && (k.RemoteStops? || (t.delivery.acceptance.None? && t.delivery.completion.None?))
  }

  /** With a new order of stops the schedule, constraint and commute optimisers start anew, with a
      new schedule those of constraints and commute, with a new place or stop that of the commute;
      a replaced remote stop restarts none. What they spent stays spent. */
  predicate Restarts(k: Kind, o: Optimisers, p: Optimisers) {
    && (!k.RouteOrder? ==> p.route == o.route)
    && (!k.DaySchedule? ==> p.schedule == if k.RouteOrder? then o.schedule.(phase := NotStarted, saved := BLANK) else o.schedule)
    && (!k.Conflicts? ==>
          p.constraint == if k.RouteOrder? || k.DaySchedule? then o.constraint.(phase := NotStarted, saved := BLANK) else o.constraint)
    && (!k.RemoteStops? ==> p.commute == o.commute.(phase := NotStarted, saved := BLANK))
    && (!k.MissingStops? ==> p.refill == o.refill)
  }

  /** Nothing changes but the optimiser, which is skipped. */
  predicate GivesUp(k: Kind, s: State, t: State) {
    && Of(t.opts, k) == Of(s.opts, k).(phase := Skipped, verdicts := Of(s.opts, k).verdicts + [Passed])
    && OnlyOf(k, s.opts, t.opts) && t == s.(opts := t.opts)
  }

  predicate OnlyOf(k: Kind, o: Optimisers, p: Optimisers) {
    && (!k.RouteOrder? ==> p.route == o.route) && (!k.DaySchedule? ==> p.schedule == o.schedule)
    && (!k.Conflicts? ==> p.constraint == o.constraint) && (!k.RemoteStops? ==> p.commute == o.commute)
    && (!k.MissingStops? ==> p.refill == o.refill)
  }

  predicate AsksFor(k: Kind, s: State, t: State, q: Query) {
    && Of(t.opts, k) == Of(s.opts, k).(phase := SupplementNeeded) && OnlyOf(k, s.opts, t.opts)
    && t == s.(opts := t.opts, searches := s.searches.(query := Some(q)))
  }

  /** What the owner of `k` does with no candidate pending: it was called for, and it installs the
      proposal there is, asks for the query there is while searches remain, or gives up. */
  ghost predicate Proposal(e: Env, k: Kind, s: State, t: State)
    requires s.draft.plan.Some?
  {
    var p := s.draft.plan.value;
    var b := e.budget;
    match k
    case RouteOrder =>
      var c := e.proposeRoutes(p);
      && s.reports.route.Some? && s.reports.route.value.recommended && s.opts.route.count < b.maxRouteAttempts
      && if c.Some? then Installs(k, s, t, c.value) else GivesUp(k, s, t)
    case DaySchedule =>
      && s.reports.schedule.Some? && s.reports.schedule.value.figures.recommended
      && var c := e.proposeSchedule(p, s.reports.schedule.value);
         if s.opts.schedule.count < b.maxScheduleAttempts && c.Some? then Installs(k, s, t, c.value) else GivesUp(k, s, t)
    case Conflicts =>
      && s.reports.constraints.Some? && s.reports.constraints.value.recommended
      && var c := e.proposeConstraints(p, s.reports.constraints.value, s.known.attractions, s.known.weather);
         if s.opts.constraint.count < b.maxConstraintAttempts && c.Some? then Installs(k, s, t, c.value) else GivesUp(k, s, t)
    case RemoteStops =>
      && s.reports.commute.Some? && s.reports.commute.value.recommended
      && var c := e.proposeReplacement(p, s.reports.commute.value, s.known.attractions, set x | x in s.searches.commuteExcluded);
         var q := e.commuteQuery(p, s.reports.commute.value, s.searches.commute);
         if s.opts.commute.count >= b.maxCommuteAttempts then GivesUp(k, s, t)
         else if c.Some? then Installs(k, s, t, c.value)
         else if s.searches.commute < b.maxSupplementSearches && q.Some? then AsksFor(k, s, t, q.value)
         else GivesUp(k, s, t)
    case MissingStops =>
      var days := if e.request.travelDays >= 1 then e.request.travelDays else 1;
      var least := if b.minimumAttractions <= days then b.minimumAttractions else days;
      && Total(p.route.days) < least && s.opts.refill.count < b.maxRefillAttempts
      && var c := e.proposeRefill(p, s.known.attractions, set x | x in s.searches.refillExcluded);
         var q := e.refillQuery(p, s.searches.refill);
         if c.Some? then Installs(k, s, t, c.value)
         else if s.searches.refill < b.maxSupplementSearches && q.Some? then AsksFor(k, s, t, q.value)
         else GivesUp(k, s, t)
  }

  /** Why an optimiser with no candidate pending is called. */
  lemma CalledFor(e: Env, s: State, k: Kind)
    requires Inv(e, s) && !s.delivery.finished && Decide(e, s) == Owner(k) && !Of(s.opts, k).Pending()
    ensures s.draft.plan.Some? && Ready(e, s, Owner(k)) && Active(e, s)
    ensures k.RouteOrder? ==>
              s.reports.route.Some? && s.reports.route.value.recommended && s.opts.route.count < e.budget.maxRouteAttempts
    ensures k.DaySchedule? ==> s.reports.schedule.Some? && s.reports.schedule.value.figures.recommended
    ensures k.Conflicts? ==> s.reports.constraints.Some? && s.reports.constraints.value.recommended
    ensures k.RemoteStops? ==> s.reports.commute.Some? && s.reports.commute.value.recommended
    ensures k.MissingStops? ==>
              var days := if e.request.travelDays >= 1 then e.request.travelDays else 1;
              var least := if e.budget.minimumAttractions <= days then e.budget.minimumAttractions else days;
              Total(s.draft.plan.value.route.days) < least && s.opts.refill.count < e.budget.maxRefillAttempts
  {
    hide Inv; hide Total; hide ConstraintsCurrent; hide ScheduleCurrent; hide CommuteCurrent; hide Validated;
    Guards(e, s);
    InvMeans(e, s);
    if s.draft.routes.Some? { ReportsTrusted(e, s); }
  }

  lemma RouteProposed(e: Env, s: State)
    requires Active(e, s) && Ready(e, s, OptimizeRoutes) && !s.opts.route.Pending() && OptimizeRoutesStep(e, s).Done?
    requires s.reports.route.Some? && s.reports.route.value.recommended && s.opts.route.count < e.budget.maxRouteAttempts
    ensures Proposal(e, RouteOrder, s, OptimizeRoutesStep(e, s).state)
  {
    hide Decide; hide Judged; hide JudgeRoutes;
  }

  lemma ScheduleProposed(e: Env, s: State)
    requires Active(e, s) && Ready(e, s, OptimizeSchedule) && !s.opts.schedule.Pending() && OptimizeScheduleStep(e, s).Done?
    requires s.reports.schedule.Some? && s.reports.schedule.value.figures.recommended
    ensures Proposal(e, DaySchedule, s, OptimizeScheduleStep(e, s).state)
  {
    hide Decide; hide Judged; hide JudgeSchedule; hide EvalSchedule;
  }

  lemma ConflictsProposed(e: Env, s: State)
    requires Active(e, s) && Ready(e, s, OptimizeConstraints) && !s.opts.constraint.Pending() && OptimizeConstraintsStep(e, s).Done?
    requires s.reports.constraints.Some? && s.reports.constraints.value.recommended
    ensures Proposal(e, Conflicts, s, OptimizeConstraintsStep(e, s).state)
  {
    hide Decide; hide Judged; hide JudgeConstraints; hide EvalSchedule;
  }

  lemma ReplacementProposed(e: Env, s: State)
    requires Active(e, s) && Ready(e, s, ReplaceRemote) && !s.opts.commute.Pending() && ReplaceRemoteStep(e, s).Done?
    requires s.reports.commute.Some? && s.reports.commute.value.recommended
    ensures Proposal(e, RemoteStops, s, ReplaceRemoteStep(e, s).state)
  {
    hide Decide; hide Judged; hide JudgeReplacement; hide EvalSchedule;
    assert Members(s.searches.commuteExcluded) == set x | x in s.searches.commuteExcluded;
  }

  lemma RefillProposed(e: Env, s: State)
    requires Active(e, s) && Ready(e, s, RefillAttractions) && !s.opts.refill.Pending() && RefillStep(e, s).Done?
    requires var days := if e.request.travelDays >= 1 then e.request.travelDays else 1;
             var least := if e.budget.minimumAttractions <= days then e.budget.minimumAttractions else days;
             Total(s.draft.plan.value.route.days) < least && s.opts.refill.count < e.budget.maxRefillAttempts
    ensures Proposal(e, MissingStops, s, RefillStep(e, s).state)
  {
    hide Decide; hide Judged; hide JudgeRefill; hide EvalSchedule; hide Total;
    assert Members(s.searches.refillExcluded) == set x | x in s.searches.refillExcluded;
  }

  /** On every run: an optimiser without a pending candidate acts only when it is called for, and
      then installs the proposal, asks for a supplement or gives up, exactly as budgets, proposal
      and query say. */
  lemma ProposesWithReason(e: Env, r: seq<State>, m: seq<Move>, k: Kind, i: nat)
    requires IsRun(e, r, m) && i < |m| && m[i].Act? && Decide(e, r[i]) == Owner(k) && !Of(r[i].opts, k).Pending()
    ensures r[i].draft.plan.Some? && Proposal(e, k, r[i], r[i + 1])
  {
    hide Inv; hide Decide; hide Proposal; hide Active; hide Ready;
    AlwaysInv(e, r, m, i);
    assert Moves(e, r[i], m[i], r[i + 1]);
    CalledFor(e, r[i], k);
    hide IsRun;
    hide OptimizeRoutesStep; hide OptimizeScheduleStep; hide OptimizeConstraintsStep; hide ReplaceRemoteStep; hide RefillStep;
    OwnersReturn(e, r[i], k, m[i].w);
    match k
    case RouteOrder => RouteProposed(e, r[i]);
    case DaySchedule => ScheduleProposed(e, r[i]);
    case Conflicts => ConflictsProposed(e, r[i]);
    case RemoteStops => ReplacementProposed(e, r[i]);
    case MissingStops => RefillProposed(e, r[i]);
  }

  lemma OwnersReturn(e: Env, s: State, k: Kind, w: Wire)
    ensures !Execute(e, s, Owner(k), w).Raised?
  {
    hide RouteAccepted; hide ScheduleAccepted; hide ConstraintsAccepted; hide CommuteAccepted; hide RefillAccepted;
    hide AddIdentities; hide Members; hide CountAttractions; hide Bound; hide EvalSchedule;
  }
}
