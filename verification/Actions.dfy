/**
 What every action of app/agent_runtime/orchestrator.py does to the business state,
 as functions from the old state to the new one.
 */
module Actions {
  import opened Basics
  import opened TripTypes
  import opened Session
  import Acceptance

  /** The ValueErrors the action bodies can raise. */
  datatype Fault = MissingInput | MissingBaseline | StampMismatch | RebuildChangedRoutes

  /** `Done(s, ok)` returns normally, with `ok` the success flag of the appended record;
      `Raised(s)` ends the run with an agent error after appending a failed record;
      `Broken` is a ValueError, which appends nothing. */
  datatype Step = Done(state: State, ok: bool) | Raised(state: State) | Broken(fault: Fault)

  // ---- Clearing and re-synchronising derived data ----

  function Cleared(o: Optimiser, reset: bool): Optimiser {
    Optimiser(NotStarted, if reset then 0 else o.count, BLANK, o.verdicts)
  }

  /** Popping the key "validation" also withdraws the grading. */
  function Ungraded(d: Delivery): Delivery { d.(acceptance := None, completion := None) }

  function ClearCommute(s: State, reset: bool): State {
    s.(inputs := s.inputs.(commute := None, validation := None),
       delivery := Ungraded(s.delivery),
       reports := s.reports.(commute := None, commuteFor := None),
       opts := s.opts.(commute := Cleared(s.opts.commute, reset)),
       searches := if reset then s.searches.(query := None, commute := 0, commuteExcluded := [])
                   else s.searches.(query := None))
  }

  function ClearConstraints(s: State, reset: bool): State {
    s.(inputs := s.inputs.(constraints := None, validation := None),
       delivery := Ungraded(s.delivery),
       reports := s.reports.(constraints := None, constraintFor := None, weighed := None),
       opts := s.opts.(constraint := Cleared(s.opts.constraint, reset)))
  }

  function ClearRoutes(s: State, reset: bool): State {
    var o := s.opts;
    State(
      s.known, Draft(s.draft.plan, None, None), NO_REPORTS,
      o.(route := Cleared(o.route, reset), schedule := Cleared(o.schedule, reset),
         constraint := Cleared(o.constraint, reset), commute := Cleared(o.commute, reset)),
      if reset then s.searches.(query := None, commute := 0, commuteExcluded := []) else s.searches.(query := None),
      Ungraded(s.delivery).(contentFor := None, validation := None),
      NO_INPUTS, s.meter, s.status)
  }

  /** After a revert: of the five input fingerprints, those of the reports that belong to
      the restored plan. */
  function Bound(k: Known, d: Draft, r: Reports): Inputs {
    if d.plan.None? || d.routes.None? then NO_INPUTS
    else
      var key := Some(d.plan.value.route);
      var input := Some(RouteInput(d.plan.value.route, d.routes));
      Inputs(
        if r.route.Some? && r.routeFor == key then input else None,
        if r.commute.Some? && r.commuteFor == key then input else None,
        if r.schedule.Some? && r.scheduleFor == key then input else None,
        if r.constraints.Some? && r.schedule.Some? && r.constraintFor == d.plan
          then Some(ConstraintInput(d.plan.value, r.schedule, k.attractions, k.weather)) else None,
        None)
  }

  function Synchronised(s: State): State { s.(inputs := Bound(s.known, s.draft, s.reports)) }

  /** Replacing the plan drops the stored content fingerprint and validation result. */
  function Reopened(d: Delivery): Delivery { d.(contentFor := None, validation := None) }

  function Unvalidated(d: Delivery): Delivery { d.(validation := None) }

  // ---- Refreshing one report ----

  predicate Stamped(d: Draft) {
    d.plan.Some? && d.routes.Some? && d.routes.value.stamp == d.plan.value.route
  }

  function RefreshRoutes(e: Env, s: State): State
    requires Stamped(s.draft)
  {
    var key := s.draft.plan.value.route;
    s.(reports := s.reports.(route := Some(e.evalRoutes(key, s.draft.routes.value)), routeFor := Some(key)),
       inputs := s.inputs.(route := Some(RouteInputOf(s))))
  }

  function Settled(o: Optimiser, recommended: bool): Optimiser {
    if o.phase.NotStarted? && !recommended then o.(phase := Skipped) else o
  }

  function RefreshSchedule(e: Env, s: State): State
    requires Stamped(s.draft)
  {
    var r := EvalSchedule(e, s.draft.plan.value, s.draft.routes.value);
    s.(reports := s.reports.(schedule := Some(r), scheduleFor := Some(s.draft.plan.value.route), basis := s.draft.plan),
       inputs := s.inputs.(schedule := Some(RouteInputOf(s))),
       opts := s.opts.(schedule := Settled(s.opts.schedule, r.figures.recommended)))
  }

  /** A recommendation on a new plan reopens a finished commute optimiser. */
  function CommutePhase(p: Phase, recommended: bool, moved: bool): Phase {
    if recommended && moved && (p.Completed? || p.Skipped?) then NotStarted
    else if p.NotStarted? && !recommended then Skipped
    else p
  }

  function RefreshCommute(e: Env, s: State): State
    requires Stamped(s.draft)
  {
    var key := s.draft.plan.value.route;
    var r := e.evalCommute(key, s.draft.routes.value);
    var o := s.opts.commute;
    s.(reports := s.reports.(commute := Some(r), commuteFor := Some(key)),
       inputs := s.inputs.(commute := Some(RouteInputOf(s))),
       opts := s.opts.(commute := o.(phase := CommutePhase(o.phase, r.recommended, s.reports.commuteFor != Some(key)))))
  }

  function RefreshConstraints(e: Env, s: State): State
    requires s.draft.plan.Some? && s.reports.schedule.Some?
  {
    var r := e.evalConstraints(ConstraintInputOf(s));
    s.(reports := s.reports.(constraints := Some(r), constraintFor := s.draft.plan, weighed := Some(ConstraintInputOf(s))),
       inputs := s.inputs.(constraints := Some(ConstraintInputOf(s))),
       opts := s.opts.(constraint := Settled(s.opts.constraint, r.recommended)))
  }

  // ---- Steps every optimiser shares ----

  function Pass(o: Optimiser): Optimiser {
    o.(phase := Skipped, verdicts := o.verdicts + [Passed])
  }

  function Install(o: Optimiser, saved: Bundle): Optimiser {
    Optimiser(CandidatePending, o.count + 1, saved, o.verdicts)
  }

  function Conclude(o: Optimiser, phase: Phase, verdict: Verdict): Optimiser {
    Optimiser(phase, o.count, BLANK, o.verdicts + [verdict])
  }

  function AddIdentities(known: seq<Identity>, ids: seq<Identity>): seq<Identity>
    decreases |ids|
  {
    if ids == [] then known
    else AddIdentities(if ids[0] in known then known else known + [ids[0]], ids[1..])
  }

  function Members(ids: seq<Identity>): set<Identity> { set i | i in ids }

  function GainPercent(e: Env, before: real, after: real): real {
    if before <= 0.0 then 0.0 else e.round2((before - after) / before * 100.0)
  }

  predicate RoutesNoWorse(now: RouteReport, before: RouteReport) {
    now.unavailableLegs <= before.unavailableLegs && now.excessiveLegs <= before.excessiveLegs
  }

  predicate ScheduleFits(r: ScheduleReport) { r.figures.overtime == 0 && r.figures.infeasibleDays == 0 }

  predicate Measured(s: State) {
    && s.draft.plan.Some? && s.draft.routes.Some?
    && s.reports.route.Some? && s.reports.schedule.Some? && s.reports.constraints.Some?
  }

  // ---- _optimize_routes ----

  predicate RouteBundle(b: Bundle) {
    b.plan.Some? && b.routes.Some? && b.routeReport.Some? && b.routeFor.Some? && b.candidate.Some?
  }

  predicate RouteAccepted(e: Env, before: RouteReport, after: RouteReport) {
    && after.cost < before.cost && GainPercent(e, before.cost, after.cost) >= e.minRouteGain
    && RoutesNoWorse(after, before)
  }

  /** The route optimiser stores no schedule report: its revert recomputes it. */
  function RestoreForRoutes(s: State): State {
    var b := s.opts.route.saved;
    s.(draft := Draft(b.plan, b.routes, b.routeFor),
       reports := s.reports.(route := b.routeReport, routeFor := b.routeFor),
       opts := s.opts.(route := Conclude(s.opts.route, Completed, Reverted),
                       schedule := s.opts.schedule.(phase := NotStarted)),
       delivery := Unvalidated(s.delivery))
  }

  function JudgeRoutes(e: Env, s: State): Step
    requires s.reports.route.Some?
  {
    var b := s.opts.route.saved;
    if !RouteBundle(b) then Broken(MissingBaseline)
    else if RouteAccepted(e, b.routeReport.value, s.reports.route.value) then
      Done(s.(opts := s.opts.(route := Conclude(s.opts.route, Completed, Accepted)), delivery := Unvalidated(s.delivery)), true)
    else
      var t := RestoreForRoutes(s);
      if !Stamped(t.draft) then Broken(StampMismatch) else Done(Synchronised(RefreshSchedule(e, t)), true)
  }

  /** The baseline every optimiser stores: plan, snapshot and route-quality report. */
  function Baseline(s: State, candidate: Candidate): Bundle {
    BLANK.(plan := s.draft.plan, routes := s.draft.routes, routeReport := s.reports.route, candidate := Some(candidate))
  }

  function InstallRoutes(s: State, c: Candidate): State
    requires s.draft.plan.Some?
  {
    var o := s.opts;
    var saved := Baseline(s, c).(routeFor := Some(s.draft.plan.value.route));
    State(
      s.known, Draft(Some(c.plan), None, None), NO_REPORTS,
      o.(route := Install(o.route, saved), schedule := Cleared(o.schedule, false),
         constraint := Cleared(o.constraint, false), commute := Cleared(o.commute, false)),
      s.searches.(query := None),
      Reopened(Ungraded(s.delivery)),
      s.inputs.(commute := None, constraints := None, validation := None), s.meter, s.status)
  }

  function ProposeRoutes(e: Env, s: State): State
    requires s.draft.plan.Some? && s.reports.route.Some?
  {
    var proposal := e.proposeRoutes(s.draft.plan.value);
    if s.opts.route.count >= e.budget.maxRouteAttempts || !s.reports.route.value.recommended || proposal.None?
    then s.(opts := s.opts.(route := Pass(s.opts.route)))
    else InstallRoutes(s, proposal.value)
  }

  function OptimizeRoutesStep(e: Env, s: State): Step {
    if s.draft.plan.None? || s.draft.routes.None? then Broken(MissingInput)
    else
      var known := s.reports.route.Some? && s.reports.routeFor == Some(s.draft.plan.value.route);
      if !known && !Stamped(s.draft) then Broken(StampMismatch)
      else
        var t := if known then s else RefreshRoutes(e, s);
        if t.opts.route.Pending() then JudgeRoutes(e, t) else Done(ProposeRoutes(e, t), true)
  }

  // ---- _evaluate_commute, _replace_remote_attraction ----

  function EvaluateCommuteStep(e: Env, s: State): Step {
    if s.draft.plan.None? || s.draft.routes.None? then Broken(MissingInput)
    else if !Stamped(s.draft) then Broken(StampMismatch)
    else Done(RefreshCommute(e, s), true)
  }

  predicate CommuteBundle(b: Bundle) {
    && b.plan.Some? && b.routes.Some? && b.routeReport.Some? && b.commuteReport.Some?
    && b.scheduleReport.Some? && b.constraintReport.Some? && b.routeFor.Some? && b.constraintFor.Some?
    && b.candidate.Some?
  }

  predicate CommuteAccepted(e: Env, s: State, b: Bundle)
    requires Measured(s) && s.reports.commute.Some? && CommuteBundle(b)
  {
    var now := s.reports.commute.value;
    var before := b.commuteReport.value;
    && s.reports.route.value.unavailableLegs <= b.routeReport.value.unavailableLegs
    && now.excessiveSegments < before.excessiveSegments && now.maxDuration < before.maxDuration
    && e.normaliseName(b.candidate.value.name) !in now.issueNames
    && ScheduleFits(s.reports.schedule.value)
    && s.reports.constraints.value.errors == 0
    && CountAttractions(s.draft.plan.value) == CountAttractions(b.plan.value)
  }

  function RetryPhase(count: nat, budget: nat): Phase {
    if count < budget then NotStarted else Skipped
  }

  function JudgeReplacement(e: Env, s: State): Step
    requires Measured(s) && s.reports.commute.Some?
  {
    var o := s.opts.commute;
    var b := o.saved;
    var again := RetryPhase(o.count, e.budget.maxCommuteAttempts);
    if !CommuteBundle(b) then Broken(MissingBaseline)
    else if CommuteAccepted(e, s, b) then
      var phase := if s.reports.commute.value.recommended then again else Completed;
      Done(s.(opts := s.opts.(commute := Conclude(o, phase, Accepted)), delivery := Reopened(s.delivery)), true)
    else
      var t := State(
        s.known, Draft(b.plan, b.routes, b.routeFor),
        Reports(b.routeReport, b.routeFor, b.commuteReport, b.routeFor, b.scheduleReport, b.routeFor,
                b.constraintReport, b.constraintFor, b.basis, b.weighed),
        s.opts.(commute := Conclude(o, again, Reverted)),
        s.searches.(commuteExcluded := AddIdentities(s.searches.commuteExcluded, b.candidate.value.identities)),
        Reopened(s.delivery), s.inputs, s.meter, s.status);
      Done(Synchronised(t), true)
  }

  /** Unlike the other optimisers this one leaves the input fingerprints in place. */
  function InstallReplacement(s: State, c: Candidate): State
    requires s.draft.plan.Some?
  {
    var saved := Bundle(s.draft.plan, s.draft.routes, s.reports.route, s.reports.commute, s.reports.schedule,
                        s.reports.constraints, Some(s.draft.plan.value.route), s.draft.plan, Some(c),
                        s.reports.basis, s.reports.weighed);
    s.(draft := Draft(Some(c.plan), None, None), reports := NO_REPORTS,
       opts := s.opts.(commute := Install(s.opts.commute, saved)), delivery := Reopened(s.delivery))
  }

  function ProposeReplacement(e: Env, s: State): State
    requires s.draft.plan.Some? && s.reports.commute.Some?
  {
    var plan := s.draft.plan.value;
    var q := s.searches;
    var proposal := e.proposeReplacement(plan, s.reports.commute.value, s.known.attractions, Members(q.commuteExcluded));
    var query := if q.commute < e.budget.maxSupplementSearches
                 then e.commuteQuery(plan, s.reports.commute.value, q.commute) else None;
    if s.opts.commute.count >= e.budget.maxCommuteAttempts then s.(opts := s.opts.(commute := Pass(s.opts.commute)))
    else if proposal.Some? then InstallReplacement(s, proposal.value)
    else if query.Some? then
      s.(searches := q.(query := query), opts := s.opts.(commute := s.opts.commute.(phase := SupplementNeeded)))
    else s.(opts := s.opts.(commute := Pass(s.opts.commute)))
  }

  function ReplaceRemoteStep(e: Env, s: State): Step {
    if !Measured(s) || s.reports.commute.None? then Broken(MissingInput)
    else if s.opts.commute.Pending() then JudgeReplacement(e, s)
    else Done(ProposeReplacement(e, s), true)
  }

  // ---- _evaluate_schedule, _optimize_schedule ----

  function EvaluateScheduleStep(e: Env, s: State): Step {
    if s.draft.plan.None? || s.draft.routes.None? then Broken(MissingInput)
    else if !Stamped(s.draft) then Broken(StampMismatch)
    else Done(RefreshSchedule(e, s), true)
  }

  predicate ScheduleBundle(b: Bundle) {
    && b.plan.Some? && b.routes.Some? && b.routeReport.Some? && b.scheduleReport.Some? && b.routeFor.Some?
    && b.candidate.Some?
  }

  predicate ScheduleNoWorse(now: ScheduleReport, before: ScheduleReport) {
    && now.figures.overtime <= before.figures.overtime && now.figures.infeasibleDays <= before.figures.infeasibleDays
    && now.figures.fallbackLegs <= before.figures.fallbackLegs
  }

  predicate ScheduleAccepted(e: Env, now: ScheduleReport, before: ScheduleReport, routes: RouteReport, routesBefore: RouteReport) {
    && now.figures.cost < before.figures.cost && GainPercent(e, before.figures.cost, now.figures.cost) >= e.minScheduleGain
    && ScheduleNoWorse(now, before) && RoutesNoWorse(routes, routesBefore)
  }

  function JudgeSchedule(e: Env, s: State): Step
    requires s.reports.schedule.Some?
  {
    var o := s.opts.schedule;
    var b := o.saved;
    if !ScheduleBundle(b) || s.reports.route.None? then Broken(MissingBaseline)
    else if ScheduleAccepted(e, s.reports.schedule.value, b.scheduleReport.value, s.reports.route.value, b.routeReport.value) then
      Done(s.(opts := s.opts.(schedule := Conclude(o, Completed, Accepted)), delivery := Unvalidated(s.delivery)), true)
    else
      Done(Synchronised(s.(
        draft := Draft(b.plan, b.routes, b.routeFor),
        reports := s.reports.(route := b.routeReport, routeFor := b.routeFor,
                              schedule := b.scheduleReport, scheduleFor := b.routeFor, basis := b.basis),
        opts := s.opts.(schedule := Conclude(o, Completed, Reverted)), delivery := Unvalidated(s.delivery))), true)
  }

  function InstallSchedule(s: State, c: Candidate): State
    requires s.draft.plan.Some?
  {
    var o := s.opts;
    var saved := Baseline(s, c).(scheduleReport := s.reports.schedule, routeFor := Some(s.draft.plan.value.route),
                                 basis := s.reports.basis);
    State(
      s.known, Draft(Some(c.plan), None, None), NO_REPORTS,
      o.(schedule := Install(o.schedule, saved), constraint := Cleared(o.constraint, false), commute := Cleared(o.commute, false)),
      s.searches.(query := None),
      Reopened(Ungraded(s.delivery)),
      s.inputs.(commute := None, constraints := None, validation := None), s.meter, s.status)
  }

  function ProposeSchedule(e: Env, s: State): Step
    requires s.draft.plan.Some? && s.reports.schedule.Some?
  {
    var proposal := e.proposeSchedule(s.draft.plan.value, s.reports.schedule.value);
    if s.opts.schedule.count >= e.budget.maxScheduleAttempts || !s.reports.schedule.value.figures.recommended || proposal.None?
    then Done(s.(opts := s.opts.(schedule := Pass(s.opts.schedule))), true)
    else if s.reports.route.None? then Broken(MissingInput)
    else Done(InstallSchedule(s, proposal.value), true)
  }

  function OptimizeScheduleStep(e: Env, s: State): Step {
    if s.draft.plan.None? || s.draft.routes.None? then Broken(MissingInput)
    else
      var known := s.reports.schedule.Some? && s.reports.scheduleFor == Some(s.draft.plan.value.route);
      if !known && !Stamped(s.draft) then Broken(StampMismatch)
      else
        var t := if known then s else RefreshSchedule(e, s);
        if t.opts.schedule.Pending() then JudgeSchedule(e, t) else ProposeSchedule(e, t)
  }

  // ---- _evaluate_constraints, _optimize_constraints ----

  function EvaluateConstraintsStep(e: Env, s: State): Step {
    if s.draft.plan.None? || s.reports.schedule.None? then Broken(MissingInput)
    else Done(RefreshConstraints(e, s), true)
  }

  predicate ConstraintBundle(b: Bundle) {
    && b.plan.Some? && b.routes.Some? && b.routeReport.Some? && b.scheduleReport.Some?
    && b.constraintReport.Some? && b.constraintFor.Some? && b.candidate.Some?
  }

  predicate ConstraintsAccepted(e: Env, s: State, b: Bundle)
    requires Measured(s) && ConstraintBundle(b)
  {
    var now := s.reports.constraints.value;
    var before := b.constraintReport.value;
    && now.cost < before.cost && GainPercent(e, before.cost, now.cost) >= e.minConstraintGain
    && now.errors <= before.errors
    && RoutesNoWorse(s.reports.route.value, b.routeReport.value)
    && ScheduleNoWorse(s.reports.schedule.value, b.scheduleReport.value)
  }

  function JudgeConstraints(e: Env, s: State): Step
    requires Measured(s)
  {
    var o := s.opts.constraint;
    var b := o.saved;
    if !ConstraintBundle(b) then Broken(MissingBaseline)
    else if ConstraintsAccepted(e, s, b) then
      Done(s.(opts := s.opts.(constraint := Conclude(o, Completed, Accepted)), delivery := Unvalidated(s.delivery)), true)
    else
      var key := Some(b.plan.value.route);
      Done(Synchronised(s.(
        draft := Draft(b.plan, b.routes, key),
        reports := Reports(b.routeReport, key, s.reports.commute, s.reports.commuteFor, b.scheduleReport, key,
                           b.constraintReport, b.constraintFor, b.basis, b.weighed),
        opts := s.opts.(constraint := Conclude(o, Completed, Reverted)), delivery := Unvalidated(s.delivery))), true)
  }

  function InstallConstraints(s: State, c: Candidate): State {
    var o := s.opts;
    var saved := Baseline(s, c).(scheduleReport := s.reports.schedule, constraintReport := s.reports.constraints,
                                 constraintFor := s.draft.plan, basis := s.reports.basis, weighed := s.reports.weighed);
    State(
      s.known, Draft(Some(c.plan), None, None), NO_REPORTS,
      o.(constraint := Install(o.constraint, saved), commute := Cleared(o.commute, false)),
      s.searches.(query := None),
      Reopened(Ungraded(s.delivery)), s.inputs.(commute := None, validation := None), s.meter, s.status)
  }

  function ProposeConstraints(e: Env, s: State): State
    requires Measured(s)
  {
    var proposal := e.proposeConstraints(s.draft.plan.value, s.reports.constraints.value, s.known.attractions, s.known.weather);
    if s.opts.constraint.count >= e.budget.maxConstraintAttempts || !s.reports.constraints.value.recommended || proposal.None?
    then s.(opts := s.opts.(constraint := Pass(s.opts.constraint)))
    else InstallConstraints(s, proposal.value)
  }

  function OptimizeConstraintsStep(e: Env, s: State): Step {
    if s.draft.plan.None? || s.draft.routes.None? || s.reports.route.None? || s.reports.schedule.None? then Broken(MissingInput)
    else
      var t := if s.reports.constraints.Some? && s.reports.constraintFor == s.draft.plan then s else RefreshConstraints(e, s);
      if t.opts.constraint.Pending() then JudgeConstraints(e, t) else Done(ProposeConstraints(e, t), true)
  }

  // ---- _refill_attractions ----

  predicate RefillBundle(b: Bundle) {
    && b.plan.Some? && b.routes.Some? && b.routeReport.Some? && b.scheduleReport.Some?
    && b.constraintReport.Some? && b.routeFor.Some? && b.constraintFor.Some? && b.candidate.Some?
  }

  predicate RefillAccepted(e: Env, s: State, b: Bundle)
    requires Measured(s) && RefillBundle(b)
  {
    && RoutesNoWorse(s.reports.route.value, b.routeReport.value)
    && ScheduleFits(s.reports.schedule.value)
    && s.reports.constraints.value.errors == 0
    && CountAttractions(s.draft.plan.value) >= RequiredAttractions(e)
  }

  function JudgeRefill(e: Env, s: State): Step {
    var o := s.opts.refill;
    var b := o.saved;
    if !RefillBundle(b) || !Measured(s) then Broken(MissingBaseline)
    else if RefillAccepted(e, s, b) then
      Done(s.(opts := s.opts.(refill := Conclude(o, Completed, Accepted)), delivery := Reopened(s.delivery)), true)
    else
      Done(Synchronised(s.(
        draft := Draft(b.plan, b.routes, b.routeFor),
        reports := Reports(b.routeReport, b.routeFor, s.reports.commute, s.reports.commuteFor, b.scheduleReport, b.routeFor,
                           b.constraintReport, b.constraintFor, b.basis, b.weighed),
        opts := s.opts.(refill := Conclude(o, RetryPhase(o.count, e.budget.maxRefillAttempts), Reverted)),
        searches := s.searches.(refillExcluded := AddIdentities(s.searches.refillExcluded, b.candidate.value.identities)),
        delivery := Reopened(s.delivery))), true)
  }

  function InstallRefill(s: State, c: Candidate): State
    requires s.draft.plan.Some?
  {
    var o := s.opts;
    var saved := Baseline(s, c).(scheduleReport := s.reports.schedule, constraintReport := s.reports.constraints,
                                 routeFor := Some(s.draft.plan.value.route), constraintFor := s.draft.plan,
                                 basis := s.reports.basis, weighed := s.reports.weighed);
    State(
      s.known, Draft(Some(c.plan), None, None), NO_REPORTS,
      o.(refill := Install(o.refill, saved), commute := Cleared(o.commute, false)),
      s.searches.(query := None),
      Reopened(Ungraded(s.delivery)), s.inputs.(commute := None, validation := None), s.meter, s.status)
  }

  function ProposeRefill(e: Env, s: State): State
    requires s.draft.plan.Some?
  {
    var plan := s.draft.plan.value;
    var q := s.searches;
    var proposal := e.proposeRefill(plan, s.known.attractions, Members(q.refillExcluded));
    var query := if q.refill < e.budget.maxSupplementSearches then e.refillQuery(plan, q.refill) else None;
    if proposal.Some? then InstallRefill(s, proposal.value)
    else if query.Some? then
      s.(searches := q.(query := query), opts := s.opts.(refill := s.opts.refill.(phase := SupplementNeeded)))
    else s.(opts := s.opts.(refill := Pass(s.opts.refill)))
  }

  function RefillStep(e: Env, s: State): Step {
    var o := s.opts.refill;
    if s.draft.plan.None? then Broken(MissingInput)
    else if o.Pending() then JudgeRefill(e, s)
    else if CountAttractions(s.draft.plan.value) >= RequiredAttractions(e) then
      Done(s.(opts := s.opts.(refill := o.(phase := Completed))), true)
    else if o.count >= e.budget.maxRefillAttempts then Done(s.(opts := s.opts.(refill := Pass(o))), true)
    else if !Measured(s) then Broken(MissingInput)
    else Done(ProposeRefill(e, s), true)
  }

  // ---- _rebuild_plan_content, _validate_plan, FINISH ----

  /** `TripPlanConsistencyRebuilder.rebuild` on the present state */
  function Rebuilt(e: Env, s: State): Plan
    requires s.draft.plan.Some?
  {
    WithContent(s.draft.plan.value, e.rebuild(s.draft.plan.value, s.draft.routes, s.reports.schedule, s.known.restaurants))
  }

  function RebuildStep(e: Env, s: State): Step {
    if s.draft.plan.None? || s.draft.routes.None? then Broken(MissingInput)
    else
      var rebuilt := Rebuilt(e, s);
      if rebuilt.route != s.draft.plan.value.route then Broken(RebuildChangedRoutes)
      else
        var key := e.contentKey(rebuilt, s.draft.routes, s.reports.schedule, s.known.restaurants);
        Done(s.(draft := s.draft.(plan := Some(rebuilt)),
                delivery := s.delivery.(rebuilds := s.delivery.rebuilds + 1, validation := None, contentFor := Some(key))), true)
  }

  function EvidenceOf(s: State): Acceptance.Evidence {
    Acceptance.Evidence(s.draft.plan, s.reports.route, s.reports.schedule, s.reports.commute, s.reports.constraints)
  }

  predicate CanRepair(e: Env, s: State, v: Validation) { v.repairable && s.meter.repairs < e.budget.maxRepairs }

  function ValidateStep(e: Env, s: State): Step {
    if s.draft.plan.None? then Broken(MissingInput)
    else
      var v := e.validate(ValidationInputOf(s));
      var report := Acceptance.Evaluate(e, EvidenceOf(s), v);
      var t := s.(delivery := s.delivery.(validation := Some(v), acceptance := Some(report)),
                  inputs := s.inputs.(validation := Some(ValidationInputOf(s))));
      if v.valid || report.accepted then Done(t, true)
      else if CanRepair(e, s, v) then Done(t, false)
      else Raised(t.(status := Failed))
  }

  function FinishStep(s: State): Step {
    var grade := s.delivery.acceptance;
    var partial := grade.Some? && grade.value.accepted && grade.value.partial;
    Done(s.(delivery := s.delivery.(finished := true, completion := Some(if partial then Partial else Full)),
            status := Succeeded), true)
  }

  // ---- Actions that call a tool ----

  datatype Payload =
    | FactsData(facts: Facts)
    | PlanData(plan: Plan)
    | RouteData(routes: Routes)
    | NearbyData(center: int, radius: int, page: int, facts: Facts)
    | Malformed

  datatype Response = Failure(retryable: bool) | Returned(payload: Payload)

  /** What `decide_retry` answers once the result itself is retryable: it stops (attempt
      limit, circuit open), asks for another attempt, or finds no time left. */
  datatype RetryAnswer = Stop | Again | NoTimeLeft

  /** Everything a tool call meets: deadline passed, breaker permission, response, retry. */
  datatype Wire = Wire(late: bool, permitted: bool, response: Response, retry: RetryAnswer)

  /** `_pre_call_budget_reason` */
  predicate OverBudget(e: Env, m: Meter, a: Action, late: bool) {
    late || m.toolCalls + 1 > e.budget.maxToolCalls || m.llmCalls + e.llmCost(a) > e.budget.maxLlmCalls
  }

  /** The query is answered or given up: its asker moves on, its counter goes up. */
  function AfterSupplement(s: State, next: Phase): State {
    var o := s.opts;
    if o.refill.phase.SupplementNeeded? then
      s.(searches := s.searches.(refill := s.searches.refill + 1, query := None),
         opts := o.(refill := o.refill.(phase := NotStarted)))
    else
      s.(searches := s.searches.(commute := s.searches.commute + 1, query := None),
         opts := o.(commute := o.commute.(phase := next)))
  }

  /** `_handle_failed_attraction_supplement` */
  function FailedSupplement(s: State): State {
    var o := s.opts;
    if s.searches.query.Some? then AfterSupplement(s, Skipped)
    else if o.refill.phase.SupplementNeeded? then s.(opts := o.(refill := o.refill.(phase := NotStarted)))
    else s.(opts := o.(commute := o.commute.(phase := Skipped)))
  }

  function SaveRoutes(e: Env, s: State, r: Routes): State
    requires s.draft.plan.Some? && r.stamp == s.draft.plan.value.route
  {
    var o := s.opts.route;
    var t := RefreshRoutes(e, s.(draft := Draft(s.draft.plan, Some(r), Some(r.stamp))));
    var skip := o.phase.NotStarted? && (!t.reports.route.value.recommended || o.count >= e.budget.maxRouteAttempts);
    RefreshSchedule(e, t.(
      inputs := t.inputs.(commute := None, constraints := None, validation := None),
      delivery := Unvalidated(Ungraded(s.delivery)),
      opts := if skip then t.opts.(route := o.(phase := Skipped)) else t.opts))
  }

  function SaveNearby(e: Env, s: State, facts: Facts): State {
    AfterSupplement(s.(
      known := s.known.(attractions := Some(e.mergePool(s.known.attractions, facts))),
      inputs := s.inputs.(constraints := None, validation := None), delivery := Ungraded(s.delivery)), NotStarted)
  }

  function SaveRestaurants(e: Env, s: State, facts: Facts): State
    requires s.draft.plan.Some?
  {
    s.(known := s.known.(restaurants := Some(facts), restaurantsFor := Some(e.restaurantKey(s.draft.plan.value))),
       inputs := s.inputs.(constraints := None, validation := None),
       delivery := Ungraded(s.delivery).(contentFor := None))
  }

  function SavePlan(e: Env, s: State, p: Plan): State {
    ClearRoutes(s.(draft := s.draft.(plan := Some(e.dropDuplicates(p)))), true)
  }

  function SaveRepair(e: Env, s: State, p: Plan): State {
    var t := ClearRoutes(s.(draft := s.draft.(plan := Some(e.dropDuplicates(p)))), false);
    t.(opts := t.opts.(schedule := t.opts.schedule.(count := 0)), meter := t.meter.(repairs := t.meter.repairs + 1))
  }

  /** `_apply_tool_result`; None where it raises. */
  function Apply(e: Env, s: State, a: Action, p: Payload): Option<State> {
    match a
    case SearchAttractions => if p.FactsData? then Some(s.(known := s.known.(attractions := Some(p.facts)))) else None
    case GetWeather => if p.FactsData? then Some(s.(known := s.known.(weather := Some(p.facts)))) else None
    case SearchHotels => if p.FactsData? then Some(s.(known := s.known.(hotels := Some(p.facts)))) else None
    case SupplementAttractions =>
      if s.searches.query.None? || !p.NearbyData? then None
      else
        var q := s.searches.query.value;
        if p.radius != q.radius || p.page != q.page || p.center != q.center then None
        else Some(SaveNearby(e, s, p.facts))
    case SearchRestaurants =>
      if s.draft.plan.None? || !p.FactsData? then None else Some(SaveRestaurants(e, s, p.facts))
    case GeneratePlan => if p.PlanData? then Some(SavePlan(e, s, p.plan)) else None
    case EstimateRoutes =>
      if s.draft.plan.None? || !p.RouteData? || p.routes.stamp != s.draft.plan.value.route then None
      else Some(SaveRoutes(e, s, p.routes))
    case RepairPlan => if p.PlanData? then Some(SaveRepair(e, s, p.plan)) else None
    case _ => None
  }

  /** A failed attempt: another attempt, a degraded supplement, or the end of the run. */
  function GiveUpOrRetry(s: State, a: Action, retryable: bool, retry: RetryAnswer): Step {
    if retryable && retry.NoTimeLeft? then Raised(s.(status := BudgetExhausted))
    else if retryable && retry.Again? then Done(s, false)
    else if a.SupplementAttractions? then Done(FailedSupplement(s), false)
    else Raised(s.(status := Failed))
  }

  /** Whether `_build_tool_payload` has what it needs. */
  predicate PayloadReady(s: State, a: Action) {
    && (a.SupplementAttractions? ==> s.searches.query.Some?)
    && (a.SearchRestaurants? || a.EstimateRoutes? ==> s.draft.plan.Some?)
  }

  function Charged(e: Env, s: State, a: Action): State {
    s.(meter := s.meter.(toolCalls := s.meter.toolCalls + 1, llmCalls := s.meter.llmCalls + e.llmCost(a)))
  }

  /** The response to a call already charged. */
  function Received(e: Env, s: State, a: Action, w: Wire): Step {
    match w.response
    case Failure(retryable) => GiveUpOrRetry(s, a, retryable, w.retry)
    case Returned(p) =>
      var applied := Apply(e, s, a, p);
      if applied.Some? then Done(applied.value, true) else GiveUpOrRetry(s, a, true, w.retry)
  }

  function ToolStep(e: Env, s: State, a: Action, w: Wire): Step {
    if !PayloadReady(s, a) then Broken(MissingInput)
    else if OverBudget(e, s.meter, a, w.late) then Raised(s.(status := BudgetExhausted))
    else if !w.permitted then GiveUpOrRetry(s, a, false, w.retry)
    else Received(e, Charged(e, s, a), a, w)
  }

  // ---- execute_action ----

  function Execute(e: Env, s: State, a: Action, w: Wire): Step {
    match a
    case Finish => FinishStep(s)
    case ValidatePlan => ValidateStep(e, s)
    case OptimizeRoutes => OptimizeRoutesStep(e, s)
    case EvaluateCommute => EvaluateCommuteStep(e, s)
    case ReplaceRemote => ReplaceRemoteStep(e, s)
    case EvaluateSchedule => EvaluateScheduleStep(e, s)
    case OptimizeSchedule => OptimizeScheduleStep(e, s)
    case EvaluateConstraints => EvaluateConstraintsStep(e, s)
    case OptimizeConstraints => OptimizeConstraintsStep(e, s)
    case RefillAttractions => RefillStep(e, s)
    case RebuildContent => RebuildStep(e, s)
    case _ => ToolStep(e, s, a, w)
  }

  /** One decided action. */
  function Next(e: Env, s: State, w: Wire): Step { Execute(e, s, Decide(e, s), w) }
}
