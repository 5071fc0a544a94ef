/** Who may touch an optimiser: only its own action installs or judges a candidate. */
module Bystanders {
  import opened Basics
  import opened TripTypes
  import opened Session
  import opened Actions
  import opened Invariant
  import opened Preservation
  import Acceptance

  datatype Kind = RouteOrder | DaySchedule | Conflicts | RemoteStops | MissingStops

  function Of(o: Optimisers, k: Kind): Optimiser {
    match k
    case RouteOrder => o.route
    case DaySchedule => o.schedule
    case Conflicts => o.constraint
    case RemoteStops => o.commute
    case MissingStops => o.refill
  }

  /** `b` holds, as they are in `s`, the plan, the snapshot and the reports that `k` saves. */
  predicate Snapshot(k: Kind, s: State, b: Bundle) {
    && b.plan == s.draft.plan && b.routes == s.draft.routes && b.routeReport == s.reports.route
    && (!k.RouteOrder? ==> b.scheduleReport == s.reports.schedule && b.basis == s.reports.basis)
    && (!k.RouteOrder? && !k.DaySchedule? ==>
          && b.constraintReport == s.reports.constraints && b.constraintFor == s.reports.constraintFor
          && b.weighed == s.reports.weighed)
    && (k.RemoteStops? ==> b.commuteReport == s.reports.commute)
  }

  /** A judge either leaves plan and reports alone, or puts the saved ones back. */
  predicate JudgedWell(k: Kind, s: State, t: State) {
    var o := Of(s.opts, k);
    var p := Of(t.opts, k);
    && !p.Pending()
    && (|| (p.verdicts == o.verdicts + [Accepted] && t.draft == s.draft && t.reports == s.reports)
        || (p.verdicts == o.verdicts + [Reverted] && Snapshot(k, t, o.saved)))
  }

  predicate ProposedWell(k: Kind, s: State, t: State) {
    var o := Of(s.opts, k);
    var p := Of(t.opts, k);
    if p.Pending() then p.verdicts == o.verdicts && Snapshot(k, s, p.saved)
    else p.saved == o.saved && (p.verdicts == o.verdicts || p.verdicts == o.verdicts + [Passed])
  }

  /** The action that owns `k` judges a pending candidate or proposes one. */
  predicate OwnerActs(k: Kind, s: State, t: State) {
    if Of(s.opts, k).Pending() then JudgedWell(k, s, t) else ProposedWell(k, s, t)
  }

  /** `o` becomes `p` without a candidate appearing, disappearing or being judged. */
  predicate Undisturbed(o: Optimiser, p: Optimiser) {
    p.Pending() == o.Pending() && p.saved == o.saved && p.verdicts == o.verdicts
  }

  predicate UndisturbedExcept(o: Optimisers, p: Optimisers, a: Action) {
    && (a != OptimizeRoutes ==> Undisturbed(o.route, p.route))
    && (a != OptimizeSchedule ==> Undisturbed(o.schedule, p.schedule))
    && (a != OptimizeConstraints ==> Undisturbed(o.constraint, p.constraint))
    && (a != ReplaceRemote ==> Undisturbed(o.commute, p.commute))
    && (a != RefillAttractions ==> Undisturbed(o.refill, p.refill))
  }

  /** One step as the optimisers see it. */
  ghost predicate Traced(s: State, a: Action, t: State) {
    && UndisturbedExcept(s.opts, t.opts, a)
    && (a.OptimizeRoutes? ==> OwnerActs(RouteOrder, s, t))
    && (a.OptimizeSchedule? ==> OwnerActs(DaySchedule, s, t))
    && (a.OptimizeConstraints? ==> OwnerActs(Conflicts, s, t))
    && (a.ReplaceRemote? ==> OwnerActs(RemoteStops, s, t))
    && (a.RefillAttractions? ==> OwnerActs(MissingStops, s, t))
  }

  ghost predicate TracedStep(s: State, a: Action, r: Step) { r.Broken? || Traced(s, a, r.state) }

  lemma RoutesTraced(e: Env, s: State)
    requires Active(e, s) && Ready(e, s, OptimizeRoutes)
    ensures TracedStep(s, OptimizeRoutes, OptimizeRoutesStep(e, s))
  {
    hide Decide; hide Judged; hide RouteAccepted;
  }

  lemma ScheduleTraced(e: Env, s: State)
    requires Active(e, s) && Ready(e, s, OptimizeSchedule)
    ensures TracedStep(s, OptimizeSchedule, OptimizeScheduleStep(e, s))
  {
    hide Decide; hide Judged; hide ScheduleAccepted;
  }

  lemma ConflictsTraced(e: Env, s: State)
    requires Active(e, s) && Ready(e, s, OptimizeConstraints)
    ensures TracedStep(s, OptimizeConstraints, OptimizeConstraintsStep(e, s))
  {
    hide Decide; hide Judged; hide ConstraintsAccepted;
  }

  lemma ReplacementTraced(e: Env, s: State)
    requires Active(e, s) && Ready(e, s, ReplaceRemote)
    ensures TracedStep(s, ReplaceRemote, ReplaceRemoteStep(e, s))
  {
    hide Decide; hide Judged; hide CommuteAccepted; hide AddIdentities; hide Members;
  }

  lemma RefillTraced(e: Env, s: State)
    requires Active(e, s) && Ready(e, s, RefillAttractions)
    ensures TracedStep(s, RefillAttractions, RefillStep(e, s))
  {
    hide Inv; hide RequiredAttractions; hide CountAttractions; hide JudgeRefill; hide ProposeRefill;
    if s.opts.refill.Pending() {
      JudgeRefillTraced(e, s);
    } else if Measured(s) {
      InvMeans(e, s);
      ProposeRefillTraced(e, s);
    }
  }

  lemma JudgeRefillTraced(e: Env, s: State)
    requires s.opts.refill.Pending()
    ensures TracedStep(s, RefillAttractions, JudgeRefill(e, s))
  {
    hide RefillAccepted; hide AddIdentities; hide Members; hide CountAttractions; hide Bound;
  }

  lemma ProposeRefillTraced(e: Env, s: State)
    requires Measured(s) && PendingCount(s.opts) == 0 && NoNesting(s.opts, s.searches.query)
    requires s.reports.constraintFor == s.draft.plan
    ensures TracedStep(s, RefillAttractions, Done(ProposeRefill(e, s), true))
  {
    hide Members;
  }

  lemma RefreshersTraced(e: Env, s: State, a: Action, w: Wire)
    requires a.EvaluateCommute? || a.EvaluateSchedule? || a.EvaluateConstraints? || a.RebuildContent? || a.ValidatePlan? || a.Finish?
    ensures TracedStep(s, a, Execute(e, s, a, w))
  {
    hide Acceptance.Evaluate;
  }

  lemma ApplyTraced(e: Env, s: State, a: Action, p: Payload)
    requires NoNesting(s.opts, s.searches.query) && CallsTool(a) && Apply(e, s, a, p).Some?
    requires a.GeneratePlan? || a.RepairPlan? ==> PendingCount(s.opts) == 0
    ensures Traced(s, a, Apply(e, s, a, p).value)
  {
    hide EvalSchedule; hide ConstraintInputOf; hide Snapshot;
    hide RouteBundle; hide ScheduleBundle; hide ConstraintBundle; hide CommuteBundle; hide RefillBundle;
  }

  lemma GivingUpTraced(s: State, a: Action, retryable: bool, retry: RetryAnswer)
    requires NoNesting(s.opts, s.searches.query) && CallsTool(a) && (a.SupplementAttractions? ==> s.searches.query.Some?)
    ensures TracedStep(s, a, GiveUpOrRetry(s, a, retryable, retry))
  {
  }

  lemma ReceivedTraced(e: Env, s: State, a: Action, w: Wire)
    requires NoNesting(s.opts, s.searches.query) && CallsTool(a) && (a.SupplementAttractions? ==> s.searches.query.Some?)
    requires a.GeneratePlan? || a.RepairPlan? ==> PendingCount(s.opts) == 0
    ensures TracedStep(s, a, Received(e, s, a, w))
  {
    hide Apply; hide GiveUpOrRetry; hide NoNesting; hide TracedStep;
    match w.response
    case Failure(retryable) => GivingUpTraced(s, a, retryable, w.retry);
    case Returned(p) =>
      GivingUpTraced(s, a, true, w.retry);
      if Apply(e, s, a, p).Some? { AppliedTraced(e, s, a, p); }
  }

  lemma AppliedTraced(e: Env, s: State, a: Action, p: Payload)
    requires NoNesting(s.opts, s.searches.query) && CallsTool(a) && Apply(e, s, a, p).Some?
    requires a.GeneratePlan? || a.RepairPlan? ==> PendingCount(s.opts) == 0
    ensures TracedStep(s, a, Done(Apply(e, s, a, p).value, true))
  {
    ApplyTraced(e, s, a, p);
    hide Apply; hide NoNesting; hide Traced;
  }

  lemma ChargedIsTheSame(e: Env, s: State, a: Action, r: Step)
    requires TracedStep(Charged(e, s, a), a, r)
    ensures TracedStep(s, a, r)
  {
  }

  lemma ToolTraced(e: Env, s: State, a: Action, w: Wire)
    requires NoNesting(s.opts, s.searches.query) && CallsTool(a)
    requires a.GeneratePlan? || a.RepairPlan? ==> PendingCount(s.opts) == 0
    ensures TracedStep(s, a, ToolStep(e, s, a, w))
  {
    if PayloadReady(s, a) {
      if OverBudget(e, s.meter, a, w.late) {
      } else if !w.permitted {
        hide NoNesting; hide GiveUpOrRetry; hide TracedStep;
        GivingUpTraced(s, a, false, w.retry);
      } else {
        hide NoNesting; hide Received; hide TracedStep;
        ReceivedTraced(e, Charged(e, s, a), a, w);
        ChargedIsTheSame(e, s, a, Received(e, Charged(e, s, a), a, w));
      }
    }
  }

  /** Every decided action leaves the optimisers it does not own undisturbed. */
  lemma NextTraced(e: Env, s: State, w: Wire)
    requires Inv(e, s) && !s.delivery.finished
    ensures TracedStep(s, Decide(e, s), Next(e, s, w))
  {
    Guards(e, s);
    var a := Decide(e, s);
    if CallsTool(a) {
      assert a.GeneratePlan? ==> PendingCount(s.opts) == 0;
      hide Decide; hide Inv;
      ToolTraced(e, s, a, w);
    } else {
      hide Decide; hide Inv; hide TracedStep;
      match a
      case OptimizeRoutes => RoutesTraced(e, s);
      case OptimizeSchedule => ScheduleTraced(e, s);
      case OptimizeConstraints => ConflictsTraced(e, s);
      case ReplaceRemote => ReplacementTraced(e, s);
      case RefillAttractions => RefillTraced(e, s);
      case _ => RefreshersTraced(e, s, a, w);
    }
  }
}
