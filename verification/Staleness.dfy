/**
 Two reports the decision function may trust although the evaluator would now answer
 differently: the schedule report after a content rebuild (in its lunch labels only), and the
 constraint report after a supplement search (in its pool only). For each: what stays right in
 every run, and exactly when all of it does.
 */
module Staleness {
  import opened Basics
  import opened TripTypes
  import opened Session
  import opened Actions
  import opened Invariant
  import opened Preservation
  import opened Runs
  import Acceptance

  // ---- The schedule report ----

  predicate Tight(b: Bundle) { b.scheduleReport.Some? ==> b.basis == b.plan }

  /** Until the first rebuild every schedule report belongs to the very plan beside it. */
  ghost predicate TightUntilRebuilt(s: State) {
    s.delivery.rebuilds == 0 ==>
      && (s.draft.routes.Some? ==> s.reports.basis == s.draft.plan)
      && Tight(s.opts.schedule.saved) && Tight(s.opts.constraint.saved)
      && Tight(s.opts.commute.saved) && Tight(s.opts.refill.saved)
  }

  predicate NeverSearched(s: State) { s.searches.commute == 0 && s.searches.refill == 0 }

  predicate WeighedOn(pools: set<Option<Facts>>, w: Option<ConstraintInput>) { w.Some? ==> w.value.attractions in pools }

  /** Every constraint report, present or saved, was computed on one of these pools. */
  predicate PoolsIn(pools: set<Option<Facts>>, s: State) {
    && WeighedOn(pools, s.reports.weighed) && WeighedOn(pools, s.opts.constraint.saved.weighed)
    && WeighedOn(pools, s.opts.commute.saved.weighed) && WeighedOn(pools, s.opts.refill.saved.weighed)
  }

  /** The reports of `s` are no older than the last rebuild and the last supplement search. */
  ghost predicate Dated(pools: set<Option<Facts>>, s: State) {
    && TightUntilRebuilt(s)
    && PoolsIn(pools, s) && s.known.attractions in pools
    && (NeverSearched(s) ==> PoolsIn({s.known.attractions}, s))
  }

  ghost predicate DatedStep(pools: set<Option<Facts>>, r: Step) {
    r.Broken? || Dated(pools + {r.state.known.attractions}, r.state)
  }

  lemma JudgeRoutesDated(e: Env, pools: set<Option<Facts>>, s: State)
    requires Dated(pools, s) && s.reports.route.Some?
    ensures DatedStep(pools, JudgeRoutes(e, s))
  {
    hide RouteAccepted; hide Bound; hide EvalSchedule;
  }

  lemma ProposeRoutesDated(e: Env, pools: set<Option<Facts>>, s: State)
    requires Dated(pools, s) && s.draft.plan.Some? && s.draft.routes.Some? && s.reports.route.Some?
    ensures DatedStep(pools, Done(ProposeRoutes(e, s), true))
  {
  }

  lemma JudgeScheduleDated(e: Env, pools: set<Option<Facts>>, s: State)
    requires Dated(pools, s) && s.reports.schedule.Some?
    ensures DatedStep(pools, JudgeSchedule(e, s))
  {
    hide ScheduleAccepted; hide Bound;
  }

  lemma ProposeScheduleDated(e: Env, pools: set<Option<Facts>>, s: State)
    requires Dated(pools, s) && s.draft.plan.Some? && s.draft.routes.Some? && s.reports.schedule.Some?
    ensures DatedStep(pools, ProposeSchedule(e, s))
  {
  }

  lemma JudgeConstraintsDated(e: Env, pools: set<Option<Facts>>, s: State)
    requires Dated(pools, s) && Measured(s)
    ensures DatedStep(pools, JudgeConstraints(e, s))
  {
    hide ConstraintsAccepted; hide Bound;
  }

  lemma ProposeConstraintsDated(e: Env, pools: set<Option<Facts>>, s: State)
    requires Dated(pools, s) && Measured(s)
    ensures DatedStep(pools, Done(ProposeConstraints(e, s), true))
  {
  }

  lemma JudgeReplacementDated(e: Env, pools: set<Option<Facts>>, s: State)
    requires Dated(pools, s) && Measured(s) && s.reports.commute.Some?
    ensures DatedStep(pools, JudgeReplacement(e, s))
  {
    hide CommuteAccepted; hide Bound; hide AddIdentities;
  }

  lemma ProposeReplacementDated(e: Env, pools: set<Option<Facts>>, s: State)
    requires Dated(pools, s) && Measured(s) && s.reports.commute.Some?
    ensures DatedStep(pools, Done(ProposeReplacement(e, s), true))
  {
    hide Members;
  }

  lemma JudgeRefillDated(e: Env, pools: set<Option<Facts>>, s: State)
    requires Dated(pools, s)
    ensures DatedStep(pools, JudgeRefill(e, s))
  {
    hide RefillAccepted; hide Bound; hide AddIdentities;
  }

  lemma ProposeRefillDated(e: Env, pools: set<Option<Facts>>, s: State)
    requires Dated(pools, s) && Measured(s)
    ensures DatedStep(pools, Done(ProposeRefill(e, s), true))
  {
    hide Members;
  }

  lemma OthersDated(e: Env, pools: set<Option<Facts>>, s: State, a: Action, w: Wire)
    requires Dated(pools, s)
    requires a.EvaluateCommute? || a.EvaluateSchedule? || a.EvaluateConstraints? || a.RebuildContent? || a.ValidatePlan? || a.Finish?
    ensures DatedStep(pools, Execute(e, s, a, w))
  {
    hide Acceptance.Evaluate; hide EvalSchedule; hide ValidationInputOf; hide LunchName;
  }

  lemma ApplyDated(e: Env, pools: set<Option<Facts>>, s: State, a: Action, p: Payload)
    requires Dated(pools, s) && CallsTool(a)
    requires a.GeneratePlan? || a.SearchAttractions? ==> s.draft.routes.None? && PoolsIn({}, s)
    ensures var r := Apply(e, s, a, p); r.Some? ==> Dated(pools + {r.value.known.attractions}, r.value)
  {
  }

  lemma ChargedDated(e: Env, pools: set<Option<Facts>>, s: State, a: Action)
    requires Dated(pools, s)
    ensures Dated(pools, Charged(e, s, a)) && PoolsIn({}, Charged(e, s, a)) == PoolsIn({}, s)
  {
  }

  lemma GiveUpDated(pools: set<Option<Facts>>, s: State, a: Action, retryable: bool, retry: RetryAnswer)
    requires Dated(pools, s)
    ensures DatedStep(pools, GiveUpOrRetry(s, a, retryable, retry))
  {
  }

  lemma ToolDated(e: Env, pools: set<Option<Facts>>, s: State, a: Action, w: Wire)
    requires Dated(pools, s) && CallsTool(a)
    requires a.GeneratePlan? || a.SearchAttractions? ==> s.draft.routes.None? && PoolsIn({}, s)
    ensures DatedStep(pools, ToolStep(e, s, a, w))
  {
    hide Apply; hide GiveUpOrRetry; hide PoolsIn; hide TightUntilRebuilt;
    var t := Charged(e, s, a);
    ChargedDated(e, pools, s, a);
    StatusDated(pools, s, BudgetExhausted);
    GiveUpDated(pools, s, a, false, w.retry);
    match w.response
    case Failure(retryable) => GiveUpDated(pools, t, a, retryable, w.retry);
    case Returned(p) =>
      ApplyDated(e, pools, t, a, p);
      GiveUpDated(pools, t, a, true, w.retry);
  }

  /** Before there is a plan nothing has been evaluated. */
  lemma NothingWeighed(e: Env, s: State)
    requires Inv(e, s) && s.draft.plan.None?
    ensures s.draft.routes.None? && PoolsIn({}, s)
  {
    hide Decide; hide BundlesFresh; hide CandidateBudgets;
  }

  lemma OptimisersDated(e: Env, pools: set<Option<Facts>>, s: State, a: Action, w: Wire)
    requires Active(e, s) && Ready(e, s, a) && Dated(pools, s)
    requires a.OptimizeRoutes? || a.OptimizeSchedule? || a.OptimizeConstraints? || a.ReplaceRemote?
    ensures DatedStep(pools, Execute(e, s, a, w))
  {
    hide Dated; hide DatedStep; hide BundlesFresh; hide NoNesting; hide Validated; hide CandidateBudgets; hide Decide;
    ReportsTrusted(e, s);
    match a
    case OptimizeRoutes => if s.opts.route.Pending() { JudgeRoutesDated(e, pools, s); } else { ProposeRoutesDated(e, pools, s); }
    case OptimizeSchedule => if s.opts.schedule.Pending() { JudgeScheduleDated(e, pools, s); } else { ProposeScheduleDated(e, pools, s); }
    case OptimizeConstraints =>
      if s.opts.constraint.Pending() { JudgeConstraintsDated(e, pools, s); } else { ProposeConstraintsDated(e, pools, s); }
    case ReplaceRemote =>
      if s.opts.commute.Pending() { JudgeReplacementDated(e, pools, s); } else { ProposeReplacementDated(e, pools, s); }
  }

  lemma RefillDated(e: Env, pools: set<Option<Facts>>, s: State)
    requires Dated(pools, s)
    ensures DatedStep(pools, RefillStep(e, s))
  {
    hide JudgeRefill; hide ProposeRefill; hide CountAttractions; hide RequiredAttractions;
    if s.opts.refill.Pending() {
      JudgeRefillDated(e, pools, s);
    } else if Measured(s) {
      ProposeRefillDated(e, pools, s);
    }
  }

  lemma NextDated(e: Env, pools: set<Option<Facts>>, s: State, w: Wire)
    requires Inv(e, s) && !s.delivery.finished && Dated(pools, s)
    ensures DatedStep(pools, Next(e, s, w))
  {
    hide DatedStep; hide Dated; hide PoolsIn; hide ToolStep;
    Guards(e, s);
    var a := Decide(e, s);
    if s.draft.plan.None? { NothingWeighed(e, s); }
    assert a.GeneratePlan? || a.SearchAttractions? ==> s.draft.plan.None?;
    hide Decide; hide Ready;
    if CallsTool(a) {
      ToolDated(e, pools, s, a, w);
    } else if a.RefillAttractions? {
      RefillDated(e, pools, s);
    } else if a.OptimizeRoutes? || a.OptimizeSchedule? || a.OptimizeConstraints? || a.ReplaceRemote? {
      assert Active(e, s);
      hide Inv;
      OptimisersDated(e, pools, s, a, w);
    } else {
      hide Inv;
      OthersDated(e, pools, s, a, w);
    }
  }

  /** The pools the session had up to its state `i`. */
  ghost function PoolsUpTo(r: seq<State>, i: nat): set<Option<Facts>>
    requires i < |r|
  {
    set j | 0 <= j <= i :: r[j].known.attractions
  }

  lemma {:induction false} AlwaysDated(e: Env, r: seq<State>, m: seq<Move>, i: nat)
    requires IsRun(e, r, m) && i < |r|
    ensures Dated(PoolsUpTo(r, i), r[i])
  {
    hide Inv; hide Next; hide Dated; hide FRESH;
    if i == 0 {
      FreshDated(PoolsUpTo(r, 0));
    } else {
      var pools := PoolsUpTo(r, i - 1);
      AlwaysDated(e, r, m, i - 1);
      AlwaysInv(e, r, m, i - 1);
      assert Moves(e, r[i - 1], m[i - 1], r[i]);
      assert PoolsUpTo(r, i) == pools + {r[i].known.attractions};
      if m[i - 1].Act? { NextDated(e, pools, r[i - 1], m[i - 1].w); } else { StatusDated(pools, r[i - 1], r[i].status); }
    }
  }

  lemma FreshDated(pools: set<Option<Facts>>)
    requires FRESH.known.attractions in pools
    ensures Dated(pools, FRESH)
  {
  }

  lemma StatusDated(pools: set<Option<Facts>>, s: State, status: Status)
    requires Dated(pools, s)
    ensures Dated(pools + {s.known.attractions}, s.(status := status))
  {
  }

  /** While the session has rebuilt nothing, a trusted schedule report is the evaluator's
      answer on the present plan. */
  lemma ScheduleFreshBeforeRebuild(e: Env, r: seq<State>, m: seq<Move>, i: nat)
    requires IsRun(e, r, m) && i < |r| && r[i].draft.plan.Some? && RoutesUsable(r[i])
    requires ScheduleCurrent(r[i]) && r[i].delivery.rebuilds == 0
    ensures r[i].reports.schedule == Some(EvalSchedule(e, r[i].draft.plan.value, r[i].draft.routes.value))
  {
    AlwaysDated(e, r, m, i);
    TrustedReportsAreFresh(e, r, m, i);
    hide IsRun; hide EvalSchedule; hide LunchName;
  }

  /** A rebuild always leaves the schedule report trusted and its figures fresh; the labels
      stay right exactly when the rebuilt plan names every lunch placed as the report does. */
  lemma RebuildKeepsScheduleIff(e: Env, s: State)
    requires Inv(e, s) && !s.delivery.finished && Decide(e, s) == RebuildContent && RebuildStep(e, s).Done?
    ensures var t := RebuildStep(e, s).state;
            var p := t.draft.plan.value;
            var answer := EvalSchedule(e, p, s.draft.routes.value);
            && ScheduleCurrent(t) && t.reports.schedule == s.reports.schedule
            && t.reports.schedule.value.figures == answer.figures
            && (t.reports.schedule.value == answer <==> Labelled(s.reports.schedule.value, Rebuilt(e, s)))
  {
    hide Decide; hide BundleFresh; hide EvalSchedule; hide Labelled; hide SameLunches;
    Guards(e, s);
    ReportsTrusted(e, s);
    SameStopsSameFigures(e, s.reports.basis.value, Rebuilt(e, s), s.draft.routes.value);
  }

  // ---- The constraint report ----

  /** A trusted constraint report is the evaluator's answer on the present plan, the present
      schedule report and weather, and a pool the session once had. It had no other before the
      first supplement search. */
  lemma TrustedConstraintsAreDated(e: Env, r: seq<State>, m: seq<Move>, i: nat)
    requires IsRun(e, r, m) && i < |r| && r[i].draft.plan.Some? && ConstraintsCurrent(r[i])
    ensures exists j :: 0 <= j <= i
              && r[i].reports.weighed == Some(ConstraintInputOf(r[i]).(attractions := r[j].known.attractions))
              && r[i].reports.constraints == Some(e.evalConstraints(r[i].reports.weighed.value))
    ensures NeverSearched(r[i]) ==> r[i].reports.constraints == Some(e.evalConstraints(ConstraintInputOf(r[i])))
  {
    AlwaysDated(e, r, m, i);
    AlwaysInv(e, r, m, i);
    var w := r[i].reports.weighed.value;
    assert ConstraintNamed(e, r[i].known, r[i].reports, r[i].inputs);
    var j :| 0 <= j <= i && r[j].known.attractions == w.attractions;
    hide IsRun; hide Inv;
    assert w == ConstraintInputOf(r[i]).(attractions := r[j].known.attractions);
  }

  /** Evaluators that differ in nothing but the code of the constraint evaluator. */
  function Telling(x: ConstraintInput): ConstraintInput -> ConstraintReport {
    (y: ConstraintInput) => ConstraintReport(0.0, 0.0, if x == y then 0 else 1, false, 0)
  }

  /** A merged supplement leaves a constraint report on the present plan trusted. What it says
      stays right, whatever the evaluator, exactly when the merge changes nothing in the pool. */
  lemma SupplementKeepsConstraintsIff(e: Env, s: State, facts: Facts)
    requires s.draft.plan.Some? && s.reports.constraints.Some? && s.reports.constraintFor == s.draft.plan
    ensures var t := SaveNearby(e, s, facts);
            && ConstraintsCurrent(t) && t.reports.constraints == s.reports.constraints
            && ((forall eval: ConstraintInput -> ConstraintReport :: eval(ConstraintInputOf(t)) == eval(ConstraintInputOf(s)))
                <==> Some(e.mergePool(s.known.attractions, facts)) == s.known.attractions)
  {
    var t := SaveNearby(e, s, facts);
    var eval := Telling(ConstraintInputOf(s));
    if eval(ConstraintInputOf(t)) == eval(ConstraintInputOf(s)) {
      assert ConstraintInputOf(t) == ConstraintInputOf(s);
    }
  }
}
