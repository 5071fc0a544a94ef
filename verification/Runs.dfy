/**
 Whole sessions: any sequence of decided actions, whatever the tools answer, with any
 number of interruptions and resumes in between.
 */
module Runs {
  import opened Basics
  import opened TripTypes
  import opened Session
  import opened Actions
  import opened Invariant
  import opened Preservation
  import opened Bystanders
  import Acceptance

  /** `Act(w)` performs the decided action against the answers `w`; `Start` is the
      `status = "running"` at the head of every run and resume; `Halt` is a limit of the loop
      itself: deadline, convergence guard or step limit. */
  datatype Move = Start | Act(w: Wire) | Halt(status: Status)

  ghost predicate Moves(e: Env, s: State, m: Move, t: State) {
    && !s.delivery.finished
    && match m
       case Start => t == s.(status := Running)
       case Act(w) => s.status == Running && !Next(e, s, w).Broken? && t == Next(e, s, w).state
       case Halt(x) =>
         s.status == Running && (x.BudgetExhausted? || x.ConvergenceStopped? || x.MaxStepsReached?) && t == s.(status := x)
  }

  /** `r[0]` is the state of a new session and `m[i]` leads from `r[i]` to `r[i+1]`. */
  ghost predicate IsRun(e: Env, r: seq<State>, m: seq<Move>) {
    && |r| == |m| + 1 && r[0] == FRESH
    && forall i :: 0 <= i < |m| ==> Moves(e, r[i], m[i], r[i + 1])
  }

  lemma MoveKeeps(e: Env, s: State, m: Move, t: State)
    requires Inv(e, s) && Moves(e, s, m, t)
    ensures Inv(e, t)
  {
    hide Inv; hide Next;
    match m
    case Start => StatusKeeps(e, s, Running);
    case Halt(x) => StatusKeeps(e, s, x);
    case Act(w) => NextKeeps(e, s, w);
  }

  lemma {:induction false} AlwaysInv(e: Env, r: seq<State>, m: seq<Move>, i: nat)
    requires IsRun(e, r, m) && i < |r|
    ensures Inv(e, r[i])
  {
    hide Inv; hide Moves; hide FRESH;
    if i == 0 {
      InitiallyInv(e);
    } else {
      AlwaysInv(e, r, m, i - 1);
      MoveKeeps(e, r[i - 1], m[i - 1], r[i]);
    }
  }

  /** The step from `r[i]` as the optimisers see it; a Start disturbs nothing. */
  lemma RunTraced(e: Env, r: seq<State>, m: seq<Move>, i: nat)
    requires IsRun(e, r, m) && i < |m|
    ensures if m[i].Act? then Traced(r[i], Decide(e, r[i]), r[i + 1])
            else r[i + 1].opts == r[i].opts && r[i + 1].draft == r[i].draft && r[i + 1].reports == r[i].reports
  {
    AlwaysInv(e, r, m, i);
    assert Moves(e, r[i], m[i], r[i + 1]);
    hide Inv; hide Next; hide Decide; hide Traced;
    if m[i].Act? { NextTraced(e, r[i], m[i].w); }
  }

  // ---- No nesting ----

  lemma OnePending(o: Optimisers, query: Option<Query>, k: Kind, l: Kind)
    requires NoNesting(o, query) && Of(o, k).Pending() && Of(o, l).Pending()
    ensures k == l
  {
    hide Stored;
  }

  lemma StoredWhole(o: Optimisers, query: Option<Query>, k: Kind)
    requires NoNesting(o, query)
    ensures !Of(o, k).Pending() ==> Of(o, k).saved == BLANK
    ensures Of(o, k).Pending() ==>
              var b := Of(o, k).saved;
              b.plan.Some? && b.routes.Some? && b.routeReport.Some? && b.candidate.Some?
              && (k.RouteOrder? || b.scheduleReport.Some?)
              && (k.RouteOrder? || k.DaySchedule? || (b.constraintReport.Some? && b.constraintFor.Some?))
              && (k.RemoteStops? ==> b.commuteReport.Some?)
  {
  }

  lemma OneAsker(o: Optimisers, query: Option<Query>)
    requires NoNesting(o, query)
    ensures query.Some? <==> (o.commute.phase.SupplementNeeded? != o.refill.phase.SupplementNeeded?)
  {
    hide Stored;
  }

  /** In every reachable state at most one of the five optimisers has a candidate installed,
      its baseline is complete exactly while it is pending and empty otherwise, and the
      shared supplement query is set exactly when one, and only one, of its users asked. */
  lemma CandidatesNeverNest(e: Env, r: seq<State>, m: seq<Move>, i: nat, k: Kind, l: Kind)
    requires IsRun(e, r, m) && i < |r|
    ensures Of(r[i].opts, k).Pending() && Of(r[i].opts, l).Pending() ==> k == l
    ensures !Of(r[i].opts, k).Pending() ==> Of(r[i].opts, k).saved == BLANK
    ensures Of(r[i].opts, k).Pending() ==>
              var b := Of(r[i].opts, k).saved;
              b.plan.Some? && b.routes.Some? && b.routeReport.Some? && b.candidate.Some?
              && (k.RouteOrder? || b.scheduleReport.Some?)
              && (k.RouteOrder? || k.DaySchedule? || (b.constraintReport.Some? && b.constraintFor.Some?))
              && (k.RemoteStops? ==> b.commuteReport.Some?)
    ensures var o := r[i].opts;
            r[i].searches.query.Some? <==> (o.commute.phase.SupplementNeeded? != o.refill.phase.SupplementNeeded?)
  {
    hide IsRun; hide Inv; hide NoNesting;
    AlwaysInv(e, r, m, i);
    InvMeans(e, r[i]);
    if Of(r[i].opts, k).Pending() && Of(r[i].opts, l).Pending() { OnePending(r[i].opts, r[i].searches.query, k, l); }
    StoredWhole(r[i].opts, r[i].searches.query, k);
    OneAsker(r[i].opts, r[i].searches.query);
  }

  /** The "missing baseline", "missing report" and fingerprint-mismatch errors of the action
      bodies are unreachable; only a rebuild that moves a stop can break a turn. */
  lemma NoMissingData(e: Env, r: seq<State>, m: seq<Move>, i: nat, w: Wire)
    requires IsRun(e, r, m) && i < |r| && !r[i].delivery.finished
    ensures Next(e, r[i], w).Broken? ==> Next(e, r[i], w).fault.RebuildChangedRoutes?
    ensures Decide(e, r[i]) != EvaluateSchedule
  {
    hide Inv; hide Next; hide Decide; hide IsRun;
    AlwaysInv(e, r, m, i);
    NextKeeps(e, r[i], w);
    Guards(e, r[i]);
  }

  // ---- Exact revert ----

  lemma PendingStays(k: Kind, s: State, a: Action, t: State)
    requires Traced(s, a, t) && Of(s.opts, k).Pending() && Of(t.opts, k).Pending()
    ensures Of(t.opts, k).saved == Of(s.opts, k).saved && Of(t.opts, k).verdicts == Of(s.opts, k).verdicts
  {
    hide Snapshot;
  }

  lemma StepStays(e: Env, r: seq<State>, m: seq<Move>, k: Kind, n: nat)
    requires IsRun(e, r, m) && n + 1 < |r| && Of(r[n].opts, k).Pending() && Of(r[n + 1].opts, k).Pending()
    ensures Of(r[n + 1].opts, k).saved == Of(r[n].opts, k).saved && Of(r[n + 1].opts, k).verdicts == Of(r[n].opts, k).verdicts
  {
    hide Moves; hide Decide; hide Traced; hide FRESH; hide Of;
    RunTraced(e, r, m, n);
    if m[n].Act? { PendingStays(k, r[n], Decide(e, r[n]), r[n + 1]); }
  }

  /** From installation on, the stored baseline stays what it was. */
  lemma {:induction false} BaselineStays(e: Env, r: seq<State>, m: seq<Move>, k: Kind, i: nat, j: nat)
    requires IsRun(e, r, m) && i <= j < |r|
    requires forall n :: i <= n <= j ==> Of(r[n].opts, k).Pending()
    ensures Of(r[j].opts, k).saved == Of(r[i].opts, k).saved
    ensures Of(r[j].opts, k).verdicts == Of(r[i].opts, k).verdicts
    decreases j - i
  {
    if i < j {
      hide IsRun; hide Of;
      BaselineStays(e, r, m, k, i, j - 1);
      assert Of(r[j - 1].opts, k).Pending() && Of(r[j].opts, k).Pending();
      StepStays(e, r, m, k, j - 1);
    }
  }

  /** The candidate installed by the step from `r[i]` and judged by the step from `r[j]`. */
  ghost predicate Episode(r: seq<State>, k: Kind, i: nat, j: nat) {
    && i < j && j + 1 < |r|
    && !Of(r[i].opts, k).Pending() && !Of(r[j + 1].opts, k).Pending()
    && forall n :: i < n <= j ==> Of(r[n].opts, k).Pending()
  }

  lemma InstallationSaves(k: Kind, s: State, a: Action, t: State)
    requires Traced(s, a, t) && !Of(s.opts, k).Pending() && Of(t.opts, k).Pending()
    ensures Snapshot(k, s, Of(t.opts, k).saved) && Of(t.opts, k).verdicts == Of(s.opts, k).verdicts
  {
    hide Snapshot;
  }

  lemma VerdictRestores(k: Kind, s: State, a: Action, t: State)
    requires Traced(s, a, t) && Of(s.opts, k).Pending() && !Of(t.opts, k).Pending()
    ensures JudgedWell(k, s, t)
  {
    hide Snapshot;
  }

  /** Every candidate gets exactly one verdict. When it is Reverted, the plan, the route
      snapshot and every saved report are those from just before the installation, whatever
      ran in between, and the routes need not be queried again. */
  lemma RevertIsExact(e: Env, r: seq<State>, m: seq<Move>, k: Kind, i: nat, j: nat)
    requires IsRun(e, r, m) && Episode(r, k, i, j)
    ensures var before := Of(r[i].opts, k).verdicts;
            var after := Of(r[j + 1].opts, k).verdicts;
            || (after == before + [Accepted] && r[j + 1].draft == r[j].draft && r[j + 1].reports == r[j].reports)
            || (after == before + [Reverted] && SameMeasured(k, r[i], r[j + 1]) && Decide(e, r[j + 1]) != EstimateRoutes)
  {
    hide Inv; hide Moves; hide Decide; hide Traced; hide Snapshot; hide SameMeasured; hide FRESH;
    assert Of(r[i + 1].opts, k).Pending() && Of(r[j].opts, k).Pending();
    RunTraced(e, r, m, i);
    RunTraced(e, r, m, j);
    InstallationSaves(k, r[i], Decide(e, r[i]), r[i + 1]);
    VerdictRestores(k, r[j], Decide(e, r[j]), r[j + 1]);
    BaselineStays(e, r, m, k, i + 1, j);
    AlwaysInv(e, r, m, i);
    AlwaysInv(e, r, m, i + 1);
    AlwaysInv(e, r, m, j + 1);
    var b := Of(r[i + 1].opts, k).saved;
    if Snapshot(k, r[j + 1], b) {
      SavedMeansMeasured(e, r[i + 1], k);
      RestoredMeansSame(e, r[i], r[j + 1], k, b);
    }
  }

  /** Plan, snapshot and all reports `k` saves agree, with the fingerprints beside them. */
  ghost predicate SameMeasured(k: Kind, s: State, t: State) {
    && t.draft == s.draft
    && t.reports.route == s.reports.route && t.reports.routeFor == s.reports.routeFor
    && (!k.RouteOrder? ==>
          t.reports.schedule == s.reports.schedule && t.reports.scheduleFor == s.reports.scheduleFor
          && t.reports.basis == s.reports.basis)
    && (!k.RouteOrder? && !k.DaySchedule? ==>
          t.reports.constraints == s.reports.constraints && t.reports.constraintFor == s.reports.constraintFor
          && t.reports.weighed == s.reports.weighed)
    && (k.RemoteStops? ==> t.reports.commute == s.reports.commute && t.reports.commuteFor == s.reports.commuteFor)
  }

  lemma SavedMeansMeasured(e: Env, s: State, k: Kind)
    requires Inv(e, s) && Of(s.opts, k).Pending()
    ensures Of(s.opts, k).saved.plan.Some? && Of(s.opts, k).saved.routes.Some?
    ensures k.RemoteStops? ==> Of(s.opts, k).saved.commuteReport.Some?
  {
    hide Decide; hide Judged;
  }

  lemma RestoredMeansSame(e: Env, s: State, t: State, k: Kind, b: Bundle)
    requires Inv(e, s) && Inv(e, t) && Snapshot(k, s, b) && Snapshot(k, t, b)
    requires b.plan.Some? && b.routes.Some? && (k.RemoteStops? ==> b.commuteReport.Some?)
    ensures SameMeasured(k, s, t) && Decide(e, t) != EstimateRoutes
  {
    assert ReportsFresh(e, s.known, s.draft, s.reports, s.inputs) && ReportsFresh(e, t.known, t.draft, t.reports, t.inputs);
    hide Inv; hide DecideDelivery; hide DecideRefill; hide DecideMeasured; hide BundleFresh;
  }

  // ---- Freshness ----

  /** On the same stops the evaluator gives the same figures, and the same report exactly when
      the lunches it places are named alike. */
  lemma SameStopsSameFigures(e: Env, b: Plan, p: Plan, q: Routes)
    requires SameStops(b, p)
    ensures var r := EvalSchedule(e, b, q);
            && r.figures == EvalSchedule(e, p, q).figures == e.evalFigures(p.route, p.visits, q)
            && (r == EvalSchedule(e, p, q) <==> SameLunches(r.figures.lunchDays, b, p))
            && (r == EvalSchedule(e, p, q) <==> Labelled(r, p))
  {
    var r, s := EvalSchedule(e, b, q), EvalSchedule(e, p, q);
    if SameLunches(r.figures.lunchDays, b, p) { assert r.labels == s.labels; }
    if r == s {
      forall d | d in r.figures.lunchDays ensures LunchName(b, d) == LunchName(p, d) { assert r.labels[d] == s.labels[d]; }
    }
    if Labelled(r, p) { assert r.labels == s.labels; }
  }

  /** Whenever the decision function trusts the route-quality or the commute report, it is
      the evaluator's answer on the present plan and snapshot. So are all figures of a trusted
      schedule report (cost, overtime, infeasible days, fallback legs, recommendation, times);
      the whole report is the present answer exactly when the plan it was computed on names the
      lunches placed as the present plan does, which its own labels show. */
  lemma TrustedReportsAreFresh(e: Env, r: seq<State>, m: seq<Move>, i: nat)
    requires IsRun(e, r, m) && i < |r| && r[i].draft.plan.Some? && RoutesUsable(r[i])
    ensures var p := r[i].draft.plan.value;
            var q := r[i].draft.routes.value;
            var x := r[i].reports;
            && (RouteCurrent(r[i]) ==> x.route == Some(e.evalRoutes(p.route, q)))
            && (CommuteCurrent(r[i]) ==> x.commute == Some(e.evalCommute(p.route, q)))
            && (ScheduleCurrent(r[i]) ==>
                  && x.schedule.value.figures == e.evalFigures(p.route, p.visits, q)
                  && x.basis.Some? && SameStops(x.basis.value, p)
                  && (x.schedule.value == EvalSchedule(e, p, q)
                      <==> SameLunches(x.schedule.value.figures.lunchDays, x.basis.value, p))
                  && (x.schedule.value == EvalSchedule(e, p, q) <==> Labelled(x.schedule.value, p)))
  {
    AlwaysInv(e, r, m, i);
    hide BundleFresh; hide CandidateBudgets; hide Validated; hide NoNesting; hide EvalSchedule; hide SameLunches; hide Labelled;
    SameStopsSameFigures(e, r[i].reports.basis.value, r[i].draft.plan.value, r[i].draft.routes.value);
  }

  // ---- Delivery ----

  /** A finished session holds the validator's answer on its present inputs, and either that
      answer is valid or every condition for delivering an imperfect plan holds on the
      present reports; the completion mode says which. */
  lemma FinishIsJustified(e: Env, r: seq<State>, m: seq<Move>, i: nat)
    requires IsRun(e, r, m) && i < |r| && r[i].delivery.finished
    ensures r[i].draft.plan.Some?
    ensures var v := e.validate(ValidationInputOf(r[i]));
            && r[i].delivery.validation == Some(v)
            && (v.valid || Acceptance.Deliverable(e, EvidenceOf(r[i]), v))
            && r[i].delivery.completion == Some(if v.valid then Full else Partial)
  {
    AlwaysInv(e, r, m, i);
    assert Validated(e, r[i]);
    hide Inv; hide Decide; hide Acceptance.Evaluate; hide Acceptance.Deliverable;
    Acceptance.AcceptedIff(e, EvidenceOf(r[i]), r[i].delivery.validation.value);
  }

  /** A run none of whose resumes picks up a session that had already failed. */
  ghost predicate NeverRevived(r: seq<State>, m: seq<Move>)
    requires |r| == |m| + 1
  {
    forall i :: 0 <= i < |m| && m[i].Start? ==> !r[i].status.Failed?
  }

  /** The plan failed validation, cannot be delivered as it is and cannot be repaired. */
  predicate DeadEnd(e: Env, s: State) {
    && s.delivery.validation.Some? && !s.delivery.validation.value.valid
    && !(s.delivery.acceptance.Some? && s.delivery.acceptance.value.accepted)
    && !CanRepair(e, s, s.delivery.validation.value)
  }

  /** Only a failed session is at its end. */
  predicate NoDeadEnd(e: Env, s: State) { DeadEnd(e, s) ==> s.status.Failed? }

  lemma ToolNeverDeadEnds(e: Env, s: State, a: Action, w: Wire)
    requires NoDeadEnd(e, s) && s.status.Running? && CallsTool(a) && !ToolStep(e, s, a, w).Broken?
    requires s.delivery.validation.Some? ==> a.RepairPlan?
    ensures NoDeadEnd(e, ToolStep(e, s, a, w).state)
  {
  }

  lemma LocalNeverDeadEnds(e: Env, s: State, a: Action, w: Wire)
    requires s.delivery.validation.Some? ==> a.ValidatePlan? || a.Finish?
    requires NoDeadEnd(e, s) && s.status.Running? && !CallsTool(a) && !Execute(e, s, a, w).Broken?
    ensures NoDeadEnd(e, Execute(e, s, a, w).state)
  {
    hide Acceptance.Evaluate;
  }

  lemma VerdictConcludes(e: Env, s: State)
    requires Inv(e, s)
    ensures s.delivery.validation.Some? ==> Conclusive(Decide(e, s))
  {
    hide Decide; hide Inv; hide Acceptance.Evaluate;
    InvMeans(e, s);
  }

  lemma NextNeverDeadEnds(e: Env, s: State, w: Wire)
    requires Inv(e, s) && !s.delivery.finished && NoDeadEnd(e, s) && s.status.Running? && !Next(e, s, w).Broken?
    ensures NoDeadEnd(e, Next(e, s, w).state)
  {
    hide Inv; hide Decide; hide ToolStep; hide NoDeadEnd; hide ValidateStep; hide FinishStep;
    var a := Decide(e, s);
    assert CallsTool(a) ==> Next(e, s, w) == ToolStep(e, s, a, w);
    hide Execute;
    VerdictConcludes(e, s);
    if CallsTool(a) {
      ToolNeverDeadEnds(e, s, a, w);
    } else {
      LocalNeverDeadEnds(e, s, a, w);
    }
  }

  lemma {:induction false} NeverDeadEnds(e: Env, r: seq<State>, m: seq<Move>, i: nat)
    requires IsRun(e, r, m) && NeverRevived(r, m) && i < |r|
    ensures NoDeadEnd(e, r[i])
  {
    hide Inv; hide Next; hide Decide; hide FRESH;
    if i == 0 {
      FreshIsOpen(e);
    } else {
      NeverDeadEnds(e, r, m, i - 1);
      AlwaysInv(e, r, m, i - 1);
      assert Moves(e, r[i - 1], m[i - 1], r[i]);
      if m[i - 1].Act? { NextNeverDeadEnds(e, r[i - 1], m[i - 1].w); }
    }
  }

  lemma FreshIsOpen(e: Env)
    ensures NoDeadEnd(e, FRESH)
  {
  }

  lemma ConclusiveIs(e: Env, s: State)
    requires s.draft.plan.Some? && s.delivery.validation.Some? && Conclusive(DecideDelivery(e, s)) && ValidationCurrent(s)
    ensures DecideDelivery(e, s).ValidatePlan? <==> DeadEnd(e, s)
  {
  }

  lemma ConcludesInDelivery(e: Env, s: State)
    requires Conclusive(Decide(e, s))
    ensures s.draft.plan.Some? && Decide(e, s) == DecideDelivery(e, s)
  {
    hide RefillNeeded; hide ConstraintsCurrent; hide RouteCurrent; hide ScheduleCurrent; hide CommuteCurrent;
    hide DecideDelivery; hide WantsRouteCandidate; hide WantsConstraintCandidate;
  }

  /** The VALIDATE_PLAN that ends the decision function is decided, with the result of an earlier
      validation still at hand, exactly at a dead end. */
  lemma SecondVerdictIff(e: Env, r: seq<State>, m: seq<Move>, i: nat)
    requires IsRun(e, r, m) && i < |r|
    ensures Decide(e, r[i]).ValidatePlan? && r[i].delivery.validation.Some? <==> DeadEnd(e, r[i])
  {
    AlwaysInv(e, r, m, i);
    var s := r[i];
    assert Validated(e, s);
    hide Inv; hide IsRun; hide Decide; hide DecideDelivery; hide Acceptance.Evaluate; hide DeadEnd;
    if s.delivery.validation.Some? {
      ConcludesInDelivery(e, s);
      ConclusiveIs(e, s);
    } else {
      NoVerdictNoEnd(e, s);
    }
  }

  lemma NoVerdictNoEnd(e: Env, s: State)
    requires s.delivery.validation.None?
    ensures !DeadEnd(e, s)
  {
  }

  /** As long as no failed session is resumed, no session gets there. */
  lemma NoSecondVerdict(e: Env, r: seq<State>, m: seq<Move>, i: nat)
    requires IsRun(e, r, m) && NeverRevived(r, m) && i < |r|
    requires r[i].status.Running? && !r[i].delivery.finished && Decide(e, r[i]).ValidatePlan?
    ensures r[i].delivery.validation.None?
  {
    hide IsRun; hide Decide; hide DeadEnd;
    NeverDeadEnds(e, r, m, i);
    SecondVerdictIff(e, r, m, i);
  }

  // ---- Budgets ----

  /** How many of the first `n` steps installed a candidate of `k`. */
  function Installs(r: seq<State>, k: Kind, n: nat): nat
    requires n < |r|
  {
    if n == 0 then 0
    else Installs(r, k, n - 1) + One(!Of(r[n - 1].opts, k).Pending() && Of(r[n].opts, k).Pending())
  }

  lemma StepIsRecorded(k: Kind, s: State, a: Action, t: State)
    requires Traced(s, a, t)
    ensures Installed(Of(t.opts, k)) == Installed(Of(s.opts, k)) + One(!Of(s.opts, k).Pending() && Of(t.opts, k).Pending())
  {
    var v := Of(s.opts, k).verdicts;
    OneMoreVerdict(v, Accepted);
    OneMoreVerdict(v, Reverted);
    OneMoreVerdict(v, Passed);
    hide Snapshot; hide Judged;
  }

  lemma FreshInstalledNothing(k: Kind)
    ensures Installed(Of(FRESH.opts, k)) == 0
  {
    assert Of(FRESH.opts, k) == IDLE && Installed(IDLE) == 0;
  }

  lemma MoveIsRecorded(e: Env, r: seq<State>, m: seq<Move>, k: Kind, i: nat)
    requires IsRun(e, r, m) && i < |m|
    ensures var o, p := Of(r[i].opts, k), Of(r[i + 1].opts, k);
            Installed(p) == Installed(o) + One(!o.Pending() && p.Pending())
  {
    RunTraced(e, r, m, i);
    hide IsRun; hide Decide; hide Traced; hide Installed; hide FRESH;
    if m[i].Act? { StepIsRecorded(k, r[i], Decide(e, r[i]), r[i + 1]); }
  }

  lemma {:induction false} InstallsAreRecorded(e: Env, r: seq<State>, m: seq<Move>, k: Kind, n: nat)
    requires IsRun(e, r, m) && n < |r|
    ensures Installs(r, k, n) == Installed(Of(r[n].opts, k))
  {
    assert r[0] == FRESH;
    hide Moves; hide Installed; hide FRESH; hide Of;
    if n == 0 {
      FreshInstalledNothing(k);
    } else {
      InstallsAreRecorded(e, r, m, k, n - 1);
      MoveIsRecorded(e, r, m, k, n - 1);
    }
  }

  lemma {:induction false} AllowanceIs(budget: nat, repairs: nat)
    ensures Allowance(budget, repairs) == budget * (repairs + 1)
  {
    if repairs > 0 { AllowanceIs(budget, repairs - 1); }
  }

  function BudgetOf(e: Env, k: Kind): nat {
    match k
    case RouteOrder => e.budget.maxRouteAttempts
    case DaySchedule => e.budget.maxScheduleAttempts
    case Conflicts => e.budget.maxConstraintAttempts
    case RemoteStops => e.budget.maxCommuteAttempts
    case MissingStops => e.budget.maxRefillAttempts
  }

  lemma WithinOwnBudget(e: Env, s: State, k: Kind)
    requires Inv(e, s)
    ensures CallBudgets(e, s.meter)
    ensures s.searches.commute <= e.budget.maxSupplementSearches && s.searches.refill <= e.budget.maxSupplementSearches
    ensures !k.DaySchedule? ==> Installed(Of(s.opts, k)) == Of(s.opts, k).count <= BudgetOf(e, k)
    ensures k.DaySchedule? ==> Installed(Of(s.opts, k)) <= Allowance(BudgetOf(e, k), s.meter.repairs)
  {
    assert CandidateBudgets(e, s.opts, s.meter.repairs) && SearchBudgets(e, s.opts, s.searches);
    hide Inv; hide Installed;
  }

  /** Over the whole life of a session, across resumes: calls, repairs and searches stay in
      their budgets, and no optimiser installs more candidates than its budget, the schedule
      optimiser no more than its budget for each plan the model wrote. */
  lemma LifetimeBudgets(e: Env, r: seq<State>, m: seq<Move>, i: nat, k: Kind)
    requires IsRun(e, r, m) && i < |r|
    ensures CallBudgets(e, r[i].meter)
    ensures r[i].searches.commute <= e.budget.maxSupplementSearches && r[i].searches.refill <= e.budget.maxSupplementSearches
    ensures !k.DaySchedule? ==> Installs(r, k, i) == Of(r[i].opts, k).count <= BudgetOf(e, k)
    ensures k.DaySchedule? ==> Installs(r, k, i) <= BudgetOf(e, k) * (r[i].meter.repairs + 1)
  {
    hide Inv;
    AlwaysInv(e, r, m, i);
    InstallsAreRecorded(e, r, m, k, i);
    AllowanceIs(BudgetOf(e, k), r[i].meter.repairs);
    WithinOwnBudget(e, r[i], k);
    hide IsRun; hide Installs; hide Installed; hide Allowance; hide BudgetOf; hide Of;
  }
}
