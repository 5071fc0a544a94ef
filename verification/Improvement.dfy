/** When a candidate is accepted: exactly when it beats the plan it replaced. */
module Improvement {
  import opened Basics
  import opened TripTypes
  import opened Session
  import opened Actions
  import opened Invariant
  import opened Preservation
  import opened Bystanders
  import opened Runs
  import Acceptance

  predicate SaferRoutes(r: Reports, b: Reports) {
    && r.route.Some? && b.route.Some?
    && r.route.value.unavailableLegs <= b.route.value.unavailableLegs && r.route.value.excessiveLegs <= b.route.value.excessiveLegs
  }

  predicate SaferSchedule(r: Reports, b: Reports) {
    && r.schedule.Some? && b.schedule.Some?
    && r.schedule.value.figures.overtime <= b.schedule.value.figures.overtime
    && r.schedule.value.figures.infeasibleDays <= b.schedule.value.figures.infeasibleDays
    && r.schedule.value.figures.fallbackLegs <= b.schedule.value.figures.fallbackLegs
  }

  /** No overtime, no infeasible day, no constraint error. */
  predicate Clean(r: Reports) {
    && r.schedule.Some? && r.schedule.value.figures.overtime == 0 && r.schedule.value.figures.infeasibleDays == 0
    && r.constraints.Some? && r.constraints.value.errors == 0
  }

  /** Cheaper, by at least the given percentage of the old cost; of no cost nothing can be saved. */
  predicate Gains(e: Env, now: real, was: real, least: real) {
    now < was && (if was > 0.0 then e.round2((was - now) / was * 100.0) else 0.0) >= least
  }

  /** The reports `now` on the candidate against those `was` on the plan it replaces, of which
      a remote-stop candidate gives up the stop `name`. */
  predicate Better(e: Env, k: Kind, name: string, plan: Plan, now: Reports, oldPlan: Plan, was: Reports) {
    match k
    case RouteOrder => SaferRoutes(now, was) && Gains(e, now.route.value.cost, was.route.value.cost, e.minRouteGain)
    case DaySchedule =>
      && SaferRoutes(now, was) && SaferSchedule(now, was)
      && Gains(e, now.schedule.value.figures.cost, was.schedule.value.figures.cost, e.minScheduleGain)
    case Conflicts =>
      && SaferRoutes(now, was) && SaferSchedule(now, was) && now.constraints.Some? && was.constraints.Some?
      && Gains(e, now.constraints.value.cost, was.constraints.value.cost, e.minConstraintGain)
      && now.constraints.value.errors <= was.constraints.value.errors
    case RemoteStops =>
      && Clean(now) && now.commute.Some? && was.commute.Some? && now.route.Some? && was.route.Some?
      && now.commute.value.excessiveSegments < was.commute.value.excessiveSegments
      && now.commute.value.maxDuration < was.commute.value.maxDuration
      && e.normaliseName(name) !in now.commute.value.issueNames
      && now.route.value.unavailableLegs <= was.route.value.unavailableLegs
      && Total(plan.route.days) == Total(oldPlan.route.days)
    case MissingStops =>
      && SaferRoutes(now, was) && Clean(now)
      && var least := if e.request.travelDays >= 1 then e.request.travelDays else 1;
         Total(plan.route.days) >= if e.budget.minimumAttractions <= least then e.budget.minimumAttractions else least
  }

  /** The same against a stored baseline. */
  predicate BetterThan(e: Env, k: Kind, s: State, b: Bundle) {
    s.draft.plan.Some? && b.plan.Some? && b.candidate.Some? &&
    Better(e, k, b.candidate.value.name, s.draft.plan.value, s.reports, b.plan.value,
           Reports(b.routeReport, None, b.commuteReport, None, b.scheduleReport, None, b.constraintReport, None, None, None))
  }

  ghost predicate AcceptedBy(k: Kind, s: State, t: State) { Of(t.opts, k).verdicts == Of(s.opts, k).verdicts + [Accepted] }

  lemma VerdictsDiffer(v: seq<Verdict>)
    ensures v + [Accepted] != v + [Reverted] && v + [Accepted] != v + [Passed] && v + [Accepted] != v
  {
    assert (v + [Accepted])[|v|] != (v + [Reverted])[|v|];
    assert (v + [Accepted])[|v|] != (v + [Passed])[|v|];
  }

  lemma RouteVerdict(e: Env, s: State)
    requires Active(e, s) && Ready(e, s, OptimizeRoutes) && OptimizeRoutesStep(e, s).Done? && s.opts.route.Pending()
    ensures AcceptedBy(RouteOrder, s, OptimizeRoutesStep(e, s).state) <==> BetterThan(e, RouteOrder, s, s.opts.route.saved)
  {
    VerdictsDiffer(s.opts.route.verdicts);
    hide Decide; hide Judged;
  }

  lemma ScheduleVerdict(e: Env, s: State)
    requires Active(e, s) && Ready(e, s, OptimizeSchedule) && OptimizeScheduleStep(e, s).Done? && s.opts.schedule.Pending()
    ensures AcceptedBy(DaySchedule, s, OptimizeScheduleStep(e, s).state) <==> BetterThan(e, DaySchedule, s, s.opts.schedule.saved)
  {
    VerdictsDiffer(s.opts.schedule.verdicts);
    hide Decide; hide Judged;
  }

  lemma ConflictVerdict(e: Env, s: State)
    requires Active(e, s) && Ready(e, s, OptimizeConstraints) && OptimizeConstraintsStep(e, s).Done? && s.opts.constraint.Pending()
    ensures AcceptedBy(Conflicts, s, OptimizeConstraintsStep(e, s).state) <==> BetterThan(e, Conflicts, s, s.opts.constraint.saved)
  {
    VerdictsDiffer(s.opts.constraint.verdicts);
    hide Decide; hide Judged;
  }

  lemma ReplacementVerdict(e: Env, s: State)
    requires Active(e, s) && Ready(e, s, ReplaceRemote) && ReplaceRemoteStep(e, s).Done? && s.opts.commute.Pending()
    ensures AcceptedBy(RemoteStops, s, ReplaceRemoteStep(e, s).state) <==> BetterThan(e, RemoteStops, s, s.opts.commute.saved)
  {
    VerdictsDiffer(s.opts.commute.verdicts);
    hide Decide; hide Judged; hide AddIdentities; hide Members; hide Total; hide Bound;
  }

  lemma RefillVerdict(e: Env, s: State)
    requires Active(e, s) && Ready(e, s, RefillAttractions) && RefillStep(e, s).Done? && s.opts.refill.Pending()
    ensures AcceptedBy(MissingStops, s, RefillStep(e, s).state) <==> BetterThan(e, MissingStops, s, s.opts.refill.saved)
  {
    VerdictsDiffer(s.opts.refill.verdicts);
    hide Decide; hide Judged; hide AddIdentities; hide Members; hide Total; hide Bound;
  }

  lemma OnlyOwnersJudge(k: Kind, s: State, a: Action, t: State)
    requires Traced(s, a, t) && Of(s.opts, k).Pending() && !Of(t.opts, k).Pending()
    ensures match k
            case RouteOrder => a == OptimizeRoutes
            case DaySchedule => a == OptimizeSchedule
            case Conflicts => a == OptimizeConstraints
            case RemoteStops => a == ReplaceRemote
            case MissingStops => a == RefillAttractions
  {
    hide Snapshot;
  }

  lemma VerdictIsEarned(e: Env, s: State, w: Wire, k: Kind)
    requires Inv(e, s) && !s.delivery.finished && !Next(e, s, w).Broken?
    requires Of(s.opts, k).Pending() && !Of(Next(e, s, w).state.opts, k).Pending()
    ensures AcceptedBy(k, s, Next(e, s, w).state) <==> BetterThan(e, k, s, Of(s.opts, k).saved)
  {
    hide Inv; hide Decide; hide Ready; hide BetterThan; hide Traced; hide AcceptedBy;
    Guards(e, s);
    NextTraced(e, s, w);
    OnlyOwnersJudge(k, s, Decide(e, s), Next(e, s, w).state);
    OwnersAreActive(e, s, Decide(e, s));
    hide OptimizeRoutesStep; hide OptimizeScheduleStep; hide OptimizeConstraintsStep; hide ReplaceRemoteStep; hide RefillStep;
    hide Active;
    OwnersNeverEnd(e, s, Decide(e, s), w);
    match k
    case RouteOrder => RouteVerdict(e, s);
    case DaySchedule => ScheduleVerdict(e, s);
    case Conflicts => ConflictVerdict(e, s);
    case RemoteStops => ReplacementVerdict(e, s);
    case MissingStops => RefillVerdict(e, s);
  }

  predicate Owning(a: Action) {
    a.OptimizeRoutes? || a.OptimizeSchedule? || a.OptimizeConstraints? || a.ReplaceRemote? || a.RefillAttractions?
  }

  lemma OwnersAreActive(e: Env, s: State, a: Action)
    requires Inv(e, s) && !s.delivery.finished && Ready(e, s, a) && Owning(a)
    ensures Active(e, s)
  {
    hide Inv;
  }

  lemma OwnersNeverEnd(e: Env, s: State, a: Action, w: Wire)
    requires Owning(a)
    ensures !Execute(e, s, a, w).Raised?
  {
    hide RouteAccepted; hide ScheduleAccepted; hide ConstraintsAccepted; hide CommuteAccepted; hide RefillAccepted;
    hide AddIdentities; hide Members; hide CountAttractions; hide Bound;
  }

  /** A candidate is accepted if and only if it beats the plan it replaced, on the reports
      measured for both: the one it is judged on and the one from just before its installation.
      Otherwise it is reverted. */
  lemma AcceptedIffBetter(e: Env, r: seq<State>, m: seq<Move>, k: Kind, i: nat, j: nat)
    requires IsRun(e, r, m) && Episode(r, k, i, j)
    ensures r[i].draft.plan.Some? && r[j].draft.plan.Some? && Of(r[i + 1].opts, k).saved.candidate.Some?
    ensures var before := Of(r[i].opts, k).verdicts;
            var name := Of(r[i + 1].opts, k).saved.candidate.value.name;
            Of(r[j + 1].opts, k).verdicts == before +
              [if Better(e, k, name, r[j].draft.plan.value, r[j].reports, r[i].draft.plan.value, r[i].reports)
               then Accepted else Reverted]
  {
    hide Inv; hide Moves; hide Decide; hide Traced; hide FRESH; hide Next; hide Better; hide Snapshot; hide SameMeasured;
    assert Of(r[i + 1].opts, k).Pending() && Of(r[j].opts, k).Pending();
    RunTraced(e, r, m, i);
    InstallationSaves(k, r[i], Decide(e, r[i]), r[i + 1]);
    BaselineStays(e, r, m, k, i + 1, j);
    RevertIsExact(e, r, m, k, i, j);
    AlwaysInv(e, r, m, i + 1);
    AlwaysInv(e, r, m, j);
    PendingMeansSaved(e, r[i + 1], k);
    PendingMeansSaved(e, r[j], k);
    var b := Of(r[j].opts, k).saved;
    SameComparison(e, k, r[j], b, r[i]);
    JudgedByAction(e, r[j], m[j], r[j + 1], k);
    VerdictsDiffer(Of(r[i].opts, k).verdicts);
    hide IsRun;
  }

  /** So a delivered improvement is one: the reports kept with the accepted candidate. */
  lemma AcceptanceImproves(e: Env, r: seq<State>, m: seq<Move>, k: Kind, i: nat, j: nat)
    requires IsRun(e, r, m) && Episode(r, k, i, j)
    requires Of(r[j + 1].opts, k).verdicts == Of(r[i].opts, k).verdicts + [Accepted]
    ensures r[i].draft.plan.Some? && r[j + 1].draft.plan.Some? && Of(r[i + 1].opts, k).saved.candidate.Some?
    ensures Better(e, k, Of(r[i + 1].opts, k).saved.candidate.value.name,
                   r[j + 1].draft.plan.value, r[j + 1].reports, r[i].draft.plan.value, r[i].reports)
  {
    hide IsRun; hide Better; hide Of; hide SameMeasured;
    AcceptedIffBetter(e, r, m, k, i, j);
    RevertIsExact(e, r, m, k, i, j);
    VerdictsDiffer(Of(r[i].opts, k).verdicts);
    assert (Of(r[i].opts, k).verdicts + [Accepted])[|Of(r[i].opts, k).verdicts|] == Accepted;
  }

  lemma PendingMeansSaved(e: Env, s: State, k: Kind)
    requires Inv(e, s) && Of(s.opts, k).Pending()
    ensures Of(s.opts, k).saved.candidate.Some? && Of(s.opts, k).saved.plan.Some? && s.draft.plan.Some?
  {
    hide Inv; hide Decide; hide Validated; hide ReportsFresh;
    InvMeans(e, s);
    StoredWhole(s.opts, s.searches.query, k);
    hide NoNesting; hide RouteSettled;
  }

  lemma JudgedByAction(e: Env, s: State, m: Move, t: State, k: Kind)
    requires Inv(e, s) && Moves(e, s, m, t) && Of(s.opts, k).Pending() && !Of(t.opts, k).Pending()
    ensures AcceptedBy(k, s, t) <==> BetterThan(e, k, s, Of(s.opts, k).saved)
  {
    hide Inv; hide Next; hide BetterThan;
    if m.Act? {
      VerdictIsEarned(e, s, m.w, k);
    }
  }

  /** A baseline and the state it was taken from compare alike. */
  lemma SameComparison(e: Env, k: Kind, s: State, b: Bundle, was: State)
    requires Snapshot(k, was, b) && b.candidate.Some? && b.plan.Some? && s.draft.plan.Some?
    ensures was.draft.plan.Some?
    ensures BetterThan(e, k, s, b)
            <==> Better(e, k, b.candidate.value.name, s.draft.plan.value, s.reports, was.draft.plan.value, was.reports)
  {
    hide Total;
  }
}
