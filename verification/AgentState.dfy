/**
 The session object of app/agent_runtime/state.py with the bodies of the actions of
 app/agent_runtime/orchestrator.py, statement by statement. Every method is proved to
 compute the function of `Actions` that specifies it; `RunState` runs them.
 */
module Agents {
  import opened Basics
  import opened TripTypes
  import opened Session
  import opened Actions
  import opened Runs
  import opened Convergence
  import opened Batches
  import opened Journal
  import opened Invariant
  import opened Preservation
  import Acceptance

  /** The keys of `evaluation_input_fingerprints`. */
  datatype Slot = RouteSlot | CommuteSlot | ScheduleSlot | ConstraintSlot | ValidationSlot

  function Popped(i: Inputs, keys: set<Slot>): Inputs {
    Inputs(
      if RouteSlot in keys then None else i.route, if CommuteSlot in keys then None else i.commute,
      if ScheduleSlot in keys then None else i.schedule, if ConstraintSlot in keys then None else i.constraints,
      if ValidationSlot in keys then None else i.validation)
  }

  /** What a local action did: it succeeded in the specified state, or raised a ValueError. */
  ghost predicate Matches(r: Step, fault: Option<Fault>, t: State) {
    match r
    case Done(s, ok) => ok && fault.None? && t == s
    case Raised(_) => false
    case Broken(f) => fault == Some(f)
  }

  /** The audit side of the session, which influences no decision but the guard's. */
  datatype Log = Log(currentStep: nat, history: seq<Record>, compressed: nat, ledger: Ledger)

  /** The same told as batches and as a run. */
  datatype Trace = Trace(batches: seq<Batch>, states: seq<State>, moves: seq<Move>)

  /** `now` tells the run of `was`, and what came after. */
  ghost predicate Extends(was: Trace, now: Trace) { was.states <= now.states && was.moves <= now.moves }

  /** How a run that did not deliver was closed. */
  predicate Closed(x: Status) { x.Failed? || x.BudgetExhausted? || x.ConvergenceStopped? || x.MaxStepsReached? }

  /** How a run leaves the loop: with a delivered plan, by cancellation or a crash, by an
      agent error, or by a ValueError. */
  datatype Exit = Normal | Interrupted | Ended | Faulted(fault: Fault)

  /** What one turn meets outside the session. */
  datatype Tick = Tick(wire: Wire, cancelled: bool, late: bool)

  function Noted(l: Log, a: Action, ok: bool): Log { l.(history := l.history + [Lone(l.currentStep, a, ok)]) }

  /** One executed action: its effect on the session and its record. */
  ghost predicate Acted(r: Step, a: Action, s: State, before: Log, exit: Exit, ok: bool, t: State, after: Log) {
    match r
    case Done(u, success) => exit.Normal? && ok == success && t == u && after == Noted(before, a, success)
    case Raised(u) => exit.Ended? && !ok && t == u && after == Noted(before, a, false)
    case Broken(f) => exit == Faulted(f) && !ok && after == before && (f.RebuildChangedRoutes? ==> t == s)
  }

  lemma OnlyRebuildMoves(e: Env, s: State, a: Action, w: Wire)
    requires Execute(e, s, a, w) == Broken(RebuildChangedRoutes)
    ensures a.RebuildContent?
  {
    hide Acceptance.Evaluate; hide Decide; hide AddIdentities; hide Members; hide CountAttractions;
    hide RouteAccepted; hide ScheduleAccepted; hide ConstraintsAccepted; hide CommuteAccepted; hide RefillAccepted;
    hide Apply; hide Bound;
  }

  lemma GivingUpMovesNothing(s: State, a: Action, retryable: bool, retry: RetryAnswer)
    ensures var r := GiveUpOrRetry(s, a, retryable, retry); !r.Broken? && (r.Done? ==> !r.ok)
  {
  }

  lemma ReceivedMovesNothing(e: Env, s: State, a: Action, w: Wire)
    ensures !Received(e, s, a, w).Broken?
  {
    hide Apply;
  }

  /** The actions that may be absorbed into a running step. */
  predicate Compressible(a: Action) {
    || a.OptimizeRoutes? || a.EvaluateCommute? || a.ReplaceRemote? || a.EvaluateSchedule? || a.OptimizeSchedule?
    || a.EvaluateConstraints? || a.OptimizeConstraints? || a.RefillAttractions? || a.RebuildContent?
    || a.ValidatePlan? || a.Finish?
  }

  /** The lower bounds ExecutionBudget sets for the loop's own limits. */
  predicate Sensible(b: Budget) {
    b.maxSteps >= 1 && b.maxRepeatedInputs >= 1 && b.maxNoProgress >= 1 && b.maxLocalActions >= 1
  }

  lemma SameBusinessUnfinished(s: State, t: State)
    requires Business(s) == Business(t)
    ensures s.delivery.finished == t.delivery.finished
  {
  }

  /** `NoMissingData` for the state a run has reached. */
  lemma OnlyRebuildFaults(e: Env, r: seq<State>, m: seq<Move>, s: State, l: Ledger, w: Wire)
    requires Tracks(e, r, m, s, l) && !s.delivery.finished && Next(e, s, w).Broken?
    ensures Next(e, s, w).fault.RebuildChangedRoutes?
  {
    NoMissingData(e, r, m, |m|, w);
    hide Next; hide Decide; hide LedgerOf;
  }

  /** A step that returns normally leaves a session finished or running. */
  lemma NormalGoesOn(e: Env, s: State, w: Wire)
    requires s.status == Running && Next(e, s, w).Done?
    ensures var t := Next(e, s, w).state; t.delivery.finished || t.status == Running
  {
    hide Decide; hide Acceptance.Evaluate;
  }

  /** A step that ends the run closes it. */
  lemma RaisedCloses(e: Env, s: State, w: Wire)
    requires Next(e, s, w).Raised?
    ensures Closed(Next(e, s, w).state.status)
  {
    hide Decide; hide Acceptance.Evaluate; hide Apply;
  }

  /** The root of the last batch is where the drain loop remembers it. */
  lemma BatchIsAt(h: seq<Record>, bs: seq<Batch>, step: nat, compressed: nat, most: nat, rootAt: nat)
    requires Structured(h, bs, step, compressed, most) && bs != [] && rootAt + 1 + |bs[|bs| - 1].rest| == |h|
    ensures h[rootAt] == bs[|bs| - 1].first && 1 <= step
  {
    LastRootAt(bs);
  }

  /** So there is a root to remember. */
  lemma BatchEndsHistory(h: seq<Record>, bs: seq<Batch>, step: nat, compressed: nat, most: nat)
    requires Structured(h, bs, step, compressed, most) && bs != []
    ensures |h| >= 1
  {
  }

  lemma TrackedGuard(e: Env, r: seq<State>, m: seq<Move>, s: State, l: Ledger)
    requires Tracks(e, r, m, s, l) && Sensible(e.budget)
    ensures !s.status.ConvergenceStopped? && l.streak == 0
  {
    hide Next; hide Decide; hide Inv; hide LedgerOf; hide GuardedStops;
    NeverUnconverged(e, r, m, |m|);
    LedgerIsLastSuccess(e, r, m, |m|);
  }

  class AgentState {
    const e: Env
    var known: Known
    var draft: Draft
    var reports: Reports
    var opts: Optimisers
    var searches: Searches
    var delivery: Delivery
    var inputs: Inputs
    var meter: Meter
    var status: Status

    var log: Log
    ghost var trace: Trace

    function Snap(): State
      reads this
    {
      State(known, draft, reports, opts, searches, delivery, inputs, meter, status)
    }

    constructor (e: Env)
      ensures this.e == e && Snap() == FRESH && log == Log(0, [], 0, NO_EVIDENCE) && trace == Trace([], [FRESH], [])
    {
      this.e := e;
      known, draft, reports := Known(None, None, None, None, None), Draft(None, None, None), NO_REPORTS;
      opts, searches := Optimisers(IDLE, IDLE, IDLE, IDLE, IDLE), Searches(None, 0, 0, [], []);
      delivery := Delivery(None, 0, None, None, false, None);
      inputs, meter, status := NO_INPUTS, Meter(0, 0, 0), Idle;
      log := Log(0, [], 0, NO_EVIDENCE);
      trace := Trace([], [FRESH], []);
    }

    // ---- _invalidate_evaluation_fingerprints, _clear_*, _synchronize_* ----

    method Invalidate(keys: set<Slot>)
      modifies this
      ensures log == old(log) && trace == old(trace)
      ensures Snap() == old(Snap()).(
        inputs := Popped(old(inputs), keys),
        delivery := if ValidationSlot in keys then Ungraded(old(delivery)) else old(delivery))
    {
      if RouteSlot in keys { inputs := inputs.(route := None); }
      if CommuteSlot in keys { inputs := inputs.(commute := None); }
      if ScheduleSlot in keys { inputs := inputs.(schedule := None); }
      if ConstraintSlot in keys { inputs := inputs.(constraints := None); }
      if ValidationSlot in keys {
        inputs := inputs.(validation := None);
        delivery := delivery.(acceptance := None, completion := None);
      }
    }

    method ClearCommuteAnalysis(reset: bool)
      modifies this
      ensures log == old(log) && trace == old(trace)
      ensures Snap() == ClearCommute(old(Snap()), reset)
    {
      Invalidate({CommuteSlot, ValidationSlot});
      reports := reports.(commute := None, commuteFor := None);
      searches := searches.(query := None);
      opts := opts.(commute := opts.commute.(phase := NotStarted, saved := BLANK));
      if reset {
        opts := opts.(commute := opts.commute.(count := 0));
        searches := searches.(commute := 0, commuteExcluded := []);
      }
    }

    method ClearConstraintAnalysis(reset: bool)
      modifies this
      ensures log == old(log) && trace == old(trace)
      ensures Snap() == ClearConstraints(old(Snap()), reset)
    {
      Invalidate({ConstraintSlot, ValidationSlot});
      reports := reports.(constraints := None, constraintFor := None, weighed := None);
      opts := opts.(constraint := opts.constraint.(phase := NotStarted, saved := BLANK));
      if reset { opts := opts.(constraint := opts.constraint.(count := 0)); }
    }

    method ClearSnapshot()
      modifies this
      ensures log == old(log) && trace == old(trace)
      ensures Snap() == old(Snap()).(draft := Draft(old(draft).plan, None, None),
                                     reports := old(reports).(route := None, routeFor := None))
    {
      draft := draft.(routes := None, routesFor := None);
      reports := reports.(route := None, routeFor := None);
    }

    method ClearScheduleAnalysis()
      modifies this
      ensures log == old(log) && trace == old(trace)
      ensures Snap() == old(Snap()).(
        reports := old(reports).(schedule := None, scheduleFor := None, basis := None),
        opts := old(opts).(schedule := Cleared(old(opts).schedule, false)))
    {
      reports := reports.(schedule := None, scheduleFor := None, basis := None);
      opts := opts.(schedule := opts.schedule.(phase := NotStarted, saved := BLANK));
    }

    method ClearRouteAnalysis(reset: bool)
      modifies this
      ensures log == old(log) && trace == old(trace)
      ensures Snap() == ClearRoutes(old(Snap()), reset)
    {
      Invalidate({RouteSlot, CommuteSlot, ScheduleSlot, ConstraintSlot, ValidationSlot});
      ClearSnapshot();
      opts := opts.(route := opts.route.(phase := NotStarted, saved := BLANK));
      ClearCommuteAnalysis(reset);
      ClearScheduleAnalysis();
      ClearConstraintAnalysis(reset);
      if reset { opts := opts.(route := opts.route.(count := 0), schedule := opts.schedule.(count := 0)); }
      delivery := delivery.(contentFor := None, validation := None);
    }

    method SynchronizeEvaluationFingerprints()
      modifies this
      ensures log == old(log) && trace == old(trace)
      ensures Snap() == Synchronised(old(Snap()))
    {
      inputs := NO_INPUTS;
      if draft.plan.None? || draft.routes.None? { return; }
      var plan := draft.plan.value;
      var bound := Some(RouteInput(plan.route, draft.routes));
      if reports.route.Some? && reports.routeFor == Some(plan.route) { inputs := inputs.(route := bound); }
      if reports.commute.Some? && reports.commuteFor == Some(plan.route) { inputs := inputs.(commute := bound); }
      if reports.schedule.Some? && reports.scheduleFor == Some(plan.route) { inputs := inputs.(schedule := bound); }
      if reports.constraints.Some? && reports.schedule.Some? && reports.constraintFor == Some(plan) {
        inputs := inputs.(constraints := Some(ConstraintInput(plan, reports.schedule, known.attractions, known.weather)));
      }
    }

    /** What the reverting branches share: put a baseline back and re-bind its reports. */
    method Restore(d: Draft, r: Reports)
      modifies this
      ensures log == old(log) && trace == old(trace)
      ensures Snap() == Synchronised(old(Snap()).(draft := d, reports := r))
    {
      draft, reports := d, r;
      SynchronizeEvaluationFingerprints();
    }

    // ---- _refresh_* ----

    method RefreshRouteQuality() returns (fault: Option<Fault>)
      requires draft.plan.Some? && draft.routes.Some?
      modifies this
      ensures log == old(log) && trace == old(trace)
      ensures if Stamped(old(draft)) then fault.None? && Snap() == RefreshRoutes(e, old(Snap()))
              else fault == Some(StampMismatch) && Snap() == old(Snap())
    {
      var key := draft.plan.value.route;
      if draft.routes.value.stamp != key { return Some(StampMismatch); }
      reports := reports.(route := Some(e.evalRoutes(key, draft.routes.value)), routeFor := Some(key));
      inputs := inputs.(route := Some(RouteInput(key, draft.routes)));
      return None;
    }

    method RefreshScheduleQuality() returns (fault: Option<Fault>)
      requires draft.plan.Some? && draft.routes.Some?
      modifies this
      ensures log == old(log) && trace == old(trace)
      ensures if Stamped(old(draft)) then fault.None? && Snap() == RefreshSchedule(e, old(Snap()))
              else fault == Some(StampMismatch) && Snap() == old(Snap())
    {
      var plan := draft.plan.value;
      if draft.routes.value.stamp != plan.route { return Some(StampMismatch); }
      var report := EvalSchedule(e, plan, draft.routes.value);
      reports := reports.(schedule := Some(report), scheduleFor := Some(plan.route), basis := Some(plan));
      inputs := inputs.(schedule := Some(RouteInput(plan.route, draft.routes)));
      if opts.schedule.phase.NotStarted? && !report.figures.recommended {
        opts := opts.(schedule := opts.schedule.(phase := Skipped));
      }
      return None;
    }

    method EvaluateCommute() returns (fault: Option<Fault>)
      modifies this
      ensures log == old(log) && trace == old(trace)
      ensures Matches(EvaluateCommuteStep(e, old(Snap())), fault, Snap())
    {
      if draft.plan.None? || draft.routes.None? { return Some(MissingInput); }
      var key := draft.plan.value.route;
      if draft.routes.value.stamp != key { return Some(StampMismatch); }
      var report := e.evalCommute(key, draft.routes.value);
      var previous := reports.commuteFor;
      reports := reports.(commute := Some(report), commuteFor := Some(key));
      inputs := inputs.(commute := Some(RouteInput(key, draft.routes)));
      var phase := opts.commute.phase;
      if report.recommended && previous != Some(key) && (phase.Completed? || phase.Skipped?) {
        opts := opts.(commute := opts.commute.(phase := NotStarted));
      } else if phase.NotStarted? && !report.recommended {
        opts := opts.(commute := opts.commute.(phase := Skipped));
      }
      return None;
    }

    method EvaluateSchedule() returns (fault: Option<Fault>)
      modifies this
      ensures log == old(log) && trace == old(trace)
      ensures Matches(EvaluateScheduleStep(e, old(Snap())), fault, Snap())
    {
      if draft.plan.None? || draft.routes.None? { return Some(MissingInput); }
      fault := RefreshScheduleQuality();
    }

    method EvaluateConstraints() returns (fault: Option<Fault>)
      modifies this
      ensures log == old(log) && trace == old(trace)
      ensures Matches(EvaluateConstraintsStep(e, old(Snap())), fault, Snap())
    {
      if draft.plan.None? || reports.schedule.None? { return Some(MissingInput); }
      var input := ConstraintInput(draft.plan.value, reports.schedule, known.attractions, known.weather);
      var report := e.evalConstraints(input);
      reports := reports.(constraints := Some(report), constraintFor := draft.plan, weighed := Some(input));
      inputs := inputs.(constraints := Some(input));
      if opts.constraint.phase.NotStarted? && !report.recommended {
        opts := opts.(constraint := opts.constraint.(phase := Skipped));
      }
      return None;
    }

    // ---- _optimize_routes ----

    method JudgeRouteCandidate() returns (fault: Option<Fault>)
      requires reports.route.Some?
      modifies this
      ensures log == old(log) && trace == old(trace)
      ensures Matches(JudgeRoutes(e, old(Snap())), fault, Snap())
    {
      hide Bound; hide RouteAccepted;
      var b := opts.route.saved;
      if !RouteBundle(b) { return Some(MissingBaseline); }
      var accepted := RouteAccepted(e, b.routeReport.value, reports.route.value);
      opts := opts.(route := Optimiser(Completed, opts.route.count, BLANK,
                                       opts.route.verdicts + [if accepted then Accepted else Reverted]));
      delivery := delivery.(validation := None);
      if accepted { return None; }
      draft := Draft(b.plan, b.routes, b.routeFor);
      reports := reports.(route := b.routeReport, routeFor := b.routeFor);
      opts := opts.(schedule := opts.schedule.(phase := NotStarted));
      assert Snap() == RestoreForRoutes(old(Snap()));
      hide RestoreForRoutes; hide RefreshSchedule; hide Synchronised;
      fault := RefreshScheduleQuality();
      if fault.None? { SynchronizeEvaluationFingerprints(); }
    }

    method SkipRoutes()
      modifies this
      ensures log == old(log) && trace == old(trace)
      ensures Snap() == old(Snap()).(opts := old(opts).(route := Pass(old(opts).route)))
    {
      opts := opts.(route := opts.route.(phase := Skipped));
      opts := opts.(route := opts.route.(verdicts := opts.route.verdicts + [Passed]));
    }

    method InstallRouteCandidate(c: Candidate)
      requires draft.plan.Some?
      modifies this
      ensures log == old(log) && trace == old(trace)
      ensures Snap() == InstallRoutes(old(Snap()), c)
    {
      var saved := BLANK.(plan := draft.plan, routes := draft.routes, routeReport := reports.route,
                          routeFor := Some(draft.plan.value.route), candidate := Some(c));
      draft := draft.(plan := Some(c.plan));
      ClearCommuteAnalysis(false);
      opts := opts.(route := opts.route.(saved := saved, count := opts.route.count + 1, phase := CandidatePending));
      ClearSnapshot();
      ClearScheduleAnalysis();
      ClearConstraintAnalysis(false);
      delivery := delivery.(contentFor := None, validation := None);
    }

    method OptimizeRoutes() returns (fault: Option<Fault>)
      modifies this
      ensures log == old(log) && trace == old(trace)
      ensures Matches(OptimizeRoutesStep(e, old(Snap())), fault, Snap())
    {
      if draft.plan.None? || draft.routes.None? { return Some(MissingInput); }
      if reports.route.None? || reports.routeFor != Some(draft.plan.value.route) {
        fault := RefreshRouteQuality();
        if fault.Some? { return; }
      }
      if opts.route.Pending() {
        fault := JudgeRouteCandidate();
        return;
      }
      if opts.route.count >= e.budget.maxRouteAttempts { SkipRoutes(); return None; }
      if !reports.route.value.recommended { SkipRoutes(); return None; }
      var candidate := e.proposeRoutes(draft.plan.value);
      if candidate.None? { SkipRoutes(); return None; }
      InstallRouteCandidate(candidate.value);
      return None;
    }

    // ---- _replace_remote_attraction ----

    method JudgeReplacementCandidate() returns (fault: Option<Fault>)
      requires Measured(Snap()) && reports.commute.Some?
      modifies this
      ensures log == old(log) && trace == old(trace)
      ensures Matches(JudgeReplacement(e, old(Snap())), fault, Snap())
    {
      hide CommuteAccepted; hide AddIdentities; hide Bound;
      var b := opts.commute.saved;
      if !CommuteBundle(b) { return Some(MissingBaseline); }
      var again := if opts.commute.count < e.budget.maxCommuteAttempts then NotStarted else Skipped;
      var o := opts.commute;
      var accepted := CommuteAccepted(e, Snap(), b);
      delivery := delivery.(contentFor := None, validation := None);
      if accepted {
        var phase := if reports.commute.value.recommended then again else Completed;
        opts := opts.(commute := Optimiser(phase, o.count, BLANK, o.verdicts + [Accepted]));
        return None;
      }
      searches := searches.(commuteExcluded := AddIdentities(searches.commuteExcluded, b.candidate.value.identities));
      opts := opts.(commute := Optimiser(again, o.count, BLANK, o.verdicts + [Reverted]));
      Restore(Draft(b.plan, b.routes, b.routeFor),
              Reports(b.routeReport, b.routeFor, b.commuteReport, b.routeFor, b.scheduleReport, b.routeFor,
                      b.constraintReport, b.constraintFor, b.basis, b.weighed));
      return None;
    }

    method SkipReplacement()
      modifies this
      ensures log == old(log) && trace == old(trace)
      ensures Snap() == old(Snap()).(opts := old(opts).(commute := Pass(old(opts).commute)))
    {
      opts := opts.(commute := opts.commute.(phase := Skipped));
      opts := opts.(commute := opts.commute.(verdicts := opts.commute.verdicts + [Passed]));
    }

    method InstallReplacementCandidate(c: Candidate)
      requires draft.plan.Some?
      modifies this
      ensures log == old(log) && trace == old(trace)
      ensures Snap() == InstallReplacement(old(Snap()), c)
    {
      var saved := Bundle(draft.plan, draft.routes, reports.route, reports.commute, reports.schedule, reports.constraints,
                          Some(draft.plan.value.route), draft.plan, Some(c), reports.basis, reports.weighed);
      draft := draft.(plan := Some(c.plan));
      opts := opts.(commute := opts.commute.(saved := saved, count := opts.commute.count + 1, phase := CandidatePending));
      ClearSnapshot();
      reports := reports.(commute := None, commuteFor := None, schedule := None, scheduleFor := None, basis := None);
      reports := reports.(constraints := None, constraintFor := None, weighed := None);
      delivery := delivery.(contentFor := None, validation := None);
    }

    method ReplaceRemoteAttraction() returns (fault: Option<Fault>)
      modifies this
      ensures log == old(log) && trace == old(trace)
      ensures Matches(ReplaceRemoteStep(e, old(Snap())), fault, Snap())
    {
      hide JudgeReplacement; hide Members;
      if draft.plan.None? || draft.routes.None? { return Some(MissingInput); }
      if reports.route.None? || reports.commute.None? || reports.schedule.None? || reports.constraints.None? {
        return Some(MissingInput);
      }
      if opts.commute.Pending() {
        fault := JudgeReplacementCandidate();
        return;
      }
      if opts.commute.count >= e.budget.maxCommuteAttempts { SkipReplacement(); return None; }
      var plan, report := draft.plan.value, reports.commute.value;
      var candidate := e.proposeReplacement(plan, report, known.attractions, Members(searches.commuteExcluded));
      if candidate.None? {
        if searches.commute < e.budget.maxSupplementSearches {
          var query := e.commuteQuery(plan, report, searches.commute);
          if query.Some? {
            searches := searches.(query := query);
            opts := opts.(commute := opts.commute.(phase := SupplementNeeded));
            return None;
          }
        }
        SkipReplacement();
        return None;
      }
      InstallReplacementCandidate(candidate.value);
      return None;
    }

    // ---- _optimize_schedule ----

    method JudgeScheduleCandidate() returns (fault: Option<Fault>)
      requires reports.schedule.Some?
      modifies this
      ensures log == old(log) && trace == old(trace)
      ensures Matches(JudgeSchedule(e, old(Snap())), fault, Snap())
    {
      hide Bound; hide ScheduleAccepted;
      var b := opts.schedule.saved;
      if !ScheduleBundle(b) { return Some(MissingBaseline); }
      if reports.route.None? { return Some(MissingBaseline); }
      var accepted := ScheduleAccepted(e, reports.schedule.value, b.scheduleReport.value, reports.route.value, b.routeReport.value);
      opts := opts.(schedule := Optimiser(Completed, opts.schedule.count, BLANK,
                                          opts.schedule.verdicts + [if accepted then Accepted else Reverted]));
      delivery := delivery.(validation := None);
      if !accepted {
        Restore(Draft(b.plan, b.routes, b.routeFor),
                reports.(route := b.routeReport, routeFor := b.routeFor,
                         schedule := b.scheduleReport, scheduleFor := b.routeFor, basis := b.basis));
      }
      return None;
    }

    method SkipSchedule()
      modifies this
      ensures log == old(log) && trace == old(trace)
      ensures Snap() == old(Snap()).(opts := old(opts).(schedule := Pass(old(opts).schedule)))
    {
      opts := opts.(schedule := opts.schedule.(phase := Skipped));
      opts := opts.(schedule := opts.schedule.(verdicts := opts.schedule.verdicts + [Passed]));
    }

    method InstallScheduleCandidate(c: Candidate)
      requires draft.plan.Some?
      modifies this
      ensures log == old(log) && trace == old(trace)
      ensures Snap() == InstallSchedule(old(Snap()), c)
    {
      var saved := BLANK.(plan := draft.plan, routes := draft.routes, routeReport := reports.route,
                          scheduleReport := reports.schedule, routeFor := Some(draft.plan.value.route),
                          candidate := Some(c), basis := reports.basis);
      draft := draft.(plan := Some(c.plan));
      ClearCommuteAnalysis(false);
      opts := opts.(schedule := opts.schedule.(saved := saved, count := opts.schedule.count + 1, phase := CandidatePending));
      ClearSnapshot();
      reports := reports.(schedule := None, scheduleFor := None, basis := None);
      ClearConstraintAnalysis(false);
      delivery := delivery.(contentFor := None, validation := None);
    }

    method OptimizeSchedule() returns (fault: Option<Fault>)
      modifies this
      ensures log == old(log) && trace == old(trace)
      ensures Matches(OptimizeScheduleStep(e, old(Snap())), fault, Snap())
    {
      hide JudgeSchedule;
      if draft.plan.None? || draft.routes.None? { return Some(MissingInput); }
      if reports.schedule.None? || reports.scheduleFor != Some(draft.plan.value.route) {
        fault := RefreshScheduleQuality();
        if fault.Some? { return; }
      }
      if opts.schedule.Pending() {
        fault := JudgeScheduleCandidate();
        return;
      }
      if opts.schedule.count >= e.budget.maxScheduleAttempts { SkipSchedule(); return None; }
      if !reports.schedule.value.figures.recommended { SkipSchedule(); return None; }
      var candidate := e.proposeSchedule(draft.plan.value, reports.schedule.value);
      if candidate.None? { SkipSchedule(); return None; }
      if reports.route.None? { return Some(MissingInput); }
      InstallScheduleCandidate(candidate.value);
      return None;
    }

    // ---- _optimize_constraints ----

    method JudgeConstraintCandidate() returns (fault: Option<Fault>)
      requires Measured(Snap())
      modifies this
      ensures log == old(log) && trace == old(trace)
      ensures Matches(JudgeConstraints(e, old(Snap())), fault, Snap())
    {
      hide ConstraintsAccepted; hide Bound;
      var b := opts.constraint.saved;
      if !ConstraintBundle(b) { return Some(MissingBaseline); }
      var accepted := ConstraintsAccepted(e, Snap(), b);
      opts := opts.(constraint := Optimiser(Completed, opts.constraint.count, BLANK,
                                            opts.constraint.verdicts + [if accepted then Accepted else Reverted]));
      delivery := delivery.(validation := None);
      if !accepted {
        var key := Some(b.plan.value.route);
        Restore(Draft(b.plan, b.routes, key),
                reports.(route := b.routeReport, routeFor := key, schedule := b.scheduleReport, scheduleFor := key,
                         constraints := b.constraintReport, constraintFor := b.constraintFor,
                         basis := b.basis, weighed := b.weighed));
      }
      return None;
    }

    method SkipConstraints()
      modifies this
      ensures log == old(log) && trace == old(trace)
      ensures Snap() == old(Snap()).(opts := old(opts).(constraint := Pass(old(opts).constraint)))
    {
      opts := opts.(constraint := opts.constraint.(phase := Skipped));
      opts := opts.(constraint := opts.constraint.(verdicts := opts.constraint.verdicts + [Passed]));
    }

    method InstallConstraintCandidate(c: Candidate)
      modifies this
      ensures log == old(log) && trace == old(trace)
      ensures Snap() == InstallConstraints(old(Snap()), c)
    {
      var saved := BLANK.(plan := draft.plan, routes := draft.routes, routeReport := reports.route,
                          scheduleReport := reports.schedule, constraintReport := reports.constraints,
                          constraintFor := draft.plan, candidate := Some(c),
                          basis := reports.basis, weighed := reports.weighed);
      draft := draft.(plan := Some(c.plan));
      ClearCommuteAnalysis(false);
      opts := opts.(constraint := opts.constraint.(saved := saved, count := opts.constraint.count + 1, phase := CandidatePending));
      ClearSnapshot();
      reports := reports.(schedule := None, scheduleFor := None, basis := None, constraints := None, constraintFor := None,
                          weighed := None);
      delivery := delivery.(contentFor := None, validation := None);
    }

    method OptimizeConstraints() returns (fault: Option<Fault>)
      modifies this
      ensures log == old(log) && trace == old(trace)
      ensures Matches(OptimizeConstraintsStep(e, old(Snap())), fault, Snap())
    {
      hide JudgeConstraints;
      if draft.plan.None? || draft.routes.None? { return Some(MissingInput); }
      if reports.route.None? || reports.schedule.None? { return Some(MissingInput); }
      if reports.constraints.None? || reports.constraintFor != draft.plan {
        fault := EvaluateConstraints();
      }
      if opts.constraint.Pending() {
        fault := JudgeConstraintCandidate();
        return;
      }
      if opts.constraint.count >= e.budget.maxConstraintAttempts { SkipConstraints(); return None; }
      if !reports.constraints.value.recommended { SkipConstraints(); return None; }
      var candidate := e.proposeConstraints(draft.plan.value, reports.constraints.value, known.attractions, known.weather);
      if candidate.None? { SkipConstraints(); return None; }
      InstallConstraintCandidate(candidate.value);
      return None;
    }

    // ---- _refill_attractions ----

    method JudgeRefillCandidate() returns (fault: Option<Fault>)
      requires draft.plan.Some?
      modifies this
      ensures log == old(log) && trace == old(trace)
      ensures Matches(JudgeRefill(e, old(Snap())), fault, Snap())
    {
      hide RefillAccepted; hide AddIdentities; hide Bound;
      var b := opts.refill.saved;
      if !RefillBundle(b) || draft.routes.None? || reports.route.None? || reports.schedule.None? || reports.constraints.None? {
        return Some(MissingBaseline);
      }
      var o := opts.refill;
      var accepted := RefillAccepted(e, Snap(), b);
      delivery := delivery.(contentFor := None, validation := None);
      if accepted {
        opts := opts.(refill := Optimiser(Completed, o.count, BLANK, o.verdicts + [Accepted]));
        return None;
      }
      searches := searches.(refillExcluded := AddIdentities(searches.refillExcluded, b.candidate.value.identities));
      var phase := if o.count < e.budget.maxRefillAttempts then NotStarted else Skipped;
      opts := opts.(refill := Optimiser(phase, o.count, BLANK, o.verdicts + [Reverted]));
      Restore(Draft(b.plan, b.routes, b.routeFor),
              reports.(route := b.routeReport, routeFor := b.routeFor, schedule := b.scheduleReport, scheduleFor := b.routeFor,
                       constraints := b.constraintReport, constraintFor := b.constraintFor,
                         basis := b.basis, weighed := b.weighed));
      return None;
    }

    method SkipRefill()
      modifies this
      ensures log == old(log) && trace == old(trace)
      ensures Snap() == old(Snap()).(opts := old(opts).(refill := Pass(old(opts).refill)))
    {
      opts := opts.(refill := opts.refill.(phase := Skipped));
      opts := opts.(refill := opts.refill.(verdicts := opts.refill.verdicts + [Passed]));
    }

    method InstallRefillCandidate(c: Candidate)
      requires draft.plan.Some?
      modifies this
      ensures log == old(log) && trace == old(trace)
      ensures Snap() == InstallRefill(old(Snap()), c)
    {
      var saved := BLANK.(plan := draft.plan, routes := draft.routes, routeReport := reports.route,
                          scheduleReport := reports.schedule, constraintReport := reports.constraints,
                          routeFor := Some(draft.plan.value.route), constraintFor := draft.plan,
                          candidate := Some(c), basis := reports.basis, weighed := reports.weighed);
      draft := draft.(plan := Some(c.plan));
      ClearCommuteAnalysis(false);
      opts := opts.(refill := opts.refill.(saved := saved, count := opts.refill.count + 1, phase := CandidatePending));
      ClearSnapshot();
      reports := reports.(schedule := None, scheduleFor := None, basis := None, constraints := None, constraintFor := None,
                          weighed := None);
      delivery := delivery.(contentFor := None, validation := None);
    }

    method RefillAttractions() returns (fault: Option<Fault>)
      modifies this
      ensures log == old(log) && trace == old(trace)
      ensures Matches(RefillStep(e, old(Snap())), fault, Snap())
    {
      hide JudgeRefill; hide Members; hide CountAttractions;
      if draft.plan.None? { return Some(MissingInput); }
      var required := RequiredAttractions(e);
      if opts.refill.Pending() {
        fault := JudgeRefillCandidate();
        return;
      }
      var plan := draft.plan.value;
      if CountAttractions(plan) >= required {
        opts := opts.(refill := opts.refill.(phase := Completed));
        return None;
      }
      if opts.refill.count >= e.budget.maxRefillAttempts { SkipRefill(); return None; }
      if draft.routes.None? || reports.route.None? || reports.schedule.None? || reports.constraints.None? {
        return Some(MissingInput);
      }
      var candidate := e.proposeRefill(plan, known.attractions, Members(searches.refillExcluded));
      if candidate.None? {
        if searches.refill < e.budget.maxSupplementSearches {
          var query := e.refillQuery(plan, searches.refill);
          if query.Some? {
            searches := searches.(query := query);
            opts := opts.(refill := opts.refill.(phase := SupplementNeeded));
            return None;
          }
        }
        SkipRefill();
        return None;
      }
      InstallRefillCandidate(candidate.value);
      return None;
    }

    // ---- _rebuild_plan_content, _validate_plan, FINISH ----

    method RebuildPlanContent() returns (fault: Option<Fault>)
      modifies this
      ensures log == old(log) && trace == old(trace)
      ensures Matches(RebuildStep(e, old(Snap())), fault, Snap())
      ensures fault.Some? ==> Snap() == old(Snap())
    {
      if draft.plan.None? || draft.routes.None? { return Some(MissingInput); }
      var rebuilt := WithContent(draft.plan.value, e.rebuild(draft.plan.value, draft.routes, reports.schedule, known.restaurants));
      if rebuilt.route != draft.plan.value.route { return Some(RebuildChangedRoutes); }
      draft := draft.(plan := Some(rebuilt));
      delivery := delivery.(contentFor := Some(e.contentKey(rebuilt, draft.routes, reports.schedule, known.restaurants)));
      delivery := delivery.(rebuilds := delivery.rebuilds + 1);
      delivery := delivery.(validation := None);
      return None;
    }

    /** `ok` is the success flag of the record; without it the run may end here. */
    method ValidatePlan() returns (fault: Option<Fault>, ok: bool, ended: bool)
      modifies this
      ensures log == old(log) && trace == old(trace)
      ensures match ValidateStep(e, old(Snap()))
              case Done(t, success) => fault.None? && !ended && ok == success && Snap() == t
              case Raised(t) => fault.None? && ended && !ok && Snap() == t
              case Broken(f) => fault == Some(f)
    {
      hide Acceptance.Evaluate;
      if draft.plan.None? { return Some(MissingInput), false, false; }
      var input := ValidationInput(draft.plan.value, known.attractions, known.weather, known.hotels, draft.routes,
                                   reports.schedule, reports.constraints);
      var result := e.validate(input);
      delivery := delivery.(validation := Some(result));
      inputs := inputs.(validation := Some(input));
      var x := Acceptance.Evidence(draft.plan, reports.route, reports.schedule, reports.commute, reports.constraints);
      var report := Acceptance.Evaluate(e, x, result);
      delivery := delivery.(acceptance := Some(report));
      if result.valid || report.accepted { return None, true, false; }
      var canRepair := result.repairable && meter.repairs < e.budget.maxRepairs;
      if !canRepair {
        status := Failed;
        return None, false, true;
      }
      return None, false, false;
    }

    method Finish()
      modifies this
      ensures log == old(log) && trace == old(trace)
      ensures FinishStep(old(Snap())) == Done(Snap(), true)
    {
      delivery := delivery.(finished := true);
      status := Succeeded;
      var grade := delivery.acceptance;
      var partial := grade.Some? && grade.value.accepted && grade.value.partial;
      delivery := delivery.(completion := Some(if partial then Partial else Full));
    }

    // ---- Tool results ----

    method HandleFailedSupplement()
      modifies this
      ensures log == old(log) && trace == old(trace)
      ensures Snap() == FailedSupplement(old(Snap()))
    {
      var asked := searches.query.Some?;
      if opts.refill.phase.SupplementNeeded? {
        if asked { searches := searches.(refill := searches.refill + 1); }
        searches := searches.(query := None);
        opts := opts.(refill := opts.refill.(phase := NotStarted));
        return;
      }
      if asked { searches := searches.(commute := searches.commute + 1); }
      searches := searches.(query := None);
      opts := opts.(commute := opts.commute.(phase := Skipped));
    }

    method SaveNearbyAttractions(facts: Facts)
      modifies this
      ensures log == old(log) && trace == old(trace)
      ensures Snap() == SaveNearby(e, old(Snap()), facts)
    {
      known := known.(attractions := Some(e.mergePool(known.attractions, facts)));
      Invalidate({ConstraintSlot, ValidationSlot});
      if opts.refill.phase.SupplementNeeded? {
        searches := searches.(refill := searches.refill + 1, query := None);
        opts := opts.(refill := opts.refill.(phase := NotStarted));
        return;
      }
      searches := searches.(commute := searches.commute + 1, query := None);
      opts := opts.(commute := opts.commute.(phase := NotStarted));
    }

    method SaveRouteEstimates(r: Routes)
      requires draft.plan.Some? && r.stamp == draft.plan.value.route
      modifies this
      ensures log == old(log) && trace == old(trace)
      ensures Snap() == SaveRoutes(e, old(Snap()), r)
    {
      var plan := draft.plan.value;
      draft := draft.(routes := Some(r), routesFor := Some(r.stamp));
      Invalidate({CommuteSlot, ConstraintSlot, ValidationSlot});
      var quality, schedule := e.evalRoutes(plan.route, r), EvalSchedule(e, plan, r);
      var input := Some(RouteInput(plan.route, Some(r)));
      reports := reports.(route := Some(quality), routeFor := Some(r.stamp),
                          schedule := Some(schedule), scheduleFor := Some(r.stamp), basis := Some(plan));
      inputs := inputs.(route := input, schedule := input);
      var skip := opts.route.phase.NotStarted? && (!quality.recommended || opts.route.count >= e.budget.maxRouteAttempts);
      opts := opts.(route := if skip then opts.route.(phase := Skipped) else opts.route,
                    schedule := if opts.schedule.phase.NotStarted? && !schedule.figures.recommended
                                then opts.schedule.(phase := Skipped) else opts.schedule);
      delivery := delivery.(validation := None);
    }

    /** `_apply_tool_result`; false where it raises, leaving the state alone. */
    method ApplyToolResult(a: Action, p: Payload) returns (ok: bool)
      modifies this
      ensures log == old(log) && trace == old(trace)
      ensures ok == Apply(e, old(Snap()), a, p).Some?
      ensures Snap() == if ok then Apply(e, old(Snap()), a, p).value else old(Snap())
    {
      hide SaveNearby; hide SaveRoutes; hide ClearRoutes; hide Popped; hide SaveRestaurants;
      match a {
        case SearchAttractions =>
          if !p.FactsData? { return false; }
          known := known.(attractions := Some(p.facts));
          return true;
        case GetWeather =>
          if !p.FactsData? { return false; }
          known := known.(weather := Some(p.facts));
          return true;
        case SearchHotels =>
          if !p.FactsData? { return false; }
          known := known.(hotels := Some(p.facts));
          return true;
        case SupplementAttractions =>
          if searches.query.None? || !p.NearbyData? { return false; }
          var q := searches.query.value;
          if p.radius != q.radius || p.page != q.page || p.center != q.center { return false; }
          SaveNearbyAttractions(p.facts);
          return true;
        case SearchRestaurants =>
          if draft.plan.None? || !p.FactsData? { return false; }
          SaveRestaurantCandidates(p.facts);
          return true;
        case GeneratePlan =>
          if !p.PlanData? { return false; }
          draft := draft.(plan := Some(e.dropDuplicates(p.plan)));
          ClearRouteAnalysis(true);
          return true;
        case EstimateRoutes =>
          if draft.plan.None? || !p.RouteData? || p.routes.stamp != draft.plan.value.route { return false; }
          SaveRouteEstimates(p.routes);
          return true;
        case RepairPlan =>
          if !p.PlanData? { return false; }
          draft := draft.(plan := Some(e.dropDuplicates(p.plan)));
          ClearRouteAnalysis(false);
          opts := opts.(schedule := opts.schedule.(count := 0));
          meter := meter.(repairs := meter.repairs + 1);
          return true;
        case _ => return false;
      }
    }

    method SaveRestaurantCandidates(facts: Facts)
      requires draft.plan.Some?
      modifies this
      ensures log == old(log) && trace == old(trace)
      ensures Snap() == SaveRestaurants(e, old(Snap()), facts)
    {
      known := known.(restaurants := Some(facts), restaurantsFor := Some(e.restaurantKey(draft.plan.value)));
      delivery := delivery.(contentFor := None);
      Invalidate({ConstraintSlot, ValidationSlot});
    }

    // ---- execute_action ----

    method Append(a: Action, ok: bool)
      modifies this`log
      ensures log == Noted(old(log), a, ok)
    {
      log := log.(history := log.history + [Lone(log.currentStep, a, ok)]);
    }

    /** After a failed attempt has been recorded. */
    method GiveUp(a: Action, retryable: bool, retry: RetryAnswer) returns (exit: Exit)
      modifies this
      ensures log == old(log) && trace == old(trace)
      ensures match GiveUpOrRetry(old(Snap()), a, retryable, retry)
              case Done(t, ok) => exit.Normal? && !ok && Snap() == t
              case Raised(t) => exit.Ended? && Snap() == t
              case Broken(_) => false
    {
      if retryable && retry.NoTimeLeft? {
        status := BudgetExhausted;
        return Ended;
      }
      if retryable && retry.Again? { return Normal; }
      if a.SupplementAttractions? {
        HandleFailedSupplement();
        return Normal;
      }
      status := Failed;
      return Ended;
    }

    method Receive(a: Action, w: Wire) returns (exit: Exit, ok: bool)
      modifies this
      ensures trace == old(trace)
      ensures Acted(Received(e, old(Snap()), a, w), a, old(Snap()), old(log), exit, ok, Snap(), log)
    {
      hide Apply; hide GiveUpOrRetry;
      match w.response {
        case Failure(retryable) =>
          Append(a, false);
          exit := GiveUp(a, retryable, w.retry);
          return exit, false;
        case Returned(p) =>
          ok := ApplyToolResult(a, p);
          Append(a, ok);
          exit := Normal;
          if !ok { exit := GiveUp(a, true, w.retry); }
      }
    }

    /** `_build_tool_payload` and `_pre_call_budget_reason`. */
    function Refusal(a: Action, w: Wire): Option<Exit>
      reads this
    {
      if a.SupplementAttractions? && searches.query.None? then Some(Faulted(MissingInput))
      else if (a.SearchRestaurants? || a.EstimateRoutes?) && draft.plan.None? then Some(Faulted(MissingInput))
      else if w.late || meter.toolCalls + 1 > e.budget.maxToolCalls || meter.llmCalls + e.llmCost(a) > e.budget.maxLlmCalls
        then Some(Ended)
      else None
    }

    lemma RefusalIs(a: Action, w: Wire)
      ensures var s := Snap();
              match Refusal(a, w)
              case Some(Faulted(f)) => ToolStep(e, s, a, w) == Broken(f) && !f.RebuildChangedRoutes?
              case Some(x) => x.Ended? && ToolStep(e, s, a, w) == Raised(s.(status := BudgetExhausted))
              case None => ToolStep(e, s, a, w) == if w.permitted then Received(e, Charged(e, s, a), a, w)
                                                   else GiveUpOrRetry(s, a, false, w.retry)
    {
      hide Received; hide GiveUpOrRetry; hide Charged;
    }

    /** One physical call: refused without being charged, or charged and made. */
    method CallTool(a: Action, w: Wire) returns (exit: Exit, ok: bool)
      modifies this
      ensures trace == old(trace)
      ensures Acted(ToolStep(e, old(Snap()), a, w), a, old(Snap()), old(log), exit, ok, Snap(), log)
    {
      RefusalIs(a, w);
      hide Received; hide GiveUpOrRetry; hide Charged; hide ToolStep;
      ok := false;
      var refused := Refusal(a, w);
      if refused.Some? {
        exit := refused.value;
        if exit.Ended? {
          Append(a, false);
          status := BudgetExhausted;
        }
      } else if w.permitted {
        exit, ok := Perform(a, w);
      } else {
        Append(a, false);
        GivingUpMovesNothing(Snap(), a, false, w.retry);
        exit := GiveUp(a, false, w.retry);
      }
    }

    /** The call itself: it is charged before its response is known. */
    method Perform(a: Action, w: Wire) returns (exit: Exit, ok: bool)
      modifies this
      ensures trace == old(trace)
      ensures Acted(Received(e, Charged(e, old(Snap()), a), a, w), a, old(Snap()), old(log), exit, ok, Snap(), log)
    {
      hide Received;
      meter := meter.(toolCalls := meter.toolCalls + 1, llmCalls := meter.llmCalls + e.llmCost(a));
      assert Snap() == Charged(e, old(Snap()), a);
      ReceivedMovesNothing(e, Snap(), a, w);
      exit, ok := Receive(a, w);
    }

    /** A local action appends its record last, so a ValueError leaves none. */
    method RunLocal(a: Action) returns (exit: Exit, ok: bool)
      requires Compressible(a)
      modifies this
      ensures trace == old(trace)
      ensures forall w :: Acted(Execute(e, old(Snap()), a, w), a, old(Snap()), old(log), exit, ok, Snap(), log)
    {
      hide OptimizeRoutesStep; hide EvaluateCommuteStep; hide ReplaceRemoteStep; hide EvaluateScheduleStep;
      hide OptimizeScheduleStep; hide EvaluateConstraintsStep; hide OptimizeConstraintsStep; hide RefillStep;
      hide RebuildStep; hide ValidateStep; hide FinishStep;
      ghost var s := Snap();
      forall w | Execute(e, s, a, w) == Broken(RebuildChangedRoutes) ensures a.RebuildContent? { OnlyRebuildMoves(e, s, a, w); }
      var fault: Option<Fault> := None;
      var ended := false;
      ok := true;
      match a {
        case Finish => Finish();
        case ValidatePlan => fault, ok, ended := ValidatePlan();
        case OptimizeRoutes => fault := OptimizeRoutes();
        case EvaluateCommute => fault := EvaluateCommute();
        case ReplaceRemote => fault := ReplaceRemoteAttraction();
        case EvaluateSchedule => fault := EvaluateSchedule();
        case OptimizeSchedule => fault := OptimizeSchedule();
        case EvaluateConstraints => fault := EvaluateConstraints();
        case OptimizeConstraints => fault := OptimizeConstraints();
        case RefillAttractions => fault := RefillAttractions();
        case RebuildContent => fault := RebuildPlanContent();
      }
      if fault.Some? { return Faulted(fault.value), false; }
      Append(a, ok);
      exit := if ended then Ended else Normal;
    }

    /** A compressed action shares the physical step that is already running. */
    method ExecuteAction(a: Action, w: Wire, advance: bool) returns (exit: Exit, ok: bool)
      requires advance || log.currentStep >= 1
      modifies this
      ensures trace == old(trace)
      ensures var start := if advance then old(log).(currentStep := old(log).currentStep + 1) else old(log);
              Acted(Execute(e, old(Snap()), a, w), a, old(Snap()), start, exit, ok, Snap(), log)
    {
      hide ToolStep; hide Acted;
      if advance { log := log.(currentStep := log.currentStep + 1); }
      assert Snap() == old(Snap());
      if Compressible(a) {
        exit, ok := RunLocal(a);
      } else {
        assert Execute(e, Snap(), a, w) == ToolStep(e, Snap(), a, w);
        exit, ok := CallTool(a, w);
      }
    }

    // ---- The loop ----

    /** The session is at the end of a run from a new session, its ledger and its history tell
        that run, and it is within its step budget. */
    ghost predicate Valid()
      reads this
    {
      && Tracks(e, trace.states, trace.moves, Snap(), log.ledger)
      && Balanced(log.ledger, e.budget.maxRepeatedInputs)
      && Structured(log.history, trace.batches, log.currentStep, log.compressed, e.budget.maxLocalActions)
      && log.currentStep <= e.budget.maxSteps
      && Sensible(e.budget)
    }

    /** `status = "running"` at the head of a run. */
    method Begin()
      requires Valid() && !delivery.finished
      modifies this
      ensures Valid() && log == old(log) && Snap() == old(Snap()).(status := Running)
      ensures trace.batches == old(trace.batches) && Extends(old(trace), trace)
    {
      hide Tracks; hide Balanced; hide Structured;
      Extend(e, trace.states, trace.moves, Snap(), log.ledger, Start, Snap().(status := Running));
      status := Running;
      trace := trace.(states := trace.states + [Snap()], moves := trace.moves + [Start]);
    }

    /** A limit of the loop ends the run. */
    method Stop(x: Status)
      requires Valid() && !delivery.finished && status == Running
      requires x.BudgetExhausted? || x.ConvergenceStopped? || x.MaxStepsReached?
      requires x.ConvergenceStopped? ==> Exhausted(e, Snap(), log.ledger)
      modifies this
      ensures Valid() && log == old(log) && Snap() == old(Snap()).(status := x)
      ensures trace.batches == old(trace.batches) && Extends(old(trace), trace)
    {
      hide Tracks; hide Balanced; hide Structured; hide Exhausted;
      Extend(e, trace.states, trace.moves, Snap(), log.ledger, Halt(x), Snap().(status := x));
      status := x;
      trace := trace.(states := trace.states + [Snap()], moves := trace.moves + [Halt(x)]);
    }

    /** `_prepare_convergence_action` */
    method PrepareConvergenceAction(a: Action) returns (key: Key, stopped: bool)
      requires Valid() && !delivery.finished && status == Running && a == Decide(e, Snap())
      modifies this
      ensures Valid() && log == old(log) && key == Key(a, InputOf(old(Snap()), a))
      ensures !stopped ==> Snap() == old(Snap()) && trace == old(trace) && log.ledger.successful[key] < e.budget.maxRepeatedInputs
      ensures stopped ==> status.ConvergenceStopped? && Extends(old(trace), trace) && trace.batches == old(trace.batches)
    {
      hide Tracks; hide Balanced; hide Structured; hide Decide; hide InputOf;
      key := Key(a, InputOf(Snap(), a));
      stopped := log.ledger.successful[key] >= e.budget.maxRepeatedInputs;
      if stopped { Stop(ConvergenceStopped); }
    }

    /** `_record_convergence_result` for the success that led from `s` to the present state. */
    method RecordConvergenceResult(key: Key, before: State, ghost s: State, ghost w: Wire) returns (stopped: bool)
      requires Tracks(e, trace.states, trace.moves, s, log.ledger) && Balanced(log.ledger, e.budget.maxRepeatedInputs)
      requires Structured(log.history, trace.batches, log.currentStep, log.compressed, e.budget.maxLocalActions)
      requires log.currentStep <= e.budget.maxSteps && Sensible(e.budget)
      requires Moves(e, s, Act(w), Snap()) && Next(e, s, w).Done? && Next(e, s, w).ok
      requires key == Key(Decide(e, s), InputOf(s, Decide(e, s))) && before == Business(s)
      requires log.ledger.successful[key] < e.budget.maxRepeatedInputs
      requires delivery.finished || status == Running
      modifies this
      ensures Valid() && log == old(log).(ledger := log.ledger) && trace.batches == old(trace.batches)
      ensures log.ledger.history == old(log.ledger.history) + [Evidence(key, before, Business(old(Snap())))]
      ensures !stopped ==> Snap() == old(Snap()) && log.ledger.streak < e.budget.maxNoProgress
      ensures Extends(old(trace), trace) && (stopped ==> status.ConvergenceStopped?)
    {
      hide Tracks; hide Structured; hide Decide; hide InputOf; hide Business; hide Next; hide Balanced;
      var l := log.ledger;
      var x := Evidence(key, before, Business(Snap()));
      RecordedBalanced(l, x, e.budget.maxRepeatedInputs);
      Extend(e, trace.states, trace.moves, s, l, Act(w), Snap());
      if x.before != x.after {
        log := log.(ledger := Ledger(multiset{key}, 0, l.total, l.history + [x]));
      } else {
        log := log.(ledger := Ledger(l.successful[key := l.successful[key] + 1], l.streak + 1, l.total + 1, l.history + [x]));
        assert l.successful[key := l.successful[key] + 1] == l.successful + multiset{key};
      }
      trace := trace.(states := trace.states + [Snap()], moves := trace.moves + [Act(w)]);
      assert Snap() == old(Snap());
      stopped := x.before == x.after && log.ledger.streak >= e.budget.maxNoProgress;
      if stopped {
        SameBusinessUnfinished(s, Snap());
        Stop(ConvergenceStopped);
      }
    }

    /** A failed action extends the run but not the ledger. */
    ghost method Follow(s: State, w: Wire)
      requires Tracks(e, trace.states, trace.moves, s, log.ledger) && Moves(e, s, Act(w), Snap())
      requires !(Next(e, s, w).Done? && Next(e, s, w).ok)
      modifies this`trace
      ensures Tracks(e, trace.states, trace.moves, Snap(), log.ledger) && trace.batches == old(trace.batches)
      ensures Extends(old(trace), trace)
    {
      hide Tracks; hide Next; hide Decide;
      Extend(e, trace.states, trace.moves, s, log.ledger, Act(w), Snap());
      trace := trace.(states := trace.states + [Snap()], moves := trace.moves + [Act(w)]);
    }

    ghost predicate Underway()
      reads this
    {
      Valid() && !delivery.finished && status == Running
    }

    /** The last batch may absorb its record number `n`. */
    ghost predicate Absorbing(n: nat)
      reads this
    {
      && trace.batches != []
      && var b := trace.batches[|trace.batches| - 1];
         |b.rest| == n - 1 && b.first.step == log.currentStep && b.first.success
         && (b.rest != [] ==> b.rest[|b.rest| - 1].success)
    }

    /** The root action of one physical step. */
    method TakeStep(w: Wire) returns (exit: Exit, ok: bool)
      requires Underway() && log.currentStep < e.budget.maxSteps
      modifies this
      ensures Valid() && log.currentStep <= old(log.currentStep) + 1
      ensures exit.Normal? ==> log.currentStep == old(log.currentStep) + 1 && (delivery.finished || status == Running)
      ensures exit.Normal? && ok ==> Absorbing(1)
      ensures Extends(old(trace), trace) && !exit.Interrupted? && (exit.Ended? ==> Closed(status))
      ensures exit.Faulted? ==> exit.fault.RebuildChangedRoutes?
    {
      hide Tracks; hide Balanced; hide Structured; hide Decide; hide InputOf; hide Business; hide Execute;
      var action := Decide(e, Snap());
      var key, stopped := PrepareConvergenceAction(action);
      if stopped { return Ended, false; }
      var before := Business(Snap());
      ghost var s, l := Snap(), log;
      exit, ok := ExecuteAction(action, w, true);
      assert Next(e, s, w) == Execute(e, s, action, w);
      if exit.Faulted? {
        OnlyRebuildFaults(e, trace.states, trace.moves, s, l.ledger, w);
        StepPasses(l.history, trace.batches, l.currentStep, l.compressed, e.budget.maxLocalActions);
        return;
      }
      if exit.Normal? { NormalGoesOn(e, s, w); }
      if exit.Ended? { RaisedCloses(e, s, w); }
      RootOpens(l.history, trace.batches, l.currentStep, l.compressed, e.budget.maxLocalActions, action, ok);
      trace := trace.(batches := trace.batches + [Batch(Lone(log.currentStep, action, ok), [])]);
      if ok {
        stopped := RecordConvergenceResult(key, before, s, w);
        if stopped { exit := Ended; }
      } else {
        Follow(s, w);
      }
    }

    /** Marks the newest record as number `n` of the batch rooted at `rootAt`. */
    method Compress(rootAt: nat, n: nat, a: Action)
      requires rootAt + 1 < |log.history|
      modifies this`log
      ensures var h := old(log).history;
              var i := |h| - 1;
              log == old(log).(
                history := h[i := Marked(h[i], h[rootAt].action, n)][rootAt := h[rootAt].(absorbed := h[rootAt].absorbed + [a])],
                compressed := old(log).compressed + 1)
    {
      var i, root := |log.history| - 1, log.history[rootAt];
      log := log.(history := log.history[i := Marked(log.history[i], root.action, n)]);
      log := log.(history := log.history[rootAt := root.(absorbed := root.absorbed + [a])]);
      log := log.(compressed := log.compressed + 1);
    }

    /** The newest record joins the batch. */
    method Absorb(rootAt: nat, n: nat, a: Action, ok: bool, ghost h: seq<Record>)
      requires Structured(h, trace.batches, log.currentStep, log.compressed, e.budget.maxLocalActions)
      requires Absorbing(n) && 1 <= n <= e.budget.maxLocalActions && rootAt + n == |h|
      requires log.history == h + [Lone(log.currentStep, a, ok)]
      modifies this`log, this`trace
      ensures Structured(log.history, trace.batches, log.currentStep, log.compressed, e.budget.maxLocalActions)
      ensures log == old(log).(history := log.history, compressed := log.compressed)
      ensures trace == old(trace).(batches := trace.batches) && |trace.batches| == old(|trace.batches|)
      ensures |log.history| == |h| + 1 && log.history[|h|].success == ok && (ok ==> Absorbing(n + 1))
    {
      hide Structured;
      ghost var bs := trace.batches;
      ghost var b := bs[|bs| - 1];
      BatchIsAt(h, bs, log.currentStep, log.compressed, e.budget.maxLocalActions, rootAt);
      MemberJoins(h, bs, log.currentStep, log.compressed, e.budget.maxLocalActions, a, ok);
      Compress(rootAt, n, a);
      assert log.history == h[rootAt := Joined(b, a, ok).first] + [Joined(b, a, ok).rest[n - 1]];
      trace := trace.(batches := bs[..|bs| - 1] + [Joined(b, a, ok)]);
    }

    /** One local action absorbed into the running step. */
    method TakeMember(w: Wire, rootAt: nat, n: nat) returns (exit: Exit, ok: bool)
      requires Underway() && Absorbing(n) && 1 <= n <= e.budget.maxLocalActions && rootAt + n == |log.history|
      requires Compressible(Decide(e, Snap()))
      modifies this
      ensures Valid() && log.currentStep == old(log.currentStep)
      ensures exit.Normal? ==> (delivery.finished || status == Running)
      ensures exit.Normal? && ok ==> Absorbing(n + 1) && rootAt + n + 1 == |log.history|
      ensures exit.Normal? && !ok ==> |log.history| > 0 && !log.history[|log.history| - 1].success
      ensures |trace.batches| == old(|trace.batches|)
      ensures Extends(old(trace), trace) && !exit.Interrupted? && (exit.Ended? ==> Closed(status))
      ensures exit.Faulted? ==> exit.fault.RebuildChangedRoutes?
    {
      hide Tracks; hide Balanced; hide Structured; hide Decide; hide InputOf; hide Business; hide Execute;
      var action := Decide(e, Snap());
      var key, stopped := PrepareConvergenceAction(action);
      if stopped { return Ended, false; }
      var before := Business(Snap());
      ghost var s, l := Snap(), log;
      BatchIsAt(l.history, trace.batches, l.currentStep, l.compressed, e.budget.maxLocalActions, rootAt);
      exit, ok := ExecuteAction(action, w, false);
      assert Next(e, s, w) == Execute(e, s, action, w);
      if exit.Faulted? {
        OnlyRebuildFaults(e, trace.states, trace.moves, s, l.ledger, w);
        return;
      }
      if exit.Normal? { NormalGoesOn(e, s, w); }
      if exit.Ended? { RaisedCloses(e, s, w); }
      Absorb(rootAt, n, action, ok, l.history);
      if ok {
        stopped := RecordConvergenceResult(key, before, s, w);
        if stopped { exit := Ended; }
      } else {
        Follow(s, w);
      }
    }

    /** Nothing is left to absorb: the session is finished, the next action is not local, the
        last one failed, or the batch is full. */
    ghost predicate Drained()
      reads this
    {
      || delivery.finished || !Compressible(Decide(e, Snap()))
      || (|log.history| > 0 && !log.history[|log.history| - 1].success)
      || (trace.batches != [] && |trace.batches[|trace.batches| - 1].rest| == e.budget.maxLocalActions)
    }

    /** `_drain_local_actions`: absorbs local actions into the running step until none is left. */
    method DrainLocalActions(world: nat -> Tick, start: nat) returns (exit: Exit, clock: nat)
      requires Valid() && (delivery.finished || status == Running) && Absorbing(1)
      modifies this
      ensures Valid() && log.currentStep == old(log.currentStep) && |trace.batches| == old(|trace.batches|)
      ensures Extends(old(trace), trace)
      ensures exit.Normal? ==> (delivery.finished || status == Running) && Drained()
      ensures exit.Interrupted? ==> exists c :: start <= c < clock && world(c).cancelled
      ensures exit.Ended? ==> Closed(status)
      ensures exit.Faulted? ==> exit.fault.RebuildChangedRoutes?
    {
      hide Tracks; hide Balanced; hide Structured; hide Decide;
      clock := start;
      BatchEndsHistory(log.history, trace.batches, log.currentStep, log.compressed, e.budget.maxLocalActions);
      var rootAt := |log.history| - 1;
      for n := 1 to e.budget.maxLocalActions + 1
        invariant Valid() && (delivery.finished || status == Running) && Absorbing(n)
        invariant rootAt + n == |log.history| && log.currentStep == old(log.currentStep)
        invariant |trace.batches| == old(|trace.batches|) && Extends(old(trace), trace) && start <= clock
      {
        var tick := world(clock);
        clock := clock + 1;
        if tick.cancelled { return Interrupted, clock; }
        if delivery.finished { break; }
        if tick.late {
          Stop(BudgetExhausted);
          return Ended, clock;
        }
        if !Compressible(Decide(e, Snap())) { break; }
        var ok;
        exit, ok := TakeMember(tick.wire, rootAt, n);
        if !exit.Normal? { return; }
        if !ok { break; }
      }
      exit := Normal;
    }

    /** `_run_state`: one run or resume, to a delivered plan, a limit, an error or a crash.
        Each iteration uses up one of the session's steps. */
    method RunState(world: nat -> Tick) returns (exit: Exit)
      requires Valid() && !delivery.finished
      modifies this
      ensures Valid() && Extends(old(trace), trace)
      ensures exit.Normal? ==> delivery.finished
      ensures exit.Interrupted? ==> exists c: nat :: world(c).cancelled
      ensures exit.Ended? ==> Closed(status)
      ensures exit.Faulted? ==> exit.fault.RebuildChangedRoutes?
    {
      hide Tracks; hide Balanced; hide Structured; hide Decide;
      Begin();
      var clock := 0;
      while !delivery.finished && log.currentStep < e.budget.maxSteps
        invariant Valid() && (delivery.finished || status == Running) && Extends(old(trace), trace)
        decreases e.budget.maxSteps - log.currentStep
      {
        var tick := world(clock);
        clock := clock + 1;
        if tick.cancelled { return Interrupted; }
        if tick.late {
          Stop(BudgetExhausted);
          return Ended;
        }
        var ok;
        exit, ok := TakeStep(tick.wire);
        if !exit.Normal? { return; }
        if ok {
          exit, clock := DrainLocalActions(world, clock);
          if !exit.Normal? { return; }
        }
      }
      if !delivery.finished {
        Stop(MaxStepsReached);
        return Ended;
      }
      exit := Normal;
    }

    /** `resume`: a finished session is returned as it is. */
    method Resume(world: nat -> Tick) returns (exit: Exit)
      requires Valid()
      modifies this
      ensures Valid() && Extends(old(trace), trace)
      ensures exit.Normal? ==> delivery.finished
      ensures exit.Interrupted? ==> exists c: nat :: world(c).cancelled
      ensures exit.Ended? ==> Closed(status)
      ensures exit.Faulted? ==> exit.fault.RebuildChangedRoutes?
      ensures old(delivery.finished) ==> exit.Normal? && Snap() == old(Snap()) && log == old(log)
    {
      if delivery.finished { return Normal; }
      exit := RunState(world);
    }

    /** What the main results say about the object after any number of runs and resumes:
        the invariant, and why a finished session may be delivered. */
    lemma SessionHolds()
      requires Valid()
      ensures Inv(e, Snap())
      ensures delivery.finished ==>
                && draft.plan.Some?
                && var v := e.validate(ValidationInputOf(Snap()));
                   v.valid || Acceptance.Deliverable(e, Actions.EvidenceOf(Snap()), v)
    {
      AlwaysInv(e, trace.states, trace.moves, |trace.moves|);
      if delivery.finished { FinishIsJustified(e, trace.states, trace.moves, |trace.moves|); }
      hide Inv; hide LedgerOf; hide Acceptance.Deliverable; hide Structured; hide Balanced; hide Decide; hide IsRun;
    }

    /** The guard's counters are exact, and never reach a limit. */
    lemma GuardNeverFires()
      requires Valid()
      ensures !status.ConvergenceStopped?
      ensures |log.ledger.successful| == log.ledger.streak + if EverProgressed(log.ledger.history) then 1 else 0
      ensures log.ledger.streak == Trailing(log.ledger.history) == 0 && log.ledger.streak < e.budget.maxNoProgress
    {
      hide Next; hide Decide; hide Inv; hide Structured;
      TrackedGuard(e, trace.states, trace.moves, Snap(), log.ledger);
      SuccessesAddUp(log.ledger, e.budget.maxRepeatedInputs);
      hide Tracks; hide EverProgressed;
    }

    /** The history is as long as its batches, and they no more than the steps allow. */
    lemma HistoryHolds()
      requires Valid()
      ensures |log.history| == |trace.batches| + log.compressed
      ensures |log.history| <= log.currentStep * (1 + e.budget.maxLocalActions)
      ensures log.compressed == Compressed(log.history)
    {
      hide Tracks; hide Balanced; hide WellFormed;
      HistoryBounded(log.history, trace.batches, log.currentStep, log.compressed, e.budget.maxLocalActions);
      CountsCompressed(trace.batches, e.budget.maxLocalActions);
    }
  }

  /** Creating a session and running it once. */
  method Run(e: Env, world: nat -> Tick) returns (session: AgentState, exit: Exit)
    requires Sensible(e.budget)
    ensures session.e == e && session.Valid()
    ensures exit.Normal? ==> session.delivery.finished
    ensures exit.Faulted? ==> exit.fault.RebuildChangedRoutes?
  {
    session := new AgentState(e);
    NewIsValid(e);
    exit := session.RunState(world);
  }

  lemma NewIsValid(e: Env)
    ensures Tracks(e, [FRESH], [], FRESH, NO_EVIDENCE) && Balanced(NO_EVIDENCE, e.budget.maxRepeatedInputs)
    ensures Structured([], [], 0, 0, e.budget.maxLocalActions) && !FRESH.delivery.finished
  {
  }
}
