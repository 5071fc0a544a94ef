/**
 The convergence guard is never needed: on a session started afresh every successful
 action changes the business state, and no action is decided again on the input of the
 last success, so no run is ever stopped for want of convergence.
 */
module Progress {
  import opened Basics
  import opened TripTypes
  import opened Session
  import opened Actions
  import opened Invariant
  import opened Preservation
  import opened Runs
  import opened Convergence
  import Acceptance

  // ---- Every success changes the business state ----

  predicate Changed(s: State, t: State) { Business(s) != Business(t) }

  ghost predicate ChangedStep(s: State, r: Step) { r.Done? && r.ok ==> Changed(s, r.state) }

  lemma RoutesChange(e: Env, s: State)
    requires Active(e, s) && Ready(e, s, OptimizeRoutes)
    ensures ChangedStep(s, OptimizeRoutesStep(e, s))
  {
    hide Decide; hide Judged; hide RouteAccepted;
  }

  lemma ScheduleChanges(e: Env, s: State)
    requires Active(e, s) && Ready(e, s, OptimizeSchedule)
    ensures ChangedStep(s, OptimizeScheduleStep(e, s))
  {
    hide Decide; hide Judged; hide ScheduleAccepted;
  }

  lemma ConflictsChange(e: Env, s: State)
    requires Active(e, s) && Ready(e, s, OptimizeConstraints)
    ensures ChangedStep(s, OptimizeConstraintsStep(e, s))
  {
    hide Decide; hide Judged; hide ConstraintsAccepted;
  }

  lemma ReplacementChanges(e: Env, s: State)
    requires Active(e, s) && Ready(e, s, ReplaceRemote)
    ensures ChangedStep(s, ReplaceRemoteStep(e, s))
  {
    hide Decide; hide Judged; hide CommuteAccepted; hide AddIdentities; hide Members;
  }

  lemma RefillChanges(e: Env, s: State)
    requires Active(e, s) && Ready(e, s, RefillAttractions)
    ensures ChangedStep(s, RefillStep(e, s))
  {
    hide Decide; hide Judged; hide RefillAccepted; hide AddIdentities; hide Members; hide CountAttractions;
  }

  /** What the decision function has found missing when it picks one of these actions. */
  predicate Lacking(e: Env, s: State, a: Action) {
    match a
    case EvaluateCommute => s.reports.commute.None?
    case EvaluateConstraints => s.draft.plan.Some? && !ConstraintsCurrent(s)
    case RebuildContent => s.draft.plan.Some? && !ContentCurrent(e, s)
    case SearchRestaurants =>
      s.draft.plan.Some? && (s.known.restaurants.None? || s.known.restaurantsFor != Some(e.restaurantKey(s.draft.plan.value)))
    case SearchAttractions => s.known.attractions.None?
    case GetWeather => s.known.weather.None?
    case SearchHotels => s.known.hotels.None?
    case RepairPlan => s.delivery.validation.Some?
    case _ => true
  }

  lemma DecidedIsLacking(e: Env, s: State)
    requires Inv(e, s)
    ensures Lacking(e, s, Decide(e, s))
  {
    assert CommuteFresh(e, s.draft, s.reports, s.inputs);
    hide Inv;
  }

  lemma LocalChanges(e: Env, s: State, a: Action)
    requires Ready(e, s, a) && Lacking(e, s, a) && NoOrphans(s) && ConstraintNamed(e, s.known, s.reports, s.inputs)
    requires a.EvaluateCommute? || a.EvaluateConstraints? || a.RebuildContent?
    ensures forall w :: ChangedStep(s, Execute(e, s, a, w))
  {
  }

  lemma ConclusionChanges(e: Env, s: State, a: Action, w: Wire)
    requires Inv(e, s) && !s.delivery.finished && Decide(e, s) == a && (a.ValidatePlan? || a.Finish?)
    ensures ChangedStep(s, Execute(e, s, a, w))
  {
    hide Inv; hide Acceptance.Evaluate; hide Decide; hide Validated; hide EvidenceOf; hide ValidationInputOf;
    if a.ValidatePlan? { ValidationChanges(e, s); } else { FinishChanges(s); }
  }

  lemma FinishChanges(s: State)
    requires !s.delivery.finished
    ensures ChangedStep(s, FinishStep(s))
  {
  }

  /** The validator is asked again only about something new, or without success. */
  lemma ValidationChanges(e: Env, s: State)
    requires Inv(e, s) && !s.delivery.finished && Decide(e, s).ValidatePlan?
    ensures ChangedStep(s, ValidateStep(e, s))
  {
    hide Inv; hide Acceptance.Evaluate; hide Decide; hide EvidenceOf;
    InvMeans(e, s);
    if s.delivery.validation.Some? { AskedAgain(e, s); }
  }

  /** A validation decided with a result at hand would fail again. */
  lemma AskedAgain(e: Env, s: State)
    requires Validated(e, s) && s.delivery.validation.Some? && Decide(e, s).ValidatePlan?
    ensures !s.delivery.validation.value.valid && !s.delivery.acceptance.value.accepted
  {
    hide Acceptance.Evaluate; hide EvidenceOf;
  }

  lemma ToolChanges(e: Env, s: State, a: Action, w: Wire)
    requires CallsTool(a) && Ready(e, s, a) && Lacking(e, s, a)
    ensures ChangedStep(s, ToolStep(e, s, a, w))
  {
  }

  lemma OptimiserChanges(e: Env, s: State, a: Action, w: Wire)
    requires Active(e, s) && Ready(e, s, a)
    requires a.OptimizeRoutes? || a.OptimizeSchedule? || a.OptimizeConstraints? || a.ReplaceRemote? || a.RefillAttractions?
    ensures ChangedStep(s, Execute(e, s, a, w))
  {
    hide Decide; hide Active; hide Ready; hide ChangedStep;
    match a
    case OptimizeRoutes => RoutesChange(e, s);
    case OptimizeSchedule => ScheduleChanges(e, s);
    case OptimizeConstraints => ConflictsChange(e, s);
    case ReplaceRemote => ReplacementChanges(e, s);
    case RefillAttractions => RefillChanges(e, s);
  }

  /** A successful action never leaves the business state as it was. */
  lemma SuccessChanges(e: Env, s: State, w: Wire)
    requires Inv(e, s) && !s.delivery.finished
    ensures ChangedStep(s, Next(e, s, w))
  {
    hide Inv; hide Decide;
    Guards(e, s);
    DecidedIsLacking(e, s);
    var a := Decide(e, s);
    if a.ValidatePlan? || a.Finish? {
      hide ChangedStep;
      ConclusionChanges(e, s, a, w);
    } else if CallsTool(a) {
      hide ChangedStep; hide Lacking;
      ToolChanges(e, s, a, w);
    } else if a.EvaluateCommute? || a.EvaluateConstraints? || a.RebuildContent? {
      InvMeans(e, s);
      hide ChangedStep; hide NoOrphans; hide ConstraintNamed; hide Lacking; hide Ready;
      LocalChanges(e, s, a);
    } else {
      hide ChangedStep; hide Lacking;
      OptimiserChanges(e, s, a, w);
    }
  }

  // ---- No action is decided again on the input of the last success ----

  predicate Repeats(e: Env, s: State, k: Key) { Decide(e, s) == k.action && InputOf(s, k.action) == k.input }

  /** Who asked for the pending supplement query. */
  function Asker(o: Optimisers): Action {
    if o.refill.phase.SupplementNeeded? then RefillAttractions else ReplaceRemote
  }

  /** The last success `k` does not come back on the same input, not even after failures. */
  ghost predicate Spent(e: Env, s: State, k: Key) {
    && !Repeats(e, s, k)
    && (s.searches.query.Some? ==>
          k.action == Asker(s.opts) && k.input.Whole? && k.input.business.searches.refill == s.searches.refill)
    && (k.action.RepairPlan? ==> s.draft.routes.None?)
    && (k.action.ValidatePlan? ==> Decide(e, s).Finish?)
  }

  /** An open supplement query is dealt with before anything else. */
  lemma QueryComesFirst(e: Env, s: State)
    requires Inv(e, s) && !s.delivery.finished && s.searches.query.Some?
    ensures Decide(e, s) == SupplementAttractions
  {
    ReportsTrusted(e, s);
    hide BundlesFresh; hide CandidateBudgets; hide ReportsFresh; hide Stored; hide SearchBudgets; hide CallBudgets;
    hide RouteCurrent; hide CommuteCurrent; hide ScheduleCurrent; hide Validated; hide DecideDelivery; hide DecideRefill;
  }

  /** Once an action succeeded, what made it necessary is there, or its input has changed. */
  ghost predicate Satisfied(e: Env, s: State, a: Action, t: State) {
    Ready(e, t, a) && Lacking(e, t, a) ==> InputOf(t, a) != InputOf(s, a)
  }

  lemma ToolSatisfies(e: Env, s: State, a: Action, w: Wire)
    requires CallsTool(a) && Ready(e, s, a) && Lacking(e, s, a) && ToolStep(e, s, a, w).Done? && ToolStep(e, s, a, w).ok
    ensures Satisfied(e, s, a, ToolStep(e, s, a, w).state)
  {
  }

  lemma LocalSatisfies(e: Env, s: State, a: Action, w: Wire)
    requires Ready(e, s, a) && Execute(e, s, a, w).Done? && Execute(e, s, a, w).ok
    requires a.EvaluateCommute? || a.EvaluateConstraints? || a.RebuildContent?
    ensures Satisfied(e, s, a, Execute(e, s, a, w).state)
  {
  }

  /** After a success the same action is not decided on the same input. */
  lemma SuccessNeverRepeats(e: Env, s: State, w: Wire)
    requires Inv(e, s) && !s.delivery.finished && Next(e, s, w).Done? && Next(e, s, w).ok
    requires !Decide(e, s).ValidatePlan? && !Next(e, s, w).state.delivery.finished
    ensures !Repeats(e, Next(e, s, w).state, Key(Decide(e, s), InputOf(s, Decide(e, s))))
  {
    hide Inv; hide Decide;
    var a := Decide(e, s);
    var t := Next(e, s, w).state;
    Guards(e, s);
    DecidedIsLacking(e, s);
    NextKeeps(e, s, w);
    Guards(e, t);
    DecidedIsLacking(e, t);
    if CallsTool(a) {
      hide Ready; hide Lacking; hide InputOf; hide ToolStep;
      ToolSatisfies(e, s, a, w);
    } else if a.EvaluateCommute? || a.EvaluateConstraints? || a.RebuildContent? {
      hide Ready; hide Lacking; hide InputOf;
      LocalSatisfies(e, s, a, w);
    } else {
      hide Lacking; hide Business;
      SuccessChanges(e, s, w);
    }
  }

  /** Where a supplement query can come from in one step. */
  ghost predicate AskedBy(s: State, a: Action, t: State) {
    t.searches.query.Some? ==>
      && a == Asker(t.opts) && (a.RefillAttractions? || a.ReplaceRemote?)
      && t.searches.refill == s.searches.refill
  }

  lemma ToolAsksNothing(e: Env, s: State, a: Action, w: Wire)
    requires CallsTool(a) && Ready(e, s, a) && ToolStep(e, s, a, w).Done? && ToolStep(e, s, a, w).ok
    requires s.searches.query.Some? ==> a.SupplementAttractions?
    ensures ToolStep(e, s, a, w).state.searches.query.None?
    ensures a.RepairPlan? ==> ToolStep(e, s, a, w).state.draft.routes.None?
  {
  }

  lemma LocalAsks(e: Env, s: State, a: Action, w: Wire)
    requires !CallsTool(a) && s.searches.query.None? && Execute(e, s, a, w).Done?
    requires NoNesting(s.opts, s.searches.query)
    ensures AskedBy(s, a, Execute(e, s, a, w).state)
  {
    hide CommuteAccepted; hide RefillAccepted; hide RouteAccepted; hide ScheduleAccepted; hide ConstraintsAccepted;
    hide Acceptance.Evaluate; hide AddIdentities; hide Members; hide CountAttractions;
  }

  lemma AcceptedFinishes(e: Env, s: State)
    requires Validated(e, s) && s.delivery.validation.Some? && s.delivery.acceptance.Some?
    requires s.delivery.validation.value.valid || s.delivery.acceptance.value.accepted
    ensures Decide(e, s).Finish?
  {
    hide Acceptance.Evaluate; hide EvidenceOf;
  }

  lemma ValidationFinishes(e: Env, s: State, w: Wire)
    requires Inv(e, s) && !s.delivery.finished && Decide(e, s).ValidatePlan? && Next(e, s, w).Done? && Next(e, s, w).ok
    ensures Decide(e, Next(e, s, w).state).Finish?
    ensures Next(e, s, w).state.searches == s.searches
  {
    hide Inv; hide Acceptance.Evaluate; hide Decide; hide Validated;
    NextKeeps(e, s, w);
    InvMeans(e, Next(e, s, w).state);
    AcceptedFinishes(e, Next(e, s, w).state);
  }

  /** Whatever was recorded before, a success leaves itself spent. */
  lemma SuccessSpends(e: Env, s: State, w: Wire)
    requires Inv(e, s) && !s.delivery.finished && Next(e, s, w).Done? && Next(e, s, w).ok
    requires !Next(e, s, w).state.delivery.finished
    ensures Spent(e, Next(e, s, w).state, Key(Decide(e, s), InputOf(s, Decide(e, s))))
  {
    hide Inv; hide Decide;
    var a := Decide(e, s);
    Guards(e, s);
    if s.searches.query.Some? { QueryComesFirst(e, s); }
    if a.ValidatePlan? {
      ValidationFinishes(e, s, w);
      hide Ready; hide Next;
    } else {
      SuccessNeverRepeats(e, s, w);
      InvMeans(e, s);
      hide Ready; hide Repeats; hide NoNesting; hide ToolStep;
      if CallsTool(a) { ToolAsksNothing(e, s, a, w); } else { LocalAsks(e, s, a, w); }
      hide Execute;
    }
  }

  /** A failed action. */
  ghost predicate Fails(r: Step) { r.Raised? || (r.Done? && !r.ok) }

  /** After a failed tool call the session is as before, but for its meter, its status, and
      a supplement that is given up. */
  lemma ToolFailure(e: Env, s: State, a: Action, w: Wire)
    requires CallsTool(a) && Fails(ToolStep(e, s, a, w))
    requires a.SupplementAttractions? ==> s.searches.query.Some?
    ensures var t := ToolStep(e, s, a, w).state;
            || (t == s.(meter := t.meter, status := t.status) && t.meter.repairs == s.meter.repairs)
            || (a.SupplementAttractions? && t == AfterSupplement(s, Skipped).(meter := t.meter))
  {
  }

  lemma OnlyToolsAndValidationFail(e: Env, s: State, a: Action, w: Wire)
    requires !CallsTool(a) && !a.ValidatePlan?
    ensures !Fails(Execute(e, s, a, w))
  {
    hide CommuteAccepted; hide RefillAccepted; hide RouteAccepted; hide ScheduleAccepted; hide ConstraintsAccepted;
    hide AddIdentities; hide Members; hide CountAttractions;
  }

  lemma GivenUpIsSpent(e: Env, s: State, t: State, k: Key)
    requires Inv(e, s) && Inv(e, t) && !s.delivery.finished && s.searches.query.Some? && Spent(e, s, k)
    requires t == AfterSupplement(s, Skipped).(meter := t.meter)
    ensures Spent(e, t, k)
  {
    Guards(e, t);
    assert NoNesting(s.opts, s.searches.query);
    hide Inv; hide Decide;
  }

  lemma UntouchedIsSpent(e: Env, s: State, t: State, k: Key)
    requires t == s.(meter := t.meter, status := t.status) && t.meter.repairs == s.meter.repairs && Spent(e, s, k)
    ensures Spent(e, t, k)
  {
    DecideIgnores(e, s, t);
    hide Decide;
  }

  lemma FailedToolKeepsSpent(e: Env, s: State, a: Action, w: Wire, k: Key)
    requires Inv(e, s) && !s.delivery.finished && Spent(e, s, k) && CallsTool(a)
    requires a.SupplementAttractions? ==> s.searches.query.Some?
    requires Fails(ToolStep(e, s, a, w)) && Inv(e, ToolStep(e, s, a, w).state)
    ensures Spent(e, ToolStep(e, s, a, w).state, k)
  {
    var t := ToolStep(e, s, a, w).state;
    ToolFailure(e, s, a, w);
    hide Inv; hide Spent; hide ToolStep; hide AfterSupplement;
    if t == s.(meter := t.meter, status := t.status) && t.meter.repairs == s.meter.repairs {
      UntouchedIsSpent(e, s, t, k);
    } else {
      GivenUpIsSpent(e, s, t, k);
    }
  }

  lemma FailingLeaves(e: Env, s: State, w: Wire)
    requires Inv(e, s) && !s.delivery.finished && Fails(Next(e, s, w))
    ensures Inv(e, Next(e, s, w).state)
    ensures CallsTool(Decide(e, s)) || Decide(e, s).ValidatePlan?
    ensures Decide(e, s).SupplementAttractions? ==> s.searches.query.Some?
    ensures CallsTool(Decide(e, s)) ==> Next(e, s, w) == ToolStep(e, s, Decide(e, s), w)
  {
    hide Inv; hide Decide; hide ToolStep; hide ValidateStep;
    var a := Decide(e, s);
    Guards(e, s);
    NextKeeps(e, s, w);
    if !CallsTool(a) && !a.ValidatePlan? {
      hide Execute; hide Ready;
      OnlyToolsAndValidationFail(e, s, a, w);
    }
  }

  lemma FailureKeepsSpent(e: Env, s: State, w: Wire, k: Key)
    requires Inv(e, s) && !s.delivery.finished && Fails(Next(e, s, w)) && Spent(e, s, k)
    ensures Spent(e, Next(e, s, w).state, k)
  {
    hide Inv; hide Decide; hide Spent; hide Next; hide ToolStep;
    FailingLeaves(e, s, w);
    if CallsTool(Decide(e, s)) {
      FailedToolKeepsSpent(e, s, Decide(e, s), w, k);
    } else {
      FailedValidation(e, s, w, k);
    }
  }

  lemma FailedValidation(e: Env, s: State, w: Wire, k: Key)
    requires Inv(e, s) && !s.delivery.finished && Decide(e, s).ValidatePlan? && Fails(Next(e, s, w)) && Spent(e, s, k)
    ensures Spent(e, Next(e, s, w).state, k)
  {
    hide Inv; hide Acceptance.Evaluate; hide Decide; hide Validated; hide InputOf; hide ValidationInputOf; hide EvidenceOf;
    if s.searches.query.Some? { QueryComesFirst(e, s); }
    Guards(e, s);
    ValidationFailed(e, s, w);
    NextKeeps(e, s, w);
    InvMeans(e, Next(e, s, w).state);
    hide Next;
    UnacceptedIsNotFinished(e, Next(e, s, w).state);
    ValidatedConcludes(e, Next(e, s, w).state);
  }

  lemma ValidatedConcludes(e: Env, s: State)
    requires Validated(e, s) && s.delivery.validation.Some?
    ensures Conclusive(Decide(e, s))
  {
    hide Decide; hide Acceptance.Evaluate;
  }

  /** A validation that fails changes nothing but the delivery, its input and the status. */
  lemma ValidationFailed(e: Env, s: State, w: Wire)
    requires Decide(e, s).ValidatePlan? && Fails(Next(e, s, w)) && s.draft.plan.Some?
    ensures var t := Next(e, s, w).state;
            && t.searches == s.searches && t.opts == s.opts && t.draft == s.draft
            && t.delivery.validation.Some? && t.delivery.acceptance.Some?
            && !t.delivery.validation.value.valid && !t.delivery.acceptance.value.accepted
  {
    hide Acceptance.Evaluate; hide Decide; hide ValidationInputOf; hide EvidenceOf;
  }

  lemma UnacceptedIsNotFinished(e: Env, s: State)
    requires s.delivery.validation.Some? && s.delivery.acceptance.Some?
    requires !s.delivery.validation.value.valid && !s.delivery.acceptance.value.accepted
    ensures !Decide(e, s).Finish?
  {
  }

  // ---- Whole runs ----

  /** The action and input of the last success among the first `n` moves. */
  ghost function LastSuccess(e: Env, r: seq<State>, m: seq<Move>, n: nat): Option<Key>
    requires |r| == |m| + 1 && n <= |m|
  {
    if n == 0 then None
    else if m[n - 1].Act? && Next(e, r[n - 1], m[n - 1].w).Done? && Next(e, r[n - 1], m[n - 1].w).ok
      then Some(Key(Decide(e, r[n - 1]), InputOf(r[n - 1], Decide(e, r[n - 1]))))
    else LastSuccess(e, r, m, n - 1)
  }

  /** Every successful action of a run changes the business state. */
  lemma EverySuccessIsProgress(e: Env, r: seq<State>, m: seq<Move>, i: nat)
    requires IsRun(e, r, m) && i < |m| && m[i].Act? && Next(e, r[i], m[i].w).Done? && Next(e, r[i], m[i].w).ok
    ensures Business(r[i + 1]) != Business(r[i])
  {
    AlwaysInv(e, r, m, i);
    assert Moves(e, r[i], m[i], r[i + 1]);
    hide Inv; hide Next; hide Business;
    SuccessChanges(e, r[i], m[i].w);
  }

  lemma MoveSpends(e: Env, s: State, m: Move, t: State, k: Key)
    requires Inv(e, s) && Moves(e, s, m, t) && !t.delivery.finished && Spent(e, s, k)
    requires !(m.Act? && Next(e, s, m.w).Done? && Next(e, s, m.w).ok)
    ensures Spent(e, t, k)
  {
    if m.Act? {
      hide Inv; hide Decide; hide Next; hide Spent;
      FailureKeepsSpent(e, s, m.w, k);
    } else {
      hide Inv; hide Decide; hide Spent;
      UntouchedIsSpent(e, s, t, k);
    }
  }

  /** Between two successes no action is decided on the input of the earlier one. */
  lemma {:induction false} LastSuccessIsSpent(e: Env, r: seq<State>, m: seq<Move>, n: nat)
    requires IsRun(e, r, m) && n <= |m| && LastSuccess(e, r, m, n).Some? && !r[n].delivery.finished
    ensures Spent(e, r[n], LastSuccess(e, r, m, n).value)
  {
    hide Inv; hide Next; hide Decide; hide Spent; hide InputOf;
    AlwaysInv(e, r, m, n - 1);
    var s, move := r[n - 1], m[n - 1];
    assert Moves(e, s, move, r[n]);
    if move.Act? && Next(e, s, move.w).Done? && Next(e, s, move.w).ok {
      SuccessSpends(e, s, move.w);
    } else {
      LastSuccessIsSpent(e, r, m, n - 1);
      MoveSpends(e, s, move, r[n], LastSuccess(e, r, m, n - 1).value);
    }
  }

  /** On a run from a new session the repeated-input guard never fires: the decided action
      and its input differ from those of the last success. */
  lemma NeverRepeats(e: Env, r: seq<State>, m: seq<Move>, n: nat)
    requires IsRun(e, r, m) && n <= |m| && !r[n].delivery.finished
    ensures LastSuccess(e, r, m, n) != Some(Key(Decide(e, r[n]), InputOf(r[n], Decide(e, r[n]))))
  {
    hide Inv; hide Next; hide Decide; hide InputOf; hide LastSuccess;
    if LastSuccess(e, r, m, n).Some? { LastSuccessIsSpent(e, r, m, n); }
  }
}
