/**
 The convergence guard: what counts as business progress, which input an action depends
 on, and the bookkeeping of app/agent_runtime/orchestrator.py:603-763 over both.
 Fingerprints are injective, so each is represented by the tuple it is computed from.
 */
module Convergence {
  import opened Basics
  import opened TripTypes
  import opened Session

  // ---- business_state_fingerprint ----

  /** Of an optimiser only counter, status and pending candidate are business state. */
  function Bared(o: Optimiser): Optimiser {
    Optimiser(o.phase, o.count, BLANK.(candidate := o.saved.candidate), [])
  }

  /** The business state alone: no step, status, call counter, baseline or audit history,
      no plan fingerprint stored beside a report, and no grading. */
  function Business(s: State): State {
    State(
      s.known, s.draft.(routesFor := None),
      s.reports.(routeFor := None, commuteFor := None, scheduleFor := None, constraintFor := None, basis := None, weighed := None),
      Optimisers(Bared(s.opts.route), Bared(s.opts.schedule), Bared(s.opts.constraint), Bared(s.opts.commute), Bared(s.opts.refill)),
      s.searches,
      Delivery(s.delivery.contentFor, 0, s.delivery.validation, None, s.delivery.finished, None),
      s.inputs, Meter(s.meter.repairs, 0, 0), Idle)
  }

  // ---- action_input_fingerprint ----

  /** What an action is taken to depend on; the request is fixed for the whole session. */
  datatype ActionInput =
    | OfRequest
    | OfPlan(plan: Option<Plan>)
    | OfFacts(facts: Known)
    | OfTrip(plan: Option<Plan>, facts: Known)
    | OfRoutes(route: Option<RoutePart>, routes: Option<Routes>)
    | OfSchedule(plan: Option<Plan>, schedule: Option<ScheduleReport>, facts: Known)
    | OfEverything(plan: Option<Plan>, routes: Option<Routes>, schedule: Option<ScheduleReport>,
                   constraints: Option<ConstraintReport>, facts: Known)
    | OfValidated(plan: Option<Plan>, validation: Option<Validation>, facts: Known)
    | OfValidation(validation: Option<Validation>)
    | OfQuery(query: Option<Query>, attractions: Option<Facts>)
    | Whole(business: State)

  function RoutePartOf(d: Draft): Option<RoutePart> {
    if d.plan.Some? then Some(d.plan.value.route) else None
  }

  /** Facts of three kinds, without the restaurants. */
  function Surveyed(k: Known): Known { k.(restaurants := None, restaurantsFor := None) }

  function InputOf(s: State, a: Action): ActionInput {
    var k := s.known;
    match a
    case SearchAttractions | GetWeather | SearchHotels => OfRequest
    case SearchRestaurants => OfPlan(s.draft.plan)
    case GeneratePlan => OfFacts(Surveyed(k))
    case EstimateRoutes => OfTrip(s.draft.plan, Surveyed(k).(weather := None))
    case EvaluateCommute | EvaluateSchedule => OfRoutes(RoutePartOf(s.draft), s.draft.routes)
    case EvaluateConstraints => OfSchedule(s.draft.plan, s.reports.schedule, Surveyed(k).(hotels := None))
    case ValidatePlan => OfEverything(s.draft.plan, s.draft.routes, s.reports.schedule, s.reports.constraints, Surveyed(k))
    case RepairPlan => OfValidated(s.draft.plan, s.delivery.validation, Surveyed(k))
    case SupplementAttractions => OfQuery(s.searches.query, k.attractions)
    case RebuildContent => OfEverything(s.draft.plan, s.draft.routes, s.reports.schedule, None, k.(restaurantsFor := None))
    case Finish => OfValidation(s.delivery.validation)
    case OptimizeRoutes | ReplaceRemote | OptimizeSchedule | OptimizeConstraints | RefillAttractions => Whole(Business(s))
  }

  /** The dictionary key `action:fingerprint`. */
  datatype Key = Key(action: Action, input: ActionInput)

  // ---- The bookkeeping ----

  /** One entry of `convergence_history`; its step number is in the action history. */
  datatype Evidence = Evidence(key: Key, before: State, after: State)
  {
    predicate Progress() { before != after }
  }

  /** `successful_action_inputs` (a dictionary of counts is a multiset of keys), the two
      no-progress counters and the evidence they were made from. */
  datatype Ledger = Ledger(successful: multiset<Key>, streak: nat, total: nat, history: seq<Evidence>)

  const NO_EVIDENCE := Ledger(multiset{}, 0, 0, [])

  function Recorded(l: Ledger, x: Evidence): Ledger {
    if x.Progress() then Ledger(multiset{x.key}, 0, l.total, l.history + [x])
    else Ledger(l.successful + multiset{x.key}, l.streak + 1, l.total + 1, l.history + [x])
  }

  /** The evidence from the last progress on. */
  function Window(h: seq<Evidence>): seq<Evidence> {
    if h == [] then []
    else if h[|h| - 1].Progress() then [h[|h| - 1]]
    else Window(h[..|h| - 1]) + [h[|h| - 1]]
  }

  /** How many successes in a row, up to the last one, changed nothing. */
  function Trailing(h: seq<Evidence>): nat {
    if h == [] || h[|h| - 1].Progress() then 0 else Trailing(h[..|h| - 1]) + 1
  }

  function WithoutProgress(h: seq<Evidence>): nat {
    if h == [] then 0
    else WithoutProgress(h[..|h| - 1]) + if h[|h| - 1].Progress() then 0 else 1
  }

  function KeysOf(h: seq<Evidence>): seq<Key> { seq(|h|, i requires 0 <= i < |h| => h[i].key) }

  ghost predicate EverProgressed(h: seq<Evidence>) { exists i :: 0 <= i < |h| && h[i].Progress() }

  /** The counters say about the evidence what they are meant to say. */
  ghost predicate Balanced(l: Ledger, maxRepeated: nat) {
    && l.successful == multiset(KeysOf(Window(l.history)))
    && l.streak == Trailing(l.history)
    && l.total == WithoutProgress(l.history)
    && forall k :: l.successful[k] <= maxRepeated
  }

  /** A success let through by the guard is recorded without unbalancing the ledger. */
  lemma RecordedBalanced(l: Ledger, x: Evidence, maxRepeated: nat)
    requires Balanced(l, maxRepeated) && l.successful[x.key] < maxRepeated
    ensures Balanced(Recorded(l, x), maxRepeated)
  {
    var h := l.history + [x];
    assert h[..|h| - 1] == l.history && h[|h| - 1] == x;
    if x.Progress() {
      assert KeysOf([x]) == [x.key];
    } else {
      assert KeysOf(Window(l.history) + [x]) == KeysOf(Window(l.history)) + [x.key];
    }
  }

  lemma {:induction false} WindowLength(h: seq<Evidence>)
    ensures |Window(h)| == Trailing(h) + if EverProgressed(h) then 1 else 0
  {
    if h != [] {
      var before := h[..|h| - 1];
      WindowLength(before);
      assert forall i :: 0 <= i < |before| ==> before[i] == h[i];
      if EverProgressed(h) && !h[|h| - 1].Progress() {
        var i :| 0 <= i < |h| && h[i].Progress();
        assert before[i].Progress();
      }
    }
  }

  /** The counts add up to the streak, plus one once anything ever made progress. */
  lemma SuccessesAddUp(l: Ledger, maxRepeated: nat)
    requires Balanced(l, maxRepeated)
    ensures |l.successful| == l.streak + if EverProgressed(l.history) then 1 else 0
  {
    WindowLength(l.history);
  }

  /** The streak is the number of successes since the last one that changed something. */
  lemma {:induction false} TrailingIsARun(h: seq<Evidence>, i: nat)
    requires i < |h|
    ensures Trailing(h) <= |h|
    ensures i >= |h| - Trailing(h) ==> !h[i].Progress()
    ensures Trailing(h) < |h| ==> h[|h| - Trailing(h) - 1].Progress()
  {
    var n := |h| - 1;
    if !h[n].Progress() && n > 0 {
      TrailingIsARun(h[..n], if i < n then i else 0);
    }
  }
}
