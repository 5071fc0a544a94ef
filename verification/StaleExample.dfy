/**
 One run that shows both kinds of staleness: after its only supplement search the constraint
 report is trusted on a pool it was not computed from, and the delivered plan is not the one
 its trusted schedule report was computed on.
 */
module StaleExample {
  import opened Basics
  import opened TripTypes
  import opened Session
  import opened Actions
  import opened Runs
  import Acceptance

  /** A rebuild names the lunch of the only day, the constraint evaluator sees the pool, and
      every commute calls for a replacement, but there is only a supplement query. */
  function Site(): Env {
    Env(
      Request("x", 0, 0, 1),
      Budget(99, 99, 99, 0, 0, 0, 0, 0, 1, 1, 0, 1, 3, 8, false, 70.0, 0, 0, 0, 0, 0, 0, {}),
      (a: Action) => 0, 0.0, 0.0, 0.0, (x: real) => x,
      (p: Plan) => 0,
      (p: Plan, q: Option<Routes>, r: Option<ScheduleReport>, k: Option<Facts>) => 0,
      (p: RoutePart, q: Routes) => RouteReport(0.0, 100.0, 0, 0, false),
      (p: RoutePart, q: Routes) => CommuteReport(1, 0, {}, true),
      (p: RoutePart, v: int, q: Routes) => Figures(0.0, 100.0, 0, 0, 0, false, 0, {0}),
      (x: ConstraintInput) =>
        ConstraintReport(0.0, 100.0, 0, false, if x.attractions.Some? then x.attractions.value else 0),
      (x: ValidationInput) => Validation(true, false, []),
      (p: Plan) => None,
      (p: Plan, r: ScheduleReport) => None,
      (p: Plan, r: ConstraintReport, a: Option<Facts>, w: Option<Facts>) => None,
      (p: Plan, r: CommuteReport, a: Option<Facts>, x: set<Identity>) => None,
      (p: Plan, a: Option<Facts>, x: set<Identity>) => None,
      (p: Plan, r: CommuteReport, n: nat) => Some(Query(0, 0, 0)),
      (p: Plan, n: nat) => None,
      (n: string) => n,
      (a: Option<Facts>, b: Facts) => b,
      (p: Plan, q: Option<Routes>, r: Option<ScheduleReport>, k: Option<Facts>) => Content(0, map[0 := "noodles"], 0),
      (p: Plan) => p)
  }

  const STOPS := RoutePart([1], 0)
  const DRAFTED := Plan(STOPS, "x", 0, 0, 0, map[], 0)
  const REBUILT := DRAFTED.(lunches := map[0 := "noodles"])
  const QUERIED := Routes(STOPS, 0)
  const ROUTE_REPORT := RouteReport(0.0, 100.0, 0, 0, false)
  const COMMUTE_REPORT := CommuteReport(1, 0, {}, true)
  const FIGURES := Figures(0.0, 100.0, 0, 0, 0, false, 0, {0})
  const SCHEDULE_REPORT := ScheduleReport(FIGURES, map[0 := SOME_LUNCH])
  const FAR := RouteInput(STOPS, Some(QUERIED))

  function Report(pool: int): ConstraintReport { ConstraintReport(0.0, 100.0, 0, false, pool) }

  function InputFor(p: Plan, pool: int): ConstraintInput { ConstraintInput(p, Some(SCHEDULE_REPORT), Some(pool), Some(0)) }

  function Called(n: nat): Meter { Meter(0, n, 0) }

  function Begun(): State { FRESH.(status := Running) }
  function Found(): State { Begun().(known := Begun().known.(attractions := Some(1)), meter := Called(1)) }
  function Warned(): State { Found().(known := Found().known.(weather := Some(0)), meter := Called(2)) }
  function Housed(): State { Warned().(known := Warned().known.(hotels := Some(0)), meter := Called(3)) }
  function Drafted(): State { Housed().(draft := Draft(Some(DRAFTED), None, None), meter := Called(4)) }

  function Routed(): State {
    Drafted().(
      draft := Draft(Some(DRAFTED), Some(QUERIED), Some(STOPS)),
      reports := NO_REPORTS.(route := Some(ROUTE_REPORT), routeFor := Some(STOPS), schedule := Some(SCHEDULE_REPORT),
                             scheduleFor := Some(STOPS), basis := Some(DRAFTED)),
      inputs := NO_INPUTS.(route := Some(FAR), schedule := Some(FAR)),
      opts := Optimisers(IDLE.(phase := Skipped), IDLE.(phase := Skipped), IDLE, IDLE, IDLE),
      meter := Called(5))
  }

  function Commuted(): State {
    var s := Routed();
    s.(reports := s.reports.(commute := Some(COMMUTE_REPORT), commuteFor := Some(STOPS)),
       inputs := s.inputs.(commute := Some(FAR)))
  }

  function Constrained(): State {
    var s := Commuted();
    s.(reports := s.reports.(constraints := Some(Report(1)), constraintFor := Some(DRAFTED),
                             weighed := Some(InputFor(DRAFTED, 1))),
       inputs := s.inputs.(constraints := Some(InputFor(DRAFTED, 1))),
       opts := s.opts.(constraint := IDLE.(phase := Skipped)))
  }

  function Asking(): State {
    var s := Constrained();
    s.(searches := s.searches.(query := Some(Query(0, 0, 0))), opts := s.opts.(commute := IDLE.(phase := SupplementNeeded)))
  }

  function Supplemented(): State {
    var s := Constrained();
    s.(known := s.known.(attractions := Some(2)), searches := s.searches.(commute := 1),
       inputs := s.inputs.(constraints := None), meter := Called(6))
  }

  function Resigned(): State {
    var s := Supplemented();
    s.(opts := s.opts.(commute := Optimiser(Skipped, 0, BLANK, [Passed])))
  }

  function Fed(): State {
    var s := Resigned();
    s.(known := s.known.(restaurants := Some(0), restaurantsFor := Some(0)), meter := Called(7))
  }

  function Rebuilt(): State {
    var s := Fed();
    s.(draft := s.draft.(plan := Some(REBUILT)), delivery := s.delivery.(contentFor := Some(0), rebuilds := 1))
  }

  function Rechecked(): State {
    var s := Rebuilt();
    s.(reports := s.reports.(constraints := Some(Report(2)), constraintFor := Some(REBUILT),
                             weighed := Some(InputFor(REBUILT, 2))),
       inputs := s.inputs.(constraints := Some(InputFor(REBUILT, 2))))
  }

  function Graded(): State {
    var s := Rechecked();
    var v := Validation(true, false, []);
    s.(delivery := s.delivery.(validation := Some(v), acceptance := Some(Acceptance.Evaluate(Site(), Actions.EvidenceOf(s), v))),
       inputs := s.inputs.(validation := Some(ValidationInputOf(s))))
  }

  function Delivered(): State { FinishStep(Graded()).state }

  function Answer(p: Payload): Wire { Wire(false, true, Returned(p), Stop) }

  ghost predicate Leads(s: State, p: Payload, t: State) { Next(Site(), s, Answer(p)) == Done(t, true) }

  lemma Surveying()
    ensures Leads(Begun(), FactsData(1), Found()) && Leads(Found(), FactsData(0), Warned())
    ensures Leads(Warned(), FactsData(0), Housed()) && Leads(Housed(), PlanData(DRAFTED), Drafted())
  {
  }

  lemma Timed()
    ensures EvalSchedule(Site(), DRAFTED, QUERIED) == SCHEDULE_REPORT
    ensures EvalSchedule(Site(), REBUILT, QUERIED) != SCHEDULE_REPORT
  {
    assert EvalSchedule(Site(), DRAFTED, QUERIED).labels == map[0 := SOME_LUNCH];
    assert EvalSchedule(Site(), REBUILT, QUERIED).labels[0] == "noodles" != SOME_LUNCH;
  }

  lemma Routing()
    ensures Leads(Drafted(), RouteData(QUERIED), Routed())
  {
    hide EvalSchedule;
    Timed();
    assert SaveRoutes(Site(), Drafted().(meter := Called(5)), QUERIED) == Routed();
  }

  lemma Measuring()
    ensures Leads(Routed(), Malformed, Commuted()) && Leads(Commuted(), Malformed, Constrained())
  {
  }

  lemma Searching()
    ensures Leads(Constrained(), Malformed, Asking())
    ensures Leads(Asking(), NearbyData(0, 0, 0, 2), Supplemented())
  {
  }

  lemma Resigning()
    ensures Leads(Supplemented(), Malformed, Resigned()) && Leads(Resigned(), FactsData(0), Fed())
  {
  }

  lemma Rebuilding()
    ensures Leads(Fed(), Malformed, Rebuilt())
  {
    hide SCHEDULE_REPORT;
  }

  lemma Rechecking()
    ensures Leads(Rebuilt(), Malformed, Rechecked())
  {
    assert 0 in REBUILT.lunches && 0 !in DRAFTED.lunches;
  }

  lemma Delivering()
    ensures Leads(Rechecked(), Malformed, Graded()) && Leads(Graded(), Malformed, Delivered())
  {
  }

  function Path(): seq<State> {
    [FRESH, Begun(), Found(), Warned(), Housed(), Drafted(), Routed(), Commuted(), Constrained(), Asking(),
     Supplemented(), Resigned(), Fed(), Rebuilt(), Rechecked(), Graded(), Delivered()]
  }

  function Answers(): seq<Payload> {
    [FactsData(1), FactsData(0), FactsData(0), PlanData(DRAFTED), RouteData(QUERIED), Malformed, Malformed, Malformed,
     NearbyData(0, 0, 0, 2), Malformed, FactsData(0), Malformed, Malformed, Malformed, Malformed]
  }

  function Taken(): seq<Move> { [Start] + seq(|Answers()|, i requires 0 <= i < |Answers()| => Act(Answer(Answers()[i]))) }

  lemma AllLead()
    ensures forall i :: 0 <= i < 15 ==> Leads(Path()[i + 1], Answers()[i], Path()[i + 2])
  {
    hide Leads; hide Begun; hide Found; hide Warned; hide Housed; hide Drafted; hide Routed; hide Commuted; hide Constrained;
    hide Asking; hide Supplemented; hide Resigned; hide Fed; hide Rebuilt; hide Rechecked; hide Graded; hide Delivered; hide FRESH;
    hide DRAFTED; hide QUERIED;
    Surveying();
    Routing();
    Measuring();
    Searching();
    Resigning();
    Rebuilding();
    Rechecking();
    Delivering();
  }

  lemma RunningAllAlong(i: nat)
    requires i <= 15
    ensures i >= 1 ==> Path()[i].status == Running
    ensures !Path()[i].delivery.finished
  {
  }

  lemma ItIsARun()
    ensures IsRun(Site(), Path(), Taken())
  {
    AllLead();
    hide Next; hide Site; hide Leads;
    var r, m := Path(), Taken();
    forall i | 0 <= i < |m| ensures Moves(Site(), r[i], m[i], r[i + 1]) {
      OneMove(i);
    }
  }

  lemma OneMove(i: nat)
    requires i < 16
    ensures |Path()| == 17 && |Taken()| == 16
    ensures Moves(Site(), Path()[i], Taken()[i], Path()[i + 1])
  {
    AllLead();
    RunningAllAlong(i);
    hide Next; hide Site; hide Path;
    if i > 0 { assert Leads(Path()[i - 1 + 1], Answers()[i - 1], Path()[i - 1 + 2]); }
  }

  /** After a supplement search the constraint report is trusted, although the evaluator
      would now answer differently. */
  lemma ConstraintsTrustedThoughStale()
    ensures IsRun(Site(), Path(), Taken())
    ensures var s := Path()[10];
            && s.draft.plan.Some? && ConstraintsCurrent(s)
            && s.reports.constraints != Some(Site().evalConstraints(ConstraintInputOf(s)))
  {
    ItIsARun();
    hide IsRun;
    assert Path()[10] == Supplemented();
  }

  /** A finished session can deliver a plan whose trusted schedule report names another lunch. */
  lemma DeliveredThoughStale()
    ensures IsRun(Site(), Path(), Taken())
    ensures var s := Path()[16];
            && s.delivery.finished && s.draft.plan.Some? && s.draft.routes.Some? && ScheduleCurrent(s)
            && s.reports.schedule != Some(EvalSchedule(Site(), s.draft.plan.value, s.draft.routes.value))
  {
    ItIsARun();
    Timed();
    hide IsRun; hide Acceptance.Evaluate; hide EvalSchedule; hide SCHEDULE_REPORT;
    assert Path()[16] == Delivered();
  }
}
