/**
 The values one planning session works on. Everything the orchestrator only passes
 around (tool answers, free text, names of the evaluators' inner details) is a number;
 the fields that its branches read are kept.
 */
module TripTypes {
  import opened Basics

  type Facts = int
  type Identity = string

  /** The part of a plan that `plan_route_fingerprint` binds: per day the number of stops,
      and in `detail` the dates, hotels, stop names, ids and coordinates. */
  datatype RoutePart = RoutePart(days: seq<nat>, detail: int)

  /** A plan: its route part; in `visits` what else a timeline reads of the stops (visit
      durations and unrounded coordinates); the lunch named on a day, by the day's position;
      and in `text` everything else (descriptions, the other meals, budget). */
  datatype Plan = Plan(
    route: RoutePart, city: string, startDate: int, endDate: int,
    visits: int, lunches: map<nat, string>, text: int)

  const SOME_LUNCH := "lunch"

  /** `_lunch_name` */
  function LunchName(p: Plan, day: nat): string {
    if day in p.lunches then p.lunches[day] else SOME_LUNCH
  }

  /** What a content rebuild writes: it changes no stop, no visit and no date, but the
      transportation text, from which the route part takes the mode of a day. */
  datatype Content = Content(detail: int, lunches: map<nat, string>, text: int)

  function WithContent(p: Plan, c: Content): Plan {
    p.(route := p.route.(detail := c.detail), lunches := c.lunches, text := c.text)
  }

  function CountAttractions(p: Plan): (n: nat) { Total(p.route.days) }

  function Total(days: seq<nat>): nat {
    if days == [] then 0 else days[0] + Total(days[1..])
  }

  /** A route snapshot carries the fingerprint of the plan it was queried for. */
  datatype Routes = Routes(stamp: RoutePart, data: int)

  datatype RouteReport = RouteReport(
    cost: real, score: real, unavailableLegs: int, excessiveLegs: int, recommended: bool)

  datatype CommuteReport = CommuteReport(
    excessiveSegments: int, maxDuration: int, issueNames: set<string>, recommended: bool)

  /** The timelines without their lunch labels: the totals, all times, and the days on which
      a lunch is placed. */
  datatype Figures = Figures(
    cost: real, score: real, overtime: int, infeasibleDays: int, fallbackLegs: int,
    recommended: bool, times: int, lunchDays: set<nat>)

  /** A schedule report is its figures and the label of every lunch placed. */
  datatype ScheduleReport = ScheduleReport(figures: Figures, labels: map<nat, string>)

  datatype ConstraintReport = ConstraintReport(
    cost: real, score: real, errors: int, recommended: bool, detail: int)

  datatype Severity = Error | Warning

  datatype Issue = Issue(severity: Severity, code: string)

  datatype Validation = Validation(valid: bool, repairable: bool, issues: seq<Issue>)

  datatype Query = Query(center: int, radius: int, page: int)

  datatype Candidate = Candidate(plan: Plan, name: string, identities: seq<Identity>)

  /** The input tuples behind the constraint and validation fingerprints. */
  datatype ConstraintInput = ConstraintInput(
    plan: Plan, schedule: Option<ScheduleReport>, attractions: Option<Facts>, weather: Option<Facts>)

  datatype ValidationInput = ValidationInput(
    plan: Plan, attractions: Option<Facts>, weather: Option<Facts>, hotels: Option<Facts>,
    routes: Option<Routes>, schedule: Option<ScheduleReport>, constraints: Option<ConstraintReport>)

  /** Route, commute and schedule fingerprints bind the route part and the snapshot. */
  datatype RouteInput = RouteInput(route: RoutePart, routes: Option<Routes>)

  datatype Request = Request(city: string, startDate: int, endDate: int, travelDays: int)

  datatype Budget = Budget(
    maxSteps: nat, maxToolCalls: nat, maxLlmCalls: nat, maxRepairs: nat,
    maxRouteAttempts: nat, maxScheduleAttempts: nat, maxConstraintAttempts: nat,
    maxRefillAttempts: nat, maxCommuteAttempts: nat, maxSupplementSearches: nat,
    minimumAttractions: nat,
    maxRepeatedInputs: nat, maxNoProgress: nat, maxLocalActions: nat,
    partialEnabled: bool, minScore: real, maxErrors: int, maxOvertime: int,
    maxUnavailableLegs: int, maxExcessiveSegments: int, maxConstraintErrors: int,
    minPerDay: int, allowedCodes: set<string>)

  datatype Action =
    | SearchAttractions | GetWeather | SearchHotels | SearchRestaurants | GeneratePlan
    | ValidatePlan | EstimateRoutes | OptimizeRoutes | EvaluateCommute | ReplaceRemote
    | SupplementAttractions | EvaluateSchedule | OptimizeSchedule | EvaluateConstraints
    | OptimizeConstraints | RefillAttractions | RebuildContent | RepairPlan | Finish

  /**
   One session's fixed surroundings: the request, the persisted budget, the acceptance
   thresholds, and every evaluator, optimiser and validator as an arbitrary total function.
   The route and commute evaluators read only stops and the snapshot. The schedule evaluator
   also reads the visit durations, and the lunch names for nothing but its labels.
   */
  datatype Env = Env(
    request: Request,
    budget: Budget,
    llmCost: Action -> nat,
    minRouteGain: real, minScheduleGain: real, minConstraintGain: real,
    round2: real -> real,
    restaurantKey: Plan -> int,
    contentKey: (Plan, Option<Routes>, Option<ScheduleReport>, Option<Facts>) -> int,
    evalRoutes: (RoutePart, Routes) -> RouteReport,
    evalCommute: (RoutePart, Routes) -> CommuteReport,
    evalFigures: (RoutePart, int, Routes) -> Figures,
    evalConstraints: ConstraintInput -> ConstraintReport,
    validate: ValidationInput -> Validation,
    proposeRoutes: Plan -> Option<Candidate>,
    proposeSchedule: (Plan, ScheduleReport) -> Option<Candidate>,
    proposeConstraints: (Plan, ConstraintReport, Option<Facts>, Option<Facts>) -> Option<Candidate>,
    proposeReplacement: (Plan, CommuteReport, Option<Facts>, set<Identity>) -> Option<Candidate>,
    proposeRefill: (Plan, Option<Facts>, set<Identity>) -> Option<Candidate>,
    commuteQuery: (Plan, CommuteReport, nat) -> Option<Query>,
    refillQuery: (Plan, nat) -> Option<Query>,
    normaliseName: string -> string,
    mergePool: (Option<Facts>, Facts) -> Facts,
    rebuild: (Plan, Option<Routes>, Option<ScheduleReport>, Option<Facts>) -> Content,
    dropDuplicates: Plan -> Plan)

  /** `ScheduleTimelineEvaluator.evaluate` */
  function EvalSchedule(e: Env, p: Plan, q: Routes): ScheduleReport {
    var f := e.evalFigures(p.route, p.visits, q);
    ScheduleReport(f, map day | day in f.lunchDays :: LunchName(p, day))
  }
}
