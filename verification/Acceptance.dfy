/** The delivery grading of app/agent_runtime/acceptance.py. */
module Acceptance {
  import opened Basics
  import opened TripTypes

  datatype Level = Excellent | Acceptable | Degraded | Unusable

  datatype Checks = Checks(
    identity: bool, dayCount: bool, coverage: bool, routes: bool, schedule: bool,
    commute: bool, constraints: bool, allowlist: bool)
  {
    predicate All() {
      identity && dayCount && coverage && routes && schedule && commute && constraints && allowlist
    }
  }

  datatype Report = Report(
    accepted: bool, partial: bool, level: Level, score: real, checks: Option<Checks>,
    unresolved: seq<string>)

  /** What the policy reads: the stored plan and the four stored reports. */
  datatype Evidence = Evidence(
    plan: Option<Plan>, routes: Option<RouteReport>, schedule: Option<ScheduleReport>,
    commute: Option<CommuteReport>, constraints: Option<ConstraintReport>)

  function CountOf(issues: seq<Issue>, severity: Severity): nat {
    if issues == [] then 0
    else (if issues[0].severity == severity then 1 else 0) + CountOf(issues[1..], severity)
  }

  predicate Allowlisted(issues: seq<Issue>, codes: set<string>) {
    forall i :: 0 <= i < |issues| && issues[i].severity.Error? ==> issues[i].code in codes
  }

  function Covered(days: seq<nat>, least: int): nat {
    if days == [] then 0 else (if days[0] >= least then 1 else 0) + Covered(days[1..], least)
  }

  /** `dict.fromkeys`: the first occurrence of every code. */
  function Codes(issues: seq<Issue>): seq<string> {
    if issues == [] then []
    else
      var before := Codes(issues[..|issues| - 1]);
      var code := issues[|issues| - 1].code;
      if code in before then before else before + [code]
  }

  function CoreChecks(e: Env, plan: Plan, x: Evidence, v: Validation): Checks {
    var b := e.budget;
    Checks(
      plan.city == e.request.city && plan.startDate == e.request.startDate && plan.endDate == e.request.endDate,
      |plan.route.days| == e.request.travelDays && |plan.route.days| > 0,
      forall i :: 0 <= i < |plan.route.days| ==> plan.route.days[i] >= b.minPerDay,
      x.routes.Some? && x.routes.value.unavailableLegs <= b.maxUnavailableLegs,
      x.schedule.Some? && x.schedule.value.figures.overtime <= b.maxOvertime,
      x.commute.Some? && x.commute.value.excessiveSegments <= b.maxExcessiveSegments,
      x.constraints.Some? && x.constraints.value.errors <= b.maxConstraintErrors,
      CountOf(v.issues, Error) <= b.maxErrors && Allowlisted(v.issues, b.allowedCodes))
  }

  function RawScore(e: Env, plan: Plan, x: Evidence, v: Validation): real {
    var routes := if x.routes.Some? then x.routes.value.score else 0.0;
    var schedule := if x.schedule.Some? then x.schedule.value.figures.score else 0.0;
    var constraints := if x.constraints.Some? then x.constraints.value.score else 0.0;
    var penalty := 100.0 - CountOf(v.issues, Error) as real * 12.0 - CountOf(v.issues, Warning) as real * 2.0;
    var validation := if penalty < 0.0 then 0.0 else penalty;
    var days := |plan.route.days|;
    var content := 100.0 * Covered(plan.route.days, e.budget.minPerDay) as real / (if days < 1 then 1 else days) as real;
    (routes + schedule + constraints + validation + content) / 5.0
  }

  function Evaluate(e: Env, x: Evidence, v: Validation): Report {
    if x.plan.None? then Report(false, false, Unusable, 0.0, None, [])
    else
      var plan := x.plan.value;
      var checks := CoreChecks(e, plan, x, v);
      var score := e.round2(RawScore(e, plan, x, v));
      if v.valid then
        Report(true, false, if score >= 90.0 && CountOf(v.issues, Warning) == 0 then Excellent else Acceptable,
               score, Some(checks), Codes(v.issues))
      else if e.budget.partialEnabled && checks.All() && score >= e.budget.minScore then
        Report(true, true, Acceptable, score, Some(checks), Codes(v.issues))
      else
        Report(false, false, if checks.identity && checks.dayCount then Degraded else Unusable,
               score, Some(checks), Codes(v.issues))
  }

  /** Every reason for delivering a plan that failed validation, written out. */
  ghost predicate Deliverable(e: Env, x: Evidence, v: Validation) {
    var b := e.budget;
    && x.plan.Some? && b.partialEnabled
    && x.plan.value.city == e.request.city
    && x.plan.value.startDate == e.request.startDate && x.plan.value.endDate == e.request.endDate
    && |x.plan.value.route.days| == e.request.travelDays && e.request.travelDays > 0
    && (forall i :: 0 <= i < |x.plan.value.route.days| ==> x.plan.value.route.days[i] >= b.minPerDay)
    && x.routes.Some? && x.routes.value.unavailableLegs <= b.maxUnavailableLegs
    && x.schedule.Some? && x.schedule.value.figures.overtime <= b.maxOvertime
    && x.commute.Some? && x.commute.value.excessiveSegments <= b.maxExcessiveSegments
    && x.constraints.Some? && x.constraints.value.errors <= b.maxConstraintErrors
    && (forall i :: i in v.issues && i.severity.Error? ==> i.code in b.allowedCodes)
    && |ErrorsOf(v.issues)| <= b.maxErrors
    && var left := 20.0 - 2.4 * |ErrorsOf(v.issues)| as real - 0.4 * |WarningsOf(v.issues)| as real;
       e.round2((x.routes.value.score + x.schedule.value.figures.score + x.constraints.value.score) / 5.0
                + (if left >= 0.0 then left else 0.0) + 20.0) >= b.minScore
  }

  function WarningsOf(issues: seq<Issue>): seq<Issue> {
    if issues == [] then []
    else (if issues[0].severity.Warning? then [issues[0]] else []) + WarningsOf(issues[1..])
  }

  /** The positions of the days with enough stops. */
  function FullDays(days: seq<nat>, least: int): set<nat> { set i | 0 <= i < |days| && days[i] >= least }

  function ErrorsOf(issues: seq<Issue>): seq<Issue> {
    if issues == [] then []
    else (if issues[0].severity.Error? then [issues[0]] else []) + ErrorsOf(issues[1..])
  }

  lemma {:induction false} CountsErrors(issues: seq<Issue>)
    ensures CountOf(issues, Error) == |ErrorsOf(issues)|
  {
    if issues != [] { CountsErrors(issues[1..]); }
  }

  lemma {:induction false} CountsWarnings(issues: seq<Issue>)
    ensures CountOf(issues, Warning) == |WarningsOf(issues)|
  {
    if issues != [] { CountsWarnings(issues[1..]); }
  }

  lemma {:induction false} CountsFullFrom(days: seq<nat>, least: int, k: nat)
    requires k <= |days|
    ensures Covered(days[k..], least) == |set i | k <= i < |days| && days[i] >= least|
    decreases |days| - k
  {
    var from := set i | k <= i < |days| && days[i] >= least;
    if k == |days| {
      assert from == {};
    } else {
      var rest := set i | k + 1 <= i < |days| && days[i] >= least;
      CountsFullFrom(days, least, k + 1);
      assert days[k..][1..] == days[k + 1..];
      assert from == rest + if days[k] >= least then {k} else {};
    }
  }

  lemma CountsFullDays(days: seq<nat>, least: int)
    ensures Covered(days, least) == |FullDays(days, least)|
  {
    CountsFullFrom(days, least, 0);
    assert days[0..] == days;
    assert FullDays(days, least) == set i | 0 <= i < |days| && days[i] >= least;
  }

  lemma Fifth(part: real, whole: real)
    requires whole > 0.0
    ensures 100.0 * part / whole / 5.0 == 20.0 * part / whole
  {
    assert 100.0 * part / whole == 100.0 * (part / whole) && 20.0 * part / whole == 20.0 * (part / whole);
  }

  /** The score before rounding: a fifth of every component score, 0 for a missing report; 20
      points for the validation, of which an error costs 12/5 and a warning 2/5 while there are
      any left; and 20 points for the share of days with enough stops. */
  lemma ScoreIs(e: Env, x: Evidence, v: Validation)
    requires x.plan.Some?
    ensures var days := x.plan.value.route.days;
            var left := 20.0 - 2.4 * |ErrorsOf(v.issues)| as real - 0.4 * |WarningsOf(v.issues)| as real;
            Evaluate(e, x, v).score
            == e.round2(((if x.routes.Some? then x.routes.value.score else 0.0)
                         + (if x.schedule.Some? then x.schedule.value.figures.score else 0.0)
                         + (if x.constraints.Some? then x.constraints.value.score else 0.0)) / 5.0
                        + (if left >= 0.0 then left else 0.0)
                        + if days == [] then 0.0 else 20.0 * |FullDays(days, e.budget.minPerDay)| as real / |days| as real)
  {
    hide CoreChecks; hide Codes; hide Covered; hide CountOf; hide FullDays; hide ErrorsOf; hide WarningsOf;
    var days := x.plan.value.route.days;
    CountsErrors(v.issues);
    CountsWarnings(v.issues);
    CountsFullDays(days, e.budget.minPerDay);
    if days == [] {
      NothingCovered(e.budget.minPerDay);
    } else {
      Fifth(Covered(days, e.budget.minPerDay) as real, |days| as real);
    }
  }

  lemma NothingCovered(least: int)
    ensures Covered([], least) == 0
  {
  }

  lemma AllDaysFull(days: seq<nat>, least: int)
    requires days != [] && forall i :: 0 <= i < |days| ==> days[i] >= least
    ensures |FullDays(days, least)| == |days| && 20.0 * |days| as real / |days| as real == 20.0
  {
    FullDaysAre(days, least, |days|);
  }

  lemma {:induction false} FullDaysAre(days: seq<nat>, least: int, n: nat)
    requires n <= |days| && forall i :: 0 <= i < |days| ==> days[i] >= least
    ensures |FullDays(days[..n], least)| == n && days[..|days|] == days
  {
    if n == 0 {
      assert FullDays(days[..0], least) == {};
    } else {
      FullDaysAre(days, least, n - 1);
      assert FullDays(days[..n], least) == FullDays(days[..n - 1], least) + {n - 1};
    }
  }

  /** A plan is accepted exactly when it validates or is deliverable, and partial exactly
      when it is delivered without validating. */
  lemma AcceptedIff(e: Env, x: Evidence, v: Validation)
    requires x.plan.Some?
    ensures Evaluate(e, x, v).accepted <==> (v.valid || Deliverable(e, x, v))
    ensures Evaluate(e, x, v).partial <==> (!v.valid && Deliverable(e, x, v))
  {
    CountsErrors(v.issues);
    if x.plan.value.route.days != []
       && forall i :: 0 <= i < |x.plan.value.route.days| ==> x.plan.value.route.days[i] >= e.budget.minPerDay {
      AllDaysFull(x.plan.value.route.days, e.budget.minPerDay);
    }
    ScoreIs(e, x, v);
    hide FullDays; hide RawScore; hide CountOf;
    assert Allowlisted(v.issues, e.budget.allowedCodes)
      <==> (forall i :: i in v.issues && i.severity.Error? ==> i.code in e.budget.allowedCodes);
  }

  /** The level: excellent for a valid plan of 90 points without a warning, acceptable for any
      other that is delivered, degraded while city, dates and number of days are right. */
  lemma LevelIs(e: Env, x: Evidence, v: Validation)
    requires x.plan.Some?
    ensures var r := Evaluate(e, x, v);
            var p := x.plan.value;
            && (r.level.Excellent? <==> v.valid && r.score >= 90.0 && forall i :: i in v.issues ==> !i.severity.Warning?)
            && (r.level.Acceptable? <==> r.accepted && !r.level.Excellent?)
            && (r.level.Degraded? <==>
                  && !r.accepted && p.city == e.request.city && p.startDate == e.request.startDate
                  && p.endDate == e.request.endDate && |p.route.days| == e.request.travelDays && e.request.travelDays > 0)
  {
    hide RawScore; hide Codes; hide CountOf;
    NoWarningsIff(v.issues);
  }

  lemma {:induction false} NoWarningsIff(issues: seq<Issue>)
    ensures CountOf(issues, Warning) == 0 <==> forall i :: i in issues ==> !i.severity.Warning?
  {
    if issues != [] {
      NoWarningsIff(issues[1..]);
      assert forall i :: i in issues <==> i == issues[0] || i in issues[1..];
    }
  }

  /** The unresolved codes: every code of an issue once, in order of first occurrence. */
  lemma {:induction false} CodesAre(issues: seq<Issue>)
    ensures forall c :: c in Codes(issues) <==> exists i :: i in issues && i.code == c
    ensures forall i, j :: 0 <= i < j < |Codes(issues)| ==> Codes(issues)[i] != Codes(issues)[j]
    ensures issues != [] ==> Codes(issues[..|issues| - 1]) <= Codes(issues)
  {
    if issues != [] {
      var front, last := issues[..|issues| - 1], issues[|issues| - 1];
      CodesAre(front);
      assert issues == front + [last];
      assert forall i :: i in issues <==> i in front || i == last;
      assert last in issues;
    }
  }

  /** What any rounding to two places does: it keeps the order, 0 and 100. */
  ghost predicate Rounds(f: real -> real) {
    f(0.0) == 0.0 && f(100.0) == 100.0 && forall x, y :: x <= y ==> f(x) <= f(y)
  }

  /** With component scores in 0..100 the score of every report is. */
  lemma ScoreInRange(e: Env, x: Evidence, v: Validation)
    requires Rounds(e.round2)
    requires x.routes.Some? ==> 0.0 <= x.routes.value.score <= 100.0
    requires x.schedule.Some? ==> 0.0 <= x.schedule.value.figures.score <= 100.0
    requires x.constraints.Some? ==> 0.0 <= x.constraints.value.score <= 100.0
    ensures 0.0 <= Evaluate(e, x, v).score <= 100.0
  {
    hide CoreChecks; hide Codes; hide RawScore;
    if x.plan.Some? {
      RawScoreInRange(e, x.plan.value, x, v);
      var raw := RawScore(e, x.plan.value, x, v);
      assert e.round2(0.0) <= e.round2(raw) <= e.round2(100.0);
    }
  }

  lemma RawScoreInRange(e: Env, plan: Plan, x: Evidence, v: Validation)
    requires x.routes.Some? ==> 0.0 <= x.routes.value.score <= 100.0
    requires x.schedule.Some? ==> 0.0 <= x.schedule.value.figures.score <= 100.0
    requires x.constraints.Some? ==> 0.0 <= x.constraints.value.score <= 100.0
    ensures 0.0 <= RawScore(e, plan, x, v) <= 100.0
  {
    hide Covered; hide CountOf;
    var days := plan.route.days;
    var n := if |days| < 1 then 1 else |days|;
    var c := Covered(days, e.budget.minPerDay);
    CoveredAtMost(days, e.budget.minPerDay);
    RatioInRange(100.0, c as real, n as real);
    PenaltyInRange(CountOf(v.issues, Error), CountOf(v.issues, Warning));
  }

  lemma PenaltyInRange(errors: nat, warnings: nat)
    ensures 100.0 - errors as real * 12.0 - warnings as real * 2.0 <= 100.0
  {
    assert 0.0 <= errors as real && 0.0 <= warnings as real;
  }

  lemma {:induction false} CoveredAtMost(days: seq<nat>, least: int)
    ensures Covered(days, least) <= |days|
  {
    if days != [] { CoveredAtMost(days[1..], least); }
  }

  lemma RatioInRange(scale: real, part: real, whole: real)
    requires 0.0 <= part <= whole && 0.0 < whole && 0.0 <= scale
    ensures 0.0 <= scale * part / whole <= scale
  {
    Ordered(scale, part, whole);
    Ordered(scale, 0.0, part);
    var ratio := scale * part / whole;
    assert ratio * whole == scale * part;
    if ratio < 0.0 { Larger(-ratio, whole); }
    if ratio > scale { Larger(ratio - scale, whole); }
  }

  lemma Ordered(scale: real, a: real, b: real)
    requires 0.0 <= scale && a <= b
    ensures scale * a <= scale * b
  {
    assert scale * (b - a) >= 0.0;
  }

  lemma Larger(x: real, y: real)
    requires x > 0.0 && y > 0.0
    ensures x * y > 0.0
  {
  }
}
