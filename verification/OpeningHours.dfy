/**
 The batch repair of opening-hours conflicts (app/constraints/optimizer.py:249-404): flagged
 stops are moved to the end of their day, those still in conflict are deleted.
 */
module OpeningHours {
  import opened Basics

  datatype Stop = Stop(poi: string, name: string, detail: int)

  datatype Day = Day(index: int, stops: seq<Stop>)

  type Plan = seq<Day>

  /** `opening`: the code is attraction.outside_opening_hours. */
  datatype Issue = Issue(opening: bool, repairable: bool, day: int, at: Option<nat>)

  /** Issues and combined cost of a plan. */
  datatype Report = Report(issues: seq<Issue>, cost: real)

  /** A flagged stop, remembered by identity because moving shifts positions. */
  datatype Target = Target(day: int, poi: string, name: string)

  function StableIndex(plan: Plan, p: nat): int
    requires p < |plan|
  {
    if plan[p].index >= 0 then plan[p].index else p
  }

  function DayPositionFrom(plan: Plan, day: int, from: nat): Option<nat>
    requires from <= |plan|
    decreases |plan| - from
  {
    if from == |plan| then None
    else if StableIndex(plan, from) == day then Some(from)
    else DayPositionFrom(plan, day, from + 1)
  }

  /** `_day_position` */
  function DayPosition(plan: Plan, day: int): (p: Option<nat>)
    ensures p.Some? ==> p.value < |plan|
  {
    PositionInPlan(plan, day, 0);
    DayPositionFrom(plan, day, 0)
  }

  lemma {:induction false} PositionInPlan(plan: Plan, day: int, from: nat)
    requires from <= |plan|
    ensures var p := DayPositionFrom(plan, day, from); p.Some? ==> from <= p.value < |plan|
    decreases |plan| - from
  {
    if from < |plan| { PositionInPlan(plan, day, from + 1); }
  }

  /** The two ways a stop is recognised. */
  predicate Is(s: Stop, poi: string, name: string) { (poi != "" && s.poi == poi) || s.name == name }

  // ---- Moving to the end of the day ----

  /** `_find_attraction_index`: the first stop recognised. */
  function Find(stops: seq<Stop>, poi: string, name: string): (i: Option<nat>)
    ensures i.Some? ==> i.value < |stops| && Is(stops[i.value], poi, name)
    ensures i.None? ==> forall j :: 0 <= j < |stops| ==> !Is(stops[j], poi, name)
    ensures i.Some? ==> forall j :: 0 <= j < i.value ==> !Is(stops[j], poi, name)
  {
    if stops == [] then None
    else
      var front := Find(stops[..|stops| - 1], poi, name);
      if front.Some? then front
      else if Is(stops[|stops| - 1], poi, name) then Some(|stops| - 1)
      else None
  }

  /** pop and append */
  function ToEnd(stops: seq<Stop>, i: nat): seq<Stop>
    requires i < |stops|
  {
    stops[..i] + stops[i + 1..] + [stops[i]]
  }

  function MovedToEnd(stops: seq<Stop>, poi: string, name: string): seq<Stop> {
    var i := Find(stops, poi, name);
    if i.None? then stops else ToEnd(stops, i.value)
  }

  /** One day after all its targets were moved in turn. */
  function Reordered(stops: seq<Stop>, targets: seq<Target>): seq<Stop> {
    if targets == [] then stops
    else
      var t := targets[|targets| - 1];
      MovedToEnd(Reordered(stops, targets[..|targets| - 1]), t.poi, t.name)
  }

  /** The targets that concern the day at position `p`. */
  function TargetsAt(plan: Plan, targets: seq<Target>, p: nat): seq<Target> {
    if targets == [] then []
    else
      TargetsAt(plan, targets[..|targets| - 1], p)
      + if DayPosition(plan, targets[|targets| - 1].day) == Some(p) then [targets[|targets| - 1]] else []
  }

  /** No stop of the day is taken for another. */
  ghost predicate Distinct(stops: seq<Stop>) {
    forall i, j :: 0 <= i < |stops| && 0 <= j < |stops| && i != j ==> !Is(stops[i], stops[j].poi, stops[j].name)
  }

  function Drop(stops: seq<Stop>, s: Stop): seq<Stop> {
    if stops == [] then []
    else Drop(stops[..|stops| - 1], s) + if stops[|stops| - 1] == s then [] else [stops[|stops| - 1]]
  }

  /** The stops not flagged, in their order. */
  function Others(stops: seq<Stop>, flagged: seq<Stop>): seq<Stop> {
    if flagged == [] then stops else Drop(Others(stops, flagged[..|flagged| - 1]), flagged[|flagged| - 1])
  }

  /** The flagged stops, each where it was flagged last. */
  function InIssueOrder(flagged: seq<Stop>): seq<Stop> {
    if flagged == [] then []
    else Drop(InIssueOrder(flagged[..|flagged| - 1]), flagged[|flagged| - 1]) + [flagged[|flagged| - 1]]
  }

  function TargetFor(day: int, s: Stop): Target { Target(day, s.poi, s.name) }

  function TargetsFor(day: int, flagged: seq<Stop>): seq<Target> {
    seq(|flagged|, i requires 0 <= i < |flagged| => TargetFor(day, flagged[i]))
  }

  lemma {:induction false} DropConcat(a: seq<Stop>, b: seq<Stop>, s: Stop)
    ensures Drop(a + b, s) == Drop(a, s) + Drop(b, s)
  {
    if b == [] {
      assert a + b == a;
    } else {
      DropConcat(a, b[..|b| - 1], s);
      assert (a + b)[..|a + b| - 1] == a + b[..|b| - 1];
    }
  }

  lemma {:induction false} DropAbsent(stops: seq<Stop>, s: Stop)
    requires s !in stops
    ensures Drop(stops, s) == stops
  {
    if stops != [] { DropAbsent(stops[..|stops| - 1], s); }
  }

  ghost predicate Different(stops: seq<Stop>) {
    forall i, j :: 0 <= i < j < |stops| ==> stops[i] != stops[j]
  }

  lemma DistinctDiffer(stops: seq<Stop>)
    requires Distinct(stops)
    ensures Different(stops)
  {
    forall i, j | 0 <= i < j < |stops| ensures stops[i] != stops[j] {
      assert Is(stops[j], stops[j].poi, stops[j].name);
    }
  }

  lemma {:induction false} DropAt(stops: seq<Stop>, i: nat)
    requires Different(stops) && i < |stops|
    ensures Drop(stops, stops[i]) == stops[..i] + stops[i + 1..]
  {
    var n := |stops| - 1;
    if i == n {
      DropAbsent(stops[..n], stops[i]);
    } else {
      DropAt(stops[..n], i);
      assert stops[..n][i + 1..] + [stops[n]] == stops[i + 1..];
    }
  }

  lemma MovingKeepsDistinct(stops: seq<Stop>, i: nat)
    requires Distinct(stops) && i < |stops|
    ensures Distinct(ToEnd(stops, i))
  {
    hide Is;
    var moved := ToEnd(stops, i);
    var n := |stops|;
    assert forall j :: 0 <= j < n ==> moved[j] == stops[if j < i then j else if j < n - 1 then j + 1 else i];
  }

  lemma MovingKeepsAll(stops: seq<Stop>, i: nat)
    requires i < |stops|
    ensures multiset(ToEnd(stops, i)) == multiset(stops)
  {
    assert stops == stops[..i] + ([stops[i]] + stops[i + 1..]);
  }

  /** Among distinct stops the right one is found, and they stay distinct. */
  lemma MovesTheRightOne(stops: seq<Stop>, s: Stop)
    requires Distinct(stops) && s in stops
    ensures MovedToEnd(stops, s.poi, s.name) == Drop(stops, s) + [s]
    ensures Distinct(MovedToEnd(stops, s.poi, s.name))
    ensures forall x :: x in MovedToEnd(stops, s.poi, s.name) <==> x in stops
  {
    var k :| 0 <= k < |stops| && stops[k] == s;
    assert Is(stops[k], s.poi, s.name);
    var i := Find(stops, s.poi, s.name).value;
    assert i == k;
    DistinctDiffer(stops);
    hide Is; hide Distinct; hide Find;
    DropAt(stops, i);
    MovingKeepsDistinct(stops, i);
    MovingKeepsAll(stops, i);
    SameElements(MovedToEnd(stops, s.poi, s.name), stops);
  }

  /** What the first pass makes of a day of distinct stops: the others as they were, then the
      flagged ones in the order of their (last) issues. */
  lemma {:induction false} ReorderedIs(stops: seq<Stop>, day: int, flagged: seq<Stop>)
    requires Distinct(stops) && forall i :: 0 <= i < |flagged| ==> flagged[i] in stops
    ensures Reordered(stops, TargetsFor(day, flagged)) == Others(stops, flagged) + InIssueOrder(flagged)
    ensures Distinct(Reordered(stops, TargetsFor(day, flagged)))
    ensures forall x :: x in Reordered(stops, TargetsFor(day, flagged)) <==> x in stops
  {
    if flagged != [] {
      var n := |flagged| - 1;
      var s := flagged[n];
      ReorderedIs(stops, day, flagged[..n]);
      assert TargetsFor(day, flagged)[..n] == TargetsFor(day, flagged[..n]);
      MovesTheRightOne(Reordered(stops, TargetsFor(day, flagged[..n])), s);
      DropConcat(Others(stops, flagged[..n]), InIssueOrder(flagged[..n]), s);
    }
  }

  lemma LastInOrder(flagged: seq<Stop>, front: seq<Stop>)
    requires flagged != [] && front == flagged[..|flagged| - 1]
    requires InIssueOrder(front) == front && flagged[|flagged| - 1] !in front
    ensures InIssueOrder(flagged) == flagged
  {
    hide Drop;
    DropAbsent(front, flagged[|flagged| - 1]);
    assert front + [flagged[|flagged| - 1]] == flagged;
  }

  /** With each stop flagged once, the flagged ones follow in issue order as they are. */
  lemma {:induction false} FlaggedOnce(flagged: seq<Stop>)
    requires Different(flagged)
    ensures InIssueOrder(flagged) == flagged
  {
    if flagged == [] { return; }
    hide Different; hide InIssueOrder;
    var front := flagged[..|flagged| - 1];
    NotBefore(flagged, |flagged| - 1);
    FlaggedOnce(front);
    LastInOrder(flagged, front);
  }

  // ---- When the first pass moves the wrong stop ----

  /** The search for a stop by its own identity finds it exactly if no earlier stop has its id
      or its name. */
  lemma FindsItselfIff(stops: seq<Stop>, k: nat)
    requires k < |stops|
    ensures Find(stops, stops[k].poi, stops[k].name) == Some(k)
            <==> forall j :: 0 <= j < k ==>
                   stops[j].name != stops[k].name && (stops[k].poi == "" || stops[j].poi != stops[k].poi)
  {
    assert Is(stops[k], stops[k].poi, stops[k].name);
  }

  /** The stops, each marked with its position. */
  function Tagged(stops: seq<Stop>): (tagged: seq<Stop>)
    ensures |tagged| == |stops|
  {
    seq(|stops|, i requires 0 <= i < |stops| => stops[i].(detail := i))
  }

  predicate InRange(stops: seq<Stop>, at: seq<nat>) { forall n :: 0 <= n < |at| ==> at[n] < |stops| }

  /** The stops at the flagged positions, in issue order. */
  function Picked(stops: seq<Stop>, at: seq<nat>): seq<Stop>
    requires InRange(stops, at)
  {
    seq(|at|, n requires 0 <= n < |at| => stops[at[n]])
  }

  /** The day after the stops of the first `n` flags were sought and moved. */
  function PassedBy(stops: seq<Stop>, flagged: seq<Stop>, n: nat): seq<Stop>
    requires n <= |flagged|
  {
    Reordered(stops, TargetsFor(0, flagged[..n]))
  }

  lemma PassGoesOn(stops: seq<Stop>, flagged: seq<Stop>, n: nat)
    requires n < |flagged|
    ensures PassedBy(stops, flagged, n + 1) == MovedToEnd(PassedBy(stops, flagged, n), flagged[n].poi, flagged[n].name)
  {
    assert flagged[..n + 1][..n] == flagged[..n];
    assert TargetsFor(0, flagged[..n + 1])[..n] == TargetsFor(0, flagged[..n]);
  }

  /** Each flag moves the very stop it was raised for. */
  ghost predicate MovesEach(stops: seq<Stop>, flagged: seq<Stop>, n: nat)
    requires n <= |flagged|
  {
    forall k :: 0 <= k < n ==>
      PassedBy(stops, flagged, k + 1) == Drop(PassedBy(stops, flagged, k), flagged[k]) + [flagged[k]]
  }

  /** No stop in front of a flagged one, and not moved away before, is taken for it. */
  ghost predicate Unmistaken(stops: seq<Stop>, flagged: seq<Stop>, n: nat)
    requires n <= |flagged|
  {
    forall k :: 0 <= k < n ==> UnmistakenAt(stops, flagged, k)
  }

  ghost predicate UnmistakenAt(stops: seq<Stop>, flagged: seq<Stop>, k: nat)
    requires k < |flagged|
  {
    forall i, j :: 0 <= j < i < |stops| && stops[i] == flagged[k] && stops[j] !in flagged[..k] ==>
      !Is(stops[j], flagged[k].poi, flagged[k].name)
  }

  lemma {:induction false} OthersConcat(a: seq<Stop>, b: seq<Stop>, flagged: seq<Stop>)
    ensures Others(a + b, flagged) == Others(a, flagged) + Others(b, flagged)
  {
    if flagged != [] {
      var n := |flagged| - 1;
      OthersConcat(a, b, flagged[..n]);
      DropConcat(Others(a, flagged[..n]), Others(b, flagged[..n]), flagged[n]);
    }
  }

  lemma {:induction false} DropIs(stops: seq<Stop>, s: Stop)
    ensures forall x :: x in Drop(stops, s) <==> x in stops && x != s
  {
    if stops != [] {
      DropIs(stops[..|stops| - 1], s);
      assert stops == stops[..|stops| - 1] + [stops[|stops| - 1]];
    }
  }

  lemma {:induction false} OthersAre(stops: seq<Stop>, flagged: seq<Stop>)
    ensures forall x :: x in Others(stops, flagged) <==> x in stops && x !in flagged
  {
    if flagged != [] {
      var n := |flagged| - 1;
      OthersAre(stops, flagged[..n]);
      DropIs(Others(stops, flagged[..n]), flagged[n]);
      assert flagged == flagged[..n] + [flagged[n]];
    }
  }

  lemma OneIsOther(s: Stop, flagged: seq<Stop>)
    requires s !in flagged
    ensures Others([s], flagged) == [s]
    decreases |flagged|
  {
    if flagged != [] {
      OneIsOther(s, flagged[..|flagged| - 1]);
      DropAbsent([s], flagged[|flagged| - 1]);
    }
  }

  lemma SplitAround(a: seq<Stop>, s: Stop, b: seq<Stop>, before: seq<Stop>)
    requires s !in before
    ensures Others(a + [s] + b, before) == Others(a, before) + [s] + Others(b, before)
  {
    hide Others;
    OthersConcat(a + [s], b, before);
    OthersConcat(a, [s], before);
    OneIsOther(s, before);
  }

  lemma NotBefore(flagged: seq<Stop>, n: nat)
    requires Different(flagged) && n < |flagged|
    ensures flagged[n] !in flagged[..n] && Different(flagged[..n])
  {
  }

  /** Where the stop of flag `n` stands while every earlier flag has moved its own stop. */
  lemma StandsBehind(stops: seq<Stop>, flagged: seq<Stop>, n: nat, i: nat)
    requires Different(flagged) && n < |flagged| && i < |stops| && stops[i] == flagged[n]
    ensures var front := Others(stops[..i], flagged[..n]);
            && Others(stops, flagged[..n]) == front + [flagged[n]] + Others(stops[i + 1..], flagged[..n])
            && forall x :: x in front <==> x in stops[..i] && x !in flagged[..n]
  {
    hide Different; hide Others;
    NotBefore(flagged, n);
    assert stops == stops[..i] + [flagged[n]] + stops[i + 1..];
    SplitAround(stops[..i], flagged[n], stops[i + 1..], flagged[..n]);
    OthersAre(stops[..i], flagged[..n]);
  }

  /** A stop is sought in front of itself, and dropped by moving it. */
  lemma SoughtAt(front: seq<Stop>, s: Stop, back: seq<Stop>)
    requires Different(front + [s] + back)
    ensures var all := front + [s] + back;
            MovedToEnd(all, s.poi, s.name) == Drop(all, s) + [s] <==> forall x :: x in front ==> !Is(x, s.poi, s.name)
  {
    var all := front + [s] + back;
    assert all[|front|] == s;
    FindsItselfIff(all, |front|);
    assert forall j :: 0 <= j < |front| ==> all[j] == front[j];
    var i := Find(all, s.poi, s.name).value;
    DropAt(all, |front|);
    if i != |front| { assert ToEnd(all, i)[|all| - 1] == all[i] != s; }
  }

  lemma Regrouped(a: seq<Stop>, b: seq<Stop>, c: seq<Stop>, d: seq<Stop>)
    ensures a + b + c + d == a + b + (c + d)
  {
  }

  lemma StepIsRightAt(stops: seq<Stop>, flagged: seq<Stop>, n: nat, i: nat)
    requires Different(stops) && Different(flagged) && n < |flagged| && i < |stops| && stops[i] == flagged[n]
    requires PassedBy(stops, flagged, n) == Others(stops, flagged[..n]) + flagged[..n] && Different(PassedBy(stops, flagged, n))
    ensures PassedBy(stops, flagged, n + 1) == Drop(PassedBy(stops, flagged, n), flagged[n]) + [flagged[n]]
            <==> UnmistakenAt(stops, flagged, n)
  {
    hide Others; hide PassedBy; hide Drop; hide Is; hide MovedToEnd; hide Different; hide UnmistakenAt;
    var s, before := flagged[n], flagged[..n];
    var front, back := Others(stops[..i], before), Others(stops[i + 1..], before);
    StandsBehind(stops, flagged, n, i);
    Regrouped(front, [s], back, before);
    PassGoesOn(stops, flagged, n);
    SoughtAt(front, s, back + before);
    AheadIs(stops, flagged, n, i, front);
  }

  lemma StepIsRightIff(stops: seq<Stop>, flagged: seq<Stop>, n: nat)
    requires Different(stops) && Different(flagged) && n < |flagged| && flagged[n] in stops
    requires PassedBy(stops, flagged, n) == Others(stops, flagged[..n]) + flagged[..n] && Different(PassedBy(stops, flagged, n))
    ensures PassedBy(stops, flagged, n + 1) == Drop(PassedBy(stops, flagged, n), flagged[n]) + [flagged[n]]
            <==> UnmistakenAt(stops, flagged, n)
  {
    hide Others; hide PassedBy; hide Drop; hide Is; hide Different; hide UnmistakenAt;
    var i :| 0 <= i < |stops| && stops[i] == flagged[n];
    StepIsRightAt(stops, flagged, n, i);
  }

  lemma AheadIs(stops: seq<Stop>, flagged: seq<Stop>, n: nat, i: nat, front: seq<Stop>)
    requires Different(stops) && n < |flagged| && i < |stops| && stops[i] == flagged[n]
    requires forall x :: x in front <==> x in stops[..i] && x !in flagged[..n]
    ensures UnmistakenAt(stops, flagged, n) <==> forall x :: x in front ==> !Is(x, flagged[n].poi, flagged[n].name)
  {
    hide Is;
    assert forall j :: 0 <= j < i ==> stops[j] in stops[..i];
    if UnmistakenAt(stops, flagged, n) {
      forall x | x in front ensures !Is(x, flagged[n].poi, flagged[n].name) {
        var j :| 0 <= j < i && stops[j] == x;
      }
    }
  }

  lemma DropsKeepDifferent(stops: seq<Stop>, s: Stop)
    requires Different(stops)
    ensures Different(Drop(stops, s) + [s])
  {
    if k :| 0 <= k < |stops| && stops[k] == s {
      DropAt(stops, k);
    } else {
      assert s !in stops;
      DropAbsent(stops, s);
      assert forall i :: 0 <= i < |stops| ==> stops[i] in stops;
    }
  }

  /** As long as every flag moved its own stop, the others come first and the flagged follow. */
  lemma {:induction false} RightSoFar(stops: seq<Stop>, flagged: seq<Stop>, n: nat)
    requires Different(stops) && Different(flagged) && n <= |flagged| && (forall k :: 0 <= k < |flagged| ==> flagged[k] in stops)
    ensures MovesEach(stops, flagged, n) <==> Unmistaken(stops, flagged, n)
    ensures MovesEach(stops, flagged, n) ==>
              PassedBy(stops, flagged, n) == Others(stops, flagged[..n]) + flagged[..n] && Different(PassedBy(stops, flagged, n))
  {
    hide MovesEach; hide Unmistaken; hide UnmistakenAt; hide Different; hide PassedBy; hide Others; hide Drop;
    if n == 0 {
      NothingPassed(stops, flagged);
    } else {
      RightSoFar(stops, flagged, n - 1);
      OneMoreOfEach(stops, flagged, n - 1);
      if MovesEach(stops, flagged, n - 1) {
        StepIsRightIff(stops, flagged, n - 1);
        OneMoreFlag(stops, flagged, n - 1);
        DropsKeepDifferent(PassedBy(stops, flagged, n - 1), flagged[n - 1]);
      }
    }
  }

  lemma NothingPassed(stops: seq<Stop>, flagged: seq<Stop>)
    ensures MovesEach(stops, flagged, 0) && Unmistaken(stops, flagged, 0)
    ensures PassedBy(stops, flagged, 0) == stops == Others(stops, flagged[..0]) + flagged[..0]
  {
    assert flagged[..0] == [] && TargetsFor(0, []) == [];
  }

  lemma OneMoreOfEach(stops: seq<Stop>, flagged: seq<Stop>, n: nat)
    requires n < |flagged|
    ensures MovesEach(stops, flagged, n + 1) <==>
              && MovesEach(stops, flagged, n)
              && PassedBy(stops, flagged, n + 1) == Drop(PassedBy(stops, flagged, n), flagged[n]) + [flagged[n]]
    ensures Unmistaken(stops, flagged, n + 1) <==> Unmistaken(stops, flagged, n) && UnmistakenAt(stops, flagged, n)
  {
    hide PassedBy; hide Drop; hide UnmistakenAt;
  }

  lemma OneMoreFlag(stops: seq<Stop>, flagged: seq<Stop>, n: nat)
    requires Different(flagged) && n < |flagged|
    ensures Drop(Others(stops, flagged[..n]) + flagged[..n], flagged[n]) + [flagged[n]]
            == Others(stops, flagged[..n + 1]) + flagged[..n + 1]
  {
    hide Different; hide Others; hide Drop;
    NotBefore(flagged, n);
    OthersOneMore(stops, flagged, n);
    DropConcat(Others(stops, flagged[..n]), flagged[..n], flagged[n]);
    DropAbsent(flagged[..n], flagged[n]);
    assert flagged[..n + 1] == flagged[..n] + [flagged[n]];
  }

  lemma OthersOneMore(stops: seq<Stop>, flagged: seq<Stop>, n: nat)
    requires n < |flagged|
    ensures Others(stops, flagged[..n + 1]) == Drop(Others(stops, flagged[..n]), flagged[n])
  {
    assert flagged[..n + 1][..n] == flagged[..n];
  }

  // ---- The same by positions ----

  predicate NoRepeats(at: seq<nat>) { forall i, j :: 0 <= i < j < |at| ==> at[i] != at[j] }

  /** No stop in front of the `n`-th flagged one, and not flagged earlier, has its id or name. */
  predicate FoundAt(stops: seq<Stop>, at: seq<nat>, n: nat)
    requires InRange(stops, at) && n < |at|
  {
    forall j :: 0 <= j < at[n] && j !in at[..n] ==> !Is(stops[j], stops[at[n]].poi, stops[at[n]].name)
  }

  lemma TaggedDiffer(stops: seq<Stop>, at: seq<nat>)
    requires InRange(stops, at) && NoRepeats(at)
    ensures Different(Tagged(stops)) && Different(Picked(Tagged(stops), at))
    ensures forall n :: 0 <= n < |at| ==> Picked(Tagged(stops), at)[n] in Tagged(stops)
  {
    forall n | 0 <= n < |at| ensures Picked(Tagged(stops), at)[n] in Tagged(stops) {
      assert Tagged(stops)[at[n]] == Picked(Tagged(stops), at)[n];
    }
  }

  lemma PickedIs(stops: seq<Stop>, at: seq<nat>, n: nat, j: nat)
    requires InRange(stops, at) && n <= |at| && j < |stops|
    ensures Tagged(stops)[j] in Picked(Tagged(stops), at)[..n] <==> j in at[..n]
  {
    var p := Picked(Tagged(stops), at);
    if j in at[..n] {
      var k :| 0 <= k < n && at[k] == j;
      assert p[..n][k] == Tagged(stops)[j];
    }
    if Tagged(stops)[j] in p[..n] {
      var k :| 0 <= k < n && p[k] == Tagged(stops)[j];
      assert at[..n][k] == j;
    }
  }

  lemma FoundIsUnmistaken(stops: seq<Stop>, at: seq<nat>, n: nat)
    requires InRange(stops, at) && NoRepeats(at) && n < |at|
    ensures FoundAt(stops, at, n) <==> UnmistakenAt(Tagged(stops), Picked(Tagged(stops), at), n)
  {
    var tagged, flagged := Tagged(stops), Picked(Tagged(stops), at);
    forall j: nat | j < |stops| ensures tagged[j] in flagged[..n] <==> j in at[..n] { PickedIs(stops, at, n, j); }
    if UnmistakenAt(tagged, flagged, n) {
      forall j | 0 <= j < at[n] && j !in at[..n] ensures !Is(stops[j], stops[at[n]].poi, stops[at[n]].name) {
        assert tagged[at[n]] == flagged[n] && tagged[j] !in flagged[..n];
        assert !Is(tagged[j], flagged[n].poi, flagged[n].name);
      }
    }
    if FoundAt(stops, at, n) {
      forall i, j | 0 <= j < i < |tagged| && tagged[i] == flagged[n] && tagged[j] !in flagged[..n]
        ensures !Is(tagged[j], flagged[n].poi, flagged[n].name)
      {
        assert i == at[n];
      }
    }
  }

  /** The stops the marks stand for. */
  function Untagged(stops: seq<Stop>, marks: seq<Stop>): seq<Stop>
    requires MarksOf(stops, marks)
  {
    seq(|marks|, i requires 0 <= i < |marks| => stops[marks[i].detail])
  }

  ghost predicate MarksOf(stops: seq<Stop>, marks: seq<Stop>) {
    forall i :: 0 <= i < |marks| ==>
      0 <= marks[i].detail < |stops| && marks[i] == stops[marks[i].detail].(detail := marks[i].detail)
  }

  lemma {:induction false} FindSame(a: seq<Stop>, b: seq<Stop>, poi: string, name: string)
    requires |a| == |b| && forall i :: 0 <= i < |a| ==> a[i].poi == b[i].poi && a[i].name == b[i].name
    ensures Find(a, poi, name) == Find(b, poi, name)
  {
    if a != [] { FindSame(a[..|a| - 1], b[..|b| - 1], poi, name); }
  }

  lemma MarksToEnd(stops: seq<Stop>, marks: seq<Stop>, i: nat)
    requires MarksOf(stops, marks) && i < |marks|
    ensures MarksOf(stops, ToEnd(marks, i)) && Untagged(stops, ToEnd(marks, i)) == ToEnd(Untagged(stops, marks), i)
  {
    var moved := ToEnd(marks, i);
    var m := |marks| - 1;
    assert forall j :: 0 <= j < |moved| ==> moved[j] == marks[if j < i then j else if j < m then j + 1 else i];
    hide ToEnd;
    var u, v := Untagged(stops, moved), Untagged(stops, marks);
    MovedAt(v, i);
    assert forall j :: 0 <= j < |moved| ==> u[j] == ToEnd(v, i)[j];
  }

  lemma MovedAt(stops: seq<Stop>, i: nat)
    requires i < |stops|
    ensures |ToEnd(stops, i)| == |stops|
    ensures var m := |stops| - 1;
            forall j :: 0 <= j < |stops| ==> ToEnd(stops, i)[j] == stops[if j < i then j else if j < m then j + 1 else i]
  {
  }

  lemma MovingMarks(stops: seq<Stop>, marks: seq<Stop>, poi: string, name: string)
    requires MarksOf(stops, marks)
    ensures MarksOf(stops, MovedToEnd(marks, poi, name))
    ensures Untagged(stops, MovedToEnd(marks, poi, name)) == MovedToEnd(Untagged(stops, marks), poi, name)
  {
    FindSame(Untagged(stops, marks), marks, poi, name);
    var i := Find(marks, poi, name);
    hide Find; hide MarksOf; hide ToEnd; hide Untagged;
    if i.Some? { MarksToEnd(stops, marks, i.value); }
  }

  /** Marking the stops changes nothing in the pass. */
  lemma {:induction false} MarksDoNotMatter(stops: seq<Stop>, day: int, at: seq<nat>)
    requires InRange(stops, at)
    ensures var r := Reordered(Tagged(stops), TargetsFor(0, Picked(Tagged(stops), at)));
            MarksOf(stops, r) && Reordered(stops, TargetsFor(day, Picked(stops, at))) == Untagged(stops, r)
  {
    if at == [] {
      assert Untagged(stops, Tagged(stops)) == stops;
    } else {
      var n := |at| - 1;
      MarksDoNotMatter(stops, day, at[..n]);
      hide Reordered; hide MovedToEnd; hide MarksOf;
      ReorderedOneMore(stops, day, at);
      ReorderedOneMore(Tagged(stops), 0, at);
      var marks := Reordered(Tagged(stops), TargetsFor(0, Picked(Tagged(stops), at[..n])));
      MovingMarks(stops, marks, stops[at[n]].poi, stops[at[n]].name);
    }
  }

  lemma ReorderedOneMore(stops: seq<Stop>, day: int, at: seq<nat>)
    requires InRange(stops, at) && at != []
    ensures var n := |at| - 1;
            Reordered(stops, TargetsFor(day, Picked(stops, at)))
            == MovedToEnd(Reordered(stops, TargetsFor(day, Picked(stops, at[..n]))), stops[at[n]].poi, stops[at[n]].name)
  {
    var n := |at| - 1;
    var all := TargetsFor(day, Picked(stops, at));
    assert |all| == n + 1 && all[n].poi == stops[at[n]].poi && all[n].name == stops[at[n]].name;
    assert all[..n] == TargetsFor(day, Picked(stops, at[..n]));
    hide MovedToEnd; hide TargetsFor; hide Picked;
  }

  lemma HasElement(stops: seq<Stop>)
    requires stops != []
    ensures exists s :: s in stops
  {
    assert stops[0] in stops;
  }

  lemma OthersOfOne(x: Stop, flagged: seq<Stop>)
    ensures Others([x], flagged) == if x in flagged then [] else [x]
  {
    hide Others;
    if x in flagged {
      OthersAre([x], flagged);
      if Others([x], flagged) != [] { HasElement(Others([x], flagged)); }
    } else {
      OneIsOther(x, flagged);
    }
  }

  lemma {:induction false} OthersOfNone(flagged: seq<Stop>)
    ensures Others([], flagged) == []
  {
    if flagged != [] { OthersOfNone(flagged[..|flagged| - 1]); }
  }

  /** The marks not flagged stand for the stops at the other positions. */
  lemma {:induction false} OthersAreLeft(stops: seq<Stop>, at: seq<nat>, n: nat)
    requires InRange(stops, at) && n <= |stops|
    ensures var rest := Others(Tagged(stops)[..n], Picked(Tagged(stops), at));
            MarksOf(stops, rest) && Untagged(stops, rest) == Without(stops[..n], SetOf(at))
  {
    var tagged, flagged := Tagged(stops), Picked(Tagged(stops), at);
    if n == 0 {
      OthersOfNone(flagged);
    } else {
      hide Others; hide Without; hide Picked;
      OthersAreLeft(stops, at, n - 1);
      OthersOneMarkMore(stops, at, n);
      LeftOneMore(stops, SetOf(at), n);
    }
  }

  lemma OthersOneMarkMore(stops: seq<Stop>, at: seq<nat>, n: nat)
    requires InRange(stops, at) && 1 <= n <= |stops|
    ensures var tagged, flagged := Tagged(stops), Picked(Tagged(stops), at);
            Others(tagged[..n], flagged) == Others(tagged[..n - 1], flagged) + if n - 1 in at then [] else [tagged[n - 1]]
  {
    hide Others; hide Tagged;
    var tagged, flagged := Tagged(stops), Picked(Tagged(stops), at);
    assert tagged[..n] == tagged[..n - 1] + [tagged[n - 1]];
    OthersConcat(tagged[..n - 1], [tagged[n - 1]], flagged);
    OthersOfOne(tagged[n - 1], flagged);
    PickedIs(stops, at, |at|, n - 1);
    assert flagged[..|at|] == flagged && at[..|at|] == at;
  }

  lemma LeftOneMore(stops: seq<Stop>, gone: set<nat>, n: nat)
    requires 1 <= n <= |stops|
    ensures Without(stops[..n], gone) == Without(stops[..n - 1], gone) + if n - 1 in gone then [] else [stops[n - 1]]
  {
    assert stops[..n][..n - 1] == stops[..n - 1];
  }

  /** The first pass on a day with the positions `at` flagged, each once: every flag moves the
      stop it was raised for exactly if none is found too early, and then the others stay in
      their order and the flagged follow in the order of their issues. */
  lemma FirstPassRightIff(stops: seq<Stop>, day: int, at: seq<nat>)
    requires InRange(stops, at) && NoRepeats(at)
    ensures MovesEach(Tagged(stops), Picked(Tagged(stops), at), |at|) <==> AllFound(stops, at)
    ensures AllFound(stops, at) ==>
              Reordered(stops, TargetsFor(day, Picked(stops, at))) == Without(stops, SetOf(at)) + Picked(stops, at)
  {
    hide AllFound; hide Different; hide Others; hide Reordered; hide Drop; hide Without; hide MovesEach; hide Unmistaken;
    hide Tagged; hide Picked;
    var tagged, flagged := Tagged(stops), Picked(Tagged(stops), at);
    TaggedDiffer(stops, at);
    FlaggedCount(tagged, at);
    RightSoFar(tagged, flagged, |at|);
    FoundIsUnmistakenAll(stops, at);
    if AllFound(stops, at) { RightPass(stops, day, at); }
  }

  lemma FlaggedCount(stops: seq<Stop>, at: seq<nat>)
    requires InRange(stops, at)
    ensures |Picked(stops, at)| == |at|
  {
  }

  /** The pass finds every flagged stop. */
  predicate AllFound(stops: seq<Stop>, at: seq<nat>)
    requires InRange(stops, at)
  {
    forall n :: 0 <= n < |at| ==> FoundAt(stops, at, n)
  }

  lemma FoundIsUnmistakenAll(stops: seq<Stop>, at: seq<nat>)
    requires InRange(stops, at) && NoRepeats(at)
    ensures AllFound(stops, at) <==> Unmistaken(Tagged(stops), Picked(Tagged(stops), at), |at|)
  {
    hide FoundAt; hide UnmistakenAt; hide Tagged;
    forall n: nat | n < |at|
      ensures FoundAt(stops, at, n) <==> UnmistakenAt(Tagged(stops), Picked(Tagged(stops), at), n)
    {
      FoundIsUnmistaken(stops, at, n);
    }
  }

  lemma RightPass(stops: seq<Stop>, day: int, at: seq<nat>)
    requires InRange(stops, at)
    requires var tagged := Tagged(stops);
             PassedBy(tagged, Picked(tagged, at), |at|) == Others(tagged, Picked(tagged, at)[..|at|]) + Picked(tagged, at)[..|at|]
    ensures Reordered(stops, TargetsFor(day, Picked(stops, at))) == Without(stops, SetOf(at)) + Picked(stops, at)
  {
    hide Others; hide Reordered; hide Without;
    var tagged, flagged := Tagged(stops), Picked(Tagged(stops), at);
    assert flagged[..|at|] == flagged && tagged[..|stops|] == tagged && stops[..|stops|] == stops;
    MarksDoNotMatter(stops, day, at);
    OthersAreLeft(stops, at, |stops|);
    assert Untagged(stops, flagged) == Picked(stops, at);
    assert Untagged(stops, Others(tagged, flagged) + flagged) == Untagged(stops, Others(tagged, flagged)) + Untagged(stops, flagged);
  }

  /** Two stops of one name on a day: the flagged second one stays and the first is moved. */
  lemma SameNameMovesTheFirst()
    ensures var a, b, c := Stop("1", "Temple", 0), Stop("2", "Temple", 0), Stop("3", "Park", 0);
            && !FoundAt([a, b, c], [1], 0)
            && Reordered([a, b, c], TargetsFor(0, Picked([a, b, c], [1]))) == [b, c, a]
  {
    var a, b, c := Stop("1", "Temple", 0), Stop("2", "Temple", 0), Stop("3", "Park", 0);
    var s := [a, b, c];
    assert Is(s[0], b.poi, b.name);
    assert Find(s, b.poi, b.name) == Some(0);
    assert s[..0] + s[1..] + [s[0]] == [b, c, a];
    ReorderedOneMore(s, 0, [1]);
    assert Picked(s, []) == [] && TargetsFor(0, []) == [] && [1][..0] == [];
    assert Reordered(s, TargetsFor(0, Picked(s, [1][..0]))) == s;
  }

  // ---- Deleting what is still in conflict ----

  /** The stops whose original positions are not in `gone`. */
  function Without(stops: seq<Stop>, gone: set<nat>): seq<Stop> {
    if stops == [] then []
    else Without(stops[..|stops| - 1], gone) + if |stops| - 1 in gone then [] else [stops[|stops| - 1]]
  }

  lemma {:induction false} WithoutNothing(stops: seq<Stop>, gone: set<nat>)
    requires forall i :: i in gone ==> i >= |stops|
    ensures Without(stops, gone) == stops
  {
    if stops != [] { WithoutNothing(stops[..|stops| - 1], gone); }
  }

  lemma LastWithout(stops: seq<Stop>, gone: set<nat>)
    requires stops != []
    ensures var n := |stops| - 1;
            Without(stops, gone) == Without(stops[..n], gone) + if n in gone then [] else [stops[n]]
  {
  }

  lemma PopBeforeLast(kept: seq<Stop>, last: seq<Stop>, i: nat)
    requires i < |kept|
    ensures (kept + last)[..i] + (kept + last)[i + 1..] == kept[..i] + kept[i + 1..] + last
  {
  }

  /** With everything behind position `i` settled, popping `i` removes the stop that was
      there at the start. */
  lemma {:induction false} PopRemoves(stops: seq<Stop>, gone: set<nat>, i: nat)
    requires i < |stops| && forall j :: j in gone ==> j > i
    ensures i < |Without(stops, gone)| && Without(stops, gone)[i] == stops[i]
    ensures Without(stops, gone + {i}) == Without(stops, gone)[..i] + Without(stops, gone)[i + 1..]
  {
    hide Without;
    var n := |stops| - 1;
    var front := stops[..n];
    LastWithout(stops, gone);
    LastWithout(stops, gone + {i});
    if i == n {
      WithoutNothing(stops, gone);
      WithoutNothing(front, gone);
      WithoutSame(front, gone, i);
      assert stops[i + 1..] == [];
    } else {
      PopRemoves(front, gone, i);
      PopBeforeLast(Without(front, gone), if n in gone then [] else [stops[n]], i);
    }
  }

  lemma {:induction false} WithoutSame(stops: seq<Stop>, gone: set<nat>, i: nat)
    requires i >= |stops|
    ensures Without(stops, gone + {i}) == Without(stops, gone)
  {
    if stops != [] { WithoutSame(stops[..|stops| - 1], gone, i); }
  }

  lemma {:induction false} WithoutLength(stops: seq<Stop>, gone: set<nat>)
    requires forall i :: i in gone ==> i < |stops|
    ensures |Without(stops, gone)| == |stops| - |gone|
  {
    if stops == [] {
      assert gone == {};
    } else {
      var last := |stops| - 1;
      WithoutLength(stops[..last], gone - {last});
      WithoutSame(stops[..last], gone - {last}, last);
      if last in gone { assert gone - {last} + {last} == gone; } else { assert gone - {last} == gone; }
    }
  }

  /** Popping positions one after the other; None for an IndexError. */
  function PopAll(stops: seq<Stop>, at: seq<nat>): Option<seq<Stop>> {
    if at == [] then Some(stops)
    else if at[0] >= |stops| then None
    else PopAll(stops[..at[0]] + stops[at[0] + 1..], at[1..])
  }

  predicate Descending(at: seq<nat>) { forall i, j :: 0 <= i < j < |at| ==> at[i] >= at[j] }

  function SetOf(at: seq<nat>): set<nat> { set i | i in at }

  lemma {:induction false} PopAllLength(stops: seq<Stop>, at: seq<nat>)
    requires PopAll(stops, at).Some?
    ensures |PopAll(stops, at).value| == |stops| - |at|
  {
    if at != [] { PopAllLength(stops[..at[0]] + stops[at[0] + 1..], at[1..]); }
  }

  lemma {:induction false} PopsFlagged(stops: seq<Stop>, gone: set<nat>, at: seq<nat>)
    requires Descending(at) && NoRepeats(at)
    requires forall i :: i in at ==> i < |stops| && forall j :: j in gone ==> j > i
    ensures PopAll(Without(stops, gone), at) == Some(Without(stops, gone + SetOf(at)))
    decreases |at|
  {
    if at == [] {
      assert gone + SetOf(at) == gone;
    } else {
      assert at[0] in at;
      PopRemoves(stops, gone, at[0]);
      assert forall i :: i in at[1..] ==> i in at;
      forall i, j | i in at[1..] && j in gone + {at[0]} ensures j > i {
        var k :| 0 <= k < |at[1..]| && at[1..][k] == i;
        assert at[k + 1] == i && at[0] >= at[k + 1] && at[0] != at[k + 1];
      }
      PopsFlagged(stops, gone + {at[0]}, at[1..]);
      assert gone + {at[0]} + SetOf(at[1..]) == gone + SetOf(at) by {
        assert forall i :: i in at <==> i == at[0] || i in at[1..];
      }
    }
  }

  lemma OneMoreIn(front: seq<nat>, x: nat)
    ensures SetOf(front + [x]) == SetOf(front) + {x}
    ensures x !in front && NoRepeats(front) ==> NoRepeats(front + [x])
  {
    assert forall i :: 0 <= i < |front| ==> front[i] in front;
    assert forall y :: y in front + [x] <==> y in front || y == x;
  }

  lemma {:induction false} RepeatsShrink(at: seq<nat>)
    ensures |SetOf(at)| <= |at|
    ensures !NoRepeats(at) ==> |SetOf(at)| < |at|
  {
    if at != [] {
      var n := |at| - 1;
      var front, x := at[..n], at[n];
      RepeatsShrink(front);
      OneMoreIn(front, x);
      assert at == front + [x];
      hide NoRepeats;
      if x in front { assert SetOf(front) + {x} == SetOf(front); }
    }
  }

  /** Deleting positions from the highest down removes exactly the flagged stops if and only
      if no position is listed twice. */
  lemma DeletesExactlyIff(stops: seq<Stop>, at: seq<nat>)
    requires Descending(at) && forall i :: i in at ==> i < |stops|
    ensures PopAll(stops, at) == Some(Without(stops, SetOf(at))) <==> NoRepeats(at)
  {
    WithoutNothing(stops, {});
    if NoRepeats(at) {
      PopsFlagged(stops, {}, at);
      assert {} + SetOf(at) == SetOf(at);
    } else if PopAll(stops, at).Some? {
      PopAllLength(stops, at);
      WithoutLength(stops, SetOf(at));
      RepeatsShrink(at);
    }
  }
}
