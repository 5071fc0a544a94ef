/** The two passes of the repair, in place on copied day lists, and the decision around them. */
module OpeningHoursRepair {
  import opened Basics
  import opened OpeningHours

  type Lists = seq<seq<Stop>>

  function AllStops(ls: Lists): multiset<Stop> {
    if ls == [] then multiset{} else AllStops(ls[..|ls| - 1]) + multiset(ls[|ls| - 1])
  }

  lemma {:induction false} AllStopsUpdate(ls: Lists, p: nat, stops: seq<Stop>)
    requires p < |ls|
    ensures AllStops(ls[p := stops]) + multiset(ls[p]) == AllStops(ls) + multiset(stops)
  {
    var n := |ls| - 1;
    if p < n {
      AllStopsUpdate(ls[..n], p, stops);
      var changed := ls[p := stops];
      assert changed[..n] == ls[..n][p := stops] && changed[n] == ls[n];
      var (was, now, last) := (AllStops(ls[..n]), AllStops(changed[..n]), multiset(ls[n]));
      assert now + last + multiset(ls[p]) == (now + multiset(ls[p])) + last;
      assert was + last + multiset(stops) == (was + multiset(stops)) + last;
    } else {
      assert ls[p := stops][..n] == ls[..n];
    }
  }

  function ListsOf(plan: Plan): Lists { seq(|plan|, p requires 0 <= p < |plan| => plan[p].stops) }

  function WithLists(plan: Plan, ls: Lists): Plan
    requires |ls| == |plan|
  {
    seq(|plan|, p requires 0 <= p < |plan| => plan[p].(stops := ls[p]))
  }

  // ---- The first pass ----

  /** The targets of the repairable, indexed opening-hours issues, in issue order. */
  function TargetsOf(plan: Plan, issues: seq<Issue>): seq<Target> {
    if issues == [] then []
    else
      var x := issues[|issues| - 1];
      var rest := TargetsOf(plan, issues[..|issues| - 1]);
      var p := DayPosition(plan, x.day);
      if x.opening && x.repairable && x.at.Some? && p.Some? && x.at.value < |plan[p.value].stops|
      then rest + [Target(x.day, plan[p.value].stops[x.at.value].poi, plan[p.value].stops[x.at.value].name)]
      else rest
  }

  method CollectTargets(plan: Plan, issues: seq<Issue>) returns (targets: seq<Target>)
    ensures targets == TargetsOf(plan, issues)
  {
    targets := [];
    for i := 0 to |issues|
      invariant targets == TargetsOf(plan, issues[..i])
    {
      var x := issues[i];
      assert issues[..i + 1][..i] == issues[..i];
      if !(x.opening && x.repairable && x.at.Some?) { continue; }
      var p := DayPosition(plan, x.day);
      if p.None? || x.at.value >= |plan[p.value].stops| { continue; }
      var stop := plan[p.value].stops[x.at.value];
      targets := targets + [Target(x.day, stop.poi, stop.name)];
    }
    assert issues[..|issues|] == issues;
  }

  lemma Cancel(a: multiset<Stop>, b: multiset<Stop>, c: multiset<Stop>)
    requires a + c == b + c
    ensures a == b
  {
    forall x ensures a[x] == b[x] { assert (a + c)[x] == (b + c)[x]; }
  }

  lemma MovedIsPermuted(stops: seq<Stop>, poi: string, name: string)
    ensures multiset(MovedToEnd(stops, poi, name)) == multiset(stops)
  {
    var i := Find(stops, poi, name);
    hide Find; hide ToEnd;
    if i.Some? { MovingKeepsAll(stops, i.value); }
  }

  lemma MovingConserves(ls: Lists, p: nat, poi: string, name: string)
    requires p < |ls|
    ensures AllStops(ls[p := MovedToEnd(ls[p], poi, name)]) == AllStops(ls)
  {
    hide AllStops; hide Find; hide MovedToEnd;
    var moved := MovedToEnd(ls[p], poi, name);
    MovedIsPermuted(ls[p], poi, name);
    AllStopsUpdate(ls, p, moved);
    Cancel(AllStops(ls[p := moved]), AllStops(ls), multiset(moved));
  }

  /** One stop is popped and appended to its day, unless it is last already. */
  method MoveOne(lists: array<seq<Stop>>, p: nat, poi: string, name: string)
    requires p < lists.Length
    modifies lists
    ensures lists[..] == old(lists[..])[p := MovedToEnd(old(lists[p]), poi, name)]
    ensures AllStops(lists[..]) == AllStops(old(lists[..]))
  {
    hide AllStops;
    MovingConserves(lists[..], p, poi, name);
    var day := lists[p];
    var found := Find(day, poi, name);
    if found.None? {
      assert lists[..] == lists[..][p := day];
      return;
    }
    var i := found.value;
    if i != |day| - 1 {
      var moved := day[i];
      day := day[..i] + day[i + 1..];
      day := day + [moved];
    }
    assert day == MovedToEnd(old(lists[p]), poi, name);
    hide MovedToEnd; hide Find;
    lists[p] := day;
    assert lists[..] == old(lists[..])[p := day];
  }

  ghost predicate MovedBy(plan: Plan, ls: Lists, start: Lists, targets: seq<Target>) {
    |ls| == |start| && forall p :: 0 <= p < |ls| ==> ls[p] == Reordered(start[p], TargetsAt(plan, targets, p))
  }

  lemma MovedByOne(plan: Plan, ls: Lists, start: Lists, targets: seq<Target>, t: Target, next: Lists)
    requires MovedBy(plan, ls, start, targets) && |ls| == |plan|
    requires var p := DayPosition(plan, t.day);
             next == if p.None? then ls else ls[p.value := MovedToEnd(ls[p.value], t.poi, t.name)]
    ensures MovedBy(plan, next, start, targets + [t])
  {
    assert (targets + [t])[..|targets|] == targets;
    forall q | 0 <= q < |next| ensures next[q] == Reordered(start[q], TargetsAt(plan, targets + [t], q)) {
      var before := TargetsAt(plan, targets, q);
      assert (before + [t])[..|before|] == before;
      assert before + [] == before;
    }
  }

  /** Every target in turn is moved behind the other stops of its day. */
  method ReorderConflicts(plan: Plan, lists: array<seq<Stop>>, targets: seq<Target>)
    requires lists.Length == |plan|
    modifies lists
    ensures MovedBy(plan, lists[..], old(lists[..]), targets)
    ensures AllStops(lists[..]) == AllStops(old(lists[..]))
  {
    hide Reordered; hide TargetsAt; hide MovedToEnd; hide AllStops;
    assert MovedBy(plan, lists[..], lists[..], []) by { NothingMoved(plan, lists[..]); }
    hide MovedBy;
    for k := 0 to |targets|
      invariant MovedBy(plan, lists[..], old(lists[..]), targets[..k])
      invariant AllStops(lists[..]) == AllStops(old(lists[..]))
    {
      var t := targets[k];
      var position := DayPosition(plan, t.day);
      ghost var was := lists[..];
      if position.Some? { MoveOne(lists, position.value, t.poi, t.name); }
      MovedByOne(plan, was, old(lists[..]), targets[..k], t, lists[..]);
      assert targets[..k + 1] == targets[..k] + [t];
    }
    assert targets[..|targets|] == targets;
  }

  /** The stops of the day at position `p` that repairable issues flag, in issue order. */
  function FlaggedAt(plan: Plan, issues: seq<Issue>, p: nat): seq<Stop>
    requires p < |plan|
  {
    if issues == [] then []
    else
      var x := issues[|issues| - 1];
      FlaggedAt(plan, issues[..|issues| - 1], p)
      + if x.opening && x.repairable && x.at.Some? && DayPosition(plan, x.day) == Some(p) && x.at.value < |plan[p].stops|
        then [plan[p].stops[x.at.value]] else []
  }

  /** Their positions. */
  function PositionsAt(plan: Plan, issues: seq<Issue>, p: nat): (at: seq<nat>)
    requires p < |plan|
  {
    if issues == [] then []
    else
      var x := issues[|issues| - 1];
      PositionsAt(plan, issues[..|issues| - 1], p)
      + if x.opening && x.repairable && x.at.Some? && DayPosition(plan, x.day) == Some(p) && x.at.value < |plan[p].stops|
        then [x.at.value] else []
  }

  lemma {:induction false} FlaggedArePicked(plan: Plan, issues: seq<Issue>, p: nat)
    requires p < |plan|
    ensures InRange(plan[p].stops, PositionsAt(plan, issues, p))
    ensures FlaggedAt(plan, issues, p) == Picked(plan[p].stops, PositionsAt(plan, issues, p))
  {
    if issues != [] {
      hide DayPosition;
      FlaggedArePicked(plan, issues[..|issues| - 1], p);
    }
  }

  /** The repair can act on the issue: it names a stop of a day of the plan. */
  predicate Raised(plan: Plan, x: Issue) {
    var q := DayPosition(plan, x.day);
    x.opening && x.repairable && x.at.Some? && q.Some? && x.at.value < |plan[q.value].stops|
  }

  lemma LastFlagged(plan: Plan, issues: seq<Issue>, p: nat)
    requires issues != [] && p < |plan|
    ensures var x, front := issues[|issues| - 1], issues[..|issues| - 1];
            var q := DayPosition(plan, x.day);
            && TargetsOf(plan, issues) == TargetsOf(plan, front)
               + (if Raised(plan, x)
                  then var s := plan[q.value].stops[x.at.value]; [Target(x.day, s.poi, s.name)] else [])
            && FlaggedAt(plan, issues, p) == FlaggedAt(plan, front, p)
               + (if Raised(plan, x) && q == Some(p) then [plan[p].stops[x.at.value]] else [])
  {
    hide DayPosition;
  }

  lemma NoTargets(plan: Plan, p: nat)
    requires p < |plan|
    ensures TargetsAt(plan, [], p) == TargetsFor(StableIndex(plan, p), [])
  {
  }

  lemma PlaceOfDay(plan: Plan, day: int, p: nat)
    requires p < |plan| && DayPosition(plan, day) == Some(p)
    ensures StableIndex(plan, p) == day
  {
    PositionOfDay(plan, day, 0);
  }

  lemma TargetsAtNext(plan: Plan, rest: seq<Target>, t: Target, p: nat)
    ensures TargetsAt(plan, rest + [t], p)
            == TargetsAt(plan, rest, p) + if DayPosition(plan, t.day) == Some(p) then [t] else []
  {
    hide DayPosition;
    assert (rest + [t])[..|rest|] == rest;
  }

  lemma TargetsForNext(day: int, flagged: seq<Stop>, s: Stop)
    ensures TargetsFor(day, flagged + [s]) == TargetsFor(day, flagged) + [Target(day, s.poi, s.name)]
  {
  }

  lemma {:induction false} TargetsAreFlagged(plan: Plan, issues: seq<Issue>, p: nat)
    requires p < |plan|
    ensures TargetsAt(plan, TargetsOf(plan, issues), p) == TargetsFor(StableIndex(plan, p), FlaggedAt(plan, issues, p))
    ensures forall i :: 0 <= i < |FlaggedAt(plan, issues, p)| ==> FlaggedAt(plan, issues, p)[i] in plan[p].stops
  {
    if issues == [] {
      NoTargets(plan, p);
      return;
    }
    var n := |issues| - 1;
    var x := issues[n];
    LastFlagged(plan, issues, p);
    hide TargetsAt; hide TargetsFor; hide TargetsOf; hide FlaggedAt; hide DayPosition; hide StableIndex;
    TargetsAreFlagged(plan, issues[..n], p);
    var q := DayPosition(plan, x.day);
    if Raised(plan, x) {
      var stop := plan[q.value].stops[x.at.value];
      TargetsAtNext(plan, TargetsOf(plan, issues[..n]), Target(x.day, stop.poi, stop.name), p);
      if q.value == p {
        PlaceOfDay(plan, x.day, p);
        TargetsForNext(x.day, FlaggedAt(plan, issues[..n], p), stop);
      }
    }
  }

  /** The first pass on a day of distinct stops: the stops nobody flagged, as they were, then
      the flagged ones in the order of their issues. */
  lemma FirstPassIs(plan: Plan, issues: seq<Issue>, ls: Lists, p: nat)
    requires MovedBy(plan, ls, ListsOf(plan), TargetsOf(plan, issues)) && p < |plan| && Distinct(plan[p].stops)
    ensures var flagged := FlaggedAt(plan, issues, p);
            && ls[p] == Others(plan[p].stops, flagged) + InIssueOrder(flagged)
            && (Different(flagged) ==> ls[p] == Others(plan[p].stops, flagged) + flagged)
  {
    hide DayPosition; hide Distinct; hide Different;
    TargetsAreFlagged(plan, issues, p);
    if Different(FlaggedAt(plan, issues, p)) { FlaggedOnce(FlaggedAt(plan, issues, p)); }
    ReorderedIs(plan[p].stops, StableIndex(plan, p), FlaggedAt(plan, issues, p));
    hide TargetsAt; hide TargetsOf; hide Reordered; hide FlaggedAt; hide Others; hide InIssueOrder;
  }

  /** On any day, each stop flagged once: every flag moves the stop it was raised for exactly if
      the search finds none too early, and then the others stay and the flagged follow. */
  lemma FirstPassRightOnDay(plan: Plan, issues: seq<Issue>, ls: Lists, p: nat)
    requires MovedBy(plan, ls, ListsOf(plan), TargetsOf(plan, issues)) && p < |plan|
    requires NoRepeats(PositionsAt(plan, issues, p))
    ensures var stops, at := plan[p].stops, PositionsAt(plan, issues, p);
            && InRange(stops, at)
            && (MovesEach(Tagged(stops), Picked(Tagged(stops), at), |at|) <==> AllFound(stops, at))
            && (AllFound(stops, at) ==> ls[p] == Without(stops, SetOf(at)) + Picked(stops, at))
  {
    hide DayPosition; hide AllFound; hide MovesEach; hide NoRepeats; hide Reordered; hide Without; hide PositionsAt; hide FlaggedAt;
    var stops, at := plan[p].stops, PositionsAt(plan, issues, p);
    TargetsAreFlagged(plan, issues, p);
    FlaggedArePicked(plan, issues, p);
    FirstPassRightIff(stops, StableIndex(plan, p), at);
  }

  lemma NothingMoved(plan: Plan, ls: Lists)
    ensures MovedBy(plan, ls, ls, [])
  {
  }

  // ---- The second pass ----

  type Place = (nat, nat)

  predicate After(a: Place, b: Place) { a.0 > b.0 || (a.0 == b.0 && a.1 > b.1) }

  ghost predicate Falling(at: seq<Place>) { forall i, j :: 0 <= i < j < |at| ==> After(at[i], at[j]) }

  ghost predicate AllDiffer(at: seq<Place>) { forall i, j :: 0 <= i < j < |at| ==> at[i] != at[j] }

  /** `sorted(..., reverse=True)` of places without repetition. */
  function InsertFalling(at: seq<Place>, x: Place): seq<Place> {
    if at == [] then [x]
    else if After(at[0], x) then [at[0]] + InsertFalling(at[1..], x)
    else [x] + at
  }

  function SortedFalling(at: seq<Place>): seq<Place> {
    if at == [] then [] else InsertFalling(SortedFalling(at[1..]), at[0])
  }

  lemma {:induction false} InsertIsFalling(at: seq<Place>, x: Place)
    requires Falling(at) && x !in at
    ensures Falling(InsertFalling(at, x))
    ensures forall y :: y in InsertFalling(at, x) <==> y == x || y in at
  {
    if at != [] {
      assert forall y :: y in at <==> y == at[0] || y in at[1..];
      if After(at[0], x) {
        InsertIsFalling(at[1..], x);
        assert forall y :: y in at[1..] ==> After(at[0], y);
      } else {
        assert x != at[0] && After(x, at[0]);
        assert forall y :: y in at ==> After(x, y);
      }
    }
  }

  lemma {:induction false} SortIsFalling(at: seq<Place>)
    requires AllDiffer(at)
    ensures Falling(SortedFalling(at))
    ensures forall y :: y in SortedFalling(at) <==> y in at
  {
    if at != [] {
      SortIsFalling(at[1..]);
      assert at[0] !in at[1..];
      InsertIsFalling(SortedFalling(at[1..]), at[0]);
    }
  }

  function GoneFrom(at: seq<Place>, p: nat): set<nat> { set x | x in at && x.0 == p :: x.1 }

  lemma PoppedIsOneLess(stops: seq<Stop>, i: nat)
    requires i < |stops|
    ensures multiset(stops) == multiset{stops[i]} + multiset(stops[..i] + stops[i + 1..])
  {
    assert stops == stops[..i] + ([stops[i]] + stops[i + 1..]);
  }

  lemma Regroup(a: multiset<Stop>, x: multiset<Stop>, c: multiset<Stop>, b: multiset<Stop>)
    requires a + (x + c) == b + c
    ensures a + x == b
  {
    assert a + (x + c) == (a + x) + c;
    Cancel(a + x, b, c);
  }

  lemma PoppingConserves(ls: Lists, p: nat, i: nat)
    requires p < |ls| && i < |ls[p]|
    ensures AllStops(ls[p := ls[p][..i] + ls[p][i + 1..]]) + multiset{ls[p][i]} == AllStops(ls)
  {
    hide AllStops;
    var day := ls[p];
    var rest := day[..i] + day[i + 1..];
    PoppedIsOneLess(day, i);
    AllStopsUpdate(ls, p, rest);
    Regroup(AllStops(ls[p := rest]), multiset{day[i]}, multiset(rest), AllStops(ls));
  }

  ghost predicate DeletedFrom(ls: Lists, start: Lists, gone: seq<Place>) {
    |ls| == |start| && forall p :: 0 <= p < |ls| ==> ls[p] == Without(start[p], GoneFrom(gone, p))
  }

  lemma DeletedNothing(ls: Lists)
    ensures DeletedFrom(ls, ls, [])
  {
    forall p | 0 <= p < |ls| ensures ls[p] == Without(ls[p], GoneFrom([], p)) { WithoutNothing(ls[p], GoneFrom([], p)); }
  }

  /** The next place is still where it was at the start, because only later ones are gone. */
  lemma StillThere(ls: Lists, start: Lists, order: seq<Place>, k: nat)
    requires k < |order| && DeletedFrom(ls, start, order[..k]) && Falling(order)
    requires order[k].0 < |start| && order[k].1 < |start[order[k].0]|
    ensures var (p, i) := order[k];
            && i < |ls[p]| && ls[p][i] == start[p][i]
            && DeletedFrom(ls[p := ls[p][..i] + ls[p][i + 1..]], start, order[..k + 1])
  {
    var (p, i) := order[k];
    forall j | j in GoneFrom(order[..k], p) ensures j > i {
      var n :| 0 <= n < k && order[..k][n] == (p, j);
      assert After(order[n], order[k]);
    }
    PopRemoves(start[p], GoneFrom(order[..k], p), i);
    hide Without; hide GoneFrom; hide Falling;
    forall q | 0 <= q < |ls|
      ensures GoneFrom(order[..k + 1], q) == GoneFrom(order[..k], q) + if q == p then {i} else {}
    {
      GoneGrows(order, k, q);
    }
    forall q | 0 <= q < |ls| && q != p
      ensures GoneFrom(order[..k + 1], q) == GoneFrom(order[..k], q)
    {
      GoneGrows(order, k, q);
    }
  }

  predicate InLists(ls: Lists, at: seq<Place>) { forall x :: x in at ==> x.0 < |ls| && x.1 < |ls[x.0]| }

  /** The stops at these places. */
  function StopsAt(ls: Lists, at: seq<Place>): seq<Stop>
    requires InLists(ls, at)
  {
    seq(|at|, k requires 0 <= k < |at| => ls[at[k].0][at[k].1])
  }

  /** Popping place after place, whatever has been popped before; None for an IndexError. */
  function PopPlaces(ls: Lists, order: seq<Place>): Option<Lists>
    decreases |order|
  {
    if order == [] then Some(ls)
    else
      var (p, i) := order[0];
      if p >= |ls| || i >= |ls[p]| then None else PopPlaces(ls[p := ls[p][..i] + ls[p][i + 1..]], order[1..])
  }

  /** The pops of the second pass; the names were taken down before. */
  method DeleteConflicts(lists: array<seq<Stop>>, order: seq<Place>) returns (names: seq<string>, failed: bool)
    requires InLists(lists[..], order)
    modifies lists
    ensures match PopPlaces(old(lists[..]), order)
            case None => failed
            case Some(ls) => !failed && lists[..] == ls && names == Backwards(NamesOf(StopsAt(old(lists[..]), order)))
  {
    var recorded := NamesOf(StopsAt(lists[..], order));
    hide StopsAt; hide NamesOf; hide InLists;
    names := [];
    assert order[0..] == order;
    for k := 0 to |order|
      invariant PopPlaces(lists[..], order[k..]) == PopPlaces(old(lists[..]), order)
      invariant names == recorded[..k]
    {
      var (p, i) := order[k];
      assert order[k..][1..] == order[k + 1..];
      if p >= lists.Length || i >= |lists[p]| { return names, true; }
      ghost var was := lists[..];
      lists[p] := lists[p][..i] + lists[p][i + 1..];
      assert lists[..] == was[p := was[p][..i] + was[p][i + 1..]];
      names := names + [recorded[k]];
    }
    assert order[|order|..] == [] && recorded[..|order|] == recorded;
    return Backwards(names), false;
  }

  function NamesOf(stops: seq<Stop>): (names: seq<string>)
    ensures |names| == |stops|
  {
    seq(|stops|, k requires 0 <= k < |stops| => stops[k].name)
  }

  /** list.reverse() */
  function Backwards<T>(s: seq<T>): (r: seq<T>)
    ensures |r| == |s| && forall k :: 0 <= k < |s| ==> r[k] == s[|s| - 1 - k]
  {
    if s == [] then [] else [s[|s| - 1]] + Backwards(s[..|s| - 1])
  }

  /** From the last place to the first, no deletion shifts a later one: exactly the stops at the
      places go. */
  lemma {:induction false} PopsFromLast(ls: Lists, start: Lists, order: seq<Place>, k: nat)
    requires Falling(order) && InLists(start, order) && k <= |order| && DeletedFrom(ls, start, order[..k])
    ensures var r := PopPlaces(ls, order[k..]);
            && r.Some? && DeletedFrom(r.value, start, order)
            && AllStops(r.value) + multiset(StopsAt(start, order)[k..]) == AllStops(ls)
    decreases |order| - k
  {
    hide AllStops; hide DeletedFrom; hide Falling; hide InLists;
    if k == |order| {
      assert order[..k] == order && order[k..] == [];
    } else {
      var (p, i) := order[k];
      PlaceInLists(start, order, k);
      StillThere(ls, start, order, k);
      SameCount(ls, start, order[..k]);
      PoppingConserves(ls, p, i);
      var next := ls[p := ls[p][..i] + ls[p][i + 1..]];
      PopsFromLast(next, start, order, k + 1);
      assert order[k..][1..] == order[k + 1..] && order[k..][0] == order[k];
      var all := StopsAt(start, order);
      assert all[k..] == [all[k]] + all[k + 1..] && all[k] == ls[p][i];
    }
  }

  lemma PlaceInLists(ls: Lists, at: seq<Place>, k: nat)
    requires InLists(ls, at) && k < |at|
    ensures at[k].0 < |ls| && at[k].1 < |ls[at[k].0]| && StopsAt(ls, at)[k] == ls[at[k].0][at[k].1]
  {
    assert at[k] in at;
  }

  lemma SameCount(ls: Lists, start: Lists, gone: seq<Place>)
    requires DeletedFrom(ls, start, gone)
    ensures |ls| == |start|
  {
  }

  lemma GoneGrows(order: seq<Place>, k: nat, q: nat)
    requires k < |order|
    ensures GoneFrom(order[..k + 1], q) == GoneFrom(order[..k], q) + if q == order[k].0 then {order[k].1} else {}
  {
    assert order[..k + 1] == order[..k] + [order[k]];
    assert forall x :: x in order[..k + 1] <==> x in order[..k] || x == order[k];
    forall y ensures y in GoneFrom(order[..k + 1], q) <==> y in GoneFrom(order[..k], q) || (q == order[k].0 && y == order[k].1) {
      if y in GoneFrom(order[..k + 1], q) { assert (q, y) in order[..k + 1]; }
      if y in GoneFrom(order[..k], q) { assert (q, y) in order[..k]; }
    }
  }

  /** A day without a place is left alone. */
  lemma {:induction false} PopsElsewhere(ls: Lists, order: seq<Place>, q: nat)
    requires q < |ls| && PopPlaces(ls, order).Some? && forall x :: x in order ==> x.0 != q
    ensures q < |PopPlaces(ls, order).value| && PopPlaces(ls, order).value[q] == ls[q]
    decreases |order|
  {
    if order != [] {
      assert order[0] in order;
      var (p, i) := order[0];
      PopsElsewhere(ls[p := ls[p][..i] + ls[p][i + 1..]], order[1..], q);
    }
  }

  // ---- Which places the issues name ----

  predicate Indexed(x: Issue) { x.opening && x.at.Some? }

  predicate NoneIndexed(issues: seq<Issue>) { forall i :: 0 <= i < |issues| ==> !Indexed(issues[i]) }

  predicate NoneOpening(issues: seq<Issue>) { forall i :: 0 <= i < |issues| ==> !issues[i].opening }

  predicate Hits(plan: Plan, ls: Lists, day: int, i: nat)
    requires |ls| == |plan|
  {
    DayPosition(plan, day).Some? && i < |ls[DayPosition(plan, day).value]|
  }

  /** The day numbers and positions in the issues still open. */
  function NumbersOf(issues: seq<Issue>): seq<(int, nat)> {
    if issues == [] then []
    else
      var x := issues[|issues| - 1];
      NumbersOf(issues[..|issues| - 1]) + if Indexed(x) then [(x.day, x.at.value)] else []
  }

  /** The places where the optimiser looks for them. */
  function Located(plan: Plan, ls: Lists, numbers: seq<(int, nat)>): seq<Place>
    requires |ls| == |plan|
  {
    if numbers == [] then []
    else
      var (day, i) := numbers[|numbers| - 1];
      Located(plan, ls, numbers[..|numbers| - 1])
      + if Hits(plan, ls, day, i) then [(DayPosition(plan, day).value, i)] else []
  }

  function PlacesOf(plan: Plan, ls: Lists, issues: seq<Issue>): seq<Place>
    requires |ls| == |plan|
  {
    Located(plan, ls, NumbersOf(issues))
  }

  lemma LocatedOneMore(plan: Plan, ls: Lists, numbers: seq<(int, nat)>, day: int, i: nat)
    requires |ls| == |plan|
    ensures Located(plan, ls, numbers + [(day, i)]) ==
            Located(plan, ls, numbers) + if Hits(plan, ls, day, i) then [(DayPosition(plan, day).value, i)] else []
  {
    assert (numbers + [(day, i)])[..|numbers|] == numbers;
  }

  method CollectPlaces(plan: Plan, lists: array<seq<Stop>>, issues: seq<Issue>) returns (at: seq<Place>)
    requires lists.Length == |plan|
    ensures at == PlacesOf(plan, lists[..], issues)
  {
    hide Located; hide DayPosition;
    at := [];
    ghost var numbers: seq<(int, nat)> := [];
    assert at == Located(plan, lists[..], []) by { NothingLocated(plan, lists[..]); }
    for i := 0 to |issues|
      invariant numbers == NumbersOf(issues[..i]) && at == Located(plan, lists[..], numbers)
    {
      var x := issues[i];
      assert issues[..i + 1][..i] == issues[..i];
      if !(x.opening && x.at.Some?) { continue; }
      LocatedOneMore(plan, lists[..], numbers, x.day, x.at.value);
      numbers := numbers + [(x.day, x.at.value)];
      var p := DayPosition(plan, x.day);
      if p.None? || x.at.value >= |lists[p.value]| { continue; }
      at := at + [(p.value, x.at.value)];
    }
    assert issues[..|issues|] == issues;
  }

  lemma NothingLocated(plan: Plan, ls: Lists)
    requires |ls| == |plan|
    ensures Located(plan, ls, []) == []
  {
  }

  lemma {:induction false} PositionOfDay(plan: Plan, day: int, from: nat)
    requires from <= |plan| && DayPositionFrom(plan, day, from).Some?
    ensures var p := DayPositionFrom(plan, day, from).value; p < |plan| && StableIndex(plan, p) == day
    decreases |plan| - from
  {
    if StableIndex(plan, from) != day { PositionOfDay(plan, day, from + 1); }
  }

  lemma {:induction false} SomePosition(plan: Plan, p: nat, from: nat)
    requires from <= p < |plan|
    ensures DayPositionFrom(plan, StableIndex(plan, p), from).Some? && DayPositionFrom(plan, StableIndex(plan, p), from).value <= p
    decreases p - from
  {
    if from < p && StableIndex(plan, from) != StableIndex(plan, p) { SomePosition(plan, p, from + 1); }
  }

  /** The day looked for by number is the first that has that number, or has none and stands in
      that place. */
  lemma DayPositionIs(plan: Plan, day: int, p: nat)
    requires p < |plan|
    ensures DayPosition(plan, day) == Some(p)
            <==> && (if plan[p].index >= 0 then plan[p].index == day else p == day)
                 && forall q :: 0 <= q < p ==> if plan[q].index >= 0 then plan[q].index != day else q != day
  {
    DayFoundFrom(plan, day, 0, p);
  }

  lemma {:induction false} DayFoundFrom(plan: Plan, day: int, from: nat, p: nat)
    requires from <= p < |plan|
    ensures DayPositionFrom(plan, day, from) == Some(p)
            <==> && (if plan[p].index >= 0 then plan[p].index == day else p == day)
                 && forall q :: from <= q < p ==> if plan[q].index >= 0 then plan[q].index != day else q != day
    decreases p - from
  {
    if from < p {
      DayFoundFrom(plan, day, from + 1, p);
      if StableIndex(plan, from) == day { assert DayPositionFrom(plan, day, from) == Some(from); }
    } else if StableIndex(plan, from) != day {
      PositionInPlan(plan, day, from + 1);
    }
  }

  /** The day is the first with its number. */
  predicate IsFirst(plan: Plan, p: nat)
    requires p < |plan|
  {
    DayPosition(plan, StableIndex(plan, p)) == Some(p)
  }

  ghost predicate DistinctIndices(plan: Plan) {
    forall p, q :: 0 <= p < q < |plan| ==> StableIndex(plan, p) != StableIndex(plan, q)
  }

  lemma DistinctIff(plan: Plan)
    ensures DistinctIndices(plan) <==> forall p :: 0 <= p < |plan| ==> IsFirst(plan, p)
  {
    hide StableIndex;
    forall p: nat | p < |plan| ensures DayPosition(plan, StableIndex(plan, p)).Some? {
      SomePosition(plan, p, 0);
    }
    if DistinctIndices(plan) {
      forall p: nat | p < |plan| ensures IsFirst(plan, p) {
        SomePosition(plan, p, 0);
        PositionOfDay(plan, StableIndex(plan, p), 0);
      }
    }
    if forall p :: 0 <= p < |plan| ==> IsFirst(plan, p) {
      forall p, q | 0 <= p < q < |plan| ensures StableIndex(plan, p) != StableIndex(plan, q) {
        assert IsFirst(plan, p) && IsFirst(plan, q);
      }
    }
  }

  // ---- What the evaluator found ----

  /** How the evaluator numbers its findings: by the number of the day, not its position. */
  function Numbered(plan: Plan, found: seq<Place>): seq<(int, nat)>
    requires forall k :: 0 <= k < |found| ==> found[k].0 < |plan|
  {
    seq(|found|, k requires 0 <= k < |found| => (StableIndex(plan, found[k].0), found[k].1))
  }

  /** The issues tell of the stops `found`, each found once. */
  ghost predicate Tells(plan: Plan, issues: seq<Issue>, found: seq<Place>) {
    InLists(ListsOf(plan), found) && AllDiffer(found)
    && (forall k :: 0 <= k < |found| ==> found[k].0 < |plan|) && NumbersOf(issues) == Numbered(plan, found)
  }

  ghost predicate EachIsFirst(plan: Plan, found: seq<Place>) {
    forall k :: 0 <= k < |found| && found[k].0 < |plan| ==> IsFirst(plan, found[k].0)
  }

  lemma NumberedOneMore(plan: Plan, found: seq<Place>)
    requires found != [] && forall k :: 0 <= k < |found| ==> found[k].0 < |plan|
    ensures var n := |found| - 1;
            Numbered(plan, found) == Numbered(plan, found[..n]) + [(StableIndex(plan, found[n].0), found[n].1)]
  {
  }

  /** Where every day found is the first of its number, the issues name the places found. */
  lemma {:induction false} LocatedIsFound(plan: Plan, ls: Lists, found: seq<Place>)
    requires |ls| == |plan| && InLists(ls, found) && (forall k :: 0 <= k < |found| ==> found[k].0 < |plan|)
    requires EachIsFirst(plan, found)
    ensures Located(plan, ls, Numbered(plan, found)) == found
  {
    if found == [] {
      NothingLocated(plan, ls);
    } else {
      hide DayPosition; hide StableIndex; hide Numbered; hide Located;
      var n := |found| - 1;
      assert found[n] in found && IsFirst(plan, found[n].0);
      LocatedIsFound(plan, ls, found[..n]);
      NumberedOneMore(plan, found);
      LocatedOneMore(plan, ls, Numbered(plan, found[..n]), StableIndex(plan, found[n].0), found[n].1);
      assert found == found[..n] + [found[n]];
    }
  }

  /** A day that is not the first of its number is never named. */
  lemma {:induction false} NeverLocated(plan: Plan, ls: Lists, numbers: seq<(int, nat)>, q: nat)
    requires |ls| == |plan| && q < |plan| && !IsFirst(plan, q)
    ensures forall x :: x in Located(plan, ls, numbers) ==> x.0 != q
    ensures InLists(ls, Located(plan, ls, numbers))
  {
    if numbers != [] {
      NeverLocated(plan, ls, numbers[..|numbers| - 1], q);
      var (day, i) := numbers[|numbers| - 1];
      if Hits(plan, ls, day, i) { PositionOfDay(plan, day, 0); }
    }
  }

  lemma {:induction false} LocatedInLists(plan: Plan, ls: Lists, numbers: seq<(int, nat)>)
    requires |ls| == |plan|
    ensures InLists(ls, Located(plan, ls, numbers))
  {
    if numbers != [] { LocatedInLists(plan, ls, numbers[..|numbers| - 1]); }
  }

  lemma {:induction false} InsertKeeps(at: seq<Place>, x: Place)
    ensures forall y :: y in InsertFalling(at, x) <==> y == x || y in at
  {
    if at != [] {
      assert forall y :: y in at <==> y == at[0] || y in at[1..];
      if After(at[0], x) { InsertKeeps(at[1..], x); }
    }
  }

  lemma {:induction false} SortKeeps(at: seq<Place>)
    ensures forall y :: y in SortedFalling(at) <==> y in at
  {
    if at != [] {
      SortKeeps(at[1..]);
      InsertKeeps(SortedFalling(at[1..]), at[0]);
    }
  }

  lemma SameGone(a: seq<Place>, b: seq<Place>, p: nat)
    requires forall y :: y in a <==> y in b
    ensures GoneFrom(a, p) == GoneFrom(b, p)
  {
    forall i ensures i in GoneFrom(a, p) <==> i in GoneFrom(b, p) {
      if i in GoneFrom(a, p) { assert (p, i) in a; }
      if i in GoneFrom(b, p) { assert (p, i) in b; }
    }
  }

  lemma SameDeleted(ls: Lists, start: Lists, a: seq<Place>, b: seq<Place>)
    requires forall y :: y in a <==> y in b
    ensures DeletedFrom(ls, start, a) <==> DeletedFrom(ls, start, b)
  {
    hide GoneFrom;
    forall p: nat | p < |ls| ensures GoneFrom(a, p) == GoneFrom(b, p) { SameGone(a, b, p); }
  }

  /** A day of which something was deleted is shorter. */
  lemma DeletedIsShorter(ls: Lists, start: Lists, gone: seq<Place>, k: nat)
    requires DeletedFrom(ls, start, gone) && InLists(start, gone) && k < |gone|
    ensures gone[k].0 < |start| && ls[gone[k].0] != start[gone[k].0]
  {
    var (p, i) := gone[k];
    assert gone[k] in gone && i in GoneFrom(gone, p);
    forall j | j in GoneFrom(gone, p) ensures j < |start[p]| { assert (p, j) in gone; }
    WithoutLength(start[p], GoneFrom(gone, p));
  }

  /** The second pass deletes exactly the stops the evaluator found if, and only if, each of
      them is on the first day of its number. */
  lemma DeletesFoundIff(plan: Plan, ls: Lists, issues: seq<Issue>, found: seq<Place>)
    requires |ls| == |plan| && ListsOf(plan) == ls && Tells(plan, issues, found)
    ensures var r := PopPlaces(ls, SortedFalling(PlacesOf(plan, ls, issues)));
            r.Some? && DeletedFrom(r.value, ls, found) <==> EachIsFirst(plan, found)
  {
    hide PopPlaces; hide DeletedFrom; hide Located; hide IsFirst; hide SortedFalling; hide InLists; hide AllDiffer; hide StableIndex;
    var order := SortedFalling(PlacesOf(plan, ls, issues));
    SortKeeps(PlacesOf(plan, ls, issues));
    if EachIsFirst(plan, found) {
      LocatedIsFound(plan, ls, found);
      SortIsFalling(found);
      InListsSame(ls, found, order);
      AllPopped(ls, order);
      SameDeleted(PopPlaces(ls, order).value, ls, order, found);
    } else {
      var k :| 0 <= k < |found| && found[k].0 < |plan| && !IsFirst(plan, found[k].0);
      NeverLocated(plan, ls, Numbered(plan, found), found[k].0);
      if PopPlaces(ls, order).Some? && DeletedFrom(PopPlaces(ls, order).value, ls, found) {
        PopsElsewhere(ls, order, found[k].0);
        DeletedIsShorter(PopPlaces(ls, order).value, ls, found, k);
      }
    }
  }

  lemma InListsSame(ls: Lists, a: seq<Place>, b: seq<Place>)
    requires InLists(ls, a) && forall y :: y in b ==> y in a
    ensures InLists(ls, b)
  {
  }

  lemma AllPopped(ls: Lists, order: seq<Place>)
    requires Falling(order) && InLists(ls, order)
    ensures var r := PopPlaces(ls, order);
            && r.Some? && DeletedFrom(r.value, ls, order)
            && AllStops(r.value) + multiset(StopsAt(ls, order)) == AllStops(ls)
  {
    hide PopPlaces; hide DeletedFrom; hide Falling; hide AllStops; hide StopsAt; hide InLists;
    DeletedNothing(ls);
    assert order[..0] == [] && order[0..] == order && StopsAt(ls, order)[0..] == StopsAt(ls, order);
    PopsFromLast(ls, ls, order, 0);
  }

  lemma FirstIsEach(plan: Plan, found: seq<Place>)
    requires InLists(ListsOf(plan), found) && forall p :: 0 <= p < |plan| && plan[p].stops != [] ==> IsFirst(plan, p)
    ensures EachIsFirst(plan, found)
  {
    hide IsFirst;
    forall k | 0 <= k < |found| && found[k].0 < |plan| ensures IsFirst(plan, found[k].0) { assert found[k] in found; }
  }

  lemma OneFound(plan: Plan, p: nat)
    requires p < |plan| && plan[p].stops != []
    ensures Tells(plan, [Issue(true, true, StableIndex(plan, p), Some(0))], [(p, 0)])
  {
    var issues := [Issue(true, true, StableIndex(plan, p), Some(0))];
    assert issues[..0] == [];
  }

  ghost predicate DeletesFound(plan: Plan, issues: seq<Issue>, found: seq<Place>) {
    var r := PopPlaces(ListsOf(plan), SortedFalling(PlacesOf(plan, ListsOf(plan), issues)));
    r.Some? && DeletedFrom(r.value, ListsOf(plan), found)
  }

  /** So the pass can be relied on for a plan, whatever the evaluator finds there, exactly if
      every day with a stop is the first of its number. */
  lemma ReliableIff(plan: Plan)
    ensures (forall issues, found :: Tells(plan, issues, found) ==> DeletesFound(plan, issues, found))
            <==> forall p :: 0 <= p < |plan| && plan[p].stops != [] ==> IsFirst(plan, p)
  {
    hide Tells; hide IsFirst; hide DeletesFound;
    if forall p :: 0 <= p < |plan| && plan[p].stops != [] ==> IsFirst(plan, p) {
      forall issues, found | Tells(plan, issues, found) ensures DeletesFound(plan, issues, found) {
        FoundDeleted(plan, issues, found);
      }
    }
    if forall issues, found :: Tells(plan, issues, found) ==> DeletesFound(plan, issues, found) {
      forall p: nat | p < |plan| && plan[p].stops != [] ensures IsFirst(plan, p) {
        var issues, found := [Issue(true, true, StableIndex(plan, p), Some(0))], [(p, 0)];
        OneFound(plan, p);
        assert DeletesFound(plan, issues, found);
        DeletesFoundIs(plan, issues, found);
        assert found[0].0 == p;
      }
    }
  }

  lemma DeletesFoundIs(plan: Plan, issues: seq<Issue>, found: seq<Place>)
    requires Tells(plan, issues, found)
    ensures DeletesFound(plan, issues, found) <==> EachIsFirst(plan, found)
  {
    hide Tells; hide EachIsFirst; hide PopPlaces; hide SortedFalling; hide PlacesOf; hide DeletedFrom;
    DeletesFoundIff(plan, ListsOf(plan), issues, found);
  }

  lemma FoundDeleted(plan: Plan, issues: seq<Issue>, found: seq<Place>)
    requires Tells(plan, issues, found) && forall p :: 0 <= p < |plan| && plan[p].stops != [] ==> IsFirst(plan, p)
    ensures DeletesFound(plan, issues, found)
  {
    hide IsFirst; hide DeletesFound; hide EachIsFirst; hide InLists;
    FirstIsEach(plan, found);
    DeletesFoundIs(plan, issues, found);
  }

  // ---- The decision ----

  datatype Repair = Repair(plan: Plan, removed: seq<string>, cost: real)

  datatype Attempt = Proposed(repair: Repair) | NoProposal | IndexError

  /** The day lists after the first pass. */
  function MovedLists(plan: Plan, issues: seq<Issue>): (ls: Lists)
    ensures |ls| == |plan|
  {
    seq(|plan|, p requires 0 <= p < |plan| => Reordered(plan[p].stops, TargetsAt(plan, TargetsOf(plan, issues), p)))
  }

  /** The places the second pass deletes, last first. */
  function DoomedPlaces(plan: Plan, issues: seq<Issue>, evaluate: Plan -> Report): seq<Place> {
    var ls := MovedLists(plan, issues);
    SortedFalling(PlacesOf(WithLists(plan, ls), ls, evaluate(WithLists(plan, ls)).issues))
  }

  /** With nothing left in conflict the reordered plan is proposed if it is cheaper; else, where
      two candidates are allowed, the plan without the stops still in conflict, if that settles
      every opening-hours issue and is cheaper. */
  function Attempted(plan: Plan, issues: seq<Issue>, baseline: real, evaluate: Plan -> Report, maxCandidates: int): Attempt {
    var ls := MovedLists(plan, issues);
    var moved := evaluate(WithLists(plan, ls));
    var order := DoomedPlaces(plan, issues, evaluate);
    if TargetsOf(plan, issues) == [] then NoProposal
    else if NoneIndexed(moved.issues) then
      if moved.cost + 0.01 < baseline then Proposed(Repair(WithLists(plan, ls), [], moved.cost)) else NoProposal
    else if maxCandidates < 2 || order == [] then NoProposal
    else if PopPlaces(ls, order).None? then IndexError
    else
      DoomedInLists(plan, issues, evaluate);
      PopKeepsCount(ls, order);
      var shorter := WithLists(plan, PopPlaces(ls, order).value);
      if NoneOpening(evaluate(shorter).issues) && evaluate(shorter).cost + 0.01 < baseline
      then Proposed(Repair(shorter, Backwards(NamesOf(StopsAt(ls, order))), evaluate(shorter).cost))
      else NoProposal
  }

  lemma DoomedInLists(plan: Plan, issues: seq<Issue>, evaluate: Plan -> Report)
    ensures InLists(MovedLists(plan, issues), DoomedPlaces(plan, issues, evaluate))
  {
    var ls := MovedLists(plan, issues);
    var working := WithLists(plan, ls);
    hide Located; hide SortedFalling; hide InLists; hide MovedLists;
    LocatedInLists(working, ls, NumbersOf(evaluate(working).issues));
    SortKeeps(PlacesOf(working, ls, evaluate(working).issues));
    InListsSame(ls, PlacesOf(working, ls, evaluate(working).issues), DoomedPlaces(plan, issues, evaluate));
  }

  lemma {:induction false} PopKeepsCount(ls: Lists, order: seq<Place>)
    ensures PopPlaces(ls, order).Some? ==> |PopPlaces(ls, order).value| == |ls|
    decreases |order|
  {
    if order != [] {
      var (p, i) := order[0];
      if p < |ls| && i < |ls[p]| { PopKeepsCount(ls[p := ls[p][..i] + ls[p][i + 1..]], order[1..]); }
    }
  }

  lemma MovedListsAre(plan: Plan, issues: seq<Issue>, ls: Lists)
    requires MovedBy(plan, ls, ListsOf(plan), TargetsOf(plan, issues))
    ensures ls == MovedLists(plan, issues)
  {
    hide Reordered; hide TargetsAt; hide TargetsOf;
  }

  lemma SortedNotEmpty(at: seq<Place>)
    ensures SortedFalling(at) == [] <==> at == []
  {
  }

  /** `_repair_opening_hours_conflicts` */
  method RepairOpeningHours(plan: Plan, issues: seq<Issue>, baseline: real, evaluate: Plan -> Report, maxCandidates: int)
    returns (r: Attempt)
    ensures r == Attempted(plan, issues, baseline, evaluate, maxCandidates)
  {
    hide AllStops; hide MovedBy; hide PlacesOf; hide TargetsOf; hide SortedFalling; hide DayPosition; hide InLists; hide PopPlaces;
    hide Backwards; hide NamesOf; hide StopsAt; hide MovedLists;
    var targets := CollectTargets(plan, issues);
    if targets == [] { return NoProposal; }
    var lists := new seq<Stop>[|plan|](p requires 0 <= p < |plan| => plan[p].stops);
    assert lists[..] == ListsOf(plan);
    ReorderConflicts(plan, lists, targets);
    MovedListsAre(plan, issues, lists[..]);
    var working := WithLists(plan, lists[..]);
    var report := evaluate(working);
    var remaining := exists i :: 0 <= i < |report.issues| && Indexed(report.issues[i]);
    if !remaining && report.cost + 0.01 < baseline { return Proposed(Repair(working, [], report.cost)); }
    if !remaining || maxCandidates < 2 { return NoProposal; }
    var places := CollectPlaces(working, lists, report.issues);
    SortedNotEmpty(places);
    if places == [] { return NoProposal; }
    DoomedInLists(plan, issues, evaluate);
    var removed, failed := DeleteConflicts(lists, SortedFalling(places));
    if failed { return IndexError; }
    var shorter := WithLists(plan, lists[..]);
    var second := evaluate(shorter);
    if exists i :: 0 <= i < |second.issues| && second.issues[i].opening { return NoProposal; }
    if second.cost + 0.01 >= baseline { return NoProposal; }
    return Proposed(Repair(shorter, removed, second.cost));
  }

  // ---- When something is proposed ----

  /** A repairable opening-hours issue that leads to a stop of the plan. */
  predicate Flags(plan: Plan, x: Issue) {
    && x.opening && x.repairable && x.at.Some?
    && var p := DayPosition(plan, x.day); p.Some? && x.at.value < |plan[p.value].stops|
  }

  lemma {:induction false} TargetsIff(plan: Plan, issues: seq<Issue>)
    ensures TargetsOf(plan, issues) != [] <==> exists i :: 0 <= i < |issues| && Flags(plan, issues[i])
  {
    if issues != [] {
      hide DayPosition;
      var n := |issues| - 1;
      TargetsIff(plan, issues[..n]);
      assert forall i :: 0 <= i < n ==> issues[..n][i] == issues[i];
      if Flags(plan, issues[n]) { assert TargetsOf(plan, issues) != []; }
    }
  }

  /** With something flagged: the reordered plan is proposed exactly if the evaluator finds no stop
      of it closed and it is cheaper by more than 0.01; otherwise, with two candidates allowed and
      something found in the plan, the plan without what was found exactly if that leaves no
      opening-hours issue and is cheaper by more than 0.01, and an IndexError exactly if a pop
      fails. With nothing flagged nothing happens. */
  lemma AttemptTold(plan: Plan, issues: seq<Issue>, baseline: real, evaluate: Plan -> Report, maxCandidates: int)
    ensures var r := Attempted(plan, issues, baseline, evaluate, maxCandidates);
            var ls, order := MovedLists(plan, issues), DoomedPlaces(plan, issues, evaluate);
            var first := evaluate(WithLists(plan, ls));
            var flagged := exists i :: 0 <= i < |issues| && Flags(plan, issues[i]);
            var closed := exists i :: 0 <= i < |first.issues| && first.issues[i].opening && first.issues[i].at.Some?;
            && (!flagged ==> r.NoProposal?)
            && (flagged && !closed ==>
                  r == if baseline - first.cost > 0.01 then Proposed(Repair(WithLists(plan, ls), [], first.cost)) else NoProposal)
            && (flagged && closed ==>
                  && (r.IndexError? <==> maxCandidates >= 2 && order != [] && PopPlaces(ls, order).None?)
                  && (r.Proposed? <==>
                        && maxCandidates >= 2 && order != [] && PopPlaces(ls, order).Some? && |PopPlaces(ls, order).value| == |plan|
                        && var second := evaluate(WithLists(plan, PopPlaces(ls, order).value));
                           baseline - second.cost > 0.01 && forall i :: 0 <= i < |second.issues| ==> !second.issues[i].opening))
  {
    hide MovedLists; hide DoomedPlaces; hide PopPlaces; hide TargetsOf; hide StopsAt; hide NamesOf; hide Backwards; hide Flags;
    TargetsIff(plan, issues);
    DoomedInLists(plan, issues, evaluate);
    PopKeepsCount(MovedLists(plan, issues), DoomedPlaces(plan, issues, evaluate));
    var first := evaluate(WithLists(plan, MovedLists(plan, issues)));
    assert NoneIndexed(first.issues) <==> !exists i :: 0 <= i < |first.issues| && first.issues[i].opening && first.issues[i].at.Some?;
  }

  // ---- What a proposal is worth ----

  /** Strictly cheaper than the baseline, on the same days, and without a stop the evaluator
      still places outside its opening hours. */
  predicate Settled(r: Repair, plan: Plan, baseline: real, evaluate: Plan -> Report) {
    && r.cost == evaluate(r.plan).cost && r.cost + 0.01 < baseline
    && NoneIndexed(evaluate(r.plan).issues)
    && (r.removed != [] ==> NoneOpening(evaluate(r.plan).issues))
    && |r.plan| == |plan| && forall p :: 0 <= p < |plan| ==> r.plan[p].index == plan[p].index
  }

  lemma ProposalSettles(plan: Plan, issues: seq<Issue>, baseline: real, evaluate: Plan -> Report, maxCandidates: int)
    ensures var r := Attempted(plan, issues, baseline, evaluate, maxCandidates);
            r.Proposed? ==> Settled(r.repair, plan, baseline, evaluate)
  {
    hide MovedLists; hide DoomedPlaces; hide PopPlaces; hide TargetsOf; hide StopsAt; hide NamesOf; hide Backwards;
    if NoneIndexed(evaluate(WithLists(plan, MovedLists(plan, issues))).issues) {
    } else {
      DoomedInLists(plan, issues, evaluate);
      PopKeepsCount(MovedLists(plan, issues), DoomedPlaces(plan, issues, evaluate));
    }
  }

  lemma {:induction false} ReorderedIsPermuted(stops: seq<Stop>, targets: seq<Target>)
    ensures multiset(Reordered(stops, targets)) == multiset(stops)
  {
    if targets != [] {
      var t := targets[|targets| - 1];
      ReorderedIsPermuted(stops, targets[..|targets| - 1]);
      MovedIsPermuted(Reordered(stops, targets[..|targets| - 1]), t.poi, t.name);
    }
  }

  lemma {:induction false} SameDaysSameStops(a: Lists, b: Lists)
    requires |a| == |b| && forall p :: 0 <= p < |a| ==> multiset(a[p]) == multiset(b[p])
    ensures AllStops(a) == AllStops(b)
  {
    if a != [] { SameDaysSameStops(a[..|a| - 1], b[..|b| - 1]); }
  }

  lemma MovedConserves(plan: Plan, issues: seq<Issue>)
    ensures AllStops(MovedLists(plan, issues)) == AllStops(ListsOf(plan))
  {
    hide AllStops; hide Reordered; hide TargetsAt; hide TargetsOf;
    var a, b := MovedLists(plan, issues), ListsOf(plan);
    forall p: nat | p < |plan| ensures multiset(a[p]) == multiset(b[p]) {
      ReorderedIsPermuted(plan[p].stops, TargetsAt(plan, TargetsOf(plan, issues), p));
    }
    SameDaysSameStops(a, b);
  }

  /** Every stop is kept or named as removed. */
  ghost predicate Accounted(r: Repair, plan: Plan) {
    exists gone :: NamesOf(gone) == r.removed && AllStops(ListsOf(r.plan)) + multiset(gone) == AllStops(ListsOf(plan))
  }

  /** An evaluator that numbers its findings by day, on the days of this plan. */
  ghost predicate NumbersByDay(plan: Plan, evaluate: Plan -> Report) {
    forall x: Plan :: SameNumbers(x, plan) ==> exists found :: Tells(x, evaluate(x).issues, found)
  }

  ghost predicate SameNumbers(x: Plan, plan: Plan) {
    |x| == |plan| && forall p :: 0 <= p < |plan| ==> x[p].index == plan[p].index
  }

  lemma {:induction false} BackwardsOneMore<T>(s: seq<T>)
    ensures multiset(Backwards(s)) == multiset(s)
  {
    if s != [] {
      BackwardsOneMore(s[..|s| - 1]);
      assert s == s[..|s| - 1] + [s[|s| - 1]];
    }
  }

  /** With day numbers that differ, the second pass never runs out of a list, and a proposal
      keeps every stop or names it, and deletes what the evaluator found. */
  lemma ProposalAccounts(plan: Plan, issues: seq<Issue>, baseline: real, evaluate: Plan -> Report, maxCandidates: int)
    requires DistinctIndices(plan) && NumbersByDay(plan, evaluate)
    ensures var r := Attempted(plan, issues, baseline, evaluate, maxCandidates);
            !r.IndexError? && (r.Proposed? ==> Accounted(r.repair, plan))
  {
    hide AllStops; hide MovedLists; hide TargetsOf; hide PopPlaces; hide DistinctIndices; hide DoomedPlaces; hide StopsAt; hide Accounted;
    hide NumbersByDay; hide Backwards; hide NamesOf; hide InLists;
    var ls := MovedLists(plan, issues);
    var order := DoomedPlaces(plan, issues, evaluate);
    MovedConserves(plan, issues);
    NothingGone(plan, ls);
    DoomedInLists(plan, issues, evaluate);
    DoomedFall(plan, issues, evaluate);
    AllPopped(ls, order);
    PopKeepsCount(ls, order);
    SomeGone(plan, ls, order, PopPlaces(ls, order).value);
  }

  lemma NothingGone(plan: Plan, ls: Lists)
    requires |ls| == |plan| && AllStops(ls) == AllStops(ListsOf(plan))
    ensures forall cost :: Accounted(Repair(WithLists(plan, ls), [], cost), plan)
  {
    hide AllStops;
    ListsOfWithLists(plan, ls);
    assert NamesOf([]) == [];
    assert AllStops(ls) + multiset([]) == AllStops(ls);
  }

  lemma SomeGone(plan: Plan, ls: Lists, order: seq<Place>, left: Lists)
    requires |left| == |plan| && InLists(ls, order) && AllStops(ls) == AllStops(ListsOf(plan))
    requires AllStops(left) + multiset(StopsAt(ls, order)) == AllStops(ls)
    ensures forall cost :: Accounted(Repair(WithLists(plan, left), Backwards(NamesOf(StopsAt(ls, order))), cost), plan)
  {
    hide AllStops; hide StopsAt; hide InLists;
    ListsOfWithLists(plan, left);
    var gone := Backwards(StopsAt(ls, order));
    BackwardsOneMore(StopsAt(ls, order));
    assert NamesOf(gone) == Backwards(NamesOf(StopsAt(ls, order)));
  }

  lemma SameNumbersDistinct(plan: Plan, ls: Lists)
    requires |ls| == |plan| && DistinctIndices(plan)
    ensures DistinctIndices(WithLists(plan, ls)) && SameNumbers(WithLists(plan, ls), plan)
  {
    var x := WithLists(plan, ls);
    assert forall p :: 0 <= p < |plan| ==> StableIndex(x, p) == StableIndex(plan, p);
  }

  lemma DoomedFall(plan: Plan, issues: seq<Issue>, evaluate: Plan -> Report)
    requires DistinctIndices(plan) && NumbersByDay(plan, evaluate)
    ensures Falling(DoomedPlaces(plan, issues, evaluate))
  {
    hide DistinctIndices; hide MovedLists; hide SortedFalling; hide Located; hide IsFirst; hide Falling; hide InLists; hide AllDiffer;
    var ls := MovedLists(plan, issues);
    var x := WithLists(plan, ls);
    SameNumbersDistinct(plan, ls);
    ListsOfWithLists(plan, ls);
    var found :| Tells(x, evaluate(x).issues, found);
    DistinctIff(x);
    assert EachIsFirst(x, found);
    LocatedIsFound(x, ls, found);
    SortIsFalling(found);
  }

  lemma ListsOfWithLists(plan: Plan, ls: Lists)
    requires |ls| == |plan|
    ensures ListsOf(WithLists(plan, ls)) == ls
  {
  }

  // ---- Two days of one number ----

  const PARK := Stop("1", "Park", 0)
  const LAKE := Stop("2", "Lake", 0)
  const ONE_NUMBER := [Day(0, [PARK]), Day(0, [LAKE])]
  const FLAG := Issue(true, true, 0, Some(0))

  lemma FlagsTell()
    ensures Tells(ONE_NUMBER, [FLAG, FLAG], [(0, 0), (1, 0)])
    ensures NumbersOf([FLAG, FLAG]) == [(0, 0), (0, 0)]
  {
    var issues := [FLAG, FLAG];
    assert issues[..1] == [FLAG] && [FLAG][..0] == [];
    assert StableIndex(ONE_NUMBER, 0) == 0 && StableIndex(ONE_NUMBER, 1) == 0;
    assert NumbersOf([FLAG]) == [(0, 0)];
    assert NumbersOf(issues) == [(0, 0), (0, 0)];
    assert NumbersOf(issues) == Numbered(ONE_NUMBER, [(0, 0), (1, 0)]);
  }

  lemma FlagsAimAtFirst()
    ensures DayPosition(ONE_NUMBER, 0) == Some(0)
    ensures TargetsOf(ONE_NUMBER, [FLAG, FLAG]) == [Target(0, "1", "Park"), Target(0, "1", "Park")]
    ensures TargetsAt(ONE_NUMBER, TargetsOf(ONE_NUMBER, [FLAG, FLAG]), 1) == []
  {
    var issues := [FLAG, FLAG];
    var t := Target(0, "1", "Park");
    assert issues[..1] == [FLAG] && [FLAG][..0] == [] && [t, t][..1] == [t] && [t][..0] == [];
    assert StableIndex(ONE_NUMBER, 0) == 0;
    assert TargetsOf(ONE_NUMBER, [FLAG]) == [t];
    assert TargetsAt(ONE_NUMBER, [t], 1) == [];
  }

  lemma {:induction false} OneStopStays(s: Stop, targets: seq<Target>)
    ensures Reordered([s], targets) == [s]
  {
    if targets != [] { OneStopStays(s, targets[..|targets| - 1]); }
  }

  lemma NothingMoves()
    ensures MovedLists(ONE_NUMBER, [FLAG, FLAG]) == [[PARK], [LAKE]]
    ensures WithLists(ONE_NUMBER, [[PARK], [LAKE]]) == ONE_NUMBER
  {
    FlagsAimAtFirst();
    OneStopStays(PARK, TargetsAt(ONE_NUMBER, TargetsOf(ONE_NUMBER, [FLAG, FLAG]), 0));
    hide TargetsOf; hide TargetsAt; hide Reordered;
    assert Reordered([LAKE], []) == [LAKE] by { OneStopStays(LAKE, []); }
    var ls := MovedLists(ONE_NUMBER, [FLAG, FLAG]);
    assert |ls| == 2 && ls[0] == [PARK] && ls[1] == [LAKE];
  }

  lemma BothPlacesAreFirst()
    ensures SortedFalling(Located(ONE_NUMBER, [[PARK], [LAKE]], [(0, 0), (0, 0)])) == [(0, 0), (0, 0)]
    ensures PopPlaces([[PARK], [LAKE]], [(0, 0), (0, 0)]) == None
  {
    FlagsAimAtFirst();
    hide DayPosition; hide TargetsOf; hide TargetsAt;
    var ls: Lists, numbers: seq<(int, nat)>, places: seq<Place> := [[PARK], [LAKE]], [(0, 0), (0, 0)], [(0, 0), (0, 0)];
    assert numbers[..1] == [(0, 0)] && numbers[..1][..0] == [];
    assert Located(ONE_NUMBER, ls, [(0, 0)]) == [(0, 0)];
    assert Located(ONE_NUMBER, ls, numbers) == places;
    assert places[1..] == [(0, 0)] && places[1..][1..] == [];
    assert SortedFalling(places[1..]) == [(0, 0)];
    assert ls[0][..0] == [] && ls[0][1..] == [] && ls[0 := []] == [[], [LAKE]];
    assert PopPlaces([[], [LAKE]], places[1..]) == None;
  }

  /** Two days numbered 0 with one stop each, both found closed: both findings lead to the first
      day, and the second deletion fails. */
  lemma TwoDaysOneNumberFails()
    ensures Tells(ONE_NUMBER, [FLAG, FLAG], [(0, 0), (1, 0)])
    ensures Attempted(ONE_NUMBER, [FLAG, FLAG], 9.0, x => Report([FLAG, FLAG], 9.0), 2) == IndexError
  {
    hide TargetsOf; hide MovedLists; hide PopPlaces; hide SortedFalling; hide Located; hide NumbersOf; hide WithLists;
    FlagsTell();
    FlagsAimAtFirst();
    NothingMoves();
    BothPlacesAreFirst();
    var evaluate := (x: Plan) => Report([FLAG, FLAG], 9.0);
    assert Indexed(evaluate(ONE_NUMBER).issues[0]);
  }
}
