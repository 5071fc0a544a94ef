/**
 The bounded search of the constraint optimiser (app/constraints/optimizer.py:76-247): every
 way to move a flagged stop, up to a limit and without repetition; the cheapest that improves
 on the baseline; and, only if none does, the cheapest removal.
 */
module CandidateSearch {
  import opened Basics
  import opened OpeningHours
  import opened OpeningHoursRepair

  /** Take stop `index` of day `source` and insert it at `at` of day `target`. */
  datatype Move = Move(source: nat, index: nat, target: nat, at: nat)

  predicate Has(ls: Lists, p: nat, i: nat) { p < |ls| && i < |ls[p]| }

  predicate Allowed(ls: Lists, m: Move) {
    && Has(ls, m.source, m.index) && m.target < |ls|
    && if m.target == m.source then m.at < |ls[m.source]| && m.at != m.index else m.at <= |ls[m.target]|
  }

  function Popped(ls: Lists, p: nat, i: nat): Lists
    requires Has(ls, p, i)
  {
    ls[p := ls[p][..i] + ls[p][i + 1..]]
  }

  /** The day lists after a move: pop, then insert. */
  function Moved(ls: Lists, m: Move): Lists
    requires Allowed(ls, m)
  {
    var rest := Popped(ls, m.source, m.index);
    var day := rest[m.target];
    rest[m.target := day[..m.at] + [ls[m.source][m.index]] + day[m.at..]]
  }

  lemma InsertedIsOneMore(day: seq<Stop>, at: nat, stop: Stop)
    requires at <= |day|
    ensures multiset(day[..at] + [stop] + day[at..]) == multiset(day) + multiset{stop}
  {
    assert day == day[..at] + day[at..];
  }

  /** No move gains or loses a stop. */
  lemma MovingConservesAll(ls: Lists, m: Move)
    requires Allowed(ls, m)
    ensures AllStops(Moved(ls, m)) == AllStops(ls)
  {
    hide AllStops;
    var rest := Popped(ls, m.source, m.index);
    var stop := ls[m.source][m.index];
    var day := rest[m.target];
    var longer := day[..m.at] + [stop] + day[m.at..];
    PoppingConserves(ls, m.source, m.index);
    InsertedIsOneMore(day, m.at, stop);
    AllStopsUpdate(rest, m.target, longer);
    assert Moved(ls, m) == rest[m.target := longer];
    Regrouped(AllStops(Moved(ls, m)), multiset(day), AllStops(rest), multiset{stop});
  }

  lemma Regrouped(a: multiset<Stop>, d: multiset<Stop>, b: multiset<Stop>, s: multiset<Stop>)
    requires a + d == b + (d + s)
    ensures a == b + s
  {
    assert b + (d + s) == (b + s) + d;
    Cancel(a, b + s, d);
  }

  // ---- Which moves are tried, and in which order ----

  function WithinDay(ls: Lists, p: nat, i: nat, at: nat): seq<Move>
    requires Has(ls, p, i) && at <= |ls[p]|
    decreases |ls[p]| - at
  {
    if at == |ls[p]| then []
    else (if at == i then [] else [Move(p, i, p, at)]) + WithinDay(ls, p, i, at + 1)
  }

  function IntoDay(ls: Lists, p: nat, i: nat, q: nat, at: nat): seq<Move>
    requires Has(ls, p, i) && q < |ls| && at <= |ls[q]| + 1
    decreases |ls[q]| + 1 - at
  {
    if at == |ls[q]| + 1 then [] else [Move(p, i, q, at)] + IntoDay(ls, p, i, q, at + 1)
  }

  /** Later days first, then earlier ones: `from` up to, not including, `to`. */
  function IntoDays(ls: Lists, p: nat, i: nat, from: nat, to: nat): seq<Move>
    requires Has(ls, p, i) && from <= to <= |ls|
    decreases |ls| - from
  {
    if from == to then [] else IntoDay(ls, p, i, from, 0) + IntoDays(ls, p, i, from + 1, to)
  }

  function MovesOf(ls: Lists, p: nat, i: nat): seq<Move>
    requires Has(ls, p, i)
  {
    WithinDay(ls, p, i, 0) + (IntoDays(ls, p, i, p + 1, |ls|) + IntoDays(ls, p, i, 0, p))
  }

  lemma {:induction false} WithinDayIs(ls: Lists, p: nat, i: nat, at: nat, m: Move)
    requires Has(ls, p, i) && at <= |ls[p]|
    ensures m in WithinDay(ls, p, i, at)
            <==> m.source == p && m.index == i && m.target == p && at <= m.at < |ls[p]| && m.at != i
    decreases |ls[p]| - at
  {
    if at < |ls[p]| { WithinDayIs(ls, p, i, at + 1, m); }
  }

  lemma {:induction false} IntoDayIs(ls: Lists, p: nat, i: nat, q: nat, at: nat, m: Move)
    requires Has(ls, p, i) && q < |ls| && at <= |ls[q]| + 1
    ensures m in IntoDay(ls, p, i, q, at) <==> m.source == p && m.index == i && m.target == q && at <= m.at <= |ls[q]|
    decreases |ls[q]| + 1 - at
  {
    if at < |ls[q]| + 1 { IntoDayIs(ls, p, i, q, at + 1, m); }
  }

  lemma {:induction false} IntoDaysIs(ls: Lists, p: nat, i: nat, from: nat, to: nat, m: Move)
    requires Has(ls, p, i) && from <= to <= |ls|
    ensures m in IntoDays(ls, p, i, from, to)
            <==> m.source == p && m.index == i && from <= m.target < to && m.at <= |ls[m.target]|
    decreases |ls| - from
  {
    if from < to {
      IntoDayIs(ls, p, i, from, 0, m);
      IntoDaysIs(ls, p, i, from + 1, to, m);
    }
  }

  /** The enumeration is complete: it lists exactly the allowed moves of that stop. */
  lemma MovesOfIs(ls: Lists, p: nat, i: nat, m: Move)
    requires Has(ls, p, i)
    ensures m in MovesOf(ls, p, i) <==> Allowed(ls, m) && m.source == p && m.index == i
    ensures m in MovesOf(ls, p, i) <==>
              && m.source == p && m.index == i && m.target < |ls|
              && if m.target == p then m.at < |ls[p]| && m.at != i else m.at <= |ls[m.target]|
  {
    WithinDayIs(ls, p, i, 0, m);
    IntoDaysIs(ls, p, i, p + 1, |ls|, m);
    IntoDaysIs(ls, p, i, 0, p, m);
    hide WithinDay; hide IntoDays;
  }

  /** How many days on, past the last day to the first, the target is. */
  function DaysOn(n: nat, m: Move): int { if m.target >= m.source then m.target - m.source else m.target - m.source + n }

  /** In the order of the days from the stop's own on, and of the places in each. */
  predicate Earlier(n: nat, a: Move, b: Move) {
    DaysOn(n, a) < DaysOn(n, b) || (DaysOn(n, a) == DaysOn(n, b) && a.at < b.at)
  }

  ghost predicate InOrder(n: nat, ms: seq<Move>) { forall i, j :: 0 <= i < j < |ms| ==> Earlier(n, ms[i], ms[j]) }

  lemma OrderJoins(n: nat, a: seq<Move>, b: seq<Move>)
    requires InOrder(n, a) && InOrder(n, b) && forall x, y :: x in a && y in b ==> Earlier(n, x, y)
    ensures InOrder(n, a + b)
  {
    hide Earlier;
    assert forall i :: 0 <= i < |a| ==> a[i] in a;
    assert forall i :: 0 <= i < |b| ==> b[i] in b;
  }

  lemma {:induction false} WithinDayInOrder(ls: Lists, p: nat, i: nat, at: nat)
    requires Has(ls, p, i) && at <= |ls[p]|
    ensures InOrder(|ls|, WithinDay(ls, p, i, at))
    decreases |ls[p]| - at
  {
    if at < |ls[p]| {
      WithinDayInOrder(ls, p, i, at + 1);
      forall m ensures m in WithinDay(ls, p, i, at + 1) ==> m.target == p && m.source == p && at < m.at {
        WithinDayIs(ls, p, i, at + 1, m);
      }
      OrderJoins(|ls|, if at == i then [] else [Move(p, i, p, at)], WithinDay(ls, p, i, at + 1));
    }
  }

  lemma {:induction false} IntoDayInOrder(ls: Lists, p: nat, i: nat, q: nat, at: nat)
    requires Has(ls, p, i) && q < |ls| && at <= |ls[q]| + 1
    ensures InOrder(|ls|, IntoDay(ls, p, i, q, at))
    decreases |ls[q]| + 1 - at
  {
    if at < |ls[q]| + 1 {
      IntoDayInOrder(ls, p, i, q, at + 1);
      forall m ensures m in IntoDay(ls, p, i, q, at + 1) ==> m.target == q && m.source == p && at < m.at {
        IntoDayIs(ls, p, i, q, at + 1, m);
      }
      OrderJoins(|ls|, [Move(p, i, q, at)], IntoDay(ls, p, i, q, at + 1));
    }
  }

  lemma {:induction false} IntoDaysInOrder(ls: Lists, p: nat, i: nat, from: nat, to: nat)
    requires Has(ls, p, i) && from <= to <= |ls| && (p < from || to <= p)
    ensures InOrder(|ls|, IntoDays(ls, p, i, from, to))
    decreases |ls| - from
  {
    if from < to {
      IntoDayInOrder(ls, p, i, from, 0);
      IntoDaysInOrder(ls, p, i, from + 1, to);
      forall m ensures m in IntoDay(ls, p, i, from, 0) ==> m.target == from && m.source == p { IntoDayIs(ls, p, i, from, 0, m); }
      forall m ensures m in IntoDays(ls, p, i, from + 1, to) ==> from < m.target < to && m.source == p {
        IntoDaysIs(ls, p, i, from + 1, to, m);
      }
      OrderJoins(|ls|, IntoDay(ls, p, i, from, 0), IntoDays(ls, p, i, from + 1, to));
    }
  }

  /** The moves of a stop are tried within its own day first, then on the later days, then on the
      earlier ones, and on each from its first place to its last. */
  lemma MovesInOrder(ls: Lists, p: nat, i: nat)
    requires Has(ls, p, i)
    ensures InOrder(|ls|, MovesOf(ls, p, i))
  {
    hide InOrder; hide WithinDay; hide IntoDays;
    WithinDayInOrder(ls, p, i, 0);
    IntoDaysInOrder(ls, p, i, p + 1, |ls|);
    IntoDaysInOrder(ls, p, i, 0, p);
    var own, later, sooner := WithinDay(ls, p, i, 0), IntoDays(ls, p, i, p + 1, |ls|), IntoDays(ls, p, i, 0, p);
    forall m ensures m in own ==> m.target == p && m.source == p { WithinDayIs(ls, p, i, 0, m); }
    forall m ensures m in later ==> p < m.target < |ls| && m.source == p { IntoDaysIs(ls, p, i, p + 1, |ls|, m); }
    forall m ensures m in sooner ==> m.target < p && m.source == p { IntoDaysIs(ls, p, i, 0, p, m); }
    OrderJoins(|ls|, later, sooner);
    OrderJoins(|ls|, own, later + sooner);
  }

  /** What a move does: the stop leaves its place and stands at the place asked for, of the day as
      it is then; no other day changes, and no other stop changes its order. */
  lemma MovedIs(ls: Lists, m: Move)
    requires Allowed(ls, m)
    ensures var now, stop := Moved(ls, m), ls[m.source][m.index];
            && |now| == |ls| && (forall q :: 0 <= q < |ls| && q != m.source && q != m.target ==> now[q] == ls[q])
            && m.at < |now[m.target]| && now[m.target][m.at] == stop
            && now[m.target][..m.at] + now[m.target][m.at + 1..] ==
                 (if m.target == m.source then ls[m.source][..m.index] + ls[m.source][m.index + 1..] else ls[m.target])
            && (m.target != m.source ==> now[m.source] == ls[m.source][..m.index] + ls[m.source][m.index + 1..])
  {
    var stop := ls[m.source][m.index];
    var day := if m.target == m.source then ls[m.source][..m.index] + ls[m.source][m.index + 1..] else ls[m.target];
    assert Moved(ls, m)[m.target] == day[..m.at] + [stop] + day[m.at..];
  }

  // ---- Collecting distinct candidates ----

  type Flagged = seq<(nat, nat)>

  ghost predicate Valid(ls: Lists, flagged: Flagged) { forall i :: 0 <= i < |flagged| ==> Has(ls, flagged[i].0, flagged[i].1) }

  predicate Concerns(flagged: Flagged, m: Move) { (m.source, m.index) in flagged }

  ghost predicate Distinguishable(ls: Lists, ms: seq<Move>) {
    && (forall i :: 0 <= i < |ms| ==> Allowed(ls, ms[i]))
    && forall i, j :: 0 <= i < j < |ms| ==> Moved(ls, ms[i]) != Moved(ls, ms[j])
  }

  ghost predicate Covers(ls: Lists, ms: seq<Move>, m: Move)
    requires Allowed(ls, m)
  {
    exists i :: 0 <= i < |ms| && Allowed(ls, ms[i]) && Moved(ls, ms[i]) == Moved(ls, m)
  }

  /** Whether an earlier candidate gives the same plan (`seen`). */
  method Seen(ls: Lists, ms: seq<Move>, m: Move) returns (seen: bool)
    requires Distinguishable(ls, ms) && Allowed(ls, m)
    ensures seen <==> Covers(ls, ms, m)
  {
    hide Moved;
    for i := 0 to |ms|
      invariant forall j :: 0 <= j < i ==> Moved(ls, ms[j]) != Moved(ls, m)
    {
      if Moved(ls, ms[i]) == Moved(ls, m) { return true; }
    }
    return false;
  }

  ghost predicate Collected(ls: Lists, flagged: Flagged, tried: seq<Move>, ms: seq<Move>, most: nat) {
    && Distinguishable(ls, ms) && |ms| <= most
    && (forall m :: m in ms ==> Concerns(flagged, m))
    && forall m :: m in tried ==> Allowed(ls, m) && Covers(ls, ms, m)
  }

  lemma OneMoreTried(ls: Lists, flagged: Flagged, tried: seq<Move>, ms: seq<Move>, most: nat, m: Move)
    requires Collected(ls, flagged, tried, ms, most) && Allowed(ls, m) && Concerns(flagged, m)
    ensures Covers(ls, ms, m) ==> Collected(ls, flagged, tried + [m], ms, most)
    ensures !Covers(ls, ms, m) && |ms| < most ==> Collected(ls, flagged, tried + [m], ms + [m], most)
  {
    hide Allowed; hide Moved; hide Concerns;
    if !Covers(ls, ms, m) && |ms| < most {
      var longer := ms + [m];
      assert forall i :: 0 <= i < |ms| ==> longer[i] == ms[i];
      assert longer[|ms|] == m;
      forall x | x in tried + [m] ensures Allowed(ls, x) && Covers(ls, longer, x) {
        if x in tried {
          var i :| 0 <= i < |ms| && Allowed(ls, ms[i]) && Moved(ls, ms[i]) == Moved(ls, x);
          assert longer[i] == ms[i];
        }
      }
    }
  }

  /** All moves of all flagged stops, in the order they are tried. */
  function AllMoves(ls: Lists, flagged: Flagged): seq<Move> {
    if flagged == [] then []
    else
      var (p, i) := flagged[|flagged| - 1];
      AllMoves(ls, flagged[..|flagged| - 1]) + if Has(ls, p, i) then MovesOf(ls, p, i) else []
  }

  /** The first `most` of them that give different plans. */
  ghost function FirstDistinct(ls: Lists, moves: seq<Move>, most: nat): seq<Move> {
    if moves == [] then []
    else
      var before, m := FirstDistinct(ls, moves[..|moves| - 1], most), moves[|moves| - 1];
      if |before| >= most || !Allowed(ls, m) || Covers(ls, before, m) then before else before + [m]
  }

  lemma DistinctOneMore(ls: Lists, moves: seq<Move>, most: nat, m: Move)
    requires Allowed(ls, m) && |FirstDistinct(ls, moves, most)| < most
    ensures var before := FirstDistinct(ls, moves, most);
            FirstDistinct(ls, moves + [m], most) == if Covers(ls, before, m) then before else before + [m]
  {
    assert (moves + [m])[..|moves|] == moves;
  }

  lemma {:induction false} FullStays(ls: Lists, moves: seq<Move>, more: seq<Move>, most: nat)
    requires |FirstDistinct(ls, moves, most)| >= most
    ensures FirstDistinct(ls, moves + more, most) == FirstDistinct(ls, moves, most)
  {
    if more == [] {
      assert moves + more == moves;
    } else {
      var front := more[..|more| - 1];
      FullStays(ls, moves, front, most);
      assert (moves + more)[..|moves + more| - 1] == moves + front;
    }
  }

  lemma AllMovesOneMore(ls: Lists, flagged: Flagged, n: nat)
    requires n < |flagged| && Has(ls, flagged[n].0, flagged[n].1)
    ensures AllMoves(ls, flagged[..n + 1]) == AllMoves(ls, flagged[..n]) + MovesOf(ls, flagged[n].0, flagged[n].1)
  {
    assert flagged[..n + 1][..n] == flagged[..n];
  }

  lemma {:induction false} AllMovesGrow(ls: Lists, flagged: Flagged, n: nat)
    requires n <= |flagged|
    ensures AllMoves(ls, flagged[..n]) <= AllMoves(ls, flagged)
    decreases |flagged|
  {
    if n < |flagged| {
      AllMovesGrow(ls, flagged[..|flagged| - 1], n);
      assert flagged[..|flagged| - 1][..n] == flagged[..n];
    } else {
      assert flagged[..n] == flagged;
    }
  }

  /** Full before the end, the enumeration is what it would be at the end. */
  lemma FullAtEnd(ls: Lists, flagged: Flagged, n: nat, tried: seq<Move>, most: nat)
    requires n < |flagged| && Has(ls, flagged[n].0, flagged[n].1)
    requires AllMoves(ls, flagged[..n]) <= tried <= AllMoves(ls, flagged[..n + 1])
    requires |FirstDistinct(ls, tried, most)| >= most
    ensures FirstDistinct(ls, AllMoves(ls, flagged), most) == FirstDistinct(ls, tried, most)
  {
    hide FirstDistinct; hide AllMoves;
    AllMovesGrow(ls, flagged, n + 1);
    var all := AllMoves(ls, flagged);
    assert all == tried + all[|tried|..];
    FullStays(ls, tried, all[|tried|..], most);
  }

  /** The two enumerating steps: at most `most` candidates, all different plans; short of the
      limit, every move of every flagged stop is among them. */
  method Enumerate(ls: Lists, flagged: Flagged, most: nat) returns (ms: seq<Move>)
    requires Valid(ls, flagged) && most >= 1
    ensures Distinguishable(ls, ms) && |ms| <= most && forall m :: m in ms ==> Concerns(flagged, m)
    ensures |ms| < most ==> forall m :: Allowed(ls, m) && Concerns(flagged, m) ==> Covers(ls, ms, m)
    ensures ms == FirstDistinct(ls, AllMoves(ls, flagged), most)
  {
    hide Covers; hide Distinguishable; hide Moved; hide MovesOf; hide FirstDistinct; hide AllMoves;
    ms := [];
    ghost var tried: seq<Move> := [];
    NothingCollected(ls, flagged, most);
    hide Collected;
    for n := 0 to |flagged|
      invariant tried == AllMoves(ls, flagged[..n]) && ms == FirstDistinct(ls, tried, most)
      invariant Collected(ls, flagged, tried, ms, most) && |ms| < most
      invariant forall k, m :: 0 <= k < n && Allowed(ls, m) && (m.source, m.index) == flagged[k] ==> m in tried
    {
      var (p, i) := flagged[n];
      var moves := MovesOf(ls, p, i);
      ghost var before := tried;
      AllMovesOneMore(ls, flagged, n);
      for k := 0 to |moves|
        invariant Collected(ls, flagged, tried, ms, most) && |ms| < most && tried == before + moves[..k]
        invariant ms == FirstDistinct(ls, tried, most)
      {
        var m := moves[k];
        assert m in moves && (p, i) in flagged;
        MovesOfIs(ls, p, i, m);
        OneMoreTried(ls, flagged, tried, ms, most, m);
        CollectedIs(ls, flagged, tried, ms, most);
        DistinctOneMore(ls, tried, most, m);
        var seen := Seen(ls, ms, m);
        if !seen { ms := ms + [m]; }
        tried := tried + [m];
        CollectedIs(ls, flagged, tried, ms, most);
        if |ms| >= most {
          assert tried == before + moves[..k + 1];
          FullAtEnd(ls, flagged, n, tried, most);
          return;
        }
      }
      assert moves[..|moves|] == moves;
      forall m | Allowed(ls, m) && (m.source, m.index) == flagged[n] ensures m in tried { MovesOfIs(ls, p, i, m); }
    }
    assert flagged[..|flagged|] == flagged;
    CollectedIs(ls, flagged, tried, ms, most);
    forall m | Allowed(ls, m) && Concerns(flagged, m) ensures Covers(ls, ms, m) {
      var k :| 0 <= k < |flagged| && flagged[k] == (m.source, m.index);
      assert m in tried;
    }
  }

  lemma NothingCollected(ls: Lists, flagged: Flagged, most: nat)
    ensures Collected(ls, flagged, [], [], most)
    ensures AllMoves(ls, flagged[..0]) == [] && FirstDistinct(ls, [], most) == []
  {
  }

  lemma CollectedIs(ls: Lists, flagged: Flagged, tried: seq<Move>, ms: seq<Move>, most: nat)
    requires Collected(ls, flagged, tried, ms, most)
    ensures Distinguishable(ls, ms) && |ms| <= most && forall m :: m in ms ==> Concerns(flagged, m)
    ensures forall m :: m in tried ==> Allowed(ls, m) && Covers(ls, ms, m)
  {
    hide Covers; hide Distinguishable; hide Concerns; hide Allowed;
  }

  // ---- Choosing ----

  /** The order of the tuples (cost, source, target, insertion index). */
  predicate Precedes(c: real, m: Move, d: real, n: Move) {
    || c < d
    || (c == d && (m.source < n.source
                   || (m.source == n.source && (m.target < n.target || (m.target == n.target && m.at < n.at)))))
  }

  /** Cost first, then the days taken from and moved to, then the place. */
  lemma PrecedesIs(c: real, m: Move, d: real, n: Move)
    ensures c != d ==> (Precedes(c, m, d, n) <==> c < d)
    ensures c == d && m.source != n.source ==> (Precedes(c, m, d, n) <==> m.source < n.source)
    ensures c == d && m.source == n.source && m.target != n.target ==> (Precedes(c, m, d, n) <==> m.target < n.target)
    ensures c == d && m.source == n.source && m.target == n.target ==> (Precedes(c, m, d, n) <==> m.at < n.at)
  {
  }

  ghost predicate NoneImproves(ls: Lists, ms: seq<Move>, cost: Lists -> real, baseline: real) {
    forall i :: 0 <= i < |ms| ==> Allowed(ls, ms[i]) && cost(Moved(ls, ms[i])) + 0.01 >= baseline
  }

  /** `m` improves, and no improving candidate precedes it. */
  ghost predicate IsBest(ls: Lists, ms: seq<Move>, cost: Lists -> real, baseline: real, m: Move) {
    && m in ms && Allowed(ls, m) && cost(Moved(ls, m)) + 0.01 < baseline
    && forall i :: 0 <= i < |ms| && Allowed(ls, ms[i]) && cost(Moved(ls, ms[i])) + 0.01 < baseline ==>
         !Precedes(cost(Moved(ls, ms[i])), ms[i], cost(Moved(ls, m)), m)
  }

  /** The cheapest improving candidate; among equals the first in tuple order. */
  method ChooseBest(ls: Lists, ms: seq<Move>, cost: Lists -> real, baseline: real) returns (best: Option<Move>)
    requires Distinguishable(ls, ms)
    ensures if best.None? then NoneImproves(ls, ms, cost, baseline) else IsBest(ls, ms, cost, baseline, best.value)
  {
    hide Moved; hide Allowed;
    best := None;
    for n := 0 to |ms|
      invariant best.None? ==> forall i :: 0 <= i < n ==> cost(Moved(ls, ms[i])) + 0.01 >= baseline
      invariant best.Some? ==>
                  && best.value in ms[..n] && Allowed(ls, best.value) && cost(Moved(ls, best.value)) + 0.01 < baseline
                  && forall i :: 0 <= i < n && cost(Moved(ls, ms[i])) + 0.01 < baseline ==>
                       !Precedes(cost(Moved(ls, ms[i])), ms[i], cost(Moved(ls, best.value)), best.value)
    {
      var price := cost(Moved(ls, ms[n]));
      assert ms[..n + 1] == ms[..n] + [ms[n]];
      if price + 0.01 >= baseline { continue; }
      if best.None? || Precedes(price, ms[n], cost(Moved(ls, best.value)), best.value) { best := Some(ms[n]); }
    }
  }

  datatype Choice = MoveStop(move: Move) | RemoveStop(day: nat, index: nat)

  /** All stops of a day. */
  function Row(p: nat, n: nat): seq<(nat, nat)> { seq(n, i requires 0 <= i < n => (p, i)) }

  /** The removals in the order they are tried: each flagged day once, stop after stop. */
  function RemovalsOf(ls: Lists, flagged: Flagged): seq<(nat, nat)> {
    if flagged == [] then []
    else
      var before, p := flagged[..|flagged| - 1], flagged[|flagged| - 1].0;
      RemovalsOf(ls, before) + if Visited(before, p) || p >= |ls| then [] else Row(p, |ls[p]|)
  }

  predicate Visited(flagged: Flagged, p: nat) { exists k :: 0 <= k < |flagged| && flagged[k].0 == p }

  /** They are exactly the stops of the flagged days. */
  lemma {:induction false} RemovalsAre(ls: Lists, flagged: Flagged, p: nat, i: nat)
    ensures (p, i) in RemovalsOf(ls, flagged) <==> Visited(flagged, p) && Has(ls, p, i)
  {
    if flagged != [] {
      var before, q := flagged[..|flagged| - 1], flagged[|flagged| - 1].0;
      RemovalsAre(ls, before, p, i);
      VisitedOneMore(flagged, |before|, p);
      assert flagged[..|before| + 1] == flagged;
      if q < |ls| { assert (p, i) in Row(q, |ls[q]|) <==> p == q && i < |ls[q]| by { InRow(q, |ls[q]|, p, i); } }
    }
  }

  lemma InRow(q: nat, n: nat, p: nat, i: nat)
    ensures (p, i) in Row(q, n) <==> p == q && i < n
  {
    if p == q && i < n { assert Row(q, n)[i] == (p, i); }
  }

  lemma {:induction false} RemovalsGrow(ls: Lists, flagged: Flagged, k: nat)
    requires k <= |flagged|
    ensures RemovalsOf(ls, flagged[..k]) <= RemovalsOf(ls, flagged)
    decreases |flagged|
  {
    if k < |flagged| {
      var before := flagged[..|flagged| - 1];
      RemovalsGrow(ls, before, k);
      assert before[..k] == flagged[..k];
    } else {
      assert flagged[..k] == flagged;
    }
  }

  /** The order of the tuples (cost, day, index). */
  predicate Cheaper(c: real, p: nat, i: nat, d: real, q: nat, j: nat) {
    c < d || (c == d && (p < q || (p == q && i < j)))
  }

  /** Cost decides, between equal costs the day, within a day the place. */
  lemma CheaperIs(c: real, p: nat, i: nat, d: real, q: nat, j: nat)
    ensures c != d ==> (Cheaper(c, p, i, d, q, j) <==> c < d)
    ensures c == d && p != q ==> (Cheaper(c, p, i, d, q, j) <==> p < q)
    ensures c == d && p == q ==> (Cheaper(c, p, i, d, q, j) <==> i < j)
  {
  }

  /** Of the removals `tried`, `best` improves and no improving one comes before it; without it,
      none improves. */
  ghost predicate IsBestRemoval(ls: Lists, tried: seq<(nat, nat)>, cost: Lists -> real, baseline: real, best: Option<(nat, nat)>) {
    && (best.Some? ==>
          && best.value in tried && Has(ls, best.value.0, best.value.1)
          && cost(Popped(ls, best.value.0, best.value.1)) + 0.01 < baseline)
    && forall k :: 0 <= k < |tried| && Has(ls, tried[k].0, tried[k].1)
                   && cost(Popped(ls, tried[k].0, tried[k].1)) + 0.01 < baseline ==>
         && best.Some?
         && !Cheaper(cost(Popped(ls, tried[k].0, tried[k].1)), tried[k].0, tried[k].1,
                     cost(Popped(ls, best.value.0, best.value.1)), best.value.0, best.value.1)
  }

  lemma OneMoreRemoval(
    ls: Lists, tried: seq<(nat, nat)>, cost: Lists -> real, baseline: real, best: Option<(nat, nat)>, p: nat, i: nat,
    next: Option<(nat, nat)>)
    requires IsBestRemoval(ls, tried, cost, baseline, best) && Has(ls, p, i)
    requires var price := cost(Popped(ls, p, i));
             if price + 0.01 < baseline
                && (best.None? || Cheaper(price, p, i, cost(Popped(ls, best.value.0, best.value.1)), best.value.0, best.value.1))
             then next == Some((p, i)) else next == best
    ensures IsBestRemoval(ls, tried + [(p, i)], cost, baseline, next)
  {
    hide Popped;
  }

  /** The last resort: the cheapest removal from a flagged day, of the first `most`. */
  method ChooseRemoval(ls: Lists, flagged: Flagged, cost: Lists -> real, baseline: real, most: nat)
    returns (best: Option<(nat, nat)>, considered: nat)
    requires Valid(ls, flagged)
    ensures considered == Min(|RemovalsOf(ls, flagged)|, most)
    ensures IsBestRemoval(ls, RemovalsOf(ls, flagged)[..considered], cost, baseline, best)
  {
    hide Popped; hide IsBestRemoval; hide RemovalsOf; hide Visited;
    NoRemovalYet(ls, flagged, cost, baseline);
    best, considered := None, 0;
    var visited: set<nat> := {};
    ghost var tried: seq<(nat, nat)> := [];
    for k := 0 to |flagged|
      invariant tried == RemovalsOf(ls, flagged[..k]) && considered == |tried| <= most
      invariant IsBestRemoval(ls, tried, cost, baseline, best) && (best.Some? ==> Has(ls, best.value.0, best.value.1))
      invariant forall p :: p in visited <==> Visited(flagged[..k], p)
    {
      var p := flagged[k].0;
      RemovalsOneMore(ls, flagged, k);
      if p in visited { continue; }
      visited := visited + {p};
      ghost var before := tried;
      RemovalsGrow(ls, flagged, k + 1);
      for i := 0 to |ls[p]|
        invariant tried == before + Row(p, i) && considered == |tried| <= most
        invariant IsBestRemoval(ls, tried, cost, baseline, best) && (best.Some? ==> Has(ls, best.value.0, best.value.1))
      {
        assert before + Row(p, i) <= before + Row(p, |ls[p]|) by { RowGrows(p, i, |ls[p]|); }
        if considered >= most {
          assert tried == RemovalsOf(ls, flagged)[..most];
          return;
        }
        ghost var was := best;
        var price := cost(Popped(ls, p, i));
        considered := considered + 1;
        if price + 0.01 < baseline
           && (best.None? || Cheaper(price, p, i, cost(Popped(ls, best.value.0, best.value.1)), best.value.0, best.value.1)) {
          best := Some((p, i));
        }
        OneMoreRemoval(ls, tried, cost, baseline, was, p, i, best);
        assert Row(p, i + 1) == Row(p, i) + [(p, i)];
        tried := tried + [(p, i)];
      }
      if considered >= most {
        assert tried == RemovalsOf(ls, flagged)[..most];
        return;
      }
    }
    assert flagged[..|flagged|] == flagged && tried[..considered] == tried;
  }

  lemma RemovalsOneMore(ls: Lists, flagged: Flagged, k: nat)
    requires k < |flagged|
    ensures var p := flagged[k].0;
            && (forall q :: Visited(flagged[..k + 1], q) <==> Visited(flagged[..k], q) || q == p)
            && RemovalsOf(ls, flagged[..k + 1]) ==
               RemovalsOf(ls, flagged[..k]) + if Visited(flagged[..k], p) || p >= |ls| then [] else Row(p, |ls[p]|)
  {
    var now := flagged[..k + 1];
    assert now[..k] == flagged[..k] && now[k] == flagged[k];
    forall q: nat ensures Visited(now, q) <==> Visited(flagged[..k], q) || q == flagged[k].0 { VisitedOneMore(flagged, k, q); }
  }

  lemma VisitedOneMore(flagged: Flagged, k: nat, q: nat)
    requires k < |flagged|
    ensures Visited(flagged[..k + 1], q) <==> Visited(flagged[..k], q) || q == flagged[k].0
  {
    var now := flagged[..k + 1];
    if Visited(flagged[..k], q) {
      var j :| 0 <= j < k && flagged[..k][j].0 == q;
      assert now[j].0 == q;
    }
    if q == flagged[k].0 { assert now[k].0 == q; }
    if Visited(now, q) && q != flagged[k].0 {
      var j :| 0 <= j < k + 1 && now[j].0 == q;
      assert flagged[..k][j].0 == q;
    }
  }

  lemma NoRemovalYet(ls: Lists, flagged: Flagged, cost: Lists -> real, baseline: real)
    ensures IsBestRemoval(ls, [], cost, baseline, None)
    ensures RemovalsOf(ls, flagged[..0]) == [] && forall q :: !Visited(flagged[..0], q)
  {
  }

  lemma RowGrows(p: nat, i: nat, n: nat)
    requires i <= n
    ensures Row(p, i) <= Row(p, n)
  {
  }

  /** The first `most` moves that give different plans; short of the limit, every move of every
      flagged stop is among them. */
  ghost predicate Enumerated(ls: Lists, flagged: Flagged, most: nat, ms: seq<Move>) {
    && Distinguishable(ls, ms) && |ms| <= most && (forall m :: m in ms ==> Concerns(flagged, m))
    && (|ms| < most ==> forall m :: Allowed(ls, m) && Concerns(flagged, m) ==> Covers(ls, ms, m))
    && ms == FirstDistinct(ls, AllMoves(ls, flagged), most)
  }

  /** What the search chose among its candidates: the best move that improves; if none does,
      the best of the removals tried; and nothing only if none of those improves either. */
  ghost predicate ChosenFrom(
    ls: Lists, flagged: Flagged, cost: Lists -> real, baseline: real, most: nat, ms: seq<Move>, r: Option<Choice>)
  {
    var removals := RemovalsOf(ls, flagged);
    var tried := removals[..Min(|removals|, most)];
    match r
    case Some(MoveStop(m)) => IsBest(ls, ms, cost, baseline, m)
    case Some(RemoveStop(p, i)) => NoneImproves(ls, ms, cost, baseline) && IsBestRemoval(ls, tried, cost, baseline, Some((p, i)))
    case None => NoneImproves(ls, ms, cost, baseline) && IsBestRemoval(ls, tried, cost, baseline, None)
  }

  /** The search as a whole. No stop is lost but the one removed. */
  method Search(ls: Lists, flagged: Flagged, cost: Lists -> real, baseline: real, most: nat) returns (r: Option<Choice>)
    requires Valid(ls, flagged) && most >= 1
    ensures exists ms :: Enumerated(ls, flagged, most, ms) && ChosenFrom(ls, flagged, cost, baseline, most, ms, r)
    ensures r.Some? && r.value.MoveStop? ==>
              Allowed(ls, r.value.move) && Concerns(flagged, r.value.move) && AllStops(Moved(ls, r.value.move)) == AllStops(ls)
    ensures r.Some? && r.value.RemoveStop? ==>
              && Visited(flagged, r.value.day) && Has(ls, r.value.day, r.value.index)
              && AllStops(Popped(ls, r.value.day, r.value.index)) + multiset{ls[r.value.day][r.value.index]} == AllStops(ls)
  {
    hide AllStops; hide Moved; hide Covers; hide Precedes; hide NoneImproves; hide Distinguishable; hide Allowed; hide Popped;
    var ms := Enumerate(ls, flagged, most);
    var best := ChooseBest(ls, ms, cost, baseline);
    assert Enumerated(ls, flagged, most, ms);
    if best.Some? {
      MovingConservesAll(ls, best.value);
      r := Some(MoveStop(best.value));
      assert ChosenFrom(ls, flagged, cost, baseline, most, ms, r);
      return;
    }
    var removal, considered := ChooseRemoval(ls, flagged, cost, baseline, most);
    if removal.None? {
      assert ChosenFrom(ls, flagged, cost, baseline, most, ms, None);
      return None;
    }
    var (p, i) := removal.value;
    RemovalsAre(ls, flagged, p, i);
    PoppedConserves(ls, p, i);
    r := Some(RemoveStop(p, i));
    assert ChosenFrom(ls, flagged, cost, baseline, most, ms, r);
  }

  lemma PoppedConserves(ls: Lists, p: nat, i: nat)
    requires Has(ls, p, i)
    ensures AllStops(Popped(ls, p, i)) + multiset{ls[p][i]} == AllStops(ls)
  {
    PoppingConserves(ls, p, i);
  }
}
