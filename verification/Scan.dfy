/**
 The two scans a reconciliation starts from: paging through the authoritative rows while they
 change, and sorting the scrolled points.
 */
module Scan {
  import opened Basics
  import opened Maintenance

  // ---- iter_active_public ----

  predicate Rising(ids: seq<Id>) { forall i, j :: 0 <= i < j < |ids| ==> ids[i] < ids[j] }

  /** The ids beyond a cursor, in order. */
  function Beyond(ids: seq<Id>, after: int): seq<Id> {
    if ids == [] then [] else if ids[0] > after then ids else Beyond(ids[1..], after)
  }

  /** WHERE share_id > after ORDER BY share_id LIMIT limit. */
  function PageAfter(ids: seq<Id>, after: int, limit: nat): seq<Id> {
    Beyond(ids, after)[..Min(|Beyond(ids, after)|, limit)]
  }

  lemma {:induction false} BeyondIs(ids: seq<Id>, after: int)
    requires Rising(ids)
    ensures Rising(Beyond(ids, after)) && forall x :: x in Beyond(ids, after) <==> x in ids && x > after
  {
    if ids != [] {
      assert forall x :: x in ids <==> x == ids[0] || x in ids[1..];
      if ids[0] <= after {
        BeyondIs(ids[1..], after);
      } else {
        assert forall i :: 0 <= i < |ids| ==> ids[i] >= ids[0];
      }
    }
  }

  lemma PageIs(ids: seq<Id>, after: int, limit: nat)
    requires Rising(ids)
    ensures var p := PageAfter(ids, after, limit);
            && Rising(p) && |p| <= limit
            && (forall x :: x in p ==> x in ids && x > after)
            && (forall x :: x in ids && x > after && x !in p ==> |p| == limit && forall y :: y in p ==> y < x)
  {
    var all, p := Beyond(ids, after), PageAfter(ids, after, limit);
    BeyondIs(ids, after);
    hide Beyond;
    assert forall i :: 0 <= i < |p| ==> p[i] == all[i] && all[i] in all;
    forall x | x in all && x !in p ensures |p| == limit && forall y :: y in p ==> y < x {
      var i :| 0 <= i < |all| && all[i] == x;
      assert i >= |p|;
    }
  }

  /** Listed on some, on every one of the pages read so far. */
  ghost predicate Once(rows: nat -> seq<Id>, pages: nat, x: Id) { exists t :: 0 <= t < pages && x in rows(t) }

  ghost predicate Always(rows: nat -> seq<Id>, pages: nat, x: Id) { forall t :: 0 <= t < pages ==> x in rows(t) }

  /** The rows up to `cursor` are dealt with. */
  ghost predicate Swept(rows: nat -> seq<Id>, pages: nat, seen: seq<Id>, cursor: int) {
    && Rising(seen) && (forall x :: x in seen ==> x <= cursor && Once(rows, pages, x))
    && forall x: Id :: x <= cursor && Always(rows, pages, x) ==> x in seen
  }

  lemma RisingOn(a: seq<Id>, b: seq<Id>, cursor: int)
    requires Rising(a) && Rising(b) && (forall x :: x in a ==> x <= cursor) && (forall x :: x in b ==> x > cursor)
    ensures Rising(a + b)
  {
    assert forall i :: 0 <= i < |a| ==> a[i] in a;
    assert forall i :: 0 <= i < |b| ==> b[i] in b;
  }

  /** A full page moves the cursor to its last row, a short one to the end. */
  lemma PageSweeps(rows: nat -> seq<Id>, pages: nat, seen: seq<Id>, cursor: int, limit: nat, next: int)
    requires limit >= 1 && Rising(rows(pages)) && Swept(rows, pages, seen, cursor)
    requires var page := PageAfter(rows(pages), cursor, limit);
             && (if |page| == limit then next == page[|page| - 1] else next >= cursor && forall x :: x in rows(pages) ==> x <= next)
    ensures Swept(rows, pages + 1, seen + PageAfter(rows(pages), cursor, limit), next)
  {
    var page := PageAfter(rows(pages), cursor, limit);
    PageIs(rows(pages), cursor, limit);
    hide PageAfter;
    RisingOn(seen, page, cursor);
    assert |page| > 0 ==> page[|page| - 1] in page && forall i :: 0 <= i < |page| ==> page[i] <= page[|page| - 1];
    forall x | x in seen + page ensures x <= next && Once(rows, pages + 1, x) {
      if x in page {
        assert x in rows(pages);
      } else {
        var t :| 0 <= t < pages && x in rows(t);
        assert x in seen && x <= cursor && 0 <= t < pages + 1;
        SweptMoves(rows, pages, seen, page, cursor, limit, next);
      }
    }
    forall x: Id | x <= next && Always(rows, pages + 1, x) ensures x in seen + page {
      assert x in rows(pages) && Always(rows, pages, x);
    }
  }

  lemma SweptMoves(rows: nat -> seq<Id>, pages: nat, seen: seq<Id>, page: seq<Id>, cursor: int, limit: nat, next: int)
    requires Swept(rows, pages, seen, cursor) && (forall x :: x in page ==> x > cursor) && limit >= 1
    requires if |page| == limit then next == page[|page| - 1] else next >= cursor
    ensures forall x :: x in seen ==> x <= next
  {
    assert |page| == limit ==> page[limit - 1] in page;
  }

  /** Paging through PUBLIC and READY rows: `rows(t)` are their ids, in order, when page `t` is
      read. Whatever is published or withdrawn meanwhile, no row comes twice, and a row that is
      there all the time is not missed. */
  method IterActivePublic(rows: nat -> seq<Id>, limit: nat, bound: nat) returns (seen: seq<Id>, pages: nat)
    requires limit >= 1
    requires forall t :: Rising(rows(t)) && forall x :: x in rows(t) ==> x < bound
    ensures Rising(seen)
    ensures forall x :: x in seen ==> Once(rows, pages, x)
    ensures forall x: Id :: x < bound && Always(rows, pages, x) ==> x in seen
  {
    seen, pages := [], 0;
    var cursor := -1;
    while true
      invariant -1 <= cursor < bound || cursor == -1
      invariant Swept(rows, pages, seen, cursor)
      decreases bound - cursor
    {
      var page := PageAfter(rows(pages), cursor, limit);
      PageIs(rows(pages), cursor, limit);
      if |page| < limit {
        PageSweeps(rows, pages, seen, cursor, limit, Max(bound, cursor));
        seen, pages := seen + page, pages + 1;
        return;
      }
      var last := page[|page| - 1];
      assert last in page;
      PageSweeps(rows, pages, seen, cursor, limit, last);
      seen, pages, cursor := seen + page, pages + 1, last;
    }
  }

  // ---- _read_points ----

  predicate Usable(e: Candidate) { Complete(e.snapshot) }

  /** The first usable point of a share. */
  ghost predicate FirstOf(es: seq<Candidate>, share: Id, e: Candidate) {
    exists i :: 0 <= i < |es| && es[i] == e && Usable(e) && e.snapshot.share == Some(share)
                && forall j :: 0 <= j < i ==> !(Usable(es[j]) && es[j].snapshot.share == Some(share))
  }

  ghost predicate AllFirst(es: seq<Candidate>, points: map<Id, Candidate>) { forall s :: s in points ==> FirstOf(es, s, points[s]) }

  ghost predicate Covered(es: seq<Candidate>, points: map<Id, Candidate>) {
    forall i :: 0 <= i < |es| && Usable(es[i]) ==> es[i].snapshot.share.value in points
  }

  ghost predicate Misplaced(points: map<Id, Candidate>, wrong: seq<Candidate>) {
    forall e :: e in wrong <==> exists s :: s in points && points[s] == e && e.place != s
  }

  /** Some usable point of the share is among these. */
  predicate Represented(es: seq<Candidate>, share: Id) {
    exists i :: 0 <= i < |es| && Usable(es[i]) && es[i].snapshot.share == Some(share)
  }

  function Marked(e: Candidate): Candidate { e.(snapshot := e.snapshot.(malformed := true)) }

  /** What is set aside: the unusable points, and marked, every further point of a share. */
  function Rejects(es: seq<Candidate>): seq<Candidate> {
    if es == [] then []
    else
      var before, e := es[..|es| - 1], es[|es| - 1];
      Rejects(before) + if !Usable(e) then [e] else if Represented(before, e.snapshot.share.value) then [Marked(e)] else []
  }

  lemma RejectsOneMore(es: seq<Candidate>, e: Candidate)
    ensures Rejects(es + [e]) ==
            Rejects(es) + if !Usable(e) then [e] else if Represented(es, e.snapshot.share.value) then [Marked(e)] else []
  {
    assert (es + [e])[..|es|] == es;
  }

  /** A point that is set aside was scrolled unusable, or after another usable one of its share. */
  lemma {:induction false} RejectsIs(es: seq<Candidate>, e: Candidate)
    ensures e in Rejects(es) <==>
              exists i :: 0 <= i < |es|
                && ((!Usable(es[i]) && e == es[i])
                    || (Usable(es[i]) && e == Marked(es[i]) && Represented(es[..i], es[i].snapshot.share.value)))
  {
    if es != [] {
      var before, x := es[..|es| - 1], es[|es| - 1];
      hide Represented; hide Usable; hide Marked;
      RejectsIs(before, e);
      assert forall i :: 0 <= i < |before| ==> before[i] == es[i] && before[..i] == es[..i];
    }
  }

  /** The points `es` are sorted: the first usable one of each share represents it, in its place
      or not; the others are set aside in the order scrolled. */
  ghost predicate Sorting(es: seq<Candidate>, points: map<Id, Candidate>, malformed: seq<Candidate>, wrong: seq<Candidate>) {
    && |points| + |malformed| == |es|
    && AllFirst(es, points) && Covered(es, points) && Misplaced(points, wrong)
    && malformed == Rejects(es)
  }

  lemma FirstsStay(es: seq<Candidate>, points: map<Id, Candidate>, x: Candidate)
    requires AllFirst(es, points)
    ensures AllFirst(es + [x], points)
  {
    forall s | s in points ensures FirstOf(es + [x], s, points[s]) { FirstStays(es, x, s, points[s]); }
  }

  lemma PointsRepresent(es: seq<Candidate>, points: map<Id, Candidate>, share: Id)
    requires AllFirst(es, points) && Covered(es, points)
    ensures share in points <==> Represented(es, share)
  {
    if share in points { assert FirstOf(es, share, points[share]); }
  }

  lemma OneMoreMalformed(
    es: seq<Candidate>, points: map<Id, Candidate>, malformed: seq<Candidate>, wrong: seq<Candidate>, x: Candidate)
    requires Sorting(es, points, malformed, wrong)
    requires Usable(x) ==> x.snapshot.share.value in points
    ensures Sorting(es + [x], points, malformed + [if Usable(x) then Marked(x) else x], wrong)
  {
    FirstsStay(es, points, x);
    RejectsOneMore(es, x);
    if Usable(x) { PointsRepresent(es, points, x.snapshot.share.value); }
    hide AllFirst; hide Misplaced; hide Usable; hide Represented; hide Rejects; hide Marked;
  }

  lemma FirstsGrow(es: seq<Candidate>, points: map<Id, Candidate>, x: Candidate)
    requires AllFirst(es, points) && Covered(es, points) && Usable(x) && x.snapshot.share.value !in points
    ensures var next := points[x.snapshot.share.value := x]; AllFirst(es + [x], next) && Covered(es + [x], next)
  {
    FirstsStay(es, points, x);
    NewIsFirst(es, x, x.snapshot.share.value);
    hide FirstOf; hide Usable;
  }

  lemma SizeGrows(points: map<Id, Candidate>, share: Id, x: Candidate)
    requires share !in points
    ensures |points[share := x]| == |points| + 1
  {
    assert points[share := x].Keys == points.Keys + {share};
  }

  lemma OneMorePoint(
    es: seq<Candidate>, points: map<Id, Candidate>, malformed: seq<Candidate>, wrong: seq<Candidate>, x: Candidate)
    requires Sorting(es, points, malformed, wrong) && Usable(x) && x.snapshot.share.value !in points
    ensures var share := x.snapshot.share.value;
            Sorting(es + [x], points[share := x], malformed, if x.place != share then wrong + [x] else wrong)
  {
    var share := x.snapshot.share.value;
    var next := points[share := x];
    PointsRepresent(es, points, share);
    RejectsOneMore(es, x);
    FirstsGrow(es, points, x);
    WrongGrows(points, wrong, share, x, next, if x.place != share then wrong + [x] else wrong);
    hide FirstOf; hide Misplaced; hide AllFirst; hide Covered; hide Represented; hide Rejects;
    SizeGrows(points, share, x);
  }

  lemma NothingSorted()
    ensures Sorting([], map[], [], [])
  {
  }

  /** `_read_points` */
  method ReadPoints(es: seq<Candidate>) returns (points: map<Id, Candidate>, malformed: seq<Candidate>, wrong: seq<Candidate>)
    ensures Sorting(es, points, malformed, wrong)
  {
    points, malformed, wrong := map[], [], [];
    NothingSorted();
    hide AllFirst; hide Misplaced;
    assert es[..0] == [];
    for n := 0 to |es|
      invariant Sorting(es[..n], points, malformed, wrong)
    {
      var e := es[n];
      assert es[..n + 1] == es[..n] + [e];
      if e.snapshot.malformed || e.snapshot.share.None? {
        OneMoreMalformed(es[..n], points, malformed, wrong, e);
        malformed := malformed + [e];
        continue;
      }
      if e.snapshot.version.None? || e.snapshot.hash.None? {
        OneMoreMalformed(es[..n], points, malformed, wrong, e);
        malformed := malformed + [e];
        continue;
      }
      var share := e.snapshot.share.value;
      if share in points {
        var duplicate := Marked(e);
        OneMoreMalformed(es[..n], points, malformed, wrong, e);
        malformed := malformed + [duplicate];
        continue;
      }
      OneMorePoint(es[..n], points, malformed, wrong, e);
      points := points[share := e];
      if e.place != share { wrong := wrong + [e]; }
    }
    assert es[..|es|] == es;
  }

  lemma FirstStays(es: seq<Candidate>, x: Candidate, share: Id, e: Candidate)
    requires FirstOf(es, share, e)
    ensures FirstOf(es + [x], share, e)
  {
    var i :| 0 <= i < |es| && es[i] == e && Usable(e) && e.snapshot.share == Some(share)
             && forall j :: 0 <= j < i ==> !(Usable(es[j]) && es[j].snapshot.share == Some(share));
    assert (es + [x])[i] == e;
  }

  lemma NewIsFirst(es: seq<Candidate>, x: Candidate, share: Id)
    requires Usable(x) && x.snapshot.share == Some(share)
    requires forall i :: 0 <= i < |es| && Usable(es[i]) ==> es[i].snapshot.share != Some(share)
    ensures FirstOf(es + [x], share, x)
  {
    assert (es + [x])[|es|] == x;
  }

  lemma WrongGrows(
    were: map<Id, Candidate>, was: seq<Candidate>, share: Id, e: Candidate, points: map<Id, Candidate>, wrong: seq<Candidate>)
    requires share !in were && points == were[share := e]
    requires Misplaced(were, was)
    requires wrong == if e.place != share then was + [e] else was
    ensures Misplaced(points, wrong)
  {
    forall x ensures x in wrong <==> exists s :: s in points && points[s] == x && x.place != s {
      if x in was {
        var s :| s in were && were[s] == x && x.place != s;
        assert s in points && points[s] == x;
      }
      if e.place != share && x == e { assert points[share] == x; }
      if s :| s in points && points[s] == x && x.place != s {
        if s != share { assert s in were && were[s] == x; }
      }
    }
  }
}
