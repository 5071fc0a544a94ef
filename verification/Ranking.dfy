/**
 The ranking and its metric (scripts/run_rag_retrieval_evaluation.py:63-73, 118-142). Share
 ids are only compared and counted, so they are numbers here; 1/log2(rank + 2) is any strictly
 decreasing positive weight.
 */
module Ranking {
  import opened Basics

  type Id = int

  datatype Scored = Scored(id: Id, score: real)

  datatype Document = Document(isPublic: bool, ready: bool, city: string)

  // ---- list.sort ----

  /** Inserts behind every element that may precede it, so equal keys keep their order. */
  function Insert(s: seq<Scored>, x: Scored, leq: (Scored, Scored) -> bool): (r: seq<Scored>)
    ensures |r| == |s| + 1
  {
    if s == [] || leq(s[|s| - 1], x) then s + [x]
    else Insert(s[..|s| - 1], x, leq) + [s[|s| - 1]]
  }

  /** Python's stable sort. */
  function Sorted(s: seq<Scored>, leq: (Scored, Scored) -> bool): (r: seq<Scored>)
    ensures |r| == |s|
  {
    if s == [] then [] else Insert(Sorted(s[..|s| - 1], leq), s[|s| - 1], leq)
  }

  function ById(): (Scored, Scored) -> bool { (a: Scored, b: Scored) => a.id <= b.id }

  function ByScoreDown(): (Scored, Scored) -> bool { (a: Scored, b: Scored) => a.score >= b.score }

  predicate Before(a: Scored, b: Scored) { a.score > b.score || (a.score == b.score && a.id < b.id) }

  function ByBoth(): (Scored, Scored) -> bool { (a: Scored, b: Scored) => a == b || Before(a, b) }

  ghost predicate Rising(s: seq<Scored>) { forall i, j :: 0 <= i < j < |s| ==> s[i].id < s[j].id }

  ghost predicate Ranked(s: seq<Scored>) { forall i, j :: 0 <= i < j < |s| ==> Before(s[i], s[j]) }

  ghost predicate UniqueIds(s: seq<Scored>) { forall i, j :: 0 <= i < j < |s| ==> s[i].id != s[j].id }

  lemma {:induction false} InsertKeepsAll(s: seq<Scored>, x: Scored, leq: (Scored, Scored) -> bool)
    ensures multiset(Insert(s, x, leq)) == multiset(s) + multiset{x}
  {
    if s != [] && !leq(s[|s| - 1], x) {
      InsertKeepsAll(s[..|s| - 1], x, leq);
      assert s == s[..|s| - 1] + [s[|s| - 1]];
    }
  }

  lemma {:induction false} SortKeepsAll(s: seq<Scored>, leq: (Scored, Scored) -> bool)
    ensures multiset(Sorted(s, leq)) == multiset(s)
  {
    if s != [] {
      SortKeepsAll(s[..|s| - 1], leq);
      InsertKeepsAll(Sorted(s[..|s| - 1], leq), s[|s| - 1], leq);
      assert s == s[..|s| - 1] + [s[|s| - 1]];
    }
  }

  lemma RisingAppend(t: seq<Scored>, x: Scored)
    requires Rising(t) && forall y :: y in t ==> y.id < x.id
    ensures Rising(t + [x])
  {
    assert forall i :: 0 <= i < |t| ==> t[i] in t;
  }

  lemma RankedAppend(t: seq<Scored>, x: Scored)
    requires Ranked(t) && forall y :: y in t ==> Before(y, x)
    ensures Ranked(t + [x])
  {
    hide Before;
    assert forall i :: 0 <= i < |t| ==> t[i] in t;
  }

  lemma FrontRanked(s: seq<Scored>)
    requires Ranked(s) && s != []
    ensures Ranked(s[..|s| - 1]) && forall y :: y in s[..|s| - 1] ==> y in s && Before(y, s[|s| - 1])
  {
    hide Before;
  }

  lemma FrontRising(s: seq<Scored>)
    requires Rising(s) && s != []
    ensures Rising(s[..|s| - 1]) && forall y :: y in s[..|s| - 1] ==> y in s && y.id < s[|s| - 1].id
  {
  }

  lemma {:induction false} InsertRising(s: seq<Scored>, x: Scored)
    requires Rising(s) && forall y :: y in s ==> y.id != x.id
    ensures Rising(Insert(s, x, ById()))
  {
    if s != [] && s[|s| - 1].id > x.id {
      var front := s[..|s| - 1];
      FrontRising(s);
      hide Rising;
      InsertRising(front, x);
      InsertKeepsAll(front, x, ById());
      SameElements(Insert(front, x, ById()), front + [x]);
      RisingAppend(Insert(front, x, ById()), s[|s| - 1]);
    } else {
      assert s != [] ==> s[|s| - 1] in s;
      hide Insert;
      assert forall y :: y in s ==> y.id < x.id by { RisingBelow(s, x); }
      RisingAppend(s, x);
      InsertsLast(s, x, ById());
    }
  }

  lemma {:induction false} SortRising(s: seq<Scored>)
    requires UniqueIds(s)
    ensures Rising(Sorted(s, ById()))
  {
    if s != [] {
      var front := s[..|s| - 1];
      SortRising(front);
      SortKeepsAll(front, ById());
      SameElements(Sorted(front, ById()), front);
      InsertRising(Sorted(front, ById()), s[|s| - 1]);
    }
  }

  lemma InsertsLast(s: seq<Scored>, x: Scored, leq: (Scored, Scored) -> bool)
    requires s == [] || leq(s[|s| - 1], x)
    ensures Insert(s, x, leq) == s + [x]
  {
  }

  lemma RisingBelow(s: seq<Scored>, x: Scored)
    requires Rising(s) && (s != [] ==> s[|s| - 1].id < x.id)
    ensures forall y :: y in s ==> y.id < x.id
  {
  }

  /** Behind the lowest score, with the greatest id, comes last. */
  lemma RankedBelow(s: seq<Scored>, x: Scored)
    requires Ranked(s) && (forall y :: y in s ==> y.id < x.id) && (s != [] ==> s[|s| - 1].score >= x.score)
    ensures forall y :: y in s ==> Before(y, x)
  {
    forall y | y in s ensures Before(y, x) {
      var i :| 0 <= i < |s| && s[i] == y;
      if i < |s| - 1 { assert Before(s[i], s[|s| - 1]); }
    }
  }

  /** A newcomer with the greatest id goes behind all that score at least as much. */
  lemma {:induction false} InsertRanked(s: seq<Scored>, x: Scored)
    requires Ranked(s) && forall y :: y in s ==> y.id < x.id
    ensures Ranked(Insert(s, x, ByScoreDown()))
  {
    if s != [] && s[|s| - 1].score < x.score {
      var front := s[..|s| - 1];
      FrontRanked(s);
      assert s[|s| - 1] in s;
      hide Ranked;
      InsertRanked(front, x);
      InsertKeepsAll(front, x, ByScoreDown());
      SameElements(Insert(front, x, ByScoreDown()), front + [x]);
      RankedAppend(Insert(front, x, ByScoreDown()), s[|s| - 1]);
    } else {
      RankedBelow(s, x);
      hide Ranked;
      RankedAppend(s, x);
      InsertsLast(s, x, ByScoreDown());
    }
  }

  lemma {:induction false} SortRanked(s: seq<Scored>)
    requires Rising(s)
    ensures Ranked(Sorted(s, ByScoreDown()))
  {
    if s != [] {
      var front := s[..|s| - 1];
      SortRanked(front);
      SortKeepsAll(front, ByScoreDown());
      SameElements(Sorted(front, ByScoreDown()), front);
      InsertRanked(Sorted(front, ByScoreDown()), s[|s| - 1]);
    }
  }

  lemma {:induction false} InsertByBoth(s: seq<Scored>, x: Scored)
    requires Ranked(s) && forall y :: y in s ==> y.id != x.id
    ensures Ranked(Insert(s, x, ByBoth()))
  {
    if s != [] && !Before(s[|s| - 1], x) {
      var front := s[..|s| - 1];
      FrontRanked(s);
      assert s[|s| - 1] in s;
      hide Ranked;
      InsertByBoth(front, x);
      InsertKeepsAll(front, x, ByBoth());
      SameElements(Insert(front, x, ByBoth()), front + [x]);
      RankedAppend(Insert(front, x, ByBoth()), s[|s| - 1]);
    } else {
      forall y | y in s ensures Before(y, x) {
        var i :| 0 <= i < |s| && s[i] == y;
        if i < |s| - 1 { assert Before(s[i], s[|s| - 1]); }
      }
      hide Ranked;
      RankedAppend(s, x);
      InsertsLast(s, x, ByBoth());
    }
  }

  lemma {:induction false} SortByBoth(s: seq<Scored>)
    requires UniqueIds(s)
    ensures Ranked(Sorted(s, ByBoth()))
  {
    if s != [] {
      var front := s[..|s| - 1];
      SortByBoth(front);
      SortKeepsAll(front, ByBoth());
      SameElements(Sorted(front, ByBoth()), front);
      InsertByBoth(Sorted(front, ByBoth()), s[|s| - 1]);
    }
  }

  lemma LastComesLast(s: seq<Scored>, y: Scored)
    requires Ranked(s) && y in s
    ensures y == s[|s| - 1] || Before(y, s[|s| - 1])
  {
    var i :| 0 <= i < |s| && s[i] == y;
    if i < |s| - 1 { assert Before(s[i], s[|s| - 1]); }
  }

  lemma LastIs(a: seq<Scored>, b: seq<Scored>)
    requires |a| == |b| > 0 && multiset(a) == multiset(b) && Ranked(a) && Ranked(b)
    ensures a[|a| - 1] == b[|b| - 1]
  {
    SameElements(a, b);
    assert a[|a| - 1] in a && b[|b| - 1] in b;
    LastComesLast(a, b[|b| - 1]);
    LastComesLast(b, a[|a| - 1]);
  }

  lemma FrontIs(a: seq<Scored>)
    requires a != []
    ensures multiset(a[..|a| - 1]) == multiset(a) - multiset{a[|a| - 1]}
  {
    assert a == a[..|a| - 1] + [a[|a| - 1]];
  }

  /** There is only one ranking of given candidates. */
  lemma {:induction false} OneRanking(a: seq<Scored>, b: seq<Scored>)
    requires multiset(a) == multiset(b) && Ranked(a) && Ranked(b)
    ensures a == b
    decreases |a|
  {
    hide Ranked; hide Before;
    assert |a| == |multiset(a)| == |multiset(b)| == |b|;
    if a != [] {
      var n := |a| - 1;
      FrontRanked(a);
      FrontRanked(b);
      LastIs(a, b);
      FrontIs(a);
      FrontIs(b);
      OneRanking(a[..n], b[..n]);
      assert a == a[..n] + [a[n]] && b == b[..n] + [b[n]];
    }
  }

  /** Sorting by id and then, stably, by falling score is sorting once by both. */
  lemma TwoSortsAreOne(s: seq<Scored>)
    requires UniqueIds(s)
    ensures Sorted(Sorted(s, ById()), ByScoreDown()) == Sorted(s, ByBoth())
    ensures Ranked(Sorted(s, ByBoth()))
  {
    var byId := Sorted(s, ById());
    SortRising(s);
    SortKeepsAll(s, ById());
    SortRanked(byId);
    SortKeepsAll(byId, ByScoreDown());
    SortByBoth(s);
    SortKeepsAll(s, ByBoth());
    hide Sorted; hide Before;
    OneRanking(Sorted(byId, ByScoreDown()), Sorted(s, ByBoth()));
  }

  // ---- The filter and ranking loop ----

  predicate Eligible(x: Scored, corpus: map<Id, Document>, city: string, least: real) {
    x.id in corpus && x.score >= least && corpus[x.id].isPublic && corpus[x.id].ready && corpus[x.id].city == city
  }

  function Filtered(s: seq<Scored>, corpus: map<Id, Document>, city: string, least: real): seq<Scored> {
    if s == [] then []
    else
      Filtered(s[..|s| - 1], corpus, city, least)
      + if Eligible(s[|s| - 1], corpus, city, least) then [s[|s| - 1]] else []
  }

  lemma {:induction false} FilteredIs(s: seq<Scored>, corpus: map<Id, Document>, city: string, least: real)
    requires UniqueIds(s)
    ensures var f := Filtered(s, corpus, city, least);
            && UniqueIds(f) && forall x :: x in f <==> x in s && Eligible(x, corpus, city, least)
  {
    if s != [] {
      var n := |s| - 1;
      FilteredIs(s[..n], corpus, city, least);
      assert forall x :: x in s <==> x in s[..n] || x == s[n];
      var f := Filtered(s[..n], corpus, city, least);
      assert forall i :: 0 <= i < |f| ==> f[i] in f;
    }
  }

  /** What a query retrieves: the first `k` of the one ranking of all eligible documents. Every
      retrieved document is public, ready and of the query's city, so the report's
      same-city share is 1 by construction; no eligible document left out ranks before one
      retrieved. */
  method Retrieve(scores: seq<Scored>, corpus: map<Id, Document>, city: string, least: real, k: nat) returns (retrieved: seq<Scored>)
    requires UniqueIds(scores)
    ensures retrieved == Sorted(Filtered(scores, corpus, city, least), ByBoth())[..Min(k, |Filtered(scores, corpus, city, least)|)]
    ensures forall i, j :: 0 <= i < j < |retrieved| ==>
              || retrieved[i].score > retrieved[j].score
              || (retrieved[i].score == retrieved[j].score && retrieved[i].id < retrieved[j].id)
    ensures |retrieved| <= k && forall x :: x in retrieved ==>
              && x in scores && x.id in corpus && x.score >= least
              && corpus[x.id].isPublic && corpus[x.id].ready && corpus[x.id].city == city
    ensures forall x :: x in scores && x.id in corpus && x.score >= least && corpus[x.id].isPublic && corpus[x.id].ready
                        && corpus[x.id].city == city && x !in retrieved ==>
              |retrieved| == k && forall y :: y in retrieved ==> y.score > x.score || (y.score == x.score && y.id < x.id)
  {
    var ranked: seq<Scored> := [];
    for i := 0 to |scores|
      invariant ranked == Filtered(scores[..i], corpus, city, least)
    {
      assert scores[..i + 1][..i] == scores[..i];
      var x := scores[i];
      if x.id !in corpus { continue; }
      var document := corpus[x.id];
      if x.score < least { continue; }
      if !document.isPublic { continue; }
      if !document.ready { continue; }
      if document.city != city { continue; }
      ranked := ranked + [x];
    }
    assert scores[..|scores|] == scores;
    hide Filtered; hide Sorted; hide Before; hide Eligible; hide UniqueIds; hide Ranked;
    FilteredIs(scores, corpus, city, least);
    TwoSortsAreOne(ranked);
    SortKeepsAll(ranked, ByBoth());
    SameElements(Sorted(ranked, ByBoth()), ranked);
    ranked := Sorted(ranked, ById());
    ranked := Sorted(ranked, ByScoreDown());
    retrieved := ranked[..Min(k, |ranked|)];
    RetrievedIs(scores, corpus, city, least, ranked, k);
  }

  /** The first `k` of the ranking, in the fields of documents and scores. */
  lemma RetrievedIs(scores: seq<Scored>, corpus: map<Id, Document>, city: string, least: real, ranked: seq<Scored>, k: nat)
    requires Ranked(ranked) && forall x :: x in ranked <==> x in scores && Eligible(x, corpus, city, least)
    ensures var retrieved := ranked[..Min(k, |ranked|)];
            && (forall i, j :: 0 <= i < j < |retrieved| ==>
                  || retrieved[i].score > retrieved[j].score
                  || (retrieved[i].score == retrieved[j].score && retrieved[i].id < retrieved[j].id))
            && |retrieved| <= k
            && (forall x :: x in retrieved ==>
                  && x in scores && x.id in corpus && x.score >= least
                  && corpus[x.id].isPublic && corpus[x.id].ready && corpus[x.id].city == city)
            && (forall x :: x in scores && x.id in corpus && x.score >= least && corpus[x.id].isPublic && corpus[x.id].ready
                            && corpus[x.id].city == city && x !in retrieved ==>
                  |retrieved| == k && forall y :: y in retrieved ==> y.score > x.score || (y.score == x.score && y.id < x.id))
  {
    var retrieved := ranked[..Min(k, |ranked|)];
    CutRanked(ranked, Min(k, |ranked|));
    RankedIs(retrieved);
    BeforeIs();
    hide Before; hide Ranked;
    assert |ranked| <= k ==> retrieved == ranked;
  }

  lemma RankedIs(s: seq<Scored>)
    requires Ranked(s)
    ensures forall i, j :: 0 <= i < j < |s| ==> s[i].score > s[j].score || (s[i].score == s[j].score && s[i].id < s[j].id)
  {
  }

  lemma BeforeIs()
    ensures forall x, y :: Before(y, x) <==> y.score > x.score || (y.score == x.score && y.id < x.id)
  {
  }

  lemma CutRanked(s: seq<Scored>, k: nat)
    requires Ranked(s) && k <= |s|
    ensures Ranked(s[..k]) && forall x :: x in s[..k] ==> x in s
    ensures forall x, y :: x in s && x !in s[..k] && y in s[..k] ==> Before(y, x)
  {
    forall i | 0 <= i < k ensures s[i] in s[..k] { assert s[..k][i] == s[i]; }
    forall x, y | x in s && x !in s[..k] && y in s[..k] ensures Before(y, x) {
      var i :| 0 <= i < |s| && s[i] == x;
      var j :| 0 <= j < k && s[..k][j] == y;
      assert s[j] == y && j < i;
    }
  }

  // ---- nDCG ----

  ghost predicate Weighting(w: nat -> real) {
    (forall i :: w(i) > 0.0) && forall i, j :: i < j ==> w(i) > w(j)
  }

  /** The gain of the first `n` ranks. */
  function Gain(r: seq<Id>, relevant: set<Id>, w: nat -> real, n: nat): real
    requires n <= |r|
  {
    if n == 0 then 0.0 else Gain(r, relevant, w, n - 1) + if r[n - 1] in relevant then w(n - 1) else 0.0
  }

  function Ideal(w: nat -> real, n: nat): real { if n == 0 then 0.0 else Ideal(w, n - 1) + w(n - 1) }

  function Dcg(r: seq<Id>, relevant: set<Id>, w: nat -> real, k: nat): real { Gain(r, relevant, w, Min(k, |r|)) }

  function Ndcg(r: seq<Id>, relevant: set<Id>, w: nat -> real, k: nat): real {
    var ideal := Ideal(w, Min(k, |relevant|));
    if ideal != 0.0 then Dcg(r, relevant, w, k) / ideal else 1.0
  }

  function Found(r: seq<Id>, relevant: set<Id>, n: nat): set<Id>
    requires n <= |r|
  {
    set x | x in r[..n] && x in relevant
  }

  lemma {:induction false} IdealGrows(w: nat -> real, m: nat, n: nat)
    requires Weighting(w) && m <= n
    ensures 0.0 <= Ideal(w, m) <= Ideal(w, n) && (m < n ==> Ideal(w, m) < Ideal(w, n))
  {
    if n > 0 {
      if m < n { IdealGrows(w, m, n - 1); } else { IdealGrows(w, 0, n - 1); }
    }
  }

  lemma FoundGrows(r: seq<Id>, relevant: set<Id>, n: nat)
    requires n < |r| && forall i, j :: 0 <= i < j < |r| ==> r[i] != r[j]
    ensures |Found(r, relevant, n + 1)| == |Found(r, relevant, n)| + if r[n] in relevant then 1 else 0
  {
    assert r[..n + 1] == r[..n] + [r[n]];
    assert r[n] !in r[..n];
    assert Found(r, relevant, n + 1) == Found(r, relevant, n) + if r[n] in relevant then {r[n]} else {};
  }

  lemma FoundFits(r: seq<Id>, relevant: set<Id>, n: nat)
    requires n <= |r|
    ensures |Found(r, relevant, n)| <= |relevant|
  {
    Contained(Found(r, relevant, n), relevant);
  }

  lemma Contained(a: set<Id>, b: set<Id>)
    requires a <= b
    ensures |a| <= |b|
  {
    assert b == a + (b - a);
  }

  /** The hits gain at most what as many hits would gain at the top, and exactly that only if
      they are at the top. */
  lemma {:induction false} GainBounded(r: seq<Id>, relevant: set<Id>, w: nat -> real, n: nat)
    requires Weighting(w) && n <= |r| && forall i, j :: 0 <= i < j < |r| ==> r[i] != r[j]
    ensures var h := |Found(r, relevant, n)|;
            && h <= n && 0.0 <= Gain(r, relevant, w, n) <= Ideal(w, h)
            && (Gain(r, relevant, w, n) == Ideal(w, h) <==> forall i :: 0 <= i < n && r[i] in relevant ==> i < h)
  {
    if n > 0 {
      GainBounded(r, relevant, w, n - 1);
      FoundGrows(r, relevant, n - 1);
      var h := |Found(r, relevant, n - 1)|;
      IdealGrows(w, 0, h);
      if r[n - 1] in relevant {
        assert Ideal(w, h + 1) == Ideal(w, h) + w(h);
        if h < n - 1 { assert w(n - 1) < w(h); }
      }
    } else {
      assert Found(r, relevant, 0) == {};
    }
  }

  lemma Quotient(a: real, b: real)
    requires 0.0 <= a <= b && 0.0 < b
    ensures 0.0 <= a / b <= 1.0 && (a / b == 1.0 <==> a == b)
  {
  }

  /** For distinct retrieved ids the metric lies between 0 and 1, for every cut-off. */
  lemma NdcgInRange(r: seq<Id>, relevant: set<Id>, w: nat -> real, k: nat)
    requires Weighting(w) && forall i, j :: 0 <= i < j < |r| ==> r[i] != r[j]
    ensures 0.0 <= Dcg(r, relevant, w, k) <= Ideal(w, Min(k, |relevant|))
    ensures 0.0 <= Ndcg(r, relevant, w, k) <= 1.0
  {
    var n := Min(k, |r|);
    GainBounded(r, relevant, w, n);
    FoundFits(r, relevant, n);
    IdealGrows(w, |Found(r, relevant, n)|, Min(k, |relevant|));
    IdealGrows(w, 0, Min(k, |relevant|));
    if Ideal(w, Min(k, |relevant|)) != 0.0 { Quotient(Dcg(r, relevant, w, k), Ideal(w, Min(k, |relevant|))); }
  }

  /** It is 1 exactly when the top ranks, as many as could be relevant, all are. */
  lemma PerfectIff(r: seq<Id>, relevant: set<Id>, w: nat -> real, k: nat)
    requires Weighting(w) && forall i, j :: 0 <= i < j < |r| ==> r[i] != r[j]
    ensures var top := Min(k, |relevant|);
            Ndcg(r, relevant, w, k) == 1.0 <==> top <= |r| && forall i :: 0 <= i < top ==> r[i] in relevant
  {
    var top, n := Min(k, |relevant|), Min(k, |r|);
    var h := |Found(r, relevant, n)|;
    GainBounded(r, relevant, w, n);
    FoundFits(r, relevant, n);
    IdealGrows(w, h, top);
    IdealGrows(w, 0, top);
    if top > 0 {
      Quotient(Dcg(r, relevant, w, k), Ideal(w, top));
      if top <= |r| && forall i :: 0 <= i < top ==> r[i] in relevant {
        TopFound(r, relevant, top, n);
        OnlyTopHit(r, relevant, n);
      } else if h == top && forall i :: 0 <= i < n && r[i] in relevant ==> i < h {
        HitsFillTop(r, relevant, n);
      }
    }
  }

  /** If the first `top` are relevant they are found. */
  lemma {:induction false} TopFound(r: seq<Id>, relevant: set<Id>, top: nat, n: nat)
    requires top <= n <= |r| && (forall i, j :: 0 <= i < j < |r| ==> r[i] != r[j]) && forall i :: 0 <= i < top ==> r[i] in relevant
    ensures |Found(r, relevant, n)| >= top
  {
    if n == 0 {
    } else {
      FoundGrows(r, relevant, n - 1);
      TopFound(r, relevant, if top < n then top else top - 1, n - 1);
    }
  }

  /** If there are as many hits as leading hits, there are no others. */
  lemma OnlyTopHit(r: seq<Id>, relevant: set<Id>, n: nat)
    requires n <= |r| && forall i, j :: 0 <= i < j < |r| ==> r[i] != r[j]
    requires |Found(r, relevant, n)| <= n && forall i :: 0 <= i < |Found(r, relevant, n)| ==> r[i] in relevant
    ensures forall i :: 0 <= i < n && r[i] in relevant ==> i < |Found(r, relevant, n)|
  {
    var h := |Found(r, relevant, n)|;
    TopFound(r, relevant, h, h);
    assert Found(r, relevant, h) <= Found(r, relevant, n);
    if i :| h <= i < n && r[i] in relevant {
      assert r[..n][i] == r[i] && r[i] in Found(r, relevant, n);
      assert r[i] !in r[..h];
      Contained(Found(r, relevant, h), Found(r, relevant, n) - {r[i]});
      assert false;
    }
  }

  /** If all hits lie within the first `h` ranks and there are `h` of them, these are hits. */
  lemma HitsFillTop(r: seq<Id>, relevant: set<Id>, n: nat)
    requires n <= |r| && forall i, j :: 0 <= i < j < |r| ==> r[i] != r[j]
    requires forall i :: 0 <= i < n && r[i] in relevant ==> i < |Found(r, relevant, n)|
    ensures |Found(r, relevant, n)| <= n
    ensures forall i :: 0 <= i < |Found(r, relevant, n)| ==> r[i] in relevant
  {
    var h := |Found(r, relevant, n)|;
    FoundAtMost(r, relevant, n);
    var top := set x | x in r[..h];
    FoundAtMost(r, top, h);
    assert Found(r, top, h) == top;
    assert Found(r, relevant, n) <= top;
    if i :| 0 <= i < h && r[i] !in relevant {
      assert r[i] in top - Found(r, relevant, n);
      Contained(Found(r, relevant, n), top - {r[i]});
      assert false;
    }
  }

  lemma {:induction false} FoundAtMost(r: seq<Id>, relevant: set<Id>, n: nat)
    requires n <= |r| && forall i, j :: 0 <= i < j < |r| ==> r[i] != r[j]
    ensures |Found(r, relevant, n)| <= n
  {
    if n > 0 {
      FoundAtMost(r, relevant, n - 1);
      FoundGrows(r, relevant, n - 1);
    } else {
      assert Found(r, relevant, 0) == {};
    }
  }
}
