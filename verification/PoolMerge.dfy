/**
 Merging nearby attractions into the candidate pool (app/commute/supplement.py:177-232).
 */
module PoolMerge {
  import opened Basics

  /** `identity` is what `attraction_identity` computes from poi_id and name. */
  datatype Candidate = Candidate(identity: string, rating: Option<real>, detail: int)

  /** `rating or -1.0`: a missing rating, and a rating of zero, count as minus one. */
  function Effective(c: Candidate): real {
    if c.rating.Some? && c.rating.value != 0.0 then c.rating.value else -1.0
  }

  function Identities(cs: seq<Candidate>): seq<string> { seq(|cs|, i requires 0 <= i < |cs| => cs[i].identity) }

  /** Each identity once, where it occurs first. */
  function Distinct(ids: seq<string>): seq<string> {
    if ids == [] then []
    else
      var front := Distinct(ids[..|ids| - 1]);
      if ids[|ids| - 1] in front then front else front + [ids[|ids| - 1]]
  }

  /** `cs[k]` is the earliest of its identity with the greatest effective rating. */
  ghost predicate Represents(cs: seq<Candidate>, k: int) {
    && 0 <= k < |cs|
    && (forall j :: 0 <= j < |cs| && cs[j].identity == cs[k].identity ==> Effective(cs[j]) <= Effective(cs[k]))
    && (forall j :: 0 <= j < k && cs[j].identity == cs[k].identity ==> Effective(cs[j]) < Effective(cs[k]))
  }

  ghost predicate Chosen(cs: seq<Candidate>, c: Candidate) { exists k :: Represents(cs, k) && cs[k] == c }

  /** The pool before cropping, as it should be: every identity of the input once, in the order
      of first occurrence, by its representative. */
  ghost predicate Merged(pool: seq<Candidate>, cs: seq<Candidate>) {
    && Identities(pool) == Distinct(Identities(cs))
    && forall i :: 0 <= i < |pool| ==> Chosen(cs, pool[i])
  }

  lemma {:induction false} DistinctIs(ids: seq<string>)
    ensures forall i, j :: 0 <= i < j < |Distinct(ids)| ==> Distinct(ids)[i] != Distinct(ids)[j]
    ensures forall x :: x in Distinct(ids) <==> x in ids
    ensures |Distinct(ids)| <= |ids|
  {
    if ids != [] {
      var n := |ids| - 1;
      DistinctIs(ids[..n]);
      assert forall i :: 0 <= i < |Distinct(ids[..n])| ==> Distinct(ids[..n])[i] in Distinct(ids[..n]);
      assert forall x :: x in ids <==> x in ids[..n] || x == ids[n];
    }
  }

  lemma {:induction false} DistinctGrows(ids: seq<string>, more: seq<string>)
    ensures Distinct(ids) <= Distinct(ids + more)
  {
    if more == [] {
      assert ids + more == ids;
    } else {
      var n := |more| - 1;
      DistinctGrows(ids, more[..n]);
      assert (ids + more)[..|ids + more| - 1] == ids + more[..n];
    }
  }

  lemma OneIsChosen(cs: seq<Candidate>, a: Candidate, b: Candidate)
    requires Chosen(cs, a) && Chosen(cs, b) && a.identity == b.identity
    ensures a == b
  {
    var k :| Represents(cs, k) && cs[k] == a;
    var m :| Represents(cs, m) && cs[m] == b;
  }

  /** The specification leaves one pool only. */
  lemma MergedOnce(a: seq<Candidate>, b: seq<Candidate>, cs: seq<Candidate>)
    requires Merged(a, cs) && Merged(b, cs)
    ensures a == b
  {
    hide Chosen; hide Distinct;
    assert |a| == |Identities(a)| == |b|;
    forall i | 0 <= i < |a| ensures a[i] == b[i] {
      assert a[i].identity == Identities(a)[i] == Identities(b)[i] == b[i].identity;
      OneIsChosen(cs, a[i], b[i]);
    }
  }

  lemma StaysChosen(cs: seq<Candidate>, x: Candidate, c: Candidate)
    requires Chosen(cs, x) && (x.identity != c.identity || Effective(c) <= Effective(x))
    ensures Chosen(cs + [c], x)
  {
    var k :| Represents(cs, k) && cs[k] == x;
    assert Represents(cs + [c], k);
  }

  lemma BetterIsChosen(cs: seq<Candidate>, x: Candidate, c: Candidate)
    requires Chosen(cs, x) && x.identity == c.identity && Effective(c) > Effective(x)
    ensures Chosen(cs + [c], c)
  {
    var k :| Represents(cs, k) && cs[k] == x;
    assert Represents(cs + [c], |cs|);
  }

  lemma FirstIsChosen(cs: seq<Candidate>, c: Candidate)
    requires forall j :: 0 <= j < |cs| ==> cs[j].identity != c.identity
    ensures Chosen(cs + [c], c)
  {
    assert Represents(cs + [c], |cs|);
  }

  lemma IdentitiesGrow(cs: seq<Candidate>, c: Candidate)
    ensures Identities(cs + [c]) == Identities(cs) + [c.identity]
    ensures Distinct(Identities(cs + [c]))
            == if c.identity in Distinct(Identities(cs)) then Distinct(Identities(cs)) else Distinct(Identities(cs)) + [c.identity]
  {
    assert Identities(cs + [c]) == Identities(cs) + [c.identity];
    assert (Identities(cs) + [c.identity])[..|cs|] == Identities(cs);
  }

  /** Another candidate of an identity already in the pool at `at`. */
  lemma JoinsClass(pool: seq<Candidate>, cs: seq<Candidate>, c: Candidate, at: nat)
    requires Merged(pool, cs) && at < |pool| && pool[at].identity == c.identity
    ensures Merged(if Effective(c) > Effective(pool[at]) then pool[at := c] else pool, cs + [c])
  {
    var next := if Effective(c) > Effective(pool[at]) then pool[at := c] else pool;
    assert Identities(next) == Identities(pool);
    assert c.identity == Identities(pool)[at];
    IdentitiesGrow(cs, c);
    DistinctIs(Identities(cs));
    hide Chosen; hide Effective; hide Distinct;
    forall i | 0 <= i < |next| ensures Chosen(cs + [c], next[i]) {
      if i == at && Effective(c) > Effective(pool[at]) {
        BetterIsChosen(cs, pool[at], c);
      } else {
        assert Identities(pool)[i] == pool[i].identity;
        assert i != at ==> Identities(pool)[i] != Identities(pool)[at];
        StaysChosen(cs, pool[i], c);
      }
    }
  }

  lemma FoundsClass(pool: seq<Candidate>, cs: seq<Candidate>, c: Candidate)
    requires Merged(pool, cs) && forall i :: 0 <= i < |pool| ==> pool[i].identity != c.identity
    ensures Merged(pool + [c], cs + [c])
  {
    hide Chosen; hide Effective; hide Distinct; hide Identities;
    IdentitiesGrow(cs, c);
    IdentitiesGrow(pool, c);
    NotAmong(pool, cs, c);
    forall i | 0 <= i < |pool + [c]| ensures Chosen(cs + [c], (pool + [c])[i]) {
      if i < |pool| { StaysChosen(cs, pool[i], c); } else { FirstIsChosen(cs, c); }
    }
  }

  lemma NotAmong(pool: seq<Candidate>, cs: seq<Candidate>, c: Candidate)
    requires Identities(pool) == Distinct(Identities(cs)) && forall i :: 0 <= i < |pool| ==> pool[i].identity != c.identity
    ensures c.identity !in Distinct(Identities(cs)) && forall j :: 0 <= j < |cs| ==> cs[j].identity != c.identity
  {
    DistinctIs(Identities(cs));
    hide Distinct;
    assert forall i :: 0 <= i < |pool| ==> Identities(pool)[i] == pool[i].identity;
    assert c.identity !in Identities(pool);
    forall j | 0 <= j < |cs| ensures cs[j].identity != c.identity {
      assert Identities(cs)[j] == cs[j].identity && Identities(cs)[j] in Identities(cs);
    }
  }

  datatype Merge = Merge(pool: seq<Candidate>, added: nat, duplicates: nat)

  function NewIn(pool: seq<Candidate>, known: seq<Candidate>): nat {
    if pool == [] then 0
    else NewIn(pool[..|pool| - 1], known) + if pool[|pool| - 1].identity in Identities(known) then 0 else 1
  }

  /** The places of the pool whose identity no known candidate has. */
  ghost function Unseen(pool: seq<Candidate>, known: seq<Candidate>): set<nat> {
    set i: nat | i < |pool| && !(exists j :: 0 <= j < |known| && known[j].identity == pool[i].identity) :: i
  }

  /** It counts the places of the pool whose identity was not known. */
  lemma {:induction false} NewInIs(pool: seq<Candidate>, known: seq<Candidate>, n: nat)
    requires n <= |pool|
    ensures NewIn(pool[..n], known) == |Unseen(pool[..n], known)|
  {
    if n == 0 {
      assert Unseen(pool[..0], known) == {};
    } else {
      NewInIs(pool, known, n - 1);
      assert pool[..n][..n - 1] == pool[..n - 1];
      var x := pool[n - 1].identity;
      KnownIs(known, x);
      var more := if x in Identities(known) then {} else {n - 1};
      forall i: nat ensures i in Unseen(pool[..n], known) <==> i in Unseen(pool[..n - 1], known) || i in more {
        if i < n - 1 { assert pool[..n][i] == pool[..n - 1][i]; }
      }
      assert Unseen(pool[..n], known) == Unseen(pool[..n - 1], known) + more;
    }
  }

  lemma KnownIs(known: seq<Candidate>, x: string)
    ensures x in Identities(known) <==> exists j :: 0 <= j < |known| && known[j].identity == x
  {
    if j :| 0 <= j < |known| && known[j].identity == x { assert Identities(known)[j] == x; }
  }

  lemma EmptyMerged()
    ensures Merged([], [])
  {
  }

  /** `merge` */
  method MergePools(existing: seq<Candidate>, received: seq<Candidate>, most: nat) returns (r: Merge, ghost whole: seq<Candidate>)
    requires most >= 1
    ensures Merged(whole, existing + received)
    ensures r.pool == whole[..Min(|whole|, most)]
    ensures r.duplicates + |whole| == |existing| + |received|
    ensures r.added == |Unseen(r.pool, existing)|
  {
    hide Merged; hide Effective;
    assert Merged([], []) by { EmptyMerged(); }
    var all := existing + received;
    assert all[..0] == [];
    var merged: seq<Candidate> := [];
    var positions: map<string, nat> := map[];
    var duplicates := 0;
    for n := 0 to |all|
      invariant Merged(merged, all[..n])
      invariant duplicates + |merged| == n
      invariant forall id :: id in positions ==> positions[id] < |merged| && merged[positions[id]].identity == id
      invariant forall i :: 0 <= i < |merged| ==> merged[i].identity in positions && positions[merged[i].identity] == i
    {
      var c := all[n];
      assert all[..n + 1] == all[..n] + [c];
      if c.identity in positions {
        duplicates := duplicates + 1;
        var position := positions[c.identity];
        JoinsClass(merged, all[..n], c, position);
        if Effective(c) > Effective(merged[position]) { merged := merged[position := c]; }
      } else {
        FoundsClass(merged, all[..n], c);
        positions := positions[c.identity := |merged|];
        merged := merged + [c];
      }
    }
    assert all[..|all|] == all;
    whole := merged;
    var cropped := merged[..Min(|merged|, most)];
    var added := 0;
    for i := 0 to |cropped|
      invariant added == NewIn(cropped[..i], existing)
    {
      assert cropped[..i + 1][..i] == cropped[..i];
      if cropped[i].identity !in Identities(existing) { added := added + 1; }
    }
    assert cropped[..|cropped|] == cropped;
    NewInIs(cropped, existing, |cropped|);
    r := Merge(cropped, added, duplicates);
  }

  /** Every attraction of the old pool survives a merge whenever the old pool fits: cropping
      takes newcomers first. */
  lemma ExistingSurvive(existing: seq<Candidate>, received: seq<Candidate>, whole: seq<Candidate>, most: nat, c: Candidate)
    requires Merged(whole, existing + received) && c in existing && |Distinct(Identities(existing))| <= most
    ensures exists i :: 0 <= i < Min(|whole|, most) && whole[i].identity == c.identity
  {
    var ids := Identities(existing);
    assert Identities(existing + received) == ids + Identities(received);
    DistinctGrows(ids, Identities(received));
    DistinctIs(ids);
    var k :| 0 <= k < |existing| && existing[k] == c;
    assert ids[k] == c.identity && c.identity in Distinct(ids);
    var i :| 0 <= i < |Distinct(ids)| && Distinct(ids)[i] == c.identity;
    assert Identities(whole)[i] == c.identity && whole[i].identity == Identities(whole)[i];
  }

  /** A rating of zero is no better than none: the unrated first candidate stays. */
  lemma ZeroCountsAsUnrated()
    ensures var unrated, zero := Candidate("a", None, 1), Candidate("a", Some(0.0), 2); Merged([unrated], [unrated, zero])
  {
    var unrated, zero := Candidate("a", None, 1), Candidate("a", Some(0.0), 2);
    assert Merged([], []);
    FoundsClass([], [], unrated);
    assert [] + [unrated] == [unrated];
    JoinsClass([unrated], [unrated], zero, 0);
    assert [unrated] + [zero] == [unrated, zero];
  }
}
