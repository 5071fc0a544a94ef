/**
 What the log of a maintenance run guarantees: when a repaired row really is indexed, what a
 superseded write leaves behind, which points a deletion can never take away, and what either
 does when nobody else is about.
 */
module Healing {
  import opened Basics
  import opened Maintenance

  // ---- Paths ----

  lemma PathSplits(v: Surroundings, origin: World, a: seq<Event>, b: seq<Event>, now: World)
    requires Path(v, origin, a + b, now)
    ensures Path(v, origin, a, After(origin, a, |a|)) && Path(v, After(origin, a, |a|), b, now)
  {
    hide Truthful; hide Stirred;
    var u, mid := a + b, After(origin, a, |a|);
    assert forall k :: 0 <= k < |a| ==> u[k] == a[k];
    forall k | 0 <= k < |a| ensures Truthful(v, a[k]) && a[k].met == Stirred(v, After(origin, a, k)) {
      assert After(origin, u, k) == After(origin, a, k) && Truthful(v, u[k]);
    }
    forall k | 0 <= k <= |b| ensures After(origin, u, |a| + k) == After(mid, b, k) {
      if k > 0 { assert u[|a| + k - 1] == b[k - 1]; }
    }
    forall k | 0 <= k < |b| ensures Truthful(v, b[k]) && b[k].met == Stirred(v, After(mid, b, k)) {
      assert u[|a| + k] == b[k] && Truthful(v, u[|a| + k]);
    }
  }

  /** Each job of a loop had a true path of its own. */
  lemma {:induction false} EveryPart(
    v: Surroundings, origin: World, before: seq<Event>, parts: seq<seq<Event>>, now: World, n: nat)
    requires Path(v, origin, before + Joined(parts), now) && n < |parts|
    ensures exists w, x :: Path(v, w, parts[n], x)
    decreases |parts|
  {
    hide Path;
    var init, last := parts[..|parts| - 1], parts[|parts| - 1];
    assert before + Joined(parts) == (before + Joined(init)) + last;
    PathSplits(v, origin, before + Joined(init), last, now);
    if n < |init| {
      EveryPart(v, origin, before, init, After(origin, before + Joined(init), |before + Joined(init)|), n);
      assert init[n] == parts[n];
    }
  }

  lemma TruthfulAt(v: Surroundings, w: World, t: seq<Event>, now: World, k: nat)
    requires Path(v, w, t, now) && k < |t|
    ensures Truthful(v, t[k]) && t[k].met == Stirred(v, After(w, t, k)) && (k == |t| - 1 ==> now == t[k].left)
  {
  }

  lemma {:induction false} CallAt(j: Job, t: seq<Event>, k: nat)
    requires SoFar(j, t) && k < |t|
    ensures NextCall(j, t[..k]) == Some(t[k].call)
  {
  }

  // ---- What the calls say and do, in the fields of rows and points ----

  /** A look confirms the very row: it is published, indexed, and in nothing another. */
  lemma LookIs(v: Surroundings, x: Event, row: Key)
    requires Truthful(v, x) && x.call == Look(row) && !x.answer.Raised?
    ensures Yes(x) <==>
              && row.share in x.met.store
              && var r := x.met.store[row.share];
                 && r.publication.Public? && r.status.Ready? && r.published.Some? && r.indexed.Some?
                 && r.share == row.share && r.version == row.version && r.hash == row.hash
                 && r.published == row.published && r.indexed == row.indexed
    ensures x.left == x.met
  {
  }

  /** Before a hand-over the row is read again: it must be published, ready and indexed. */
  lemma SeeIs(v: Surroundings, x: Event, share: Id)
    requires Truthful(v, x) && x.call == See(share) && !x.answer.Raised?
    ensures Yes(x) <==>
              && share in x.met.store
              && var r := x.met.store[share];
                 r.publication.Public? && r.status.Ready? && r.published.Some? && r.indexed.Some?
    ensures x.left == x.met
  {
  }

  /** A write puts the row's share, version and hash, publicly visible, in the row's place. */
  lemma WriteIs(v: Surroundings, x: Event, row: Key)
    requires Truthful(v, x) && x.call == Write(row) && !x.answer.Raised?
    ensures x.left == x.met.(index := x.met.index[row.share :=
                Payload(Some(row.share), Some(row.version), Some(row.hash), Some("PUBLIC"), false)])
  {
  }

  /** A version-filtered delete takes the points of that share and version, and no other. */
  lemma ClearIs(v: Surroundings, x: Event, share: Id, version: int)
    requires Truthful(v, x) && x.call == Clear(share, version) && !x.answer.Raised?
    ensures x.left.store == x.met.store
    ensures forall p :: p in x.left.index <==>
              p in x.met.index && !(x.met.index[p].share == Some(share) && x.met.index[p].version == Some(version))
    ensures forall p :: p in x.left.index ==> x.left.index[p] == x.met.index[p]
  {
  }

  /** A hand-over takes the row exactly if it still is that version and hash, published, indexed by
      a finished job; the row is then hidden and waits for the indexer, and no other is touched. */
  lemma HandOverIs(v: Surroundings, x: Event, share: Id, version: int, hash: string)
    requires Truthful(v, x) && x.call == HandOver(share, version, hash) && !x.answer.Raised?
    ensures Yes(x) <==>
              && share in x.met.store
              && var r := x.met.store[share];
                 r.version == version && r.hash == hash && r.publication.Public? && r.status.Ready? && r.indexer
    ensures x.left.index == x.met.index && x.left.store.Keys == x.met.store.Keys
    ensures forall id :: id in x.left.store ==>
              x.left.store[id] ==
                if id == share && Yes(x)
                then x.met.store[id].(publication := Publishing, status := Pending, indexed := None, indexer := false)
                else x.met.store[id]
  {
  }

  /** A comparison confirms exactly that the point is still there as scrolled. */
  lemma CompareIs(v: Surroundings, x: Event, place: Id, snapshot: Payload)
    requires Truthful(v, x) && x.call == Compare(place, snapshot) && !x.answer.Raised?
    ensures Yes(x) <==> place in x.met.index && x.met.index[place] == snapshot
    ensures x.left == x.met
  {
  }

  /** The guard lets go of a point without a row, of one matching a withdrawn row, and of one
      matching an active row whose place it does not hold; of no other. */
  lemma GuardIs(v: Surroundings, x: Event, place: Id, p: Payload)
    requires Truthful(v, x) && x.call == Ask(place, p) && !x.answer.Raised?
    ensures Yes(x) <==>
              || p.share.None? || p.share.value !in x.met.store
              || var r := x.met.store[p.share.value];
                 && p.share == Some(r.share) && p.version == Some(r.version) && p.hash == Some(r.hash)
                 && (|| (r.publication.Unpublished? && r.status.Deleted?)
                     || (&& r.publication.Public? && r.status.Ready? && r.published.Some? && r.indexed.Some?
                         && p.share.value != place))
    ensures x.left == x.met
  {
  }

  /** A filtered delete takes the point in that place exactly if it still has the share, version
      and hash of the scroll, and its visibility where the scroll shows one. */
  lemma RemoveIs(v: Surroundings, x: Event, place: Id, snapshot: Payload)
    requires Truthful(v, x) && x.call == Remove(place, snapshot) && !x.answer.Raised?
    ensures x.left ==
              if && place in x.met.index
                 && x.met.index[place].share == snapshot.share && x.met.index[place].version == snapshot.version
                 && x.met.index[place].hash == snapshot.hash
                 && (snapshot.visibility.Some? ==> x.met.index[place].visibility == snapshot.visibility)
              then x.met.(index := x.met.index - {place}) else x.met
  {
  }

  /** Reading a place again confirms exactly that nothing is there. */
  lemma RereadIs(v: Surroundings, x: Event, place: Id)
    requires Truthful(v, x) && x.call == Reread(place) && !x.answer.Raised?
    ensures (Yes(x) <==> place !in x.met.index) && x.left == x.met
  {
  }

  // ---- Repair ----

  /** The course of a repair, call by call. */
  lemma RepairCourse(x: Key, t: seq<Event>)
    requires Finished(Repair(x), t)
    ensures 1 <= |t| <= 8 && t[0].call == Look(x)
    ensures |t| > 1 ==> Yes(t[0]) && t[1].call == Embed
    ensures |t| > 2 ==> Yes(t[1]) && t[2].call == Look(x)
    ensures |t| > 3 ==> Yes(t[2]) && t[3].call == Write(x)
    ensures |t| > 4 ==> Yes(t[3]) && t[4].call == Look(x)
    ensures |t| > 5 ==> t[4].answer == Said(false) && t[5].call == Clear(x.share, x.version)
    ensures |t| > 6 ==> Yes(t[5]) && t[6].call == See(x.share)
    ensures |t| > 7 ==> Yes(t[6]) && Handing(x.share, t[6].met.store) == Some(t[7].call)
    ensures |t| <= 4 || |t| == 6 ==> !Yes(t[|t| - 1])
    ensures |t| == 5 ==> t[4].answer != Said(false)
    ensures |t| == 7 ==> !Yes(t[6]) || Handing(x.share, t[6].met.store).None?
  {
    hide Handing;
    var j := Repair(x);
    if |t| > 0 { CallAt(j, t, 0); }
    if |t| > 1 { CallAt(j, t, 1); }
    if |t| > 2 { CallAt(j, t, 2); }
    if |t| > 3 { CallAt(j, t, 3); }
    if |t| > 4 { CallAt(j, t, 4); }
    if |t| > 5 { CallAt(j, t, 5); assert t[..5][5..] == []; }
    if |t| > 6 { CallAt(j, t, 6); assert t[..6][5..] == [t[5]]; }
    if |t| > 7 { CallAt(j, t, 7); assert t[..7][5..] == [t[5], t[6]]; }
    if |t| > 8 { CallAt(j, t, 8); }
  }

  /** The others leave the point at `place` alone before call `k`. */
  predicate PointLeft(w: World, t: seq<Event>, k: nat, place: Id)
    requires k < |t|
  {
    var a, b := After(w, t, k).index, t[k].met.index;
    if place in a then place in b && b[place] == a[place] else place !in b
  }

  /** An active row and its point agree. */
  predicate Indexed(w: World, x: Key) {
    Confirms(w.store, x) && x.share in w.index && w.index[x.share] == PayloadOf(x)
  }

  /** Nothing is written unless the row was confirmed, before the embedding and after; and it
      counts as repaired exactly if a last look confirms it still. Then the row is active as
      written, and indexed unless the others touched its point before that look. */
  lemma RepairedMeans(v: Surroundings, w: World, t: seq<Event>, now: World, x: Key)
    requires Path(v, w, t, now) && Finished(Repair(x), t)
    ensures |t| > 0
    ensures forall k :: 0 <= k < |t| && t[k].call.Write? ==>
              k == 3 && t[k].call.row == x && Confirms(t[0].met.store, x) && Confirms(t[2].met.store, x)
    ensures RepairOutcome(t).Repaired? <==> |t| == 5 && t[3].call == Write(x) && Yes(t[3]) && t[4].call == Look(x) && Yes(t[4])
    ensures RepairOutcome(t).Repaired? ==>
              Confirms(now.store, x) && (PointLeft(w, t, 4, x.share) ==> Indexed(now, x))
  {
    hide Finished; hide Confirms; hide Path;
    RepairCourse(x, t);
    TruthfulAt(v, w, t, now, 0);
    if |t| > 2 { TruthfulAt(v, w, t, now, 2); }
    if |t| == 5 {
      TruthfulAt(v, w, t, now, 3);
      TruthfulAt(v, w, t, now, 4);
    }
  }

  predicate HoldsVersion(i: Index, share: Id, version: int) { exists p :: p in i && Holds(i[p], share, version) }

  /** A write that the last look does not confirm is taken back: every point of that version is
      deleted before the cleanup goes on, and unless the cleanup ends with a failed read, a
      failed or a refused hand-over, the share has no active row in the end. */
  lemma TakenBack(v: Surroundings, w: World, t: seq<Event>, now: World, x: Key)
    requires Path(v, w, t, now) && Finished(Repair(x), t) && |t| > 0
    requires RepairOutcome(t).Failed? && RepairOutcome(t).reason.Superseded?
    ensures |t| >= 6 && !Confirms(t[4].met.store, x)
    ensures var c := RepairOutcome(t).reason.cleanup;
            && (!c.DeleteRaised? ==> t[5].call == Clear(x.share, x.version) && !HoldsVersion(t[5].left.index, x.share, x.version))
            && (c.NothingActive? || c == HandedOver(true) ==> !ActiveIn(now.store, x.share))
  {
    hide Finished; hide Confirms; hide Path; hide ActiveIn;
    RepairCourse(x, t);
    TruthfulAt(v, w, t, now, 4);
    TruthfulAt(v, w, t, now, 5);
    if |t| > 6 {
      TruthfulAt(v, w, t, now, 6);
      SeenActive(v, t[6], x.share);
    }
    if |t| > 7 {
      TruthfulAt(v, w, t, now, 7);
      if Yes(t[7]) { HandedOverIsHidden(v, t[7], x.share); }
    }
  }

  lemma HandedOverIsHidden(v: Surroundings, x: Event, share: Id)
    requires Truthful(v, x) && x.call.HandOver? && x.call.share == share && Yes(x)
    ensures !ActiveIn(x.left.store, share)
  {
  }

  /** Who is seen active can be handed over; who is not, is not active. */
  lemma SeenActive(v: Surroundings, x: Event, share: Id)
    requires Truthful(v, x) && x.call == See(share)
    ensures Yes(x) ==> Handing(share, x.met.store).Some?
    ensures x.answer == Said(false) ==> !ActiveIn(x.left.store, share)
  {
  }

  /** Nobody else touches the index meanwhile. */
  ghost predicate IndexLeft(w: World, t: seq<Event>) { forall k :: 0 <= k < |t| ==> t[k].met.index == After(w, t, k).index }

  /** Whether the last write of the repair is still there when it ends. */
  predicate StaysBehind(v: Surroundings, t: seq<Event>)
    requires |t| > 0
  {
    match RepairOutcome(t)
    case Repaired => true
    case Skipped => false
    case Failed(ReadFailed) => false
    case Failed(EmbeddingFailed) => false
    case Failed(WriteFailed) => v.carries(t[|t| - 1].met.clock)
    case Failed(RecheckFailed) => true
    case Failed(Superseded(c)) => c.DeleteRaised? && !v.carries(t[|t| - 1].met.clock)
  }

  /** If nobody else touches the index, the outcome says exactly what became of it: the new point
      is there, nothing was written, or every point of the version is gone. So a write is left
      without having been confirmed exactly if the last look raised, if the write itself raised
      but was carried out, or if its deletion raised and was not. */
  lemma LeftBehind(v: Surroundings, w: World, t: seq<Event>, now: World, x: Key)
    requires Path(v, w, t, now) && Finished(Repair(x), t) && |t| > 0 && IndexLeft(w, t)
    ensures var written := w.index[x.share := PayloadOf(x)];
            now.index == if StaysBehind(v, t) then written
                         else if |t| > 5 then Cleaned(written, x.share, x.version)
                         else w.index
  {
    hide Finished; hide Confirms; hide Path; hide Cleaned; hide ActiveIn; hide Requeueable; hide CanDeleteExtra;
    hide Stirred; hide StaysBehind;
    RepairCourse(x, t);
    IndexAfterPrefix(v, w, t, now, x);
    TruthfulAt(v, w, t, now, |t| - 1);
    StaysBehindIs(v, t, x);
    if |t| > 5 { IndexAfterCleanup(v, w, t, now, x); }
  }

  lemma StaysBehindIs(v: Surroundings, t: seq<Event>, x: Key)
    requires Finished(Repair(x), t) && |t| > 0
    ensures StaysBehind(v, t) <==>
              |t| == 5 || (|t| == 4 && v.carries(t[3].met.clock)) || (|t| == 6 && !v.carries(t[5].met.clock))
  {
    hide Finished;
    RepairCourse(x, t);
  }

  lemma IndexAfterCleanup(v: Surroundings, w: World, t: seq<Event>, now: World, x: Key)
    requires Path(v, w, t, now) && Finished(Repair(x), t) && |t| > 5 && IndexLeft(w, t)
    ensures now.index == if |t| == 6 && !v.carries(t[5].met.clock) then t[4].left.index
                         else Cleaned(t[4].left.index, x.share, x.version)
  {
    hide Finished; hide Confirms; hide Path; hide Cleaned; hide ActiveIn; hide Requeueable; hide CanDeleteExtra;
    hide Stirred;
    RepairCourse(x, t);
    TruthfulAt(v, w, t, now, 5);
    if |t| > 6 { TruthfulAt(v, w, t, now, 6); }
    if |t| > 7 { TruthfulAt(v, w, t, now, 7); }
  }

  lemma IndexAfterPrefix(v: Surroundings, w: World, t: seq<Event>, now: World, x: Key)
    requires Path(v, w, t, now) && Finished(Repair(x), t) && |t| > 0 && IndexLeft(w, t)
    ensures forall k :: 0 <= k < |t| && k <= 3 ==> t[k].met.index == w.index
    ensures |t| > 4 ==> t[4].met.index == t[4].left.index == w.index[x.share := PayloadOf(x)]
  {
    hide Finished; hide Confirms; hide Path; hide Cleaned; hide ActiveIn; hide Requeueable; hide CanDeleteExtra;
    hide Stirred;
    RepairCourse(x, t);
    TruthfulAt(v, w, t, now, 0);
    if |t| > 1 { TruthfulAt(v, w, t, now, 1); }
    if |t| > 2 { TruthfulAt(v, w, t, now, 2); }
    if |t| > 3 { TruthfulAt(v, w, t, now, 3); }
    if |t| > 4 { TruthfulAt(v, w, t, now, 4); }
  }

  // ---- Conditional deletion ----

  lemma DeletionCourse(place: Id, snapshot: Payload, t: seq<Event>)
    requires Finished(Deletion(place, snapshot), t)
    ensures 1 <= |t| <= 6 && t[0].call == Compare(place, snapshot)
    ensures |t| > 1 ==> Yes(t[0]) && t[1].call == Ask(place, snapshot)
    ensures |t| > 2 ==> Yes(t[1]) && Complete(snapshot) && t[2].call == Remove(place, snapshot)
    ensures |t| > 3 ==> Yes(t[2]) && t[3].call == Reread(place)
    ensures |t| > 4 ==> Yes(t[3]) && snapshot.share.Some? && t[4].call == See(snapshot.share.value)
    ensures |t| > 5 ==> Yes(t[4]) && Handing(snapshot.share.value, t[4].met.store) == Some(t[5].call)
    ensures |t| == 1 ==> !Yes(t[0])
    ensures |t| == 2 ==> !(Yes(t[1]) && Complete(snapshot))
    ensures |t| == 3 ==> !Yes(t[2])
    ensures |t| == 4 ==> !Yes(t[3])
    ensures |t| == 5 ==> !Yes(t[4]) || Handing(snapshot.share.value, t[4].met.store).None?
  {
    hide Handing;
    var j := Deletion(place, snapshot);
    if |t| > 0 { CallAt(j, t, 0); }
    if |t| > 1 { CallAt(j, t, 1); }
    if |t| > 2 { CallAt(j, t, 2); }
    if |t| > 3 { CallAt(j, t, 3); }
    if |t| > 4 { CallAt(j, t, 4); }
    if |t| > 5 { CallAt(j, t, 5); }
    if |t| > 6 { CallAt(j, t, 6); }
  }

  /** A malformed point, and a second point of a share, is never deleted. */
  lemma MalformedIsKept(place: Id, snapshot: Payload, t: seq<Event>)
    requires Finished(Deletion(place, snapshot), t) && snapshot.malformed
    ensures |t| > 0 && (DeletionOutcome(place, snapshot, t).Kept? || DeletionOutcome(place, snapshot, t).Broken?)
    ensures forall k :: 0 <= k < |t| ==> !t[k].call.Remove?
  {
    DeletionCourse(place, snapshot, t);
  }

  ghost predicate Keyed(s: Store) { forall id :: id in s ==> s[id].share == id }

  /** The guard never lets go of a row in transition, nor of any point but a misplaced copy of
      an active one: in particular not of the point an active record is found by. */
  lemma GuardProtects(s: Store, place: Id, p: Payload, id: Id)
    requires Keyed(s) && id in s && p.share == Some(id) && CanDeleteExtra(s, place, p)
    ensures Active(s[id]) ==> place != id && p.version == Some(s[id].version) && p.hash == Some(s[id].hash)
    ensures Active(s[id]) || (s[id].publication.Unpublished? && s[id].status.Deleted?)
    ensures p != PayloadOf(KeyOf(s[id])) || place != id || !Active(s[id])
  {
  }

  /** The others leave the row of `id` alone between calls 1 and 2. */
  predicate RowLeft(t: seq<Event>, id: Id)
    requires |t| > 2
  {
    var a, b := t[1].met.store, t[2].met.store;
    if id in a then id in b && b[id] == a[id] else id !in b
  }

  /** No other call of the job touches the index. */
  lemma OnlyRemovalRemoves(v: Surroundings, w: World, t: seq<Event>, now: World, place: Id, snapshot: Payload, k: nat)
    requires Path(v, w, t, now) && Finished(Deletion(place, snapshot), t) && k < |t| && k != 2
    ensures t[k].left.index == t[k].met.index
  {
    hide Finished; hide Path; hide Stirred; hide Requeueable; hide CanDeleteExtra; hide FilterMatches; hide Complete; hide ActiveIn;
    DeletionCourse(place, snapshot, t);
    TruthfulAt(v, w, t, now, k);
  }

  /** A removal takes at most the one point, and only one that was as scrolled, that the store
      allowed to go and that still has the fields scrolled; such a point it does take. */
  lemma DeletionGuarded(v: Surroundings, w: World, t: seq<Event>, now: World, place: Id, snapshot: Payload)
    requires Path(v, w, t, now) && Finished(Deletion(place, snapshot), t)
    ensures forall k :: 0 <= k < |t| && t[k].left.index != t[k].met.index ==> k == 2
    ensures |t| > 2 && t[2].left.index != t[2].met.index ==>
              && !snapshot.malformed && snapshot.share.Some? && snapshot.version.Some? && snapshot.hash.Some?
              && place in t[0].met.index && t[0].met.index[place] == snapshot
              && CanDeleteExtra(t[1].met.store, place, snapshot)
              && place in t[2].met.index && t[2].left.index == t[2].met.index - {place}
              && var now := t[2].met.index[place];
                 && now.share == snapshot.share && now.version == snapshot.version && now.hash == snapshot.hash
                 && (snapshot.visibility.None? || now.visibility == snapshot.visibility)
    ensures |t| > 2 && !t[2].answer.Raised? && place in t[2].met.index ==>
              var now := t[2].met.index[place];
              now.share == snapshot.share && now.version == snapshot.version && now.hash == snapshot.hash
              && (snapshot.visibility.None? || now.visibility == snapshot.visibility) ==>
                t[2].left.index == t[2].met.index - {place}
  {
    hide Finished; hide Path; hide Stirred; hide Requeueable; hide CanDeleteExtra;
    forall k | 0 <= k < |t| && t[k].left.index != t[k].met.index ensures k == 2 {
      if k != 2 { OnlyRemovalRemoves(v, w, t, now, place, snapshot, k); }
    }
    DeletionCourse(place, snapshot, t);
    TruthfulAt(v, w, t, now, 0);
    if |t| > 1 { TruthfulAt(v, w, t, now, 1); }
    if |t| > 2 { TruthfulAt(v, w, t, now, 2); }
  }

  /** The point by which an active record is found stays, if the others leave its row alone
      between the guard and the removal. */
  lemma ActivePointStays(v: Surroundings, w: World, t: seq<Event>, now: World, place: Id, snapshot: Payload, k: nat, id: Id)
    requires Path(v, w, t, now) && Finished(Deletion(place, snapshot), t) && k < |t|
    requires k == 2 ==> RowLeft(t, id) && Keyed(t[1].met.store)
    requires ActiveIn(t[k].met.store, id) && id in t[k].met.index && t[k].met.index[id] == PayloadOf(KeyOf(t[k].met.store[id]))
    ensures id in t[k].left.index && t[k].left.index[id] == t[k].met.index[id]
  {
    hide Finished; hide Path; hide Stirred; hide Requeueable; hide CanDeleteExtra;
    DeletionGuarded(v, w, t, now, place, snapshot);
    if k == 2 && t[2].left.index != t[2].met.index && place == id { OwnPointIsSafe(t[1].met.store, id, snapshot); }
  }

  lemma OwnPointIsSafe(s: Store, id: Id, snapshot: Payload)
    requires Keyed(s) && ActiveIn(s, id) && CanDeleteExtra(s, id, snapshot)
    ensures !(snapshot.share == Some(id) && snapshot.version == Some(s[id].version) && snapshot.hash == Some(s[id].hash))
  {
    if snapshot.share == Some(id) { GuardProtects(s, id, snapshot, id); }
  }

  /** A point counts as gone only if a look after the removal found nothing in its place; and
      unless its row could not be read or handed over, the share has no active row in the end. */
  lemma GoneMeans(v: Surroundings, w: World, t: seq<Event>, now: World, place: Id, snapshot: Payload)
    requires Path(v, w, t, now) && Finished(Deletion(place, snapshot), t) && |t| > 0
    requires DeletionOutcome(place, snapshot, t).Gone?
    ensures |t| >= 5 && place !in t[3].met.index && snapshot.share.Some?
    ensures var r := DeletionOutcome(place, snapshot, t);
            (!r.reappeared || r.requeued) ==> !ActiveIn(now.store, snapshot.share.value)
  {
    hide Finished; hide Path; hide Stirred; hide Requeueable; hide CanDeleteExtra; hide FilterMatches; hide ActiveIn;
    DeletionCourse(place, snapshot, t);
    TruthfulAt(v, w, t, now, 3);
    TruthfulAt(v, w, t, now, 4);
    SeenActive(v, t[4], snapshot.share.value);
    if |t| > 5 {
      TruthfulAt(v, w, t, now, 5);
      if Yes(t[5]) { HandedOverIsHidden(v, t[5], snapshot.share.value); }
    }
  }

  // ---- What the outcomes tell ----

  /** The outcome of a repair tells its last call and how that was answered. */
  lemma RepairTold(x: Key, t: seq<Event>)
    requires Finished(Repair(x), t)
    ensures |t| > 0
    ensures var r, call, answer := RepairOutcome(t), t[|t| - 1].call, t[|t| - 1].answer;
            var written := |t| > 3;
            && (r.Repaired? <==> call.Look? && written && answer == Said(true))
            && (r.Skipped? <==> call.Look? && !written && answer == Said(false))
            && (r == Failed(ReadFailed) <==> call.Look? && !written && answer.Raised?)
            && (r == Failed(EmbeddingFailed) <==> call.Embed? && answer != Said(true))
            && (r == Failed(WriteFailed) <==> call.Write? && answer != Said(true))
            && (r == Failed(RecheckFailed) <==> call.Look? && written && answer.Raised?)
            && (r == Failed(Superseded(DeleteRaised)) <==> call.Clear? && answer != Said(true))
            && (r == Failed(Superseded(ReadRaised)) <==> call.See? && answer.Raised?)
            && (r == Failed(Superseded(NothingActive)) <==> call.See? && !answer.Raised?)
            && (r == Failed(Superseded(RequeueRaised)) <==> call.HandOver? && answer.Raised?)
            && (forall took :: r == Failed(Superseded(HandedOver(took))) <==> call.HandOver? && answer == Said(took))
  {
    hide Finished;
    RepairCourse(x, t);
    if |t| > 5 { assert |t[5..]| == |t| - 5 && t[5..][|t| - 6] == t[|t| - 1]; }
  }

  /** The outcome of a deletion tells the same, and after a removal what was found in its place. */
  lemma DeletionTold(place: Id, snapshot: Payload, t: seq<Event>)
    requires Finished(Deletion(place, snapshot), t)
    ensures |t| > 0
    ensures var r, last := DeletionOutcome(place, snapshot, t), t[|t| - 1];
            var found := place in last.met.index && last.met.index[place] == snapshot;
            && (r.Kept? <==> (last.call.Compare? || last.call.Ask?) && !last.answer.Raised?)
            && (r.Unconfirmed? <==> last.call.Reread? && !last.answer.Raised? && found)
            && (r.Replaced? <==> last.call.Reread? && !last.answer.Raised? && !found)
            && (r == Gone(false, false) <==> last.call.See? && !last.answer.Raised?)
            && (r == Gone(true, false) <==>
                  (last.call.See? && last.answer.Raised?) || (last.call.HandOver? && last.answer != Said(true)))
            && (r == Gone(true, true) <==> last.call.HandOver? && last.answer == Said(true))
            && (r.Broken? <==> last.call.Remove? || (!last.call.See? && !last.call.HandOver? && last.answer.Raised?))
  {
    hide Finished;
    DeletionCourse(place, snapshot, t);
  }

  // ---- The loops ----

  /** Every record the loop counts as repaired was confirmed after its write. */
  lemma EveryRepaired(
    v: Surroundings, origin: World, before: seq<Event>, parts: seq<seq<Event>>, now: World,
    records: seq<Record>, outcomes: seq<Outcome>, n: nat)
    requires Path(v, origin, before + Joined(parts), now) && RepairsDone(records, outcomes, parts)
    requires n < |parts| && outcomes[n].Repaired?
    ensures |parts[n]| == 5 && parts[n][3].call == Write(KeyOf(records[n])) && Confirms(parts[n][4].left.store, KeyOf(records[n]))
  {
    hide Path; hide Finished; hide Confirms; hide RepairOutcome;
    EveryPart(v, origin, before, parts, now, n);
    var w, x :| Path(v, w, parts[n], x);
    RepairedMeans(v, w, parts[n], x, KeyOf(records[n]));
    TruthfulAt(v, w, parts[n], x, 4);
  }

  /** Every point the loop removes was released by the store and matched the filter. */
  lemma EveryRemoval(
    v: Surroundings, origin: World, before: seq<Event>, parts: seq<seq<Event>>, now: World,
    candidates: seq<Candidate>, outcomes: seq<Removal>, n: nat, k: nat)
    requires Path(v, origin, before + Joined(parts), now) && DeletionsDone(candidates, outcomes, parts)
    requires n < |parts| && k < |parts[n]| && parts[n][k].left.index != parts[n][k].met.index
    ensures var c, t := candidates[n], parts[n];
            && k == 2 && CanDeleteExtra(t[1].met.store, c.place, c.snapshot)
            && c.place in t[k].met.index && t[k].left.index == t[k].met.index - {c.place}
            && var now := t[k].met.index[c.place];
               && now.share == c.snapshot.share && now.version == c.snapshot.version && now.hash == c.snapshot.hash
               && (c.snapshot.visibility.None? || now.visibility == c.snapshot.visibility)
  {
    hide Path; hide Finished; hide CanDeleteExtra; hide DeletionOutcome;
    EveryPart(v, origin, before, parts, now, n);
    var w, x :| Path(v, w, parts[n], x);
    DeletionGuarded(v, w, parts[n], x, candidates[n].place, candidates[n].snapshot);
  }

  // ---- With nobody else about ----

  /** Nobody else acts and nothing raises. */
  ghost predicate Alone(v: Surroundings) { forall n, s, i :: v.others(n, s, i) == (s, i) && !v.raises(n) }

  lemma AloneStirred(v: Surroundings, w: World)
    requires Alone(v)
    ensures Stirred(v, w) == w.(clock := w.clock + 1)
  {
    assert v.others(w.clock, w.store, w.index) == (w.store, w.index);
  }

  lemma AloneSucceeds(v: Surroundings, clock: nat)
    requires Alone(v)
    ensures !v.raises(clock)
  {
    assert v.others(clock, map[], map[]) == (map[], map[]);
  }

  lemma AloneAt(v: Surroundings, w: World, t: seq<Event>, now: World, k: nat)
    requires Alone(v) && Path(v, w, t, now) && k < |t|
    ensures t[k].met == After(w, t, k).(clock := After(w, t, k).clock + 1)
    ensures t[k].answer == Said(Reply(t[k].call, t[k].met)) && t[k].left == Effect(t[k].call, t[k].met)
    ensures k == |t| - 1 ==> now == t[k].left
  {
    hide Path; hide Reply; hide Effect; hide Stirred; hide Alone;
    TruthfulAt(v, w, t, now, k);
    AloneStirred(v, After(w, t, k));
    AloneSucceeds(v, t[k].met.clock);
  }

  /** Alone, a repair indexes the row it was given if that is the active one, and else does
      nothing. */
  lemma AloneRepair(v: Surroundings, w: World, t: seq<Event>, now: World, x: Key)
    requires Alone(v) && Path(v, w, t, now) && Finished(Repair(x), t)
    ensures |t| > 0 && now.store == w.store
    ensures if Confirms(w.store, x) then RepairOutcome(t).Repaired? && now.index == w.index[x.share := PayloadOf(x)]
            else RepairOutcome(t).Skipped? && now.index == w.index
  {
    hide Finished; hide Path; hide Confirms; hide Alone;
    RepairCourse(x, t);
    AloneAt(v, w, t, now, 0);
    if |t| > 1 { AloneAt(v, w, t, now, 1); }
    if |t| > 2 { AloneAt(v, w, t, now, 2); }
    if |t| > 3 { AloneAt(v, w, t, now, 3); }
    if |t| > 4 { AloneAt(v, w, t, now, 4); }
  }

  /** What a deletion may take when nobody else is about. */
  predicate Deletable(w: World, place: Id, snapshot: Payload) {
    place in w.index && w.index[place] == snapshot && CanDeleteExtra(w.store, place, snapshot) && Complete(snapshot)
  }

  /** Alone, a deletion takes the point exactly if it is as scrolled, complete and released by the
      store. But if its row is active, which is so for every misplaced copy, the row is handed
      over all the same and the deletion counted as a failure. */
  lemma AloneDeletion(v: Surroundings, w: World, t: seq<Event>, now: World, place: Id, snapshot: Payload)
    requires Alone(v) && Path(v, w, t, now) && Finished(Deletion(place, snapshot), t) && |t| > 0
    ensures var r := DeletionOutcome(place, snapshot, t);
            if !Deletable(w, place, snapshot) then r.Kept? && now.index == w.index && now.store == w.store
            else
              var share := snapshot.share.value;
              && now.index == w.index - {place}
              && (if ActiveIn(w.store, share) then
                    r == Gone(true, w.store[share].indexer) && (r.requeued ==> now.store == Requeued(w.store, share))
                  else r == Gone(false, false) && now.store == w.store)
  {
    hide Finished; hide Path; hide CanDeleteExtra; hide Alone;
    DeletionCourse(place, snapshot, t);
    AloneAt(v, w, t, now, 0);
    if |t| > 1 { AloneAt(v, w, t, now, 1); }
    if |t| > 2 { AloneAt(v, w, t, now, 2); }
    if |t| > 3 { AloneAt(v, w, t, now, 3); }
    if |t| > 4 { AloneAt(v, w, t, now, 4); }
    if |t| > 5 { AloneAt(v, w, t, now, 5); }
  }

  /** So with nobody else about, no misplaced copy of an active row is ever deleted cleanly. */
  lemma MisplacedNeverClean(v: Surroundings, w: World, t: seq<Event>, now: World, place: Id, row: Record)
    requires Alone(v) && Keyed(w.store) && ActiveIn(w.store, row.share) && w.store[row.share] == row && place != row.share
    requires place in w.index && w.index[place] == PayloadOf(KeyOf(row))
    requires Path(v, w, t, now) && Finished(Deletion(place, w.index[place]), t)
    ensures |t| > 0 && DeletionOutcome(place, w.index[place], t) == Gone(true, row.indexer)
    ensures now.index == w.index - {place} && (row.indexer ==> !ActiveIn(now.store, row.share))
  {
    hide Finished; hide Path; hide Alone;
    DeletionCourse(place, w.index[place], t);
    AloneDeletion(v, w, t, now, place, w.index[place]);
  }
}
