/**
 Repairing the vector index against the authoritative store while publishers go on working
 (scripts/reindex_shared_guides.py, scripts/reconcile_shared_guide_index.py): between any two
 calls the others may change every row and every point, and any call may raise. Every method
 appends to a log each call it made, with the store and the index the call met and left.
 */
module Maintenance {
  import opened Basics

  type Id = nat

  datatype Publication = Public | Publishing | Unpublished

  datatype IndexStatus = Ready | Pending | Deleted

  /** A row; `indexer` tells whether its indexing job has succeeded. */
  datatype Record = Record(
    share: Id, version: int, hash: string, publication: Publication, status: IndexStatus,
    published: Option<int>, indexed: Option<int>, indexer: bool)

  /** What a point stores; a missing or unreadable part is None. A point read back is malformed
      when a part is unreadable. */
  datatype Payload = Payload(
    share: Option<Id>, version: Option<int>, hash: Option<string>, visibility: Option<string>, malformed: bool)

  type Store = map<Id, Record>

  /** Points by physical id; a correctly placed point has the id of its share. */
  type Index = map<Id, Payload>

  predicate Active(r: Record) {
    r.publication.Public? && r.status.Ready? && r.published.Some? && r.indexed.Some?
  }

  predicate ActiveIn(s: Store, share: Id) { share in s && Active(s[share]) }

  /** By what `_same_authoritative_identity` knows a row. */
  datatype Key = Key(share: Id, version: int, hash: string, published: Option<int>, indexed: Option<int>)

  function KeyOf(r: Record): Key { Key(r.share, r.version, r.hash, r.published, r.indexed) }

  predicate SameIdentity(expected: Key, current: Record) { Active(current) && KeyOf(current) == expected }

  predicate Confirms(s: Store, expected: Key) { expected.share in s && SameIdentity(expected, s[expected.share]) }

  function PayloadOf(x: Key): Payload { Payload(Some(x.share), Some(x.version), Some(x.hash), Some("PUBLIC"), false) }

  predicate Holds(p: Payload, share: Id, version: int) { p.share == Some(share) && p.version == Some(version) }

  /** The version-filtered delete. */
  function Cleaned(i: Index, share: Id, version: int): Index { map p | p in i && !Holds(i[p], share, version) :: i[p] }

  /** `requeue_current_upsert` hides a row that still is the given version, READY and PUBLIC. */
  predicate Requeueable(s: Store, share: Id, version: int, hash: string) {
    && share in s && s[share].version == version && s[share].hash == hash && s[share].publication.Public?
    && s[share].status.Ready? && s[share].indexer
  }

  function Requeued(s: Store, share: Id): Store
    requires share in s
  {
    s[share := s[share].(publication := Publishing, status := Pending, indexed := None, indexer := false)]
  }

  /** The fields a conditional delete needs. */
  predicate Complete(p: Payload) { !p.malformed && p.share.Some? && p.version.Some? && p.hash.Some? }

  /** The filter of the conditional delete. */
  predicate FilterMatches(snapshot: Payload, now: Payload) {
    && now.share == snapshot.share && now.version == snapshot.version && now.hash == snapshot.hash
    && (snapshot.visibility.Some? ==> now.visibility == snapshot.visibility)
  }

  predicate MatchesRecord(p: Payload, r: Record) {
    p.share == Some(r.share) && p.version == Some(r.version) && p.hash == Some(r.hash)
  }

  /** `_can_delete_extra` */
  predicate CanDeleteExtra(s: Store, place: Id, p: Payload) {
    if p.share.None? || p.share.value !in s then true
    else
      var r := s[p.share.value];
      if r.publication.Unpublished? && r.status.Deleted? then MatchesRecord(p, r)
      else if !Active(r) then false
      else MatchesRecord(p, r) && p.share != Some(place)
  }

  // ---- The world between and during the calls ----

  datatype World = World(store: Store, index: Index, clock: nat)

  /** What everyone else does at a moment, which calls raise, and which of those are carried
      out all the same. */
  datatype Surroundings = Surroundings(
    others: (nat, Store, Index) -> (Store, Index), raises: nat -> bool, carries: nat -> bool)

  function Stirred(v: Surroundings, w: World): World {
    var (s, i) := v.others(w.clock, w.store, w.index);
    World(s, i, w.clock + 1)
  }

  datatype Call =
    | Look(row: Key)
    | Embed
    | Write(row: Key)
    | Clear(share: Id, version: int)
    | See(share: Id)
    | HandOver(share: Id, version: int, hash: string)
    | Compare(place: Id, snapshot: Payload)
    | Ask(place: Id, snapshot: Payload)
    | Remove(place: Id, snapshot: Payload)
    | Reread(place: Id)

  /** What a call says of the world it meets; a reread says yes when it finds nothing. */
  predicate Reply(c: Call, w: World) {
    match c
    case Look(x) => Confirms(w.store, x)
    case See(share) => ActiveIn(w.store, share)
    case HandOver(share, version, hash) => Requeueable(w.store, share, version, hash)
    case Compare(place, snapshot) => place in w.index && w.index[place] == snapshot
    case Ask(place, snapshot) => CanDeleteExtra(w.store, place, snapshot)
    case Reread(place) => place !in w.index
    case _ => true
  }

  /** What it does to that world. */
  function Effect(c: Call, w: World): World {
    match c
    case Write(x) => w.(index := w.index[x.share := PayloadOf(x)])
    case Clear(share, version) => w.(index := Cleaned(w.index, share, version))
    case HandOver(share, version, hash) =>
      if Requeueable(w.store, share, version, hash) then w.(store := Requeued(w.store, share)) else w
    case Remove(place, snapshot) =>
      if place in w.index && FilterMatches(snapshot, w.index[place]) then w.(index := w.index - {place}) else w
    case _ => w
  }

  datatype Answer = Raised | Said(yes: bool)

  datatype Event = Event(met: World, call: Call, answer: Answer, left: World)

  /** For a point that names no share the guard asks nobody. */
  predicate Fails(v: Surroundings, c: Call, clock: nat) { v.raises(clock) && !(c.Ask? && c.snapshot.share.None?) }

  /** The world a call leaves: changed unless it raised and was not carried out. */
  function LeftBy(v: Surroundings, c: Call, raised: bool, met: World): World {
    if raised && !v.carries(met.clock) then met else Effect(c, met)
  }

  /** The event tells what really happened. */
  predicate Truthful(v: Surroundings, x: Event) {
    && x.answer == (if Fails(v, x.call, x.met.clock) then Raised else Said(Reply(x.call, x.met)))
    && x.left == LeftBy(v, x.call, x.answer.Raised?, x.met)
  }

  /** The world after the first `k` events. */
  function After(origin: World, t: seq<Event>, k: nat): World
    requires k <= |t|
  {
    if k == 0 then origin else t[k - 1].left
  }

  /** The log leads from one world to the other, with one step of the others before each call. */
  ghost predicate Path(v: Surroundings, origin: World, t: seq<Event>, now: World) {
    && now == After(origin, t, |t|)
    && forall k :: 0 <= k < |t| ==> Truthful(v, t[k]) && t[k].met == Stirred(v, After(origin, t, k))
  }

  lemma PathGrows(v: Surroundings, origin: World, t: seq<Event>, before: World, x: Event)
    requires Path(v, origin, t, before) && x.met == Stirred(v, before) && Truthful(v, x)
    ensures Path(v, origin, t + [x], x.left)
  {
    hide Truthful; hide Stirred;
    var u := t + [x];
    forall k | 0 <= k < |u| ensures Truthful(v, u[k]) && u[k].met == Stirred(v, After(origin, u, k)) {
      if k < |t| { assert After(origin, u, k) == After(origin, t, k); } else { assert After(origin, u, k) == before; }
    }
  }

  // ---- The protocols ----

  datatype Job = Repair(row: Key) | Cleanup(row: Key) | Deletion(place: Id, snapshot: Payload)

  function Handing(share: Id, s: Store): Option<Call> {
    if share in s then Some(HandOver(share, s[share].version, s[share].hash)) else None
  }

  predicate Yes(x: Event) { x.answer == Said(true) }

  /** Taking a write back: its version is deleted, and the row then seen active, if any, is
      handed to the indexer under its own identity. */
  function NextCleanup(x: Key, t: seq<Event>): Option<Call> {
    match |t|
    case 0 => Some(Clear(x.share, x.version))
    case 1 => if Yes(t[0]) then Some(See(x.share)) else None
    case 2 => if Yes(t[1]) then Handing(x.share, t[1].met.store) else None
    case _ => None
  }

  /** Confirm, embed, confirm again, write, confirm once more; take back a write that the last
      look does not confirm. */
  function NextRepair(x: Key, t: seq<Event>): Option<Call> {
    match |t|
    case 0 => Some(Look(x))
    case 1 => if Yes(t[0]) then Some(Embed) else None
    case 2 => if Yes(t[1]) then Some(Look(x)) else None
    case 3 => if Yes(t[2]) then Some(Write(x)) else None
    case 4 => if Yes(t[3]) then Some(Look(x)) else None
    case _ => if t[4].answer == Said(false) then NextCleanup(x, t[5..]) else None
  }

  /** The point must be as scrolled, the store must allow it and the filter's fields must be
      there; then what matches the filter is deleted, and if the point is gone and its row
      active, the row is handed to the indexer. */
  function NextDeletion(place: Id, snapshot: Payload, t: seq<Event>): Option<Call> {
    match |t|
    case 0 => Some(Compare(place, snapshot))
    case 1 => if Yes(t[0]) then Some(Ask(place, snapshot)) else None
    case 2 => if Yes(t[1]) && Complete(snapshot) then Some(Remove(place, snapshot)) else None
    case 3 => if Yes(t[2]) then Some(Reread(place)) else None
    case 4 => if Yes(t[3]) && snapshot.share.Some? then Some(See(snapshot.share.value)) else None
    case 5 => if Yes(t[4]) && snapshot.share.Some? then Handing(snapshot.share.value, t[4].met.store) else None
    case _ => None
  }

  function NextCall(j: Job, t: seq<Event>): Option<Call> {
    match j
    case Repair(x) => NextRepair(x, t)
    case Cleanup(x) => NextCleanup(x, t)
    case Deletion(place, snapshot) => NextDeletion(place, snapshot, t)
  }

  ghost predicate SoFar(j: Job, t: seq<Event>) { forall k :: 0 <= k < |t| ==> NextCall(j, t[..k]) == Some(t[k].call) }

  /** The calls of `t` are those of the whole job. */
  ghost predicate Finished(j: Job, t: seq<Event>) { SoFar(j, t) && NextCall(j, t) == None }

  /** A call was logged. */
  predicate Logged(was: seq<Event>, now: seq<Event>, call: Call, answer: Answer) {
    |now| == |was| + 1 && now[..|was|] == was && now[|was|].call == call && now[|was|].answer == answer
  }

  lemma Continues(j: Job, base: seq<Event>, t: seq<Event>, now: seq<Event>, call: Call, answer: Answer)
    requires SoFar(j, t) && NextCall(j, t) == Some(call) && Logged(base + t, now, call, answer)
    ensures var u := t + [now[|now| - 1]]; SoFar(j, u) && now == base + u && now[|base|..] == u && base <= now
  {
    hide NextCall;
    var u := t + [now[|now| - 1]];
    forall k | 0 <= k < |u| ensures NextCall(j, u[..k]) == Some(u[k].call) {
      if k < |t| { assert u[..k] == t[..k]; } else { assert u[..k] == t; }
    }
    assert now == now[..|base + t|] + [now[|now| - 1]];
  }

  lemma NothingYet(j: Job, base: seq<Event>)
    ensures SoFar(j, []) && base + [] == base
  {
  }

  // ---- What the calls made say of the result ----

  datatype Reason = ReadFailed | EmbeddingFailed | WriteFailed | RecheckFailed | Superseded(cleanup: CleanupEnd)

  datatype CleanupEnd = DeleteRaised | ReadRaised | NothingActive | RequeueRaised | HandedOver(took: bool)

  datatype Outcome = Repaired | Skipped | Failed(reason: Reason)

  function CleanupOutcome(t: seq<Event>): CleanupEnd
    requires |t| > 0
  {
    var last := t[|t| - 1].answer;
    match |t|
    case 1 => DeleteRaised
    case 2 => if last.Raised? then ReadRaised else NothingActive
    case _ => if last.Raised? then RequeueRaised else HandedOver(last.yes)
  }

  function RepairOutcome(t: seq<Event>): Outcome
    requires |t| > 0
  {
    var last := t[|t| - 1].answer;
    match |t|
    case 1 => if last.Raised? then Failed(ReadFailed) else Skipped
    case 2 => Failed(EmbeddingFailed)
    case 3 => if last.Raised? then Failed(ReadFailed) else Skipped
    case 4 => Failed(WriteFailed)
    case 5 => if last.Raised? then Failed(RecheckFailed) else Repaired
    case _ => Failed(Superseded(CleanupOutcome(t[5..])))
  }

  /** A repair ends with the cleanup it started. */
  lemma RepairEndsWithCleanup(x: Key, base: seq<Event>, t: seq<Event>, now: seq<Event>)
    requires SoFar(Repair(x), t) && |t| == 5 && t[4].answer == Said(false)
    requires base + t < now && Finished(Cleanup(x), now[|base + t|..])
    ensures Finished(Repair(x), now[|base|..]) && base < now
    ensures RepairOutcome(now[|base|..]) == Failed(Superseded(CleanupOutcome(now[|base + t|..])))
  {
    var s, u := now[|base + t|..], now[|base|..];
    assert u == t + s && u[5..] == s && u[4] == t[4];
    forall k | 0 <= k < |u| ensures NextCall(Repair(x), u[..k]) == Some(u[k].call) {
      if k < 5 {
        assert u[..k] == t[..k];
      } else {
        assert u[..k][5..] == s[..k - 5] && u[..k][4] == t[4];
      }
    }
  }

  /** `reappeared`: counted deleted and failed, because the row is active again or could not be
      read; `requeued`: and handed to the indexer. */
  datatype Removal = Kept | Gone(reappeared: bool, requeued: bool) | Unconfirmed | Replaced | Broken

  function DeletionOutcome(place: Id, snapshot: Payload, t: seq<Event>): Removal
    requires |t| > 0
  {
    var last := t[|t| - 1];
    match |t|
    case 1 => if last.answer.Raised? then Broken else Kept
    case 2 => if last.answer.Raised? then Broken else Kept
    case 3 => Broken
    case 4 =>
      if last.answer.Raised? then Broken
      else if place in last.met.index && last.met.index[place] == snapshot then Unconfirmed else Replaced
    case 5 => Gone(last.answer.Raised?, false)
    case _ => Gone(true, last.answer == Said(true))
  }

  function CountOf<T>(os: seq<T>, p: T -> bool): nat {
    if os == [] then 0 else CountOf(os[..|os| - 1], p) + if p(os[|os| - 1]) then 1 else 0
  }

  lemma CountOneMore<T>(os: seq<T>, o: T, p: T -> bool)
    ensures CountOf(os + [o], p) == CountOf(os, p) + if p(o) then 1 else 0
  {
    assert (os + [o])[..|os|] == os;
  }

  function Joined(parts: seq<seq<Event>>): seq<Event> {
    if parts == [] then [] else Joined(parts[..|parts| - 1]) + parts[|parts| - 1]
  }

  lemma JoinedOneMore(parts: seq<seq<Event>>, t: seq<Event>)
    ensures Joined(parts + [t]) == Joined(parts) + t
  {
    assert (parts + [t])[..|parts|] == parts;
  }

  /** The log of a loop over records is that of one repair after the other. */
  ghost predicate RepairsDone(records: seq<Record>, outcomes: seq<Outcome>, parts: seq<seq<Event>>) {
    && |outcomes| == |parts| <= |records|
    && forall n :: 0 <= n < |parts| ==>
         Finished(Repair(KeyOf(records[n])), parts[n]) && |parts[n]| > 0 && outcomes[n] == RepairOutcome(parts[n])
  }

  datatype Candidate = Candidate(place: Id, snapshot: Payload)

  ghost predicate DeletionsDone(candidates: seq<Candidate>, outcomes: seq<Removal>, parts: seq<seq<Event>>) {
    && |outcomes| == |parts| <= |candidates|
    && forall n :: 0 <= n < |parts| ==>
         var c := candidates[n];
         && Finished(Deletion(c.place, c.snapshot), parts[n]) && |parts[n]| > 0
         && outcomes[n] == DeletionOutcome(c.place, c.snapshot, parts[n])
  }

  lemma NothingRepaired(records: seq<Record>)
    ensures RepairsDone(records, [], []) && RepairsCounted([], 0, 0, 0) && Joined([]) == []
  {
  }

  lemma NothingDeleted(candidates: seq<Candidate>)
    ensures DeletionsDone(candidates, [], []) && DeletionsCounted([], 0, 0, 0, 0) && Joined([]) == []
  {
  }

  lemma OneMoreRepair(records: seq<Record>, outcomes: seq<Outcome>, parts: seq<seq<Event>>, o: Outcome, t: seq<Event>)
    requires RepairsDone(records, outcomes, parts) && |parts| < |records| && |t| > 0
    requires Finished(Repair(KeyOf(records[|parts|])), t) && o == RepairOutcome(t)
    ensures RepairsDone(records, outcomes + [o], parts + [t]) && Joined(parts + [t]) == Joined(parts) + t
  {
    hide Finished; hide RepairOutcome; hide Joined;
    JoinedOneMore(parts, t);
    var more := parts + [t];
    assert forall n :: 0 <= n < |parts| ==> more[n] == parts[n];
  }

  lemma OneMoreDeletion(candidates: seq<Candidate>, outcomes: seq<Removal>, parts: seq<seq<Event>>, o: Removal, t: seq<Event>)
    requires DeletionsDone(candidates, outcomes, parts) && |parts| < |candidates| && |t| > 0
    requires var c := candidates[|parts|];
             Finished(Deletion(c.place, c.snapshot), t) && o == DeletionOutcome(c.place, c.snapshot, t)
    ensures DeletionsDone(candidates, outcomes + [o], parts + [t]) && Joined(parts + [t]) == Joined(parts) + t
  {
    hide Finished; hide DeletionOutcome; hide Joined;
    JoinedOneMore(parts, t);
    var more := parts + [t];
    assert forall n :: 0 <= n < |parts| ==> more[n] == parts[n];
  }

  /** The counters of the repair loop. */
  predicate RepairsCounted(os: seq<Outcome>, repaired: nat, skipped: nat, failed: nat) {
    && repaired == CountOf(os, (o: Outcome) => o.Repaired?)
    && skipped == CountOf(os, (o: Outcome) => o.Skipped?)
    && failed == CountOf(os, (o: Outcome) => o.Failed?)
  }

  lemma OneMoreRepairCounted(os: seq<Outcome>, o: Outcome, repaired: nat, skipped: nat, failed: nat)
    requires RepairsCounted(os, repaired, skipped, failed)
    ensures RepairsCounted(
              os + [o], if o.Repaired? then repaired + 1 else repaired, if o.Skipped? then skipped + 1 else skipped,
              if o.Failed? then failed + 1 else failed)
  {
    CountOneMore(os, o, (o: Outcome) => o.Repaired?);
    CountOneMore(os, o, (o: Outcome) => o.Skipped?);
    CountOneMore(os, o, (o: Outcome) => o.Failed?);
  }

  /** The counters of the deletion loop: a point gone whose row is active again counts twice. */
  predicate DeletionsCounted(os: seq<Removal>, deleted: nat, skipped: nat, requeued: nat, failed: nat) {
    && deleted == CountOf(os, (o: Removal) => o.Gone?)
    && skipped == CountOf(os, (o: Removal) => o.Kept? || o.Replaced?)
    && requeued == CountOf(os, (o: Removal) => o.Gone? && o.requeued)
    && failed == CountOf(os, (o: Removal) => o.Unconfirmed? || o.Broken? || (o.Gone? && o.reappeared))
  }

  lemma OneMoreDeletionCounted(os: seq<Removal>, o: Removal, deleted: nat, skipped: nat, requeued: nat, failed: nat)
    requires DeletionsCounted(os, deleted, skipped, requeued, failed)
    ensures DeletionsCounted(
              os + [o], if o.Gone? then deleted + 1 else deleted, if o.Kept? || o.Replaced? then skipped + 1 else skipped,
              if o.Gone? && o.requeued then requeued + 1 else requeued,
              if o.Unconfirmed? || o.Broken? || (o.Gone? && o.reappeared) then failed + 1 else failed)
  {
    CountOneMore(os, o, (o: Removal) => o.Gone?);
    CountOneMore(os, o, (o: Removal) => o.Kept? || o.Replaced?);
    CountOneMore(os, o, (o: Removal) => o.Gone? && o.requeued);
    CountOneMore(os, o, (o: Removal) => o.Unconfirmed? || o.Broken? || (o.Gone? && o.reappeared));
  }

  class Maintainer {
    var store: Store
    var index: Index
    var clock: nat

    const v: Surroundings

    ghost var trail: seq<Event>
    ghost const origin: World

    constructor (store: Store, index: Index, v: Surroundings)
      ensures Valid() && trail == [] && this.v == v && origin == World(store, index, 0) && Now() == origin
    {
      this.store, this.index, this.v := store, index, v;
      clock, origin := 0, World(store, index, 0);
      trail := [];
    }

    function Now(): World
      reads this
    {
      World(store, index, clock)
    }

    /** The log is true, and leads to the present. */
    ghost predicate Valid()
      reads this
    {
      Path(v, origin, trail, Now())
    }

    /** The step of the others before a call. */
    method Others()
      modifies this`store, this`index, this`clock
      ensures Now() == Stirred(v, old(Now()))
    {
      var (s, i) := v.others(clock, store, index);
      store, index, clock := s, i, clock + 1;
    }

    ghost method Note(before: World, met: World, call: Call, answer: Answer)
      requires Path(v, origin, trail, before) && met == Stirred(v, before) && Truthful(v, Event(met, call, answer, Now()))
      modifies this`trail
      ensures Valid() && Logged(old(trail), trail, call, answer) && trail[|old(trail)|] == Event(met, call, answer, Now())
    {
      PathGrows(v, origin, trail, before, Event(met, call, answer, Now()));
      trail := trail + [Event(met, call, answer, Now())];
    }

    // ---- Single calls ----

    /** `read_authoritative_record` */
    method ReadAuthoritative(expected: Record) returns (found: Option<Record>, raised: bool)
      requires Valid()
      modifies this
      ensures Valid() && Logged(old(trail), trail, Look(KeyOf(expected)), if raised then Raised else Said(found.Some?))
      ensures found.Some? ==> KeyOf(found.value) == KeyOf(expected)
    {
      hide Path;
      ghost var before := Now();
      Others();
      ghost var met := Now();
      found, raised := None, v.raises(clock);
      if !raised && expected.share in store && SameIdentity(KeyOf(expected), store[expected.share]) {
        found := Some(store[expected.share]);
      }
      Note(before, met, Look(KeyOf(expected)), if raised then Raised else Said(found.Some?));
    }

    /** The row, if it is active: `_read_current_record` and `_is_active_public`. */
    method ReadActive(share: Id) returns (found: Option<Record>, raised: bool)
      requires Valid()
      modifies this
      ensures Valid() && Logged(old(trail), trail, See(share), if raised then Raised else Said(found.Some?))
      ensures found.Some? ==>
                Handing(share, trail[|old(trail)|].met.store) == Some(HandOver(share, found.value.version, found.value.hash))
    {
      hide Path;
      ghost var before := Now();
      Others();
      ghost var met := Now();
      found, raised := None, v.raises(clock);
      if !raised && share in store && Active(store[share]) { found := Some(store[share]); }
      Note(before, met, See(share), if raised then Raised else Said(found.Some?));
    }

    method EmbedText() returns (raised: bool)
      requires Valid()
      modifies this
      ensures Valid() && Logged(old(trail), trail, Embed, if raised then Raised else Said(true))
    {
      hide Path;
      ghost var before := Now();
      Others();
      raised := v.raises(clock);
      Note(before, Now(), Embed, if raised then Raised else Said(true));
    }

    method Upsert(r: Record) returns (raised: bool)
      requires Valid()
      modifies this
      ensures Valid() && Logged(old(trail), trail, Write(KeyOf(r)), if raised then Raised else Said(true))
      ensures Now() == LeftBy(v, Write(KeyOf(r)), raised, Stirred(v, old(Now())))
    {
      hide Path;
      ghost var before := Now();
      Others();
      ghost var met := Now();
      raised := v.raises(clock);
      if !raised || v.carries(clock) { index := index[r.share := PayloadOf(KeyOf(r))]; }
      Note(before, met, Write(KeyOf(r)), if raised then Raised else Said(true));
    }

    method DeleteVersion(share: Id, version: int) returns (raised: bool)
      requires Valid()
      modifies this
      ensures Valid() && Logged(old(trail), trail, Clear(share, version), if raised then Raised else Said(true))
      ensures Now() == LeftBy(v, Clear(share, version), raised, Stirred(v, old(Now())))
    {
      hide Path;
      ghost var before := Now();
      Others();
      ghost var met := Now();
      raised := v.raises(clock);
      if !raised || v.carries(clock) {
        index := map p | p in index && !(index[p].share == Some(share) && index[p].version == Some(version)) :: index[p];
        assert index == Cleaned(met.index, share, version);
      }
      Note(before, met, Clear(share, version), if raised then Raised else Said(true));
    }

    method RequeueCurrent(share: Id, version: int, hash: string) returns (took: bool, raised: bool)
      requires Valid()
      modifies this
      ensures Valid() && Logged(old(trail), trail, HandOver(share, version, hash), if raised then Raised else Said(took))
      ensures Now() == LeftBy(v, HandOver(share, version, hash), raised, Stirred(v, old(Now())))
    {
      hide Path;
      ghost var before := Now();
      Others();
      ghost var met := Now();
      raised := v.raises(clock);
      took := share in store && store[share].version == version && store[share].hash == hash
              && store[share].publication.Public? && store[share].status.Ready? && store[share].indexer;
      if took && (!raised || v.carries(clock)) {
        store := store[share := store[share].(publication := Publishing, status := Pending, indexed := None, indexer := false)];
      }
      Note(before, met, HandOver(share, version, hash), if raised then Raised else Said(took));
    }

    /** `_point_snapshot_unchanged` */
    method SnapshotUnchanged(place: Id, snapshot: Payload) returns (same: bool, raised: bool)
      requires Valid()
      modifies this
      ensures Valid() && Logged(old(trail), trail, Compare(place, snapshot), if raised then Raised else Said(same))
    {
      hide Path;
      ghost var before := Now();
      Others();
      raised := v.raises(clock);
      same := place in index && index[place] == snapshot;
      Note(before, Now(), Compare(place, snapshot), if raised then Raised else Said(same));
    }

    method MayDelete(place: Id, snapshot: Payload) returns (allowed: bool, raised: bool)
      requires Valid()
      modifies this
      ensures Valid() && Logged(old(trail), trail, Ask(place, snapshot), if raised then Raised else Said(allowed))
    {
      hide Path;
      ghost var before := Now();
      Others();
      raised := snapshot.share.Some? && v.raises(clock);
      allowed := CanDeleteExtra(store, place, snapshot);
      Note(before, Now(), Ask(place, snapshot), if raised then Raised else Said(allowed));
    }

    /** The filtered delete of `delete_point_if_matches` */
    method DeleteMatching(place: Id, snapshot: Payload) returns (raised: bool)
      requires Valid()
      modifies this
      ensures Valid() && Logged(old(trail), trail, Remove(place, snapshot), if raised then Raised else Said(true))
      ensures Now() == LeftBy(v, Remove(place, snapshot), raised, Stirred(v, old(Now())))
    {
      hide Path;
      ghost var before := Now();
      Others();
      ghost var met := Now();
      raised := v.raises(clock);
      if (!raised || v.carries(clock)) && place in index && FilterMatches(snapshot, index[place]) { index := index - {place}; }
      Note(before, met, Remove(place, snapshot), if raised then Raised else Said(true));
    }

    /** The read that confirms a deletion. */
    method ReadPoint(place: Id) returns (point: Option<Payload>, raised: bool)
      requires Valid()
      modifies this
      ensures Valid() && Logged(old(trail), trail, Reread(place), if raised then Raised else Said(point.None?))
      ensures var x := trail[|old(trail)|].met.index;
              !raised ==> point == if place in x then Some(x[place]) else None
    {
      hide Path;
      ghost var before := Now();
      Others();
      raised := v.raises(clock);
      point := if place in index then Some(index[place]) else None;
      Note(before, Now(), Reread(place), if raised then Raised else Said(point.None?));
    }

    // ---- Repair ----

    /** `cleanup_stale_upsert` */
    method CleanupStaleUpsert(expected: Record) returns (c: CleanupEnd)
      requires Valid()
      modifies this
      ensures Valid() && old(trail) < trail
      ensures Finished(Cleanup(KeyOf(expected)), trail[|old(trail)|..]) && c == CleanupOutcome(trail[|old(trail)|..])
    {
      hide Path; hide Logged; hide SoFar;
      ghost var j, base, t := Cleanup(KeyOf(expected)), trail, [];
      NothingYet(j, base);
      var raised := DeleteVersion(expected.share, expected.version);
      t := Take(j, base, t, Clear(expected.share, expected.version), if raised then Raised else Said(true));
      if raised { return DeleteRaised; }
      var current;
      current, raised := ReadActive(expected.share);
      t := Take(j, base, t, See(expected.share), if raised then Raised else Said(current.Some?));
      if raised { return ReadRaised; }
      if current.None? { return NothingActive; }
      var took;
      took, raised := RequeueCurrent(expected.share, current.value.version, current.value.hash);
      t := Take(j, base, t, HandOver(expected.share, current.value.version, current.value.hash),
                if raised then Raised else Said(took));
      c := if raised then RequeueRaised else HandedOver(took);
    }

    /** Repairing one record (reconcile), or rebuilding it at the same version (reindex). */
    method RepairOne(record: Record) returns (r: Outcome)
      requires Valid()
      modifies this
      ensures Valid() && old(trail) < trail
      ensures Finished(Repair(KeyOf(record)), trail[|old(trail)|..]) && r == RepairOutcome(trail[|old(trail)|..])
    {
      hide Path; hide NextCleanup; hide Logged; hide SoFar; hide KeyOf;
      ghost var j, base, t := Repair(KeyOf(record)), trail, [];
      NothingYet(j, base);
      var found, raised := ReadAuthoritative(record);
      t := Take(j, base, t, Look(KeyOf(record)), if raised then Raised else Said(found.Some?));
      if raised { return Failed(ReadFailed); }
      if found.None? { return Skipped; }
      raised := EmbedText();
      t := Take(j, base, t, Embed, if raised then Raised else Said(true));
      if raised { return Failed(EmbeddingFailed); }
      r := WriteConfirmed(record, base, t);
    }

    /** The second look and the write. */
    method WriteConfirmed(record: Record, ghost base: seq<Event>, ghost soFar: seq<Event>) returns (r: Outcome)
      requires Valid() && SoFar(Repair(KeyOf(record)), soFar) && trail == base + soFar && |soFar| == 2 && Yes(soFar[1])
      modifies this
      ensures Valid() && old(trail) < trail && base < trail
      ensures Finished(Repair(KeyOf(record)), trail[|base|..]) && r == RepairOutcome(trail[|base|..])
    {
      hide Path; hide NextCleanup;
      ghost var j, t := Repair(KeyOf(record)), soFar;
      var found, raised := ReadAuthoritative(record);
      t := Take(j, base, t, Look(KeyOf(record)), if raised then Raised else Said(found.Some?));
      if raised { return Failed(ReadFailed); }
      if found.None? { return Skipped; }
      var authoritative := found.value;
      raised := Upsert(authoritative);
      t := Take(j, base, t, Write(KeyOf(record)), if raised then Raised else Said(true));
      if raised { return Failed(WriteFailed); }
      r := Recheck(record, authoritative, base, t);
    }

    /** The last look, and what follows if it does not confirm the write. */
    method Recheck(record: Record, authoritative: Record, ghost base: seq<Event>, ghost t: seq<Event>) returns (r: Outcome)
      requires Valid() && KeyOf(record) == KeyOf(authoritative)
      requires SoFar(Repair(KeyOf(record)), t) && trail == base + t && |t| == 4 && Yes(t[3])
      modifies this
      ensures Valid() && old(trail) < trail && base < trail
      ensures Finished(Repair(KeyOf(record)), trail[|base|..]) && r == RepairOutcome(trail[|base|..])
    {
      hide Path; hide NextCleanup;
      var found, raised := ReadAuthoritative(authoritative);
      ghost var u := Take(Repair(KeyOf(record)), base, t, Look(KeyOf(record)), if raised then Raised else Said(found.Some?));
      if raised { return Failed(RecheckFailed); }
      if found.Some? { return Repaired; }
      var cleanup := CleanupStaleUpsert(authoritative);
      RepairEndsWithCleanup(KeyOf(record), base, u, trail);
      return Failed(Superseded(cleanup));
    }

    /** The repair loop: every record is repaired in turn and counted once, under its outcome. */
    method RepairAll(records: seq<Record>)
      returns (outcomes: seq<Outcome>, repaired: nat, skipped: nat, failed: nat, ghost parts: seq<seq<Event>>)
      requires Valid()
      modifies this
      ensures Valid() && |outcomes| == |records| && trail == old(trail) + Joined(parts)
      ensures RepairsDone(records, outcomes, parts)
      ensures RepairsCounted(outcomes, repaired, skipped, failed)
    {
      hide Path; hide Finished; hide RepairOutcome; hide RepairsCounted; hide RepairsDone; hide Joined;
      outcomes, repaired, skipped, failed, parts := [], 0, 0, 0, [];
      NothingRepaired(records);
      for i := 0 to |records|
        invariant Valid() && |outcomes| == |parts| == i && trail == old(trail) + Joined(parts)
        invariant RepairsDone(records, outcomes, parts) && RepairsCounted(outcomes, repaired, skipped, failed)
      {
        ghost var was := trail;
        var o := RepairOne(records[i]);
        OneMoreRepair(records, outcomes, parts, o, trail[|was|..]);
        OneMoreRepairCounted(outcomes, o, repaired, skipped, failed);
        match o {
          case Repaired => repaired := repaired + 1;
          case Skipped => skipped := skipped + 1;
          case Failed(_) => failed := failed + 1;
        }
        assert trail == was + trail[|was|..];
        outcomes, parts := outcomes + [o], parts + [trail[|was|..]];
      }
    }

    // ---- Conditional deletion ----

    /** One cleanup candidate, as scrolled. */
    method DeleteOne(place: Id, snapshot: Payload) returns (r: Removal)
      requires Valid()
      modifies this
      ensures Valid() && old(trail) < trail
      ensures Finished(Deletion(place, snapshot), trail[|old(trail)|..])
      ensures r == DeletionOutcome(place, snapshot, trail[|old(trail)|..]) && (r.Gone? && r.requeued ==> r.reappeared)
    {
      hide Path; hide Logged; hide SoFar; hide Complete;
      ghost var j, base, t := Deletion(place, snapshot), trail, [];
      NothingYet(j, base);
      var same, raised := SnapshotUnchanged(place, snapshot);
      t := Take(j, base, t, Compare(place, snapshot), if raised then Raised else Said(same));
      if raised { return Broken; }
      if !same { return Kept; }
      var allowed;
      allowed, raised := MayDelete(place, snapshot);
      t := Take(j, base, t, Ask(place, snapshot), if raised then Raised else Said(allowed));
      if raised { return Broken; }
      if !allowed || !Complete(snapshot) { return Kept; }
      r := DeleteReleased(place, snapshot, base, t);
    }

    /** `delete_point_if_matches` and what follows. */
    method DeleteReleased(place: Id, snapshot: Payload, ghost base: seq<Event>, ghost soFar: seq<Event>) returns (r: Removal)
      requires Valid() && Complete(snapshot)
      requires SoFar(Deletion(place, snapshot), soFar) && trail == base + soFar && |soFar| == 2 && Yes(soFar[1])
      modifies this
      ensures Valid() && old(trail) < trail && base < trail
      ensures Finished(Deletion(place, snapshot), trail[|base|..])
      ensures r == DeletionOutcome(place, snapshot, trail[|base|..]) && (r.Gone? && r.requeued ==> r.reappeared)
    {
      hide Path; hide Logged; hide SoFar; hide Complete;
      ghost var j, t := Deletion(place, snapshot), soFar;
      var raised := DeleteMatching(place, snapshot);
      t := Take(j, base, t, Remove(place, snapshot), if raised then Raised else Said(true));
      if raised { return Broken; }
      var point;
      point, raised := ReadPoint(place);
      t := Take(j, base, t, Reread(place), if raised then Raised else Said(point.None?));
      if raised { return Broken; }
      if point.Some? { return if point.value == snapshot then Unconfirmed else Replaced; }
      r := RequeueAfterDelete(place, snapshot, base, t);
    }

    /** `_requeue_after_delete` */
    method RequeueAfterDelete(place: Id, snapshot: Payload, ghost base: seq<Event>, ghost t: seq<Event>) returns (r: Removal)
      requires Valid() && Complete(snapshot)
      requires SoFar(Deletion(place, snapshot), t) && trail == base + t && |t| == 4 && Yes(t[3])
      modifies this
      ensures Valid() && old(trail) < trail && base < trail
      ensures Finished(Deletion(place, snapshot), trail[|base|..])
      ensures r == DeletionOutcome(place, snapshot, trail[|base|..]) && (r.Gone? && r.requeued ==> r.reappeared)
    {
      hide Path;
      ghost var j, u := Deletion(place, snapshot), t;
      var current, raised := ReadActive(snapshot.share.value);
      u := Take(j, base, u, See(snapshot.share.value), if raised then Raised else Said(current.Some?));
      if raised { return Gone(true, false); }
      if current.None? { return Gone(false, false); }
      var took;
      took, raised := RequeueCurrent(snapshot.share.value, current.value.version, current.value.hash);
      u := Take(j, base, u, HandOver(snapshot.share.value, current.value.version, current.value.hash),
                if raised then Raised else Said(took));
      return Gone(true, !raised && took);
    }

    /** The deletion loop and its counters. */
    method DeleteAll(candidates: seq<Candidate>)
      returns (outcomes: seq<Removal>, deleted: nat, skipped: nat, requeued: nat, failed: nat, ghost parts: seq<seq<Event>>)
      requires Valid()
      modifies this
      ensures Valid() && |outcomes| == |candidates| && trail == old(trail) + Joined(parts)
      ensures DeletionsDone(candidates, outcomes, parts)
      ensures DeletionsCounted(outcomes, deleted, skipped, requeued, failed)
    {
      hide Path; hide Finished; hide DeletionOutcome; hide DeletionsCounted; hide DeletionsDone; hide Joined;
      outcomes, deleted, skipped, requeued, failed, parts := [], 0, 0, 0, 0, [];
      NothingDeleted(candidates);
      for i := 0 to |candidates|
        invariant Valid() && |outcomes| == |parts| == i && trail == old(trail) + Joined(parts)
        invariant DeletionsDone(candidates, outcomes, parts) && DeletionsCounted(outcomes, deleted, skipped, requeued, failed)
      {
        ghost var was := trail;
        var o := DeleteOne(candidates[i].place, candidates[i].snapshot);
        OneMoreDeletion(candidates, outcomes, parts, o, trail[|was|..]);
        OneMoreDeletionCounted(outcomes, o, deleted, skipped, requeued, failed);
        match o {
          case Kept => skipped := skipped + 1;
          case Replaced => skipped := skipped + 1;
          case Unconfirmed => failed := failed + 1;
          case Broken => failed := failed + 1;
          case Gone(reappeared, handed) =>
            deleted := deleted + 1;
            if reappeared {
              failed := failed + 1;
              if handed { requeued := requeued + 1; }
            }
        }
        assert trail == was + trail[|was|..];
        outcomes, parts := outcomes + [o], parts + [trail[|was|..]];
      }
    }

    /** Reads the last call off the log as the next of a job. */
    ghost method Take(j: Job, base: seq<Event>, t: seq<Event>, call: Call, answer: Answer) returns (u: seq<Event>)
      requires SoFar(j, t) && NextCall(j, t) == Some(call) && Logged(base + t, trail, call, answer)
      ensures u == t + [trail[|trail| - 1]] && SoFar(j, u) && trail == base + u && trail[|base|..] == u && base <= trail
      ensures u[|t|].answer == answer
    {
      Continues(j, base, t, trail, call, answer);
      u := t + [trail[|trail| - 1]];
    }
  }
}
