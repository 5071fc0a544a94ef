/**
 Concurrent task creation: any number of `create_task` calls, each taking the named lock of
 its request fingerprint, then that of its idempotency key (the sorted order of their names),
 interleaved with each other step by step and with the transactions of all workers.
 */
module Creation {
  import opened Basics
  import opened TaskQueue

  type Caller = nat

  datatype Lock = OfRequest(request: string) | OfKey(key: string)

  datatype Outcome = Created(id: TaskId) | Reused(id: TaskId) | Conflict | LockTimeout | Crashed

  /** Where a call is. `KeyFree` and `BothFree` are the answers of its two SELECTs; with
      `Answered` the transaction is over and both locks are still held. */
  datatype Stage =
    | Waiting | HasRequest | Locked | KeyFree | BothFree
    | Answered(outcome: Outcome) | KeyReleased(outcome: Outcome) | Done(outcome: Outcome)

  datatype Call = Call(user: Option<string>, key: string, request: string, stage: Stage)

  datatype World = World(data: Database, locks: map<Lock, Caller>, calls: map<Caller, Call>)

  datatype Move =
    | Begin(p: Caller, call: Call)
    | TakeRequest(p: Caller)
    | TakeKey(p: Caller)
    | GiveUp(p: Caller)
    | FindByKey(p: Caller, found: Option<TaskId>)
    | FindActive(p: Caller, found: Option<TaskId>)
    | Insert(p: Caller, id: TaskId, at: Time, event: nat)
    | ReleaseKey(p: Caller)
    | ReleaseRequest(p: Caller)
    | Crash(p: Caller)
    | Work(op: Op)

  predicate HoldsRequest(s: Stage) {
    s.HasRequest? || s.Locked? || s.KeyFree? || s.BothFree? || s.Answered? || s.KeyReleased?
  }

  predicate HoldsKey(s: Stage) { s.Locked? || s.KeyFree? || s.BothFree? || s.Answered? }

  predicate Holds(c: Call, l: Lock) {
    match l
    case OfRequest(r) => HoldsRequest(c.stage) && c.request == r
    case OfKey(k) => HoldsKey(c.stage) && c.key == k
  }

  predicate SameKey(r: Row, user: Option<string>, key: string) { r.columns.user == user && r.columns.key == key }

  predicate ActiveFor(r: Row, user: Option<string>, request: string) {
    r.columns.user == user && r.columns.request == request && !Terminal(r.columns.status)
  }

  function At(w: World, p: Caller, s: Stage): World
    requires p in w.calls
  {
    w.(calls := w.calls[p := w.calls[p].(stage := s)])
  }

  function Without(w: World, l: Lock): World { w.(locks := w.locks - {l}) }

  /** The answer of the first SELECT: conflict, reuse, or nothing under that key. */
  predicate KeyAnswer(w: World, c: Call, found: Option<TaskId>, s: Stage) {
    match found
    case Some(id) =>
      && id in w.data.rows && SameKey(w.data.rows[id], c.user, c.key)
      && s == Answered(if w.data.rows[id].columns.request == c.request then Reused(id) else Conflict)
    case None => s == KeyFree && forall id :: id in w.data.rows ==> !SameKey(w.data.rows[id], c.user, c.key)
  }

  predicate ActiveAnswer(w: World, c: Call, found: Option<TaskId>, s: Stage) {
    match found
    case Some(id) => id in w.data.rows && ActiveFor(w.data.rows[id], c.user, c.request) && s == Answered(Reused(id))
    case None => s == BothFree && forall id :: id in w.data.rows ==> !ActiveFor(w.data.rows[id], c.user, c.request)
  }

  predicate Steps(w: World, m: Move, v: World) {
    match m
    case Begin(p, c) => p !in w.calls && c.stage.Waiting? && v == w.(calls := w.calls[p := c])
    case TakeRequest(p) =>
      && p in w.calls && w.calls[p].stage.Waiting? && OfRequest(w.calls[p].request) !in w.locks
      && v == At(w, p, HasRequest).(locks := w.locks[OfRequest(w.calls[p].request) := p])
    case TakeKey(p) =>
      && p in w.calls && w.calls[p].stage.HasRequest? && OfKey(w.calls[p].key) !in w.locks
      && v == At(w, p, Locked).(locks := w.locks[OfKey(w.calls[p].key) := p])
    case GiveUp(p) =>
      && p in w.calls
      && ((w.calls[p].stage.Waiting? && v == At(w, p, Done(LockTimeout)))
          || (w.calls[p].stage.HasRequest? && v == At(w, p, KeyReleased(LockTimeout))))
    case FindByKey(p, found) =>
      && p in w.calls && w.calls[p].stage.Locked? && p in v.calls
      && KeyAnswer(w, w.calls[p], found, v.calls[p].stage) && v == At(w, p, v.calls[p].stage)
    case FindActive(p, found) =>
      && p in w.calls && w.calls[p].stage.KeyFree? && p in v.calls
      && ActiveAnswer(w, w.calls[p], found, v.calls[p].stage) && v == At(w, p, v.calls[p].stage)
    case Insert(p, id, at, event) =>
      && p in w.calls && w.calls[p].stage.BothFree? && id !in w.data.rows && Legal(w.data, Creating(w.calls[p], id, at, event))
      && v == At(w, p, Answered(Created(id))).(data := After(w.data, Creating(w.calls[p], id, at, event)))
    case ReleaseKey(p) =>
      && p in w.calls && w.calls[p].stage.Answered?
      && v == Without(At(w, p, KeyReleased(w.calls[p].stage.outcome)), OfKey(w.calls[p].key))
    case ReleaseRequest(p) =>
      && p in w.calls && w.calls[p].stage.KeyReleased?
      && v == Without(At(w, p, Done(w.calls[p].stage.outcome)), OfRequest(w.calls[p].request))
    case Crash(p) =>
      && p in w.calls && !w.calls[p].stage.Done?
      && v == At(w, p, Done(Crashed)).(locks := map l | l in w.locks && w.locks[l] != p :: w.locks[l])
    case Work(op) => !op.Create? && Legal(w.data, op) && v == w.(data := After(w.data, op))
  }

  function Creating(c: Call, id: TaskId, at: Time, event: nat): Op { Create(id, c.user, c.key, c.request, at, event) }

  // ---- The invariant ----

  /** Locks are held by whom they name, and by whom they name only. */
  ghost predicate LocksHeld(w: World) {
    && (forall p :: p in w.calls && HoldsRequest(w.calls[p].stage) ==>
          OfRequest(w.calls[p].request) in w.locks && w.locks[OfRequest(w.calls[p].request)] == p)
    && (forall p :: p in w.calls && HoldsKey(w.calls[p].stage) ==>
          OfKey(w.calls[p].key) in w.locks && w.locks[OfKey(w.calls[p].key)] == p)
    && (forall l :: l in w.locks ==> w.locks[l] in w.calls && Holds(w.calls[w.locks[l]], l))
  }

  /** What a call has read stays true until it inserts, and what it answers is its own. */
  ghost predicate Knows(d: Database, c: Call) {
    && (c.stage.KeyFree? || c.stage.BothFree? ==> forall id :: id in d.rows ==> !SameKey(d.rows[id], c.user, c.key))
    && (c.stage.BothFree? ==> forall id :: id in d.rows ==> !ActiveFor(d.rows[id], c.user, c.request))
    && ((c.stage.Answered? || c.stage.KeyReleased? || c.stage.Done?) && (c.stage.outcome.Created? || c.stage.outcome.Reused?) ==>
          && c.stage.outcome.id in d.rows
          && d.rows[c.stage.outcome.id].columns.user == c.user && d.rows[c.stage.outcome.id].columns.request == c.request)
  }

  ghost predicate KeysUnique(d: Database) {
    forall i, j :: i in d.rows && j in d.rows && SameKey(d.rows[i], d.rows[j].columns.user, d.rows[j].columns.key) ==> i == j
  }

  predicate BothActive(r: Row, q: Row) {
    !Terminal(q.columns.status) && ActiveFor(r, q.columns.user, q.columns.request)
  }

  ghost predicate ActiveUnique(d: Database) {
    forall i, j :: i in d.rows && j in d.rows && BothActive(d.rows[i], d.rows[j]) ==> i == j
  }

  ghost predicate Safe(w: World) {
    && Inv(w.data)
    && LocksHeld(w)
    && (forall p :: p in w.calls ==> Knows(w.data, w.calls[p]))
    && KeysUnique(w.data)
    && ActiveUnique(w.data)
  }

  /** What a worker's transaction leaves of every row. */
  ghost predicate Aged(d: Database, d': Database) {
    && d'.rows.Keys == d.rows.Keys
    && forall id :: id in d.rows ==>
         && d'.rows[id].columns.user == d.rows[id].columns.user && d'.rows[id].columns.key == d.rows[id].columns.key
         && d'.rows[id].columns.request == d.rows[id].columns.request
         && (Terminal(d.rows[id].columns.status) ==> Terminal(d'.rows[id].columns.status))
  }

  lemma WorkAges(d: Database, op: Op)
    requires Inv(d) && Legal(d, op) && !op.Create?
    ensures Aged(d, After(d, op))
  {
    var d' := After(d, op);
    if Accepts(d, op) {
      assert RowKept(d, op.id);
      ChangedStays(d.rows[op.id], op);
      OnlyOneRow(d, op);
      hide Inv; hide Kept; hide EventsOf; hide Legal; hide Changed; hide Announced; hide Admitted; hide After; hide Accepts;
    }
  }

  lemma OnlyOneRow(d: Database, op: Op)
    requires Legal(d, op) && !op.Create? && Accepts(d, op)
    ensures op.id in d.rows
    ensures After(d, op).rows == d.rows[op.id := Row(ColumnsOf(Changed(d.rows[op.id].task, op)), Changed(d.rows[op.id].task, op))]
  {
    hide Changed; hide Announced; hide Admitted;
  }

  lemma ChangedStays(r: Row, op: Op)
    requires r.columns == ColumnsOf(r.task) && Admitted(r, op)
    ensures var u := Changed(r.task, op);
            u.user == r.task.user && u.key == r.task.key && u.request == r.task.request && !Terminal(r.columns.status)
  {
  }

  lemma AgedStaysUnique(d: Database, d': Database)
    requires Aged(d, d') && KeysUnique(d) && ActiveUnique(d)
    ensures KeysUnique(d') && ActiveUnique(d')
  {
  }

  lemma AgedStaysKnown(d: Database, d': Database, c: Call)
    requires Aged(d, d') && Knows(d, c)
    ensures Knows(d', c)
  {
  }

  lemma WorkSafe(w: World, op: Op, v: World)
    requires Safe(w) && Steps(w, Work(op), v)
    ensures Safe(v)
  {
    hide Inv; hide Legal; hide After; hide KeysUnique; hide ActiveUnique; hide Knows; hide Aged; hide LocksHeld;
    StepKeeps(w.data, op);
    WorkAges(w.data, op);
    AgedStaysUnique(w.data, v.data);
    forall p | p in v.calls ensures Knows(v.data, v.calls[p]) { AgedStaysKnown(w.data, v.data, w.calls[p]); }
    LocksIgnoreData(w, v);
  }

  lemma LocksIgnoreData(w: World, v: World)
    requires LocksHeld(w) && v.locks == w.locks && v.calls == w.calls
    ensures LocksHeld(v)
  {
  }

  // ---- The steps of a call ----

  predicate OfLocks(m: Move) {
    m.Begin? || m.TakeRequest? || m.TakeKey? || m.GiveUp? || m.ReleaseKey? || m.ReleaseRequest? || m.Crash?
  }

  lemma BeginnerHolds(w: World, m: Move, v: World)
    requires LocksHeld(w) && Steps(w, m, v) && m.Begin?
    ensures LocksHeld(v) && v.data == w.data
  {
    hide Legal; hide After; hide Accepts;
  }

  lemma RequestTakerHolds(w: World, m: Move, v: World)
    requires LocksHeld(w) && Steps(w, m, v) && m.TakeRequest?
    ensures LocksHeld(v) && v.data == w.data
  {
    hide Legal; hide After; hide Accepts;
  }

  lemma KeyTakerHolds(w: World, m: Move, v: World)
    requires LocksHeld(w) && Steps(w, m, v) && m.TakeKey?
    ensures LocksHeld(v) && v.data == w.data
  {
    hide Legal; hide After; hide Accepts;
  }

  lemma TakersHold(w: World, m: Move, v: World)
    requires LocksHeld(w) && Steps(w, m, v) && (m.Begin? || m.TakeRequest? || m.TakeKey?)
    ensures LocksHeld(v) && v.data == w.data
  {
    hide LocksHeld; hide Steps;
    if m.Begin? { BeginnerHolds(w, m, v); } else if m.TakeRequest? { RequestTakerHolds(w, m, v); } else { KeyTakerHolds(w, m, v); }
  }

  lemma KeyReleaserHolds(w: World, m: Move, v: World)
    requires LocksHeld(w) && Steps(w, m, v) && m.ReleaseKey?
    ensures LocksHeld(v) && v.data == w.data
  {
    hide Legal; hide After; hide Accepts;
  }

  lemma RequestReleaserHolds(w: World, m: Move, v: World)
    requires LocksHeld(w) && Steps(w, m, v) && m.ReleaseRequest?
    ensures LocksHeld(v) && v.data == w.data
  {
    hide Legal; hide After; hide Accepts;
  }

  lemma ReleasersHold(w: World, m: Move, v: World)
    requires LocksHeld(w) && Steps(w, m, v) && (m.ReleaseKey? || m.ReleaseRequest?)
    ensures LocksHeld(v) && v.data == w.data
  {
    hide LocksHeld; hide Steps;
    if m.ReleaseKey? { KeyReleaserHolds(w, m, v); } else { RequestReleaserHolds(w, m, v); }
  }

  lemma QuitterHolds(w: World, m: Move, v: World)
    requires LocksHeld(w) && Steps(w, m, v) && m.GiveUp?
    ensures LocksHeld(v) && v.data == w.data
  {
    hide Legal; hide After; hide Accepts;
  }

  lemma CrasherHolds(w: World, m: Move, v: World)
    requires LocksHeld(w) && Steps(w, m, v) && m.Crash?
    ensures LocksHeld(v) && v.data == w.data
  {
    hide Legal; hide After; hide Accepts;
  }

  lemma CrashersHold(w: World, m: Move, v: World)
    requires LocksHeld(w) && Steps(w, m, v) && (m.GiveUp? || m.Crash?)
    ensures LocksHeld(v) && v.data == w.data
  {
    hide LocksHeld; hide Steps;
    if m.GiveUp? { QuitterHolds(w, m, v); } else { CrasherHolds(w, m, v); }
  }

  lemma FindersHold(w: World, m: Move, v: World)
    requires LocksHeld(w) && Steps(w, m, v) && (m.FindByKey? || m.FindActive?)
    ensures LocksHeld(v) && v.data == w.data
  {
    hide Legal; hide After; hide SameKey; hide ActiveFor;
  }

  lemma LockersKnow(w: World, m: Move, v: World, p: Caller)
    requires Steps(w, m, v) && OfLocks(m) && p in v.calls && (p in w.calls ==> Knows(w.data, w.calls[p]))
    ensures Knows(w.data, v.calls[p])
  {
    hide Legal; hide After; hide SameKey; hide ActiveFor;
  }

  lemma FindersKnow(w: World, m: Move, v: World, p: Caller)
    requires Steps(w, m, v) && (m.FindByKey? || m.FindActive?) && p in w.calls && Knows(w.data, w.calls[p])
    ensures p in v.calls && Knows(w.data, v.calls[p])
  {
    hide Legal; hide After;
  }

  /** The steps that change one call and its locks, and the two SELECTs. */
  lemma QuietStepSafe(w: World, m: Move, v: World)
    requires Safe(w) && Steps(w, m, v) && (OfLocks(m) || m.FindByKey? || m.FindActive?)
    ensures Safe(v)
  {
    hide Inv; hide KeysUnique; hide ActiveUnique; hide Knows; hide LocksHeld;
    if OfLocks(m) {
      if m.GiveUp? || m.Crash? { CrashersHold(w, m, v); }
      else if m.Begin? || m.TakeRequest? || m.TakeKey? { TakersHold(w, m, v); }
      else { ReleasersHold(w, m, v); }
      forall p | p in v.calls ensures Knows(v.data, v.calls[p]) { LockersKnow(w, m, v, p); }
    } else {
      FindersHold(w, m, v);
      assert v.calls.Keys == w.calls.Keys;
      forall p | p in v.calls ensures Knows(v.data, v.calls[p]) { FindersKnow(w, m, v, p); }
    }
    hide Steps;
  }

  /** The row an insertion adds is new in its key and, while active, in its request. */
  lemma InsertedUnique(d: Database, c: Call, id: TaskId, at: Time, event: nat)
    requires Legal(d, Creating(c, id, at, event)) && id !in d.rows && c.stage.BothFree? && Knows(d, c)
    requires KeysUnique(d) && ActiveUnique(d)
    ensures var d' := After(d, Creating(c, id, at, event));
            KeysUnique(d') && ActiveUnique(d')
            && d'.rows == d.rows[id := d'.rows[id]]
            && d'.rows[id].columns.user == c.user && d'.rows[id].columns.key == c.key && d'.rows[id].columns.request == c.request
  {
  }

  /** Another call's reading survives the insertion: it concerns another key, another request
      or another user, or the two calls would hold the same lock. */
  lemma OthersKnow(d: Database, d': Database, id: TaskId, c: Call, other: Call)
    requires Knows(d, other) && id !in d.rows && id in d'.rows && d'.rows == d.rows[id := d'.rows[id]]
    requires d'.rows[id].columns.key == c.key && d'.rows[id].columns.request == c.request
    requires HoldsKey(other.stage) ==> other.key != c.key && other.request != c.request
    ensures Knows(d', other)
  {
  }

  lemma InserterHolds(w: World, m: Move, v: World)
    requires LocksHeld(w) && Steps(w, m, v) && m.Insert?
    ensures LocksHeld(v)
    ensures forall p :: p in w.calls && p != m.p && HoldsKey(w.calls[p].stage) ==>
              v.calls[p] == w.calls[p] && w.calls[p].key != w.calls[m.p].key && w.calls[p].request != w.calls[m.p].request
  {
    hide Legal; hide After;
  }

  lemma InsertSafe(w: World, m: Move, v: World)
    requires Safe(w) && Steps(w, m, v) && m.Insert?
    ensures Safe(v)
  {
    var c := w.calls[m.p];
    StepKeeps(w.data, Creating(c, m.id, m.at, m.event));
    InsertedUnique(w.data, c, m.id, m.at, m.event);
    InserterHolds(w, m, v);
    hide Inv; hide Legal; hide After; hide KeysUnique; hide ActiveUnique; hide SameKey; hide ActiveFor; hide LocksHeld;
    forall p | p in v.calls ensures Knows(v.data, v.calls[p]) {
      if p != m.p {
        hide Knows;
        OthersKnow(w.data, v.data, m.id, c, w.calls[p]);
      }
    }
  }

  lemma StepSafe(w: World, m: Move, v: World)
    requires Safe(w) && Steps(w, m, v)
    ensures Safe(v)
  {
    hide Safe; hide Steps;
    match m
    case Insert(_, _, _, _) => InsertSafe(w, m, v);
    case Work(op) => WorkSafe(w, op, v);
    case _ => QuietStepSafe(w, m, v);
  }

  // ---- Whole traces ----

  const NOTHING := World(EMPTY, map[], map[])

  /** Any interleaving of calls and workers, from an empty database on. */
  ghost predicate IsTrace(w: seq<World>, m: seq<Move>) {
    |w| == |m| + 1 && w[0] == NOTHING && forall i :: 0 <= i < |m| ==> Steps(w[i], m[i], w[i + 1])
  }

  lemma NothingSafe()
    ensures Safe(NOTHING)
  {
  }

  lemma {:induction false} AlwaysSafe(w: seq<World>, m: seq<Move>, n: nat)
    requires IsTrace(w, m) && n < |w|
    ensures Safe(w[n])
  {
    hide Safe; hide Steps; hide NOTHING;
    if n == 0 {
      NothingSafe();
    } else {
      AlwaysSafe(w, m, n - 1);
      StepSafe(w[n - 1], m[n - 1], w[n]);
    }
  }

  /** At any time there is one task per user and idempotency key, and one unfinished task per
      user and request. */
  lemma NoDuplicates(w: seq<World>, m: seq<Move>, n: nat, i: TaskId, j: TaskId)
    requires IsTrace(w, m) && n < |w| && i in w[n].data.rows && j in w[n].data.rows && i != j
    ensures var t, u := w[n].data.rows[i].task, w[n].data.rows[j].task;
            && (t.user != u.user || t.key != u.key)
            && (Terminal(t.status) || Terminal(u.status) || t.user != u.user || t.request != u.request)
  {
    hide Steps; hide NOTHING;
    AlwaysSafe(w, m, n);
    assert RowKept(w[n].data, i) && RowKept(w[n].data, j);
    hide Inv; hide Kept; hide EventsOf; hide LocksHeld; hide Knows;
    assert SameKey(w[n].data.rows[i], w[n].data.rows[j].columns.user, w[n].data.rows[j].columns.key) ==> false;
    assert BothActive(w[n].data.rows[i], w[n].data.rows[j]) ==> false;
  }

  /** Whatever task a call returns, new or reused, is one of its user for its request. */
  lemma AnswerIsOwn(w: seq<World>, m: seq<Move>, n: nat, p: Caller)
    requires IsTrace(w, m) && n < |w| && p in w[n].calls && w[n].calls[p].stage.Done?
    requires w[n].calls[p].stage.outcome.Created? || w[n].calls[p].stage.outcome.Reused?
    ensures var c := w[n].calls[p];
            c.stage.outcome.id in w[n].data.rows
            && w[n].data.rows[c.stage.outcome.id].task.user == c.user
            && w[n].data.rows[c.stage.outcome.id].task.request == c.request
  {
    hide Steps; hide NOTHING;
    AlwaysSafe(w, m, n);
    assert Knows(w[n].data, w[n].calls[p]);
    assert RowKept(w[n].data, w[n].calls[p].stage.outcome.id);
    hide Inv; hide Kept; hide EventsOf; hide LocksHeld; hide KeysUnique; hide ActiveUnique;
  }

  /** The unique constraint is never violated: the IntegrityError branch is a last resort
      that no interleaving reaches. */
  lemma InsertNeverConflicts(w: seq<World>, m: seq<Move>, n: nat)
    requires IsTrace(w, m) && n < |m| && m[n].Insert?
    ensures m[n].p in w[n].calls
    ensures var c := w[n].calls[m[n].p];
            forall id :: id in w[n].data.rows ==>
              !SameKey(w[n].data.rows[id], c.user, c.key) && !ActiveFor(w[n].data.rows[id], c.user, c.request)
  {
    AlwaysSafe(w, m, n);
    assert Steps(w[n], m[n], w[n + 1]);
    hide Inv; hide LocksHeld; hide KeysUnique; hide ActiveUnique; hide Legal; hide After; hide SameKey; hide ActiveFor; hide NOTHING;
  }

  // ---- No deadlock ----

  predicate WaitsFor(w: World, p: Caller, q: Caller) {
    p in w.calls &&
    var c := w.calls[p];
    || (c.stage.Waiting? && OfRequest(c.request) in w.locks && w.locks[OfRequest(c.request)] == q)
    || (c.stage.HasRequest? && OfKey(c.key) in w.locks && w.locks[OfKey(c.key)] == q)
  }

  /** Who blocks a blocked call's blocker waits for nobody. */
  lemma WaitsAreShort(w: World, p: Caller, q: Caller, r: Caller, x: Caller)
    requires LocksHeld(w) && WaitsFor(w, p, q) && WaitsFor(w, q, r)
    ensures !WaitsFor(w, r, x)
  {
  }

  /** Calls never wait for each other in a circle. */
  lemma NoCyclicWait(w: seq<World>, m: seq<Move>, n: nat, circle: seq<Caller>)
    requires IsTrace(w, m) && n < |w|
    requires |circle| >= 2 && circle[0] == circle[|circle| - 1]
    ensures exists i :: 0 <= i < |circle| - 1 && !WaitsFor(w[n], circle[i], circle[i + 1])
  {
    hide Steps; hide NOTHING;
    AlwaysSafe(w, m, n);
    hide IsTrace; hide Inv; hide Knows; hide KeysUnique; hide ActiveUnique; hide LocksHeld; hide WaitsFor;
    if forall i :: 0 <= i < |circle| - 1 ==> WaitsFor(w[n], circle[i], circle[i + 1]) {
      var k := |circle| - 1;
      assert WaitsFor(w[n], circle[0], circle[1]);
      var a := if k == 1 then 0 else 1;
      assert WaitsFor(w[n], circle[a], circle[a + 1]);
      var b := if a + 1 == k then 0 else a + 1;
      assert WaitsFor(w[n], circle[b], circle[b + 1]);
      WaitsAreShort(w[n], circle[0], circle[a], circle[b], circle[b + 1]);
      assert false;
    }
  }

  /** While any call is unfinished, some unfinished call waits for nobody. */
  lemma SomeoneCanGo(w: seq<World>, m: seq<Move>, n: nat, p: Caller) returns (q: Caller)
    requires IsTrace(w, m) && n < |w| && p in w[n].calls && !w[n].calls[p].stage.Done?
    ensures q in w[n].calls && !w[n].calls[q].stage.Done?
    ensures forall x :: !WaitsFor(w[n], q, x)
  {
    hide Steps; hide NOTHING;
    AlwaysSafe(w, m, n);
    hide Inv; hide Knows; hide KeysUnique; hide ActiveUnique;
    q := p;
    if x :| WaitsFor(w[n], q, x) {
      q := x;
      if y :| WaitsFor(w[n], q, y) {
        forall z ensures !WaitsFor(w[n], y, z) { WaitsAreShort(w[n], p, x, y, z); }
        q := y;
      }
    }
  }
}
