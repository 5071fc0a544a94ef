/**
 The persistent task queue of app/persistence/mysql_trip_task_store.py. A transaction locks
 its task row, so each is one atomic step on the table and the event log; any number of
 workers and users take steps in any order.
 */
module TaskQueue {
  import opened Basics

  type TaskId = string
  type Worker = string
  type Time = real

  datatype Status = Queued | Running | Retrying | Succeeded | Failed | Cancelled | TimedOut

  predicate Terminal(s: Status) { s.Succeeded? || s.Failed? || s.Cancelled? || s.TimedOut? }

  /** A new task starts at 0 percent; a finished one keeps what it reached. */
  datatype Task = Task(
    user: Option<string>, key: string, request: string, status: Status, cancel: bool,
    percent: real, step: int, maxSteps: int, attempt: nat, recovery: nat,
    worker: Option<Worker>, lease: Option<Time>, heartbeat: Option<Time>,
    created: Time, started: Option<Time>, finished: Option<Time>)

  /** The indexed columns stored beside the JSON document. */
  datatype Columns = Columns(
    user: Option<string>, key: string, request: string, status: Status, cancel: bool,
    worker: Option<Worker>, lease: Option<Time>, heartbeat: Option<Time>, created: Time)

  datatype Row = Row(columns: Columns, task: Task)

  function ColumnsOf(t: Task): Columns {
    Columns(t.user, t.key, t.request, t.status, t.cancel, t.worker, t.lease, t.heartbeat, t.created)
  }

  datatype Kind =
    | TaskQueued | TaskStarted | TaskRecovered | ActionStarted | ActionCompleted | ActionRetrying
    | CancellationRequested | TaskSucceeded | TaskFailed | TaskCancelled | TaskTimedOut

  predicate Concludes(k: Kind) { k.TaskSucceeded? || k.TaskFailed? || k.TaskCancelled? || k.TaskTimedOut? }

  predicate OfAction(k: Kind) { k.ActionStarted? || k.ActionCompleted? || k.ActionRetrying? }

  datatype Event = Event(id: nat, task: TaskId, kind: Kind, percent: real, step: int)

  datatype Database = Database(rows: map<TaskId, Row>, events: seq<Event>)

  const EMPTY := Database(map[], [])

  /** One transaction. `now` is read before it begins, `at` while it holds the row; `event` is
      the auto-increment id of the event it inserts. `Claim` is one that found a row, past
      those `locked` by other transactions. */
  datatype Op =
    | Create(id: TaskId, user: Option<string>, key: string, request: string, at: Time, event: nat)
    | Claim(id: TaskId, worker: Worker, now: Time, at: Time, seconds: real, locked: set<TaskId>, event: nat)
    | Heartbeat(id: TaskId, worker: Worker, now: Time, at: Time, seconds: real)
    | Progress(id: TaskId, worker: Worker, at: Time, kind: Kind, percent: real, step: int, maxSteps: int, event: nat)
    | Cancel(id: TaskId, asker: Option<string>, at: Time, event: nat)
    | Conclude(id: TaskId, worker: Worker, at: Time, outcome: Status, event: nat)

  // ---- One task ----

  function NewTask(user: Option<string>, key: string, request: string, at: Time): Task {
    Task(user, key, request, Queued, false, 0.0, 0, 0, 0, 0, None, None, None, at, None, None)
  }

  function MaxReal(a: real, b: real): real { if a >= b then a else b }

  function MinReal(a: real, b: real): real { if a <= b then a else b }

  function LeaseEnd(now: Time, seconds: real): Time { now + MaxReal(1.0, seconds) }

  predicate HoldsLease(t: Task, worker: Worker, at: Time) {
    t.status == Running && t.worker == Some(worker) && t.lease.Some? && t.lease.value > at
  }

  /** The WHERE clause of a claim: it sees the columns only. */
  predicate Eligible(c: Columns, now: Time) {
    !c.cancel && (c.status.Queued? || c.status.Retrying? || (c.status.Running? && c.lease.Some? && c.lease.value < now))
  }

  function ClaimedTask(t: Task, worker: Worker, now: Time, seconds: real): Task {
    t.(status := Running, worker := Some(worker), lease := Some(LeaseEnd(now, seconds)), heartbeat := Some(now),
       started := if t.started.Some? then t.started else Some(now), attempt := t.attempt + 1,
       recovery := t.recovery + if t.status == Running then 1 else 0, percent := MaxReal(t.percent, 1.0))
  }

  function BeatenTask(t: Task, now: Time, seconds: real): Task {
    t.(heartbeat := Some(now), lease := Some(LeaseEnd(now, seconds)))
  }

  function ProgressedTask(t: Task, percent: real, step: int, maxSteps: int): Task {
    t.(percent := MaxReal(t.percent, MinReal(99.0, percent)), step := Max(t.step, step), maxSteps := Max(t.maxSteps, maxSteps))
  }

  function CancelledTask(t: Task, at: Time): Task {
    if t.status.Queued? || t.status.Retrying?
    then t.(cancel := true, status := Cancelled, finished := Some(at), worker := None, lease := None, heartbeat := None)
    else t.(cancel := true)
  }

  function ConcludedTask(t: Task, outcome: Status, at: Time): Task {
    t.(status := outcome, percent := if outcome.Succeeded? then 100.0 else t.percent, finished := Some(at),
       worker := None, lease := None, heartbeat := None)
  }

  function ConcludingKind(outcome: Status): Kind
    requires Terminal(outcome)
  {
    match outcome
    case Succeeded => TaskSucceeded
    case Failed => TaskFailed
    case Cancelled => TaskCancelled
    case TimedOut => TaskTimedOut
  }

  /** Whether the transaction changes the row it finds. */
  predicate Admitted(r: Row, op: Op) {
    var t := r.task;
    match op
    case Create(_, _, _, _, _, _) => false
    case Claim(_, _, now, _, _, _, _) => Eligible(r.columns, now)
    case Heartbeat(_, w, _, at, _) => HoldsLease(t, w, at)
    case Progress(_, w, at, _, _, _, _, _) => HoldsLease(t, w, at)
    case Cancel(_, asker, _, _) => !Terminal(t.status) && (asker.Some? ==> r.columns.user == asker)
    case Conclude(_, w, at, _, _) => HoldsLease(t, w, at)
  }

  function Changed(t: Task, op: Op): Task {
    match op
    case Create(_, _, _, _, _, _) => t
    case Claim(_, w, now, _, seconds, _, _) => ClaimedTask(t, w, now, seconds)
    case Heartbeat(_, _, now, _, seconds) => BeatenTask(t, now, seconds)
    case Progress(_, _, _, _, percent, step, maxSteps, _) => ProgressedTask(t, percent, step, maxSteps)
    case Cancel(_, _, at, _) => CancelledTask(t, at)
    case Conclude(_, _, at, outcome, _) => ConcludedTask(t, outcome, at)
  }

  /** The event a change writes; a heartbeat writes none. */
  function Announced(t: Task, op: Op): Option<Kind>
    requires op.Conclude? ==> Terminal(op.outcome)
  {
    match op
    case Create(_, _, _, _, _, _) => None
    case Claim(_, _, _, _, _, _, _) => Some(if t.status.Running? then TaskRecovered else TaskStarted)
    case Heartbeat(_, _, _, _, _) => None
    case Progress(_, _, _, kind, _, _, _, _) => Some(kind)
    case Cancel(_, _, _, _) => Some(if t.status.Queued? || t.status.Retrying? then TaskCancelled else CancellationRequested)
    case Conclude(_, _, _, outcome, _) => Some(ConcludingKind(outcome))
  }

  // ---- The table and the log ----

  predicate Accepts(d: Database, op: Op) {
    if op.Create? then op.id !in d.rows else op.id in d.rows && Admitted(d.rows[op.id], op)
  }

  /** What the callers and the database guarantee: workers report actions and terminal
      outcomes, event ids are fresh, clocks do not run backwards within a transaction, and a
      claim takes the earliest eligible task no other transaction has locked. */
  predicate Legal(d: Database, op: Op) {
    && (!op.Heartbeat? ==> Unused(d.events, op.id, op.event))
    && (op.Progress? ==> OfAction(op.kind))
    && (op.Conclude? ==> Terminal(op.outcome))
    && (op.Claim? ==> op.now <= op.at && Earliest(d, op))
    && (op.Heartbeat? ==> op.now <= op.at)
  }

  /** The next auto-increment id: new, and beyond those of the task, whose row is locked. */
  predicate Unused(es: seq<Event>, id: TaskId, event: nat) {
    forall i :: 0 <= i < |es| ==> es[i].id != event && (es[i].task == id ==> es[i].id < event)
  }

  predicate Earliest(d: Database, op: Op)
    requires op.Claim?
  {
    && op.id in d.rows && op.id !in op.locked
    && forall id :: id in d.rows && id !in op.locked && Eligible(d.rows[id].columns, op.now) ==>
         d.rows[op.id].columns.created <= d.rows[id].columns.created
  }

  function Stored(d: Database, id: TaskId, t: Task): Database { d.(rows := d.rows[id := Row(ColumnsOf(t), t)]) }

  function Logged(d: Database, id: TaskId, event: nat, kind: Kind, t: Task): Database {
    d.(events := d.events + [Event(event, id, kind, t.percent, t.step)])
  }

  function Effect(d: Database, op: Op): Database
    requires Accepts(d, op) && Legal(d, op)
  {
    if op.Create? then
      var t := NewTask(op.user, op.key, op.request, op.at);
      Logged(Stored(d, op.id, t), op.id, op.event, TaskQueued, t)
    else
      var t := Changed(d.rows[op.id].task, op);
      var kind := Announced(d.rows[op.id].task, op);
      if kind.Some? && !op.Heartbeat? then Logged(Stored(d, op.id, t), op.id, op.event, kind.value, t) else Stored(d, op.id, t)
  }

  function After(d: Database, op: Op): Database
    requires Legal(d, op)
  {
    if Accepts(d, op) then Effect(d, op) else d
  }

  // ---- What the log says ----

  function EventsOf(es: seq<Event>, id: TaskId): seq<Event> {
    if es == [] then []
    else EventsOf(es[..|es| - 1], id) + if es[|es| - 1].task == id then [es[|es| - 1]] else []
  }

  /** What a reader of the log can know about a task. */
  datatype Life = Life(status: Status, cancel: bool, attempt: nat, recovery: nat)

  const UNBORN := Life(Queued, false, 0, 0)

  function Advance(l: Life, k: Kind): Life {
    match k
    case TaskQueued => UNBORN
    case TaskStarted => l.(status := Running, attempt := l.attempt + 1)
    case TaskRecovered => l.(status := Running, attempt := l.attempt + 1, recovery := l.recovery + 1)
    case CancellationRequested => l.(cancel := true)
    case TaskCancelled => l.(status := Cancelled, cancel := l.cancel || l.status.Queued?)
    case TaskSucceeded => l.(status := Succeeded)
    case TaskFailed => l.(status := Failed)
    case TaskTimedOut => l.(status := TimedOut)
    case ActionStarted | ActionCompleted | ActionRetrying => l
  }

  function Fold(log: seq<Event>): Life {
    if log == [] then UNBORN else Advance(Fold(log[..|log| - 1]), log[|log| - 1].kind)
  }

  function LifeOf(t: Task): Life { Life(t.status, t.cancel, t.attempt, t.recovery) }

  /** A log with its newest event last: ids and percentages never go back, it begins with the
      queueing, and a concluding event is the last one. */
  ghost predicate Told(log: seq<Event>) {
    && log != [] && log[0].kind.TaskQueued?
    && (forall i, j :: 0 <= i < j < |log| ==> log[i].id < log[j].id && log[i].percent <= log[j].percent)
    && (forall i :: 0 < i < |log| ==> !log[i].kind.TaskQueued?)
    && (forall i :: 0 <= i < |log| - 1 ==> !Concludes(log[i].kind))
  }

  /** What the fields of one task have to do with each other. */
  ghost predicate Shaped(t: Task) {
    && !t.status.Retrying?
    && (t.status.Running? <==> t.worker.Some?) && (t.worker.Some? <==> t.lease.Some?) && (t.worker.Some? <==> t.heartbeat.Some?)
    && (t.status.Queued? ==> t.started.None? && !t.cancel)
    && (t.started.None? ==> t.status.Queued? || t.status.Cancelled?)
    && t.attempt == (if t.started.Some? then t.recovery + 1 else 0) && (t.started.None? ==> t.recovery == 0)
    && (Terminal(t.status) <==> t.finished.Some?)
    && 0.0 <= t.percent <= 100.0
    && (if t.status.Succeeded? then t.percent == 100.0 else t.percent <= 99.0)
  }

  /** A task and its own log agree. */
  ghost predicate Kept(t: Task, log: seq<Event>) {
    && Shaped(t)
    && Told(log)
    && Fold(log) == LifeOf(t)
    && log[|log| - 1].percent == t.percent
    && (Terminal(t.status) <==> Concludes(log[|log| - 1].kind))
  }

  ghost predicate RowKept(d: Database, id: TaskId) {
    if id in d.rows then d.rows[id].columns == ColumnsOf(d.rows[id].task) && Kept(d.rows[id].task, EventsOf(d.events, id))
    else EventsOf(d.events, id) == []
  }

  ghost predicate Inv(d: Database) { forall id :: RowKept(d, id) }

  lemma LogGrows(es: seq<Event>, x: Event, id: TaskId)
    ensures EventsOf(es + [x], id) == EventsOf(es, id) + if x.task == id then [x] else []
  {
    assert (es + [x])[..|es|] == es;
  }

  lemma {:induction false} OwnEvents(es: seq<Event>, id: TaskId, i: nat)
    requires i < |EventsOf(es, id)|
    ensures EventsOf(es, id)[i] in es && EventsOf(es, id)[i].task == id
  {
    if es != [] && i < |EventsOf(es[..|es| - 1], id)| { OwnEvents(es[..|es| - 1], id, i); }
  }

  lemma FoldGrows(log: seq<Event>, x: Event)
    ensures Fold(log + [x]) == Advance(Fold(log), x.kind)
  {
    assert (log + [x])[..|log|] == log;
  }

  lemma ChangeShaped(t: Task, op: Op)
    requires Shaped(t) && Admitted(Row(ColumnsOf(t), t), op) && (op.Conclude? ==> Terminal(op.outcome))
    ensures Shaped(Changed(t, op)) && t.percent <= Changed(t, op).percent && !Terminal(t.status)
  {
  }

  /** The event tells exactly what happened to status, cancel flag and counters. */
  lemma ChangeAnnounced(t: Task, op: Op)
    requires Shaped(t) && Admitted(Row(ColumnsOf(t), t), op)
    requires (op.Progress? ==> OfAction(op.kind)) && (op.Conclude? ==> Terminal(op.outcome))
    ensures var k := Announced(t, op);
            if op.Heartbeat? then k.None? && LifeOf(Changed(t, op)) == LifeOf(t) && Changed(t, op).percent == t.percent
            else
              && k.Some? && LifeOf(Changed(t, op)) == Advance(LifeOf(t), k.value) && !k.value.TaskQueued?
              && (Terminal(Changed(t, op).status) <==> Concludes(k.value))
  {
  }

  /** A change of one task, and the event it writes, keep task and log in agreement. */
  lemma ChangeKept(t: Task, log: seq<Event>, op: Op)
    requires Kept(t, log) && Admitted(Row(ColumnsOf(t), t), op)
    requires (op.Progress? ==> OfAction(op.kind)) && (op.Conclude? ==> Terminal(op.outcome))
    requires !op.Heartbeat? ==> forall i :: 0 <= i < |log| ==> log[i].id < op.event
    ensures var u := Changed(t, op);
            var k := Announced(t, op);
            if op.Heartbeat? then k.None? && Kept(u, log)
            else k.Some? && Kept(u, log + [Event(op.event, op.id, k.value, u.percent, u.step)])
  {
    var u := Changed(t, op);
    ChangeShaped(t, op);
    ChangeAnnounced(t, op);
    hide Changed; hide Announced; hide Admitted; hide Shaped; hide Advance;
    if !op.Heartbeat? {
      var x := Event(op.event, op.id, Announced(t, op).value, u.percent, u.step);
      FoldGrows(log, x);
      TellingGrows(log, x);
      hide Told; hide Fold;
    }
  }

  lemma TellingGrows(log: seq<Event>, x: Event)
    requires Told(log) && !Concludes(log[|log| - 1].kind) && !x.kind.TaskQueued?
    requires log[|log| - 1].percent <= x.percent && forall i :: 0 <= i < |log| ==> log[i].id < x.id
    ensures Told(log + [x])
  {
    assert forall i :: 0 <= i < |log| ==> log[i].percent <= log[|log| - 1].percent;
  }

  /** The transaction that keeps every row and every log in agreement is any transaction. */
  lemma StepKeeps(d: Database, op: Op)
    requires Inv(d) && Legal(d, op)
    ensures Inv(After(d, op))
  {
    if Accepts(d, op) {
      forall id ensures RowKept(After(d, op), id) {
        assert RowKept(d, id) && RowKept(d, op.id);
        if id == op.id { OwnRowKept(d, op); } else { OtherRowKept(d, op, id); }
      }
    }
  }

  lemma OtherRowKept(d: Database, op: Op, id: TaskId)
    requires Legal(d, op) && Accepts(d, op) && RowKept(d, id) && id != op.id
    ensures RowKept(Effect(d, op), id)
  {
    var d' := Effect(d, op);
    if |d'.events| > |d.events| {
      var x := d'.events[|d.events|];
      assert d'.events == d.events + [x] && x.task == op.id;
      LogGrows(d.events, x, id);
    } else {
      assert d'.events == d.events;
    }
    assert EventsOf(d'.events, id) == EventsOf(d.events, id);
    assert d'.rows == d.rows[op.id := d'.rows[op.id]];
    hide Kept; hide EventsOf; hide Changed; hide Announced; hide Effect;
  }

  lemma OwnRowKept(d: Database, op: Op)
    requires Legal(d, op) && Accepts(d, op) && RowKept(d, op.id)
    ensures RowKept(Effect(d, op), op.id)
  {
    var d' := Effect(d, op);
    var log := EventsOf(d.events, op.id);
    if d'.events != d.events { LogGrows(d.events, d'.events[|d.events|], op.id); }
    if op.Create? {
      NewTaskKept(op);
      hide Kept; hide EventsOf;
    } else {
      forall i | !op.Heartbeat? && 0 <= i < |log| ensures log[i].id < op.event { OwnEvents(d.events, op.id, i); }
      ChangeKept(d.rows[op.id].task, log, op);
      hide Kept; hide EventsOf; hide Changed;
    }
  }

  lemma NewTaskKept(op: Op)
    requires op.Create?
    ensures var t := NewTask(op.user, op.key, op.request, op.at); Kept(t, [Event(op.event, op.id, TaskQueued, t.percent, t.step)])
  {
    assert [Event(op.event, op.id, TaskQueued, 0.0, 0)][..0] == [];
  }
}
