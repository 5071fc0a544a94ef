/**
 The task store itself: every method is one transaction on the two tables and is proved to be
 the step of `TaskQueue` that specifies it.
 */
module TaskStore {
  import opened Basics
  import opened TaskQueue

  /** TripTaskNotFoundError, TaskLeaseLostError, a task over already, or the saved task. */
  datatype Reply = NotFound | LeaseLost | Over(task: Task) | Saved(task: Task)

  /** What the callers may rely on, in the task's own fields: the worker's lease has not ended, the
      task waits to be claimed, it is over. */
  predicate Held(t: Task, worker: Worker, at: Time) {
    t.status.Running? && t.worker == Some(worker) && t.lease.Some? && at < t.lease.value
  }

  predicate Claimable(t: Task, now: Time) {
    !t.cancel && (t.status.Queued? || t.status.Retrying? || (t.status.Running? && t.lease.Some? && t.lease.value < now))
  }

  predicate Ended(s: Status) { s.Succeeded? || s.Failed? || s.Cancelled? || s.TimedOut? }

  /** The task runs for this worker, its lease ends after the seconds asked for, at least one, and
      a task that was running is recovered. */
  predicate Takes(d: Database, id: TaskId, worker: Worker, now: Time, seconds: real, event: nat, d': Database)
    requires id in d.rows
  {
    var t := d.rows[id].task;
    var again := t.status.Running?;
    var u := t.(status := Running, worker := Some(worker), heartbeat := Some(now),
                lease := Some(now + if seconds >= 1.0 then seconds else 1.0),
                started := if t.started.Some? then t.started else Some(now),
                attempt := t.attempt + 1, recovery := if again then t.recovery + 1 else t.recovery,
                percent := if t.percent >= 1.0 then t.percent else 1.0);
    && d'.rows == d.rows[id := Row(ColumnsOf(u), u)]
    && d'.events == d.events + [Event(event, id, if again then TaskRecovered else TaskStarted, u.percent, u.step)]
  }

  class TripTaskStore {
    var rows: map<TaskId, Row>
    var events: seq<Event>

    function Data(): Database
      reads this
    {
      Database(rows, events)
    }

    constructor ()
      ensures Valid() && Data() == EMPTY
    {
      rows, events := map[], [];
    }

    /** Every row agrees with its columns and with its log. */
    ghost predicate Valid()
      reads this
    {
      Inv(Data())
    }

    /** `_save_task` rewrites the document and the columns that can change. */
    method SaveTask(id: TaskId, t: Task)
      requires id in rows && rows[id].columns == ColumnsOf(rows[id].task)
      requires t.user == rows[id].task.user && t.key == rows[id].task.key
      requires t.request == rows[id].task.request && t.created == rows[id].task.created
      modifies this`rows
      ensures rows == old(rows)[id := Row(ColumnsOf(t), t)]
    {
      var columns := rows[id].columns.(
        status := t.status, cancel := t.cancel, worker := t.worker, lease := t.lease, heartbeat := t.heartbeat);
      rows := rows[id := Row(columns, t)];
    }

    method InsertEvent(id: TaskId, event: nat, kind: Kind, t: Task)
      modifies this`events
      ensures events == old(events) + [Event(event, id, kind, t.percent, t.step)]
    {
      events := events + [Event(event, id, kind, t.percent, t.step)];
    }

    /** The insertion at the end of `create_task`. */
    method InsertTask(id: TaskId, user: Option<string>, key: string, request: string, at: Time, event: nat)
      requires Valid()
      requires id !in rows && Unused(events, id, event)
      modifies this
      ensures Valid()
      ensures Data() == After(old(Data()), Create(id, user, key, request, at, event))
      ensures var t := Task(user, key, request, Queued, false, 0.0, 0, 0, 0, 0, None, None, None, at, None, None);
              rows == old(rows)[id := Row(ColumnsOf(t), t)] && events == old(events) + [Event(event, id, TaskQueued, 0.0, 0)]
    {
      hide Inv; hide Kept; hide EventsOf;
      StepKeeps(Data(), Create(id, user, key, request, at, event));
      var t := NewTask(user, key, request, at);
      rows := rows[id := Row(ColumnsOf(t), t)];
      InsertEvent(id, event, TaskQueued, t);
    }

    method RecordProgress(id: TaskId, worker: Worker, at: Time, kind: Kind, percent: real, step: int, maxSteps: int, event: nat)
      returns (r: Reply)
      requires Valid()
      requires OfAction(kind) && Unused(events, id, event)
      modifies this
      ensures Valid()
      ensures Data() == After(old(Data()), Progress(id, worker, at, kind, percent, step, maxSteps, event))
      ensures r.NotFound? <==> id !in old(rows)
      ensures r.Saved? <==> id in old(rows) && Held(old(rows)[id].task, worker, at)
      ensures !r.Over? && (!r.Saved? ==> Data() == old(Data()))
      ensures r.Saved? ==>
                var t := old(rows)[id].task;
                var reached := if percent >= 99.0 then 99.0 else percent;
                && r.task == t.(percent := if reached >= t.percent then reached else t.percent,
                                step := if step >= t.step then step else t.step,
                                maxSteps := if maxSteps >= t.maxSteps then maxSteps else t.maxSteps)
                && rows == old(rows)[id := Row(ColumnsOf(r.task), r.task)]
                && events == old(events) + [Event(event, id, kind, r.task.percent, r.task.step)]
    {
      hide Inv; hide Kept; hide EventsOf;
      StepKeeps(Data(), Progress(id, worker, at, kind, percent, step, maxSteps, event));
      InvRow(Data(), id);
      if id !in rows { return NotFound; }
      var t := rows[id].task;
      if !(t.status.Running? && t.worker == Some(worker) && t.lease.Some? && t.lease.value > at) { return LeaseLost; }
      var capped := if percent < 99.0 then percent else 99.0;
      if capped > t.percent { t := t.(percent := capped); }
      if step > t.step { t := t.(step := step); }
      if maxSteps > t.maxSteps { t := t.(maxSteps := maxSteps); }
      SaveTask(id, t);
      InsertEvent(id, event, kind, t);
      return Saved(t);
    }

    /** SELECT ... ORDER BY created_at LIMIT 1 FOR UPDATE SKIP LOCKED. */
    method SelectClaimable(now: Time, locked: set<TaskId>) returns (found: Option<TaskId>)
      ensures found.None? ==> forall id :: id in rows && id !in locked ==> !Eligible(rows[id].columns, now)
      ensures found.Some? ==>
                && found.value in rows && found.value !in locked && Eligible(rows[found.value].columns, now)
                && forall id :: id in rows && id !in locked && Eligible(rows[id].columns, now) ==>
                     rows[found.value].columns.created <= rows[id].columns.created
    {
      var matching := set id | id in rows && id !in locked && Eligible(rows[id].columns, now);
      if matching == {} {
        assert forall id :: id in rows && id !in locked && Eligible(rows[id].columns, now) ==> id in matching;
        return None;
      }
      EarliestExists(rows, matching);
      var first :| first in matching && forall id :: id in matching ==> rows[first].columns.created <= rows[id].columns.created;
      return Some(first);
    }

    method ClaimNext(worker: Worker, now: Time, at: Time, seconds: real, locked: set<TaskId>, event: nat)
      returns (claimed: Option<TaskId>)
      requires Valid()
      requires now <= at && forall id :: Unused(events, id, event)
      modifies this
      ensures Valid()
      ensures claimed.None? ==>
                Data() == old(Data()) && forall id :: id in rows && id !in locked ==> !Claimable(rows[id].task, now)
      ensures claimed.Some? ==>
                var id := claimed.value;
                && id in old(rows) && id !in locked && Claimable(old(rows)[id].task, now)
                && (forall i :: i in old(rows) && i !in locked && Claimable(old(rows)[i].task, now) ==>
                      old(rows)[id].task.created <= old(rows)[i].task.created)
                && Takes(old(Data()), id, worker, now, seconds, event, Data())
      ensures claimed.Some? ==>
                var op := Claim(claimed.value, worker, now, at, seconds, locked, event);
                Legal(old(Data()), op) && Accepts(old(Data()), op) && Data() == After(old(Data()), op)
    {
      hide Inv; hide Kept; hide EventsOf;
      var found := SelectClaimable(now, locked);
      ColumnsTell(Data(), now);
      if found.None? { return None; }
      var id := found.value;
      ghost var op := Claim(id, worker, now, at, seconds, locked, event);
      assert Unused(events, id, event);
      StepKeeps(Data(), op);
      TakeTask(id, worker, now, seconds, event);
      ClaimIsStep(old(Data()), op, Data());
      return Some(id);
    }

    /** The selected row becomes the worker's. */
    method TakeTask(id: TaskId, worker: Worker, now: Time, seconds: real, event: nat)
      requires id in rows && rows[id].columns == ColumnsOf(rows[id].task)
      modifies this
      ensures Takes(old(Data()), id, worker, now, seconds, event, Data())
    {
      var t := rows[id].task;
      var recovering := t.status.Running?;
      t := t.(status := Running, worker := Some(worker), heartbeat := Some(now));
      t := t.(lease := Some(now + if seconds > 1.0 then seconds else 1.0));
      if t.started.None? { t := t.(started := Some(now)); }
      t := t.(attempt := t.attempt + 1);
      var kind := TaskStarted;
      if recovering {
        t := t.(recovery := t.recovery + 1);
        kind := TaskRecovered;
      }
      if t.percent < 1.0 { t := t.(percent := 1.0); }
      SaveTask(id, t);
      InsertEvent(id, event, kind, t);
    }

    method Beat(id: TaskId, worker: Worker, now: Time, at: Time, seconds: real) returns (ok: bool)
      requires Valid()
      requires now <= at
      modifies this
      ensures Valid()
      ensures Data() == After(old(Data()), Heartbeat(id, worker, now, at, seconds))
      ensures ok <==> id in old(rows) && Held(old(rows)[id].task, worker, at)
      ensures events == old(events) && (!ok ==> rows == old(rows))
      ensures ok ==>
                var t := old(rows)[id].task.(heartbeat := Some(now), lease := Some(now + if seconds >= 1.0 then seconds else 1.0));
                rows == old(rows)[id := Row(ColumnsOf(t), t)]
    {
      hide Inv; hide Kept; hide EventsOf;
      StepKeeps(Data(), Heartbeat(id, worker, now, at, seconds));
      InvRow(Data(), id);
      if id !in rows { return false; }
      var t := rows[id].task;
      if !(t.status.Running? && t.worker == Some(worker) && t.lease.Some? && t.lease.value > at) { return false; }
      t := t.(heartbeat := Some(now), lease := Some(now + if seconds > 1.0 then seconds else 1.0));
      SaveTask(id, t);
      return true;
    }

    method RequestCancel(id: TaskId, asker: Option<string>, at: Time, event: nat) returns (r: Reply)
      requires Valid()
      requires Unused(events, id, event)
      modifies this
      ensures Valid()
      ensures Data() == After(old(Data()), Cancel(id, asker, at, event))
      ensures r.NotFound? <==> id !in old(rows) || (asker.Some? && old(rows)[id].columns.user != asker)
      ensures !r.LeaseLost? && (!r.Saved? ==> Data() == old(Data()))
      ensures r.Over? || r.Saved? ==> (r.Over? <==> Ended(old(rows)[id].task.status))
      ensures r.Over? ==> r.task == old(rows)[id].task
      ensures r.Saved? ==>
                var t := old(rows)[id].task;
                var waits := t.status.Queued? || t.status.Retrying?;
                && r.task == (if waits then t.(cancel := true, status := Cancelled, finished := Some(at),
                                               worker := None, lease := None, heartbeat := None)
                              else t.(cancel := true))
                && rows == old(rows)[id := Row(ColumnsOf(r.task), r.task)]
                && events == old(events) + [Event(event, id, if waits then TaskCancelled else CancellationRequested,
                                                  t.percent, t.step)]
    {
      hide Inv; hide Kept; hide EventsOf;
      StepKeeps(Data(), Cancel(id, asker, at, event));
      InvRow(Data(), id);
      if id !in rows || (asker.Some? && rows[id].columns.user != asker) { return NotFound; }
      var t := rows[id].task;
      if t.status.Succeeded? || t.status.Failed? || t.status.Cancelled? || t.status.TimedOut? { return Over(t); }
      t := t.(cancel := true);
      var kind := CancellationRequested;
      if t.status.Queued? || t.status.Retrying? {
        t := t.(status := Cancelled, finished := Some(at));
        t := t.(worker := None, lease := None, heartbeat := None);
        kind := TaskCancelled;
      }
      SaveTask(id, t);
      InsertEvent(id, event, kind, t);
      return Saved(t);
    }

    /** `_mark_terminal`, with the event kinds of mark_succeeded, mark_cancelled, mark_failed. */
    method MarkTerminal(id: TaskId, worker: Worker, at: Time, outcome: Status, event: nat) returns (r: Reply)
      requires Valid()
      requires Terminal(outcome) && Unused(events, id, event)
      modifies this
      ensures Valid()
      ensures Data() == After(old(Data()), Conclude(id, worker, at, outcome, event))
      ensures r.NotFound? <==> id !in old(rows)
      ensures r.Over? <==> id in old(rows) && Ended(old(rows)[id].task.status)
      ensures r.Over? ==> r.task == old(rows)[id].task
      ensures r.Saved? <==> id in old(rows) && Held(old(rows)[id].task, worker, at)
      ensures !r.Saved? ==> Data() == old(Data())
      ensures r.Saved? ==>
                var t := old(rows)[id].task;
                && r.task == t.(status := outcome, percent := if outcome.Succeeded? then 100.0 else t.percent,
                                finished := Some(at), worker := None, lease := None, heartbeat := None)
                && rows == old(rows)[id := Row(ColumnsOf(r.task), r.task)]
                && events == old(events) + [Event(event, id, if outcome.Succeeded? then TaskSucceeded
                                                             else if outcome.Failed? then TaskFailed
                                                             else if outcome.Cancelled? then TaskCancelled
                                                             else TaskTimedOut, r.task.percent, r.task.step)]
    {
      hide Inv; hide Kept; hide EventsOf;
      StepKeeps(Data(), Conclude(id, worker, at, outcome, event));
      InvRow(Data(), id);
      if id !in rows { return NotFound; }
      var t := rows[id].task;
      if t.status.Succeeded? || t.status.Failed? || t.status.Cancelled? || t.status.TimedOut? { return Over(t); }
      if !(t.status.Running? && t.worker == Some(worker) && t.lease.Some? && t.lease.value > at) { return LeaseLost; }
      t := t.(status := outcome);
      if outcome.Succeeded? { t := t.(percent := 100.0); }
      t := t.(finished := Some(at), worker := None, lease := None, heartbeat := None);
      SaveTask(id, t);
      InsertEvent(id, event, ConcludingKind(outcome), t);
      return Saved(t);
    }
  }

  /** In a sound table the columns tell who is waiting. */
  lemma ColumnsTell(d: Database, now: Time)
    requires Inv(d)
    ensures forall id :: id in d.rows ==> d.rows[id].columns == ColumnsOf(d.rows[id].task)
    ensures forall id :: id in d.rows ==> (Eligible(d.rows[id].columns, now) <==> Claimable(d.rows[id].task, now))
  {
    hide Kept; hide EventsOf;
    forall id | id in d.rows
      ensures d.rows[id].columns == ColumnsOf(d.rows[id].task)
      ensures Eligible(d.rows[id].columns, now) <==> Claimable(d.rows[id].task, now)
    {
      assert RowKept(d, id);
    }
  }

  /** The claimed row written out is the step of the queue. */
  lemma ClaimIsStep(d: Database, op: Op, d': Database)
    requires op.Claim? && Legal(d, op) && Accepts(d, op)
    requires Takes(d, op.id, op.worker, op.now, op.seconds, op.event, d')
    ensures d' == After(d, op)
  {
    hide Legal; hide Accepts;
  }

  lemma InvRow(d: Database, id: TaskId)
    requires Inv(d)
    ensures id in d.rows ==> d.rows[id].columns == ColumnsOf(d.rows[id].task)
  {
    assert RowKept(d, id);
  }

  lemma {:induction false} EarliestExists(rows: map<TaskId, Row>, ids: set<TaskId>)
    requires ids != {} && forall id :: id in ids ==> id in rows
    ensures exists first :: first in ids && forall id :: id in ids ==> rows[first].columns.created <= rows[id].columns.created
    decreases |ids|
  {
    var some :| some in ids;
    if ids == {some} {
      assert some in ids && forall id :: id in ids ==> rows[some].columns.created <= rows[id].columns.created;
    } else {
      var rest := ids - {some};
      EarliestExists(rows, rest);
      var first :| first in rest && forall id :: id in rest ==> rows[first].columns.created <= rows[id].columns.created;
      var best := if rows[first].columns.created <= rows[some].columns.created then first else some;
      assert best in ids;
      forall id | id in ids ensures rows[best].columns.created <= rows[id].columns.created {
        if id != some { assert id in rest; }
      }
    }
  }
}
