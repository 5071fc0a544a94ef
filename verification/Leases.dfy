/**
 Whole histories of the task queue: any interleaving of any workers' and users' transactions,
 with clocks that do not run backwards.
 */
module Leases {
  import opened Basics
  import opened TaskQueue

  /** `d[i]` is the database before the transaction `o[i]`. */
  ghost predicate IsHistory(d: seq<Database>, o: seq<Op>) {
    && |d| == |o| + 1 && d[0] == EMPTY
    && (forall i :: 0 <= i < |o| ==> Legal(d[i], o[i]) && d[i + 1] == After(d[i], o[i]))
    && (forall i, j :: 0 <= i < j < |o| ==> o[i].at <= o[j].at)
  }

  /** Transaction `i` changes the row of task `id`. */
  ghost predicate Hits(d: seq<Database>, o: seq<Op>, i: nat, id: TaskId)
    requires |d| == |o| + 1 && i < |o|
  {
    o[i].id == id && Accepts(d[i], o[i])
  }

  predicate ByWorker(op: Op) { op.Heartbeat? || op.Progress? || op.Conclude? }

  lemma EmptyKept()
    ensures Inv(EMPTY)
  {
  }

  lemma {:induction false} AlwaysKept(d: seq<Database>, o: seq<Op>, n: nat)
    requires IsHistory(d, o) && n < |d|
    ensures Inv(d[n])
  {
    hide Inv; hide Legal; hide After;
    if n == 0 {
      EmptyKept();
    } else {
      AlwaysKept(d, o, n - 1);
      StepKeeps(d[n - 1], o[n - 1]);
    }
  }

  // ---- The log determines the task ----

  /** At any time a task's row can be read off its events, and its columns off its document. */
  lemma LogDetermines(d: seq<Database>, o: seq<Op>, n: nat, id: TaskId)
    requires IsHistory(d, o) && n < |d| && id in d[n].rows
    ensures var t := d[n].rows[id].task;
            var log := EventsOf(d[n].events, id);
            && d[n].rows[id].columns == ColumnsOf(t)
            && LifeOf(t) == Fold(log)
            && t.attempt == (if t.started.Some? then t.recovery + 1 else 0)
            && (t.status.Succeeded? <==> t.percent == 100.0)
            && !t.status.Retrying?
  {
    hide Legal; hide After; hide EventsOf; hide Fold; hide Told;
    AlwaysKept(d, o, n);
    assert RowKept(d[n], id);
  }

  function Conclusions(log: seq<Event>): nat {
    if log == [] then 0 else Conclusions(log[..|log| - 1]) + if Concludes(log[|log| - 1].kind) then 1 else 0
  }

  lemma {:induction false} NoConclusions(log: seq<Event>)
    requires forall i :: 0 <= i < |log| ==> !Concludes(log[i].kind)
    ensures Conclusions(log) == 0
  {
    if log != [] { NoConclusions(log[..|log| - 1]); }
  }

  lemma {:induction false} Concluded(log: seq<Event>, i: nat)
    requires i < |log| && Concludes(log[i].kind)
    ensures Conclusions(log) >= 1
  {
    if i < |log| - 1 { Concluded(log[..|log| - 1], i); }
  }

  /** A task is over exactly when its log has a concluding event; there is only one, and it is
      the last. */
  lemma OneConclusion(d: seq<Database>, o: seq<Op>, n: nat, id: TaskId)
    requires IsHistory(d, o) && n < |d| && id in d[n].rows
    ensures var log := EventsOf(d[n].events, id);
            && Conclusions(log) == (if Terminal(d[n].rows[id].task.status) then 1 else 0)
            && (Terminal(d[n].rows[id].task.status) <==> exists i :: 0 <= i < |log| && Concludes(log[i].kind))
            && (Terminal(d[n].rows[id].task.status) ==> Concludes(log[|log| - 1].kind))
  {
    hide Legal; hide After; hide EventsOf; hide Fold;
    AlwaysKept(d, o, n);
    assert RowKept(d[n], id);
    var log := EventsOf(d[n].events, id);
    NoConclusions(log[..|log| - 1]);
    if i :| 0 <= i < |log| && Concludes(log[i].kind) { Concluded(log, i); }
  }

  lemma ChangeProgresses(t: Task, op: Op)
    requires Admitted(Row(ColumnsOf(t), t), op) && t.percent <= 100.0
    ensures Changed(t, op).percent >= t.percent && Changed(t, op).step >= t.step && Changed(t, op).attempt >= t.attempt
    ensures t.cancel ==> Changed(t, op).cancel
    ensures op.Cancel? ==> Changed(t, op).cancel
  {
  }

  lemma OtherRowStays(d: Database, op: Op, id: TaskId)
    requires Legal(d, op) && id in d.rows && (op.id != id || !Accepts(d, op))
    ensures id in After(d, op).rows && After(d, op).rows[id] == d.rows[id]
  {
  }

  lemma OwnRowChanges(d: Database, op: Op)
    requires Legal(d, op) && op.id in d.rows && Accepts(d, op)
    ensures op.id in After(d, op).rows && After(d, op).rows[op.id].task == Changed(d.rows[op.id].task, op)
  {
    hide Changed; hide Admitted;
  }

  /** A row once there stays, its progress and attempts never decrease, and a cancel request
      is never withdrawn. */
  lemma {:induction false} NothingIsUndone(d: seq<Database>, o: seq<Op>, i: nat, j: nat, id: TaskId)
    requires IsHistory(d, o) && i <= j < |d| && id in d[i].rows
    ensures id in d[j].rows
    ensures var t := d[i].rows[id].task;
            var u := d[j].rows[id].task;
            t.percent <= u.percent && t.step <= u.step && t.attempt <= u.attempt && (t.cancel ==> u.cancel)
    decreases j
  {
    hide Legal; hide After; hide Accepts; hide RowKept;
    if i < j {
      NothingIsUndone(d, o, i, j - 1, id);
      AlwaysKept(d, o, j - 1);
      StepUndoesNothing(d[j - 1], o[j - 1], id);
    }
  }

  lemma StepUndoesNothing(d: Database, op: Op, id: TaskId)
    requires Inv(d) && Legal(d, op) && id in d.rows
    ensures id in After(d, op).rows
    ensures var t := d.rows[id].task;
            var u := After(d, op).rows[id].task;
            t.percent <= u.percent && t.step <= u.step && t.attempt <= u.attempt && (t.cancel ==> u.cancel)
  {
    assert RowKept(d, id);
    if op.id == id && Accepts(d, op) {
      hide Legal; hide After; hide Told; hide Fold; hide EventsOf; hide Inv;
      OwnRowChanges(d, op);
      ChangeProgresses(d.rows[id].task, op);
      hide Changed; hide Admitted;
    } else {
      hide Legal; hide After; hide Kept; hide EventsOf; hide Inv; hide Accepts;
      OtherRowStays(d, op, id);
    }
  }

  // ---- Leases ----

  /** The latest successful claim of `id` before transaction `n`. */
  ghost function LastClaim(d: seq<Database>, o: seq<Op>, id: TaskId, n: nat): Option<nat>
    requires |d| == |o| + 1 && n <= |o|
  {
    if n == 0 then None
    else if Hits(d, o, n - 1, id) && o[n - 1].Claim? then Some(n - 1)
    else LastClaim(d, o, id, n - 1)
  }

  /** When the lease of the latest claim ends, heartbeats included. */
  ghost function LeaseOf(d: seq<Database>, o: seq<Op>, id: TaskId, n: nat): Time
    requires |d| == |o| + 1 && n <= |o|
  {
    if n == 0 then 0.0
    else if Hits(d, o, n - 1, id) && (o[n - 1].Claim? || o[n - 1].Heartbeat?)
      then o[n - 1].now + if o[n - 1].seconds >= 1.0 then o[n - 1].seconds else 1.0
    else LeaseOf(d, o, id, n - 1)
  }

  lemma {:induction false} LastClaimIs(d: seq<Database>, o: seq<Op>, id: TaskId, n: nat)
    requires |d| == |o| + 1 && n <= |o|
    ensures var c := LastClaim(d, o, id, n);
            && (c.Some? ==> c.value < n && Hits(d, o, c.value, id) && o[c.value].Claim?)
            && (forall i :: 0 <= i < n && Hits(d, o, i, id) && o[i].Claim? ==> c.Some? && i <= c.value)
  {
    hide Accepts;
    if n > 0 { LastClaimIs(d, o, id, n - 1); }
  }

  /** A task once claimed never queues again, and while it runs its row names the latest
      claimant and the end of that lease. */
  ghost predicate Owned(d: seq<Database>, o: seq<Op>, id: TaskId, n: nat)
    requires |d| == |o| + 1 && n <= |o|
  {
    && (LastClaim(d, o, id, n).Some? ==> id in d[n].rows && !d[n].rows[id].task.status.Queued?)
    && (id in d[n].rows && d[n].rows[id].task.status == Running ==>
      var c := LastClaim(d, o, id, n);
      && c.Some? && c.value < n && o[c.value].Claim?
      && d[n].rows[id].task.worker == Some(o[c.value].worker)
      && d[n].rows[id].task.lease == Some(LeaseOf(d, o, id, n)))
  }

  lemma StepOwned(d: seq<Database>, o: seq<Op>, id: TaskId, n: nat)
    requires IsHistory(d, o) && n < |o| && Owned(d, o, id, n)
    ensures Owned(d, o, id, n + 1)
  {
    assert Legal(d[n], o[n]) && d[n + 1] == After(d[n], o[n]);
    if Hits(d, o, n, id) {
      if id in d[n].rows {
        hide Legal; hide After;
        OwnRowChanges(d[n], o[n]);
      } else {
        hide Legal;
      }
    } else if id in d[n].rows {
      OtherRowStays(d[n], o[n], id);
      hide Legal; hide After; hide Accepts;
    } else {
      hide Legal;
    }
  }

  lemma NothingOwned(d: seq<Database>, o: seq<Op>, id: TaskId)
    requires IsHistory(d, o)
    ensures Owned(d, o, id, 0)
  {
    hide Legal; hide After;
  }

  lemma {:induction false} AlwaysOwned(d: seq<Database>, o: seq<Op>, id: TaskId, n: nat)
    requires IsHistory(d, o) && n <= |o|
    ensures Owned(d, o, id, n)
  {
    hide Owned; hide Legal; hide After;
    if n == 0 {
      NothingOwned(d, o, id);
    } else {
      AlwaysOwned(d, o, id, n - 1);
      StepOwned(d, o, id, n - 1);
    }
  }

  /** Lease fencing: whatever a worker manages to change, it changes as the latest claimant
      and strictly before the end of its lease. */
  lemma Fencing(d: seq<Database>, o: seq<Op>, id: TaskId, i: nat)
    requires IsHistory(d, o) && i < |o| && Hits(d, o, i, id) && ByWorker(o[i])
    ensures var c := LastClaim(d, o, id, i);
            && c.Some? && c.value < i && Hits(d, o, c.value, id) && o[c.value].Claim?
            && o[c.value].worker == o[i].worker
    ensures o[i].at < LeaseOf(d, o, id, i)
  {
    AlwaysOwned(d, o, id, i);
    LastClaimIs(d, o, id, i);
    hide IsHistory; hide LastClaim; hide LeaseOf;
  }

  /** A task already claimed is claimed again only when the earlier lease is over: the
      ownership intervals of successive claims are disjoint. */
  lemma TakeoverAfterLease(d: seq<Database>, o: seq<Op>, id: TaskId, j: nat)
    requires IsHistory(d, o) && j < |o| && Hits(d, o, j, id) && o[j].Claim?
    requires LastClaim(d, o, id, j).Some?
    ensures LeaseOf(d, o, id, j) < o[j].now <= o[j].at
    ensures d[j].rows[id].task.attempt >= 1
  {
    AlwaysOwned(d, o, id, j);
    AlwaysKept(d, o, j);
    assert RowKept(d[j], id) && Legal(d[j], o[j]);
    hide IsHistory; hide LastClaim; hide LeaseOf; hide EventsOf; hide Told; hide Fold; hide Inv;
  }

  // ---- How long a lease lasts ----

  /** After a claim or a heartbeat the lease is the worker's alone, and it lasts for the seconds
      asked for, at least one, from the time read before the transaction. */
  lemma LeaseLasts(d: Database, op: Op)
    requires Inv(d) && Legal(d, op) && (op.Claim? || op.Heartbeat?) && op.id in d.rows && Accepts(d, op)
    ensures op.id in After(d, op).rows
    ensures forall w, at ::
              HoldsLease(After(d, op).rows[op.id].task, w, at)
              <==> w == op.worker && at < op.now + if op.seconds >= 1.0 then op.seconds else 1.0
  {
    assert RowKept(d, op.id);
    OwnRowChanges(d, op);
    hide Legal; hide After; hide Inv; hide RowKept;
  }

  /** The claim or heartbeat by which the lease stands before transaction `n`: it hit the task,
      and no later one, nor a conclusion, did. */
  ghost predicate Renews(d: seq<Database>, o: seq<Op>, id: TaskId, i: nat, n: nat)
    requires |d| == |o| + 1
  {
    && i < n <= |o| && Hits(d, o, i, id) && (o[i].Claim? || o[i].Heartbeat?)
    && forall k :: i < k < n && Hits(d, o, k, id) ==> o[k].Progress? || o[k].Cancel?
  }

  lemma {:induction false} LeaseStands(d: seq<Database>, o: seq<Op>, id: TaskId, i: nat, n: nat)
    requires IsHistory(d, o) && Renews(d, o, id, i, n)
    ensures id in d[n].rows
    ensures var t := d[n].rows[id].task;
            && t.status.Running? && t.worker == Some(o[i].worker)
            && t.lease == Some(o[i].now + if o[i].seconds >= 1.0 then o[i].seconds else 1.0)
    decreases n
  {
    hide Legal; hide After; hide Inv; hide Accepts; hide Changed;
    assert Legal(d[n - 1], o[n - 1]) && d[n] == After(d[n - 1], o[n - 1]);
    if i == n - 1 {
      AlwaysKept(d, o, i);
      RenewedNow(d[i], o[i]);
    } else {
      LeaseStands(d, o, id, i, n - 1);
      LeftAlone(d[n - 1], o[n - 1], id);
    }
  }

  lemma RenewedNow(d: Database, op: Op)
    requires Inv(d) && Legal(d, op) && (op.Claim? || op.Heartbeat?) && Accepts(d, op)
    ensures op.id in After(d, op).rows
    ensures var t := After(d, op).rows[op.id].task;
            && t.status.Running? && t.worker == Some(op.worker)
            && t.lease == Some(op.now + if op.seconds >= 1.0 then op.seconds else 1.0)
  {
    assert RowKept(d, op.id);
    OwnRowChanges(d, op);
    hide Legal; hide After; hide Inv; hide RowKept;
  }

  /** Progress, a cancel request and other tasks' transactions leave a running task's lease. */
  lemma LeftAlone(d: Database, op: Op, id: TaskId)
    requires Legal(d, op) && id in d.rows && d.rows[id].task.status.Running?
    requires op.id == id && Accepts(d, op) ==> op.Progress? || op.Cancel?
    ensures id in After(d, op).rows
    ensures var t, u := d.rows[id].task, After(d, op).rows[id].task;
            u.status == t.status && u.worker == t.worker && u.lease == t.lease
  {
    hide Legal; hide After;
    if op.id == id && Accepts(d, op) { OwnRowChanges(d, op); } else { OtherRowStays(d, op, id); }
  }

  /** The task can be claimed again exactly when the lease is over and nobody asked to cancel; and
      before that the worker, and only the worker, is heard: heartbeats, progress and conclusions
      are accepted exactly then. */
  lemma HolderIsHeard(d: seq<Database>, o: seq<Op>, id: TaskId, i: nat, n: nat)
    requires IsHistory(d, o) && Renews(d, o, id, i, n) && n < |o| && o[n].id == id
    ensures var until := o[i].now + if o[i].seconds >= 1.0 then o[i].seconds else 1.0;
            && id in d[n].rows && (o[n].Claim? ==> (Accepts(d[n], o[n]) <==> !d[n].rows[id].task.cancel && until < o[n].now))
            && (o[n].Heartbeat? || o[n].Progress? || o[n].Conclude? ==>
                  (Accepts(d[n], o[n]) <==> o[n].worker == o[i].worker && o[n].at < until))
  {
    LeaseStands(d, o, id, i, n);
    AlwaysKept(d, o, n);
    assert RowKept(d[n], id);
    hide IsHistory; hide Inv; hide Legal; hide Renews; hide EventsOf; hide Kept;
  }

  /** Who can be claimed: a queued task nobody asked to cancel, and a running one nobody asked to
      cancel whose lease, as renewed last, is over. */
  lemma ClaimableIff(d: seq<Database>, o: seq<Op>, id: TaskId, n: nat, now: Time)
    requires IsHistory(d, o) && n <= |o| && id in d[n].rows
    ensures var t := d[n].rows[id].task;
            Eligible(d[n].rows[id].columns, now)
            <==> !t.cancel && (t.status.Queued? || (t.status.Running? && LeaseOf(d, o, id, n) < now))
  {
    AlwaysKept(d, o, n);
    AlwaysOwned(d, o, id, n);
    assert RowKept(d[n], id);
    hide IsHistory; hide Inv; hide LeaseOf; hide LastClaim; hide EventsOf; hide Told; hide Fold;
  }

  /** Two changes by workers with no claim in between were made by the same worker. */
  lemma OneOwnerAtATime(d: seq<Database>, o: seq<Op>, id: TaskId, i: nat, j: nat)
    requires IsHistory(d, o) && i < j < |o|
    requires Hits(d, o, i, id) && ByWorker(o[i]) && Hits(d, o, j, id) && ByWorker(o[j])
    requires forall k :: i < k < j && Hits(d, o, k, id) ==> !o[k].Claim?
    ensures o[i].worker == o[j].worker
  {
    Fencing(d, o, id, i);
    Fencing(d, o, id, j);
    LastClaimIs(d, o, id, i);
    LastClaimIs(d, o, id, j);
    hide IsHistory; hide LastClaim; hide LeaseOf; hide Accepts;
  }

  /** Once a cancellation is requested, the task is never claimed again. */
  lemma NoClaimAfterCancel(d: seq<Database>, o: seq<Op>, id: TaskId, i: nat, j: nat)
    requires IsHistory(d, o) && i < j < |o| && Hits(d, o, i, id) && o[i].Cancel?
    ensures !(Hits(d, o, j, id) && o[j].Claim?)
  {
    assert Legal(d[i], o[i]) && d[i + 1] == After(d[i], o[i]);
    OwnRowChanges(d[i], o[i]);
    ChangeProgressesFlag(d[i].rows[id].task, o[i]);
    NothingIsUndone(d, o, i + 1, j, id);
    AlwaysKept(d, o, j);
    assert RowKept(d[j], id);
    hide Kept; hide EventsOf; hide Inv;
    hide IsHistory; hide After; hide Legal; hide Changed;
  }

  lemma ChangeProgressesFlag(t: Task, op: Op)
    requires op.Cancel?
    ensures Changed(t, op).cancel
  {
  }

  /** A task that is over is never changed again. */
  lemma {:induction false} OverIsOver(d: seq<Database>, o: seq<Op>, i: nat, j: nat, id: TaskId)
    requires IsHistory(d, o) && i <= j < |d| && id in d[i].rows && Terminal(d[i].rows[id].task.status)
    ensures id in d[j].rows && d[j].rows[id] == d[i].rows[id]
    decreases j
  {
    hide After; hide Legal;
    if i < j {
      OverIsOver(d, o, i, j - 1, id);
      AlwaysKept(d, o, j - 1);
      assert RowKept(d[j - 1], id);
      hide Kept; hide EventsOf; hide Inv;
      OtherRowStays(d[j - 1], o[j - 1], id);
    }
  }
}
