/**
 The per-tool circuit breaker of app/agent_runtime/execution_policy.py. Its lock makes every
 call one step; callers interleave freely, so a result may be recorded long after its call
 was admitted and in any state.
 */
module Breaker {
  import opened Basics

  type Time = real

  datatype Mode = Closed | Open | HalfOpen

  datatype Entry = Entry(mode: Mode, failures: nat, openedAt: Option<Time>, probing: bool)

  const NEW := Entry(Closed, 0, None, false)

  /** A recorded result: a success, a failure the breaker tracks, or one it does not. */
  datatype Outcome = Success | Tracked | Untracked

  datatype Limits = Limits(threshold: nat, recovery: Time)

  predicate Proper(l: Limits) { l.threshold >= 1 && l.recovery >= 0.0 }

  datatype Permit = Permit(allowed: bool, mode: Mode, wait: Time)

  function Remaining(l: Limits, e: Entry, now: Time): Time {
    var elapsed := if e.openedAt.Some? then now - e.openedAt.value else 0.0;
    if l.recovery - elapsed > 0.0 then l.recovery - elapsed else 0.0
  }

  /** `before_call` */
  function Asked(l: Limits, e: Entry, now: Time): (Entry, Permit) {
    match e.mode
    case Closed => (e, Permit(true, Closed, 0.0))
    case Open =>
      if Remaining(l, e, now) > 0.0 then (e, Permit(false, Open, Remaining(l, e, now)))
      else (e.(mode := HalfOpen, probing := true), Permit(true, HalfOpen, 0.0))
    case HalfOpen =>
      if e.probing then (e, Permit(false, HalfOpen, l.recovery)) else (e.(probing := true), Permit(true, HalfOpen, 0.0))
  }

  function Opened(e: Entry, now: Time): Entry { Entry(Open, e.failures, Some(now), false) }

  /** `record_result` */
  function Recorded(l: Limits, e: Entry, x: Outcome, now: Time): Entry {
    match x
    case Success => NEW
    case Tracked =>
      if e.mode.HalfOpen? then Opened(e, now)
      else
        var f := e.(failures := e.failures + 1);
        if f.failures >= l.threshold then Opened(f, now) else f
    case Untracked => if e.mode.HalfOpen? then NEW else e
  }

  // ---- The object ----

  class CircuitBreaker {
    const limits: Limits
    var entries: map<string, Entry>

    /** Entries come into being when a tool is first mentioned. */
    function EntryOf(tool: string): Entry
      reads this
    {
      if tool in entries then entries[tool] else NEW
    }

    constructor (limits: Limits)
      requires Proper(limits)
      ensures this.limits == limits && entries == map[]
    {
      this.limits := limits;
      entries := map[];
    }

    method BeforeCall(tool: string, now: Time) returns (permit: Permit)
      modifies this
      ensures EntryOf(tool) == Asked(limits, old(EntryOf(tool)), now).0 && permit == Asked(limits, old(EntryOf(tool)), now).1
      ensures forall other :: other != tool ==> EntryOf(other) == old(EntryOf(other))
    {
      if tool !in entries { entries := entries[tool := NEW]; }
      var e := entries[tool];
      if e.mode.Closed? { return Permit(true, Closed, 0.0); }
      if e.mode.Open? {
        var elapsed := now - if e.openedAt.Some? then e.openedAt.value else now;
        var remaining := MaxTime(0.0, limits.recovery - elapsed);
        if remaining > 0.0 { return Permit(false, Open, remaining); }
        e := e.(mode := HalfOpen, probing := false);
      }
      if e.probing {
        entries := entries[tool := e];
        return Permit(false, HalfOpen, limits.recovery);
      }
      entries := entries[tool := e.(probing := true)];
      return Permit(true, HalfOpen, 0.0);
    }

    method RecordResult(tool: string, x: Outcome, now: Time) returns (mode: Mode)
      modifies this
      ensures EntryOf(tool) == Recorded(limits, old(EntryOf(tool)), x, now) && mode == EntryOf(tool).mode
      ensures forall other :: other != tool ==> EntryOf(other) == old(EntryOf(other))
    {
      var e := if tool in entries then entries[tool] else NEW;
      if x.Success? {
        e := Entry(Closed, 0, None, false);
      } else if e.mode.HalfOpen? {
        e := if x.Tracked? then Entry(Open, e.failures, Some(now), false) else Entry(Closed, 0, None, false);
      } else if x.Tracked? {
        e := e.(failures := e.failures + 1);
        if e.failures >= limits.threshold { e := Entry(Open, e.failures, Some(now), false); }
      }
      entries := entries[tool := e];
      return e.mode;
    }

    method Reset(tool: Option<string>)
      modifies this
      ensures forall t :: EntryOf(t) == if tool.None? || tool.value == t then NEW else old(EntryOf(t))
    {
      if tool.None? {
        entries := map[];
      } else {
        entries := entries - {tool.value};
      }
    }
  }

  function MaxTime(a: Time, b: Time): Time { if a >= b then a else b }

  // ---- Traces of one tool ----

  datatype Op = Ask(now: Time) | Record(outcome: Outcome, now: Time) | Forget(now: Time)

  function Applied(l: Limits, e: Entry, op: Op): Entry {
    match op
    case Ask(now) => Asked(l, e, now).0
    case Record(x, now) => Recorded(l, e, x, now)
    case Forget(_) => NEW
  }

  /** Any interleaving of any callers, with a clock that does not run backwards. */
  ghost predicate IsTrace(l: Limits, e: seq<Entry>, o: seq<Op>) {
    && Proper(l) && |e| == |o| + 1 && e[0] == NEW
    && (forall i :: 0 <= i < |o| ==> e[i + 1] == Applied(l, e[i], o[i]))
    && (forall i, j :: 0 <= i <= j < |o| ==> o[i].now <= o[j].now)
  }

  /** The breaker is closed exactly below the threshold, half-open exactly while a probe is in
      flight, and knows since when unless it is closed. */
  predicate Sound(l: Limits, e: Entry) {
    && (e.mode.Closed? <==> e.failures < l.threshold)
    && (e.mode.HalfOpen? <==> e.probing)
    && (e.mode.Closed? <==> e.openedAt.None?)
  }

  lemma AppliedSound(l: Limits, e: Entry, op: Op)
    requires Proper(l) && Sound(l, e)
    ensures Sound(l, Applied(l, e, op))
  {
  }

  lemma {:induction false} AlwaysSound(l: Limits, e: seq<Entry>, o: seq<Op>, n: nat)
    requires IsTrace(l, e, o) && n < |e|
    ensures Sound(l, e[n])
  {
    if n > 0 {
      AlwaysSound(l, e, o, n - 1);
      AppliedSound(l, e[n - 1], o[n - 1]);
    }
  }

  predicate Admits(l: Limits, e: Entry, op: Op) { op.Ask? && Asked(l, e, op.now).1.allowed }

  /** When the breaker was last opened. */
  ghost function LastOpening(l: Limits, e: seq<Entry>, o: seq<Op>, n: nat): Option<Time>
    requires |e| == |o| + 1 && n <= |o|
  {
    if n == 0 then None
    else if o[n - 1].Record? && o[n - 1].outcome.Tracked? && e[n].mode.Open? then Some(o[n - 1].now)
    else LastOpening(l, e, o, n - 1)
  }

  lemma {:induction false} OpenedThen(l: Limits, e: seq<Entry>, o: seq<Op>, n: nat)
    requires IsTrace(l, e, o) && n <= |o| && !e[n].mode.Closed?
    ensures LastOpening(l, e, o, n).Some? && e[n].openedAt == LastOpening(l, e, o, n)
  {
    if n > 0 {
      AlwaysSound(l, e, o, n - 1);
      if !e[n - 1].mode.Closed? { OpenedThen(l, e, o, n - 1); }
    }
  }

  /** Exactly which calls are admitted: all while closed; otherwise the first one after the
      recovery time has passed since the last opening, and no other. */
  lemma AdmittedIff(l: Limits, e: seq<Entry>, o: seq<Op>, i: nat)
    requires IsTrace(l, e, o) && i < |o| && o[i].Ask?
    ensures Admits(l, e[i], o[i]) <==>
              || e[i].mode.Closed?
              || (e[i].mode.Open? && LastOpening(l, e, o, i).Some? && o[i].now >= LastOpening(l, e, o, i).value + l.recovery)
  {
    AlwaysSound(l, e, o, i);
    if !e[i].mode.Closed? { OpenedThen(l, e, o, i); }
  }

  /** What a caller is told: nothing to wait for when admitted; while open, the time left of the
      recovery since the last opening; while a probe is in flight, the whole recovery time. */
  lemma WaitIs(l: Limits, e: seq<Entry>, o: seq<Op>, i: nat)
    requires IsTrace(l, e, o) && i < |o| && o[i].Ask?
    ensures var permit := Asked(l, e[i], o[i].now).1;
            && (permit.allowed <==> Admits(l, e[i], o[i])) && permit.mode == e[i + 1].mode
            && (permit.allowed ==> permit.wait == 0.0)
            && (!permit.allowed && e[i].mode.Open? ==>
                  LastOpening(l, e, o, i).Some? && permit.wait == LastOpening(l, e, o, i).value + l.recovery - o[i].now > 0.0)
            && (!permit.allowed && e[i].mode.HalfOpen? ==> permit.wait == l.recovery)
            && (e[i].mode.Closed? ==> permit.allowed)
  {
    AlwaysSound(l, e, o, i);
    if !e[i].mode.Closed? { OpenedThen(l, e, o, i); }
  }

  lemma {:induction false} ProbeHolds(l: Limits, e: seq<Entry>, o: seq<Op>, i: nat, j: nat)
    requires IsTrace(l, e, o) && i < j < |e|
    requires Admits(l, e[i], o[i]) && !e[i].mode.Closed?
    requires forall k :: i < k < j ==> o[k].Ask?
    ensures e[j].mode.HalfOpen? && e[j].probing
    decreases j
  {
    if j > i + 1 { ProbeHolds(l, e, o, i, j - 1); }
  }

  /** After a call admitted while not closed, no other is admitted until a result is recorded
      or the breaker is reset. */
  lemma OneProbeAtATime(l: Limits, e: seq<Entry>, o: seq<Op>, i: nat, j: nat)
    requires IsTrace(l, e, o) && i < j < |o|
    requires Admits(l, e[i], o[i]) && !e[i].mode.Closed?
    requires forall k :: i < k < j ==> o[k].Ask?
    ensures !Admits(l, e[j], o[j])
  {
    ProbeHolds(l, e, o, i, j);
  }

  // ---- What the counter counts ----

  predicate Closes(e: Entry, op: Op) {
    op.Forget? || (op.Record? && (op.outcome.Success? || (op.outcome.Untracked? && e.mode.HalfOpen?)))
  }

  /** Tracked failures since the breaker was last closed, in half-open mode or in another. */
  ghost function FailuresSince(e: seq<Entry>, o: seq<Op>, n: nat, halfOpen: bool): nat
    requires |e| == |o| + 1 && n <= |o|
  {
    if n == 0 || Closes(e[n - 1], o[n - 1]) then 0
    else
      FailuresSince(e, o, n - 1, halfOpen)
      + if o[n - 1].Record? && o[n - 1].outcome.Tracked? && e[n - 1].mode.HalfOpen? == halfOpen then 1 else 0
  }

  /** The counter counts the tracked failures since the last close that did not end a probe. */
  lemma {:induction false} CounterIs(l: Limits, e: seq<Entry>, o: seq<Op>, n: nat)
    requires IsTrace(l, e, o) && n <= |o|
    ensures e[n].failures == FailuresSince(e, o, n, false)
  {
    if n > 0 { CounterIs(l, e, o, n - 1); }
  }

  /** So it counts all of them exactly when no probe has failed since the last close. */
  lemma CountsAllIff(l: Limits, e: seq<Entry>, o: seq<Op>, n: nat)
    requires IsTrace(l, e, o) && n <= |o|
    ensures e[n].failures == FailuresSince(e, o, n, false) + FailuresSince(e, o, n, true)
            <==> FailuresSince(e, o, n, true) == 0
  {
    CounterIs(l, e, o, n);
  }

  /** With threshold 1, a failed call and a failed probe leave the counter at 1. */
  lemma FailedProbeIsNotCounted()
    ensures var o := [Record(Tracked, 0.0), Ask(1.0), Record(Tracked, 2.0)];
            var e := [NEW, Entry(Open, 1, Some(0.0), false), Entry(HalfOpen, 1, Some(0.0), true), Entry(Open, 1, Some(2.0), false)];
            && IsTrace(Limits(1, 1.0), e, o)
            && e[3].failures == 1
            && FailuresSince(e, o, 3, false) + FailuresSince(e, o, 3, true) == 2
  {
    var o := [Record(Tracked, 0.0), Ask(1.0), Record(Tracked, 2.0)];
    var e := [NEW, Entry(Open, 1, Some(0.0), false), Entry(HalfOpen, 1, Some(0.0), true), Entry(Open, 1, Some(2.0), false)];
    assert e[1] == Applied(Limits(1, 1.0), e[0], o[0]);
    assert e[2] == Applied(Limits(1, 1.0), e[1], o[1]);
    assert e[3] == Applied(Limits(1, 1.0), e[2], o[2]);
    assert FailuresSince(e, o, 1, false) == 1 && FailuresSince(e, o, 1, true) == 0;
    assert FailuresSince(e, o, 2, false) == 1 && FailuresSince(e, o, 2, true) == 0;
  }
}
