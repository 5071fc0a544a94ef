/**
 The convergence ledger of a whole run, and why no run is stopped by it.
 */
module Journal {
  import opened Basics
  import opened TripTypes
  import opened Session
  import opened Actions
  import opened Invariant
  import opened Runs
  import opened Convergence
  import opened Progress
  import Acceptance

  /** Move `i` is an action that succeeded. */
  ghost predicate Succeeded(e: Env, r: seq<State>, m: seq<Move>, i: nat)
    requires |r| == |m| + 1 && i < |m|
  {
    m[i].Act? && Next(e, r[i], m[i].w).Done? && Next(e, r[i], m[i].w).ok
  }

  function EvidenceOf(e: Env, s: State, t: State): Evidence {
    Evidence(Key(Decide(e, s), InputOf(s, Decide(e, s))), Business(s), Business(t))
  }

  /** The ledger after the first `n` moves: every success recorded, in order. */
  ghost function LedgerOf(e: Env, r: seq<State>, m: seq<Move>, n: nat): Ledger
    requires |r| == |m| + 1 && n <= |m|
  {
    if n == 0 then NO_EVIDENCE
    else if Succeeded(e, r, m, n - 1) then Recorded(LedgerOf(e, r, m, n - 1), EvidenceOf(e, r[n - 1], r[n]))
    else LedgerOf(e, r, m, n - 1)
  }

  /** Why the guard may stop a session: its next action has succeeded too often on the same
      input, or too many successes in a row changed nothing. */
  predicate Exhausted(e: Env, s: State, l: Ledger) {
    || l.successful[Key(Decide(e, s), InputOf(s, Decide(e, s)))] >= e.budget.maxRepeatedInputs
    || l.streak >= e.budget.maxNoProgress
  }

  /** Every stop of the run for want of convergence was ordered by the guard. */
  ghost predicate GuardedStops(e: Env, r: seq<State>, m: seq<Move>)
    requires |r| == |m| + 1
  {
    forall i :: 0 <= i < |m| && m[i] == Halt(ConvergenceStopped) ==> Exhausted(e, r[i], LedgerOf(e, r, m, i))
  }

  lemma {:induction false} LedgerOfPrefix(e: Env, r: seq<State>, m: seq<Move>, move: Move, t: State, n: nat)
    requires |r| == |m| + 1 && n <= |m|
    ensures LedgerOf(e, r + [t], m + [move], n) == LedgerOf(e, r, m, n)
  {
    hide Next; hide EvidenceOf; hide Recorded;
    if n > 0 { LedgerOfPrefix(e, r, m, move, t, n - 1); }
  }

  /** `r` and `m` are the run that led to `s`, and `l` is its ledger. */
  ghost predicate Tracks(e: Env, r: seq<State>, m: seq<Move>, s: State, l: Ledger) {
    IsRun(e, r, m) && r[|m|] == s && GuardedStops(e, r, m) && l == LedgerOf(e, r, m, |m|)
  }

  /** One more move. */
  lemma Extend(e: Env, r: seq<State>, m: seq<Move>, s: State, l: Ledger, move: Move, t: State)
    requires Tracks(e, r, m, s, l) && Moves(e, s, move, t)
    requires move == Halt(ConvergenceStopped) ==> Exhausted(e, s, l)
    ensures var success := move.Act? && Next(e, s, move.w).Done? && Next(e, s, move.w).ok;
            Tracks(e, r + [t], m + [move], t, if success then Recorded(l, EvidenceOf(e, s, t)) else l)
  {
    hide Moves; hide Exhausted; hide Next; hide Recorded; hide EvidenceOf; hide FRESH; hide NO_EVIDENCE;
    var r', m' := r + [t], m + [move];
    assert forall i :: 0 <= i < |m| ==> Moves(e, r[i], m[i], r[i + 1]);
    forall i | 0 <= i < |m'| ensures Moves(e, r'[i], m'[i], r'[i + 1]) {
      if i < |m| { assert Moves(e, r[i], m[i], r[i + 1]); }
    }
    forall i | 0 <= i < |m'| && m'[i] == Halt(ConvergenceStopped) ensures Exhausted(e, r'[i], LedgerOf(e, r', m', i)) {
      LedgerOfPrefix(e, r, m, move, t, i);
    }
    LedgerOfPrefix(e, r, m, move, t, |m|);
  }

  /** The ledger of a run never holds more than its last success, and never a streak. */
  lemma {:induction false} LedgerIsLastSuccess(e: Env, r: seq<State>, m: seq<Move>, n: nat)
    requires IsRun(e, r, m) && n <= |m|
    ensures var l := LedgerOf(e, r, m, n);
            l.streak == l.total == 0
            && l.successful == match LastSuccess(e, r, m, n) { case None => multiset{} case Some(k) => multiset{k} }
  {
    hide Next; hide Decide; hide InputOf; hide Business; hide Inv; hide Moves;
    if n > 0 {
      LedgerIsLastSuccess(e, r, m, n - 1);
      if Succeeded(e, r, m, n - 1) { EverySuccessIsProgress(e, r, m, n - 1); }
    }
  }

  /** No run of a new session, however often resumed and whatever its tools answer, is ever
      stopped for want of convergence. */
  lemma NeverStopped(e: Env, r: seq<State>, m: seq<Move>, i: nat)
    requires IsRun(e, r, m) && GuardedStops(e, r, m) && i < |m|
    requires e.budget.maxRepeatedInputs >= 1 && e.budget.maxNoProgress >= 1
    ensures m[i] != Halt(ConvergenceStopped)
  {
    hide Next; hide Decide; hide InputOf; hide Inv; hide LedgerOf; hide LastSuccess;
    if m[i] == Halt(ConvergenceStopped) {
      assert Exhausted(e, r[i], LedgerOf(e, r, m, i));
      assert Moves(e, r[i], m[i], r[i + 1]);
      LedgerIsLastSuccess(e, r, m, i);
      NeverRepeats(e, r, m, i);
      assert false;
    }
  }

  lemma NextNeverStops(e: Env, s: State, w: Wire)
    requires !Next(e, s, w).Broken? && !s.status.ConvergenceStopped?
    ensures !Next(e, s, w).state.status.ConvergenceStopped?
  {
    hide Decide; hide Acceptance.Evaluate;
  }

  /** So no session ever has the status of one that was. */
  lemma {:induction false} NeverUnconverged(e: Env, r: seq<State>, m: seq<Move>, n: nat)
    requires IsRun(e, r, m) && GuardedStops(e, r, m) && n < |r|
    requires e.budget.maxRepeatedInputs >= 1 && e.budget.maxNoProgress >= 1
    ensures !r[n].status.ConvergenceStopped?
  {
    hide Next; hide Decide; hide Inv; hide GuardedStops;
    if n > 0 {
      NeverUnconverged(e, r, m, n - 1);
      NeverStopped(e, r, m, n - 1);
      assert Moves(e, r[n - 1], m[n - 1], r[n]);
      if m[n - 1].Act? { NextNeverStops(e, r[n - 1], m[n - 1].w); }
    }
  }
}
