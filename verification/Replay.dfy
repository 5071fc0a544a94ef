/**
 Replaying a task's events to a browser (main.py:658-692, list_events): however often the
 connection breaks and whatever workers append meanwhile, the client has seen a gap-free,
 duplicate-free prefix of the log beyond its first cursor.
 */
module Replay {
  import opened Basics
  import opened TaskQueue
  import opened Leases

  /** The task's log as each successive query sees it: committed events stay, in id order. */
  ghost predicate Growing(log: nat -> seq<Event>) {
    && (forall i, j :: i <= j ==> log(i) <= log(j))
    && forall i :: Ordered(log(i))
  }

  ghost predicate Ordered(log: seq<Event>) { forall i, j :: 0 <= i < j < |log| ==> log[i].id < log[j].id }

  /** WHERE event_id > after ORDER BY event_id. */
  function Beyond(log: seq<Event>, after: nat): seq<Event> {
    if log == [] then []
    else Beyond(log[..|log| - 1], after) + if log[|log| - 1].id > after then [log[|log| - 1]] else []
  }

  /** `list_events` with its limit. */
  function Page(log: seq<Event>, after: nat, limit: int): seq<Event> {
    var all := Beyond(log, after);
    all[..Min(|all|, Max(1, Min(limit, 1000)))]
  }

  lemma {:induction false} BeyondGrows(log: seq<Event>, longer: seq<Event>, after: nat)
    requires log <= longer
    ensures Beyond(log, after) <= Beyond(longer, after)
    decreases |longer|
  {
    if |log| < |longer| {
      BeyondGrows(log, longer[..|longer| - 1], after);
    } else {
      assert log == longer;
    }
  }

  lemma {:induction false} BeyondIds(log: seq<Event>, after: nat)
    requires Ordered(log)
    ensures Ordered(Beyond(log, after))
    ensures forall x :: x in Beyond(log, after) ==> x in log && x.id > after
  {
    if log != [] { BeyondIds(log[..|log| - 1], after); }
  }

  lemma LastBeyond(log: seq<Event>, after: nat)
    requires Ordered(log) && log != [] && log[|log| - 1].id > after
    ensures Beyond(log, log[|log| - 1].id) == []
  {
    NothingBeyond(log, log[|log| - 1].id);
  }

  /** Going on after the last event seen is going on where one left off. */
  lemma {:induction false} Resumes(log: seq<Event>, after: nat, k: nat)
    requires Ordered(log) && 0 < k <= |Beyond(log, after)|
    ensures Beyond(log, Beyond(log, after)[k - 1].id) == Beyond(log, after)[k..]
  {
    var front, last := log[..|log| - 1], log[|log| - 1];
    var seen := Beyond(front, after);
    BeyondIds(front, after);
    if k <= |seen| {
      assert seen[k - 1] in front && seen[k - 1].id < last.id;
      Resumes(front, after, k);
      assert Beyond(log, after) == seen + if last.id > after then [last] else [];
      assert last.id > after;
      assert (seen + [last])[k..] == seen[k..] + [last];
    } else {
      assert Beyond(log, after) == seen + [last] && k == |seen| + 1;
      LastBeyond(log, after);
    }
  }

  lemma {:induction false} NothingBeyond(log: seq<Event>, after: nat)
    requires forall i :: 0 <= i < |log| ==> log[i].id <= after
    ensures Beyond(log, after) == []
  {
    if log != [] { NothingBeyond(log[..|log| - 1], after); }
  }

  /** Where a client stands: what it has seen, and the cursor it goes on from. */
  ghost predicate Seen(log: seq<Event>, after: nat, seen: seq<Event>, cursor: nat) {
    seen <= Beyond(log, after) && cursor == if seen == [] then after else seen[|seen| - 1].id
  }

  lemma SeenLater(log: seq<Event>, longer: seq<Event>, after: nat, seen: seq<Event>, cursor: nat)
    requires Seen(log, after, seen, cursor) && log <= longer
    ensures Seen(longer, after, seen, cursor)
  {
    BeyondGrows(log, longer, after);
  }

  /** The next page is what comes next. */
  lemma PageComesNext(log: seq<Event>, after: nat, seen: seq<Event>, cursor: nat)
    requires Ordered(log) && Seen(log, after, seen, cursor)
    ensures seen + Page(log, cursor, 200) == Beyond(log, after)[..Min(|Beyond(log, after)|, |seen| + 200)]
  {
    if seen != [] { Resumes(log, after, |seen|); }
  }

  /** One iteration of the generator's loop: the next page of at most 200, in order. */
  method SendPage(log: seq<Event>, ghost after: nat, ghost seen: seq<Event>, cursor: nat) returns (sent: seq<Event>, next: nat)
    requires Ordered(log) && Seen(log, after, seen, cursor)
    ensures seen + sent == Beyond(log, after)[..Min(|Beyond(log, after)|, |seen| + 200)]
    ensures Seen(log, after, seen + sent, next)
  {
    PageComesNext(log, after, seen, cursor);
    var page := Page(log, cursor, 200);
    sent, next := [], cursor;
    for i := 0 to |page|
      invariant sent == page[..i] && next == if i == 0 then cursor else page[i - 1].id
    {
      next := page[i].id;
      sent := sent + [page[i]];
    }
  }

  /** How many events a client that stood at `at` has seen after `polls` more queries: each
      brings the next 200, or all there are. */
  function Reach(log: nat -> seq<Event>, after: nat, at: nat, start: nat, polls: nat): nat {
    if polls == 0 then at else Min(|Beyond(log(start + polls), after)|, Reach(log, after, at, start, polls - 1) + 200)
  }

  /** Queries enough bring all that was there at the first of them. */
  lemma {:induction false} CatchesUp(log: nat -> seq<Event>, after: nat, at: nat, start: nat, polls: nat)
    requires Growing(log) && polls >= 1
    ensures Reach(log, after, at, start, polls) >= Min(|Beyond(log(start + 1), after)|, at + 200 * polls)
  {
    assert log(start + 1) <= log(start + polls);
    BeyondGrows(log(start + 1), log(start + polls), after);
    hide Growing; hide Beyond;
    if polls > 1 { CatchesUp(log, after, at, start, polls - 1); }
  }

  /** The connection makes `polls` queries: it ends early only when the client is gone or a query
      found the task finished. */
  ghost predicate Lasts(finished: nat -> bool, gone: nat -> bool, start: nat, rounds: nat, polls: nat) {
    && polls <= rounds
    && (forall t :: start <= t < start + polls ==> !gone(t)) && (forall t :: start < t < start + polls ==> !finished(t))
    && (polls < rounds ==> gone(start + polls) || (polls > 0 && finished(start + polls)))
  }

  /** `event_generator`: one connection of at most `rounds` polls. `log(t)` is the log at the
      query of time `t`; the task may be found finished, or the client gone. */
  method EventGenerator(log: nat -> seq<Event>, finished: nat -> bool, gone: nat -> bool,
                        ghost after: nat, ghost seen: seq<Event>, initial: nat, start: nat, rounds: nat)
    returns (sent: seq<Event>, clock: nat)
    requires Growing(log) && Seen(log(start), after, seen, initial)
    ensures start <= clock && Lasts(finished, gone, start, rounds, clock - start)
    ensures seen + sent <= Beyond(log(clock), after)
    ensures |seen + sent| == Reach(log, after, |seen|, start, clock - start)
  {
    hide Beyond; hide Growing; hide Ordered; hide Seen;
    StandsAt(log(start), after, seen, initial);
    var cursor := initial;
    sent, clock := [], start;
    for round := 0 to rounds
      invariant clock == start + round && Seen(log(clock), after, seen + sent, cursor)
      invariant |seen + sent| == Reach(log, after, |seen|, start, round)
      invariant forall t :: start <= t < clock ==> !gone(t)
      invariant forall t :: start < t <= clock ==> !finished(t)
    {
      if gone(clock) { break; }
      GrowingGrows(log, clock);
      SeenLater(log(clock), log(clock + 1), after, seen + sent, cursor);
      clock := clock + 1;
      var page;
      page, cursor := SendPage(log(clock), after, seen + sent, cursor);
      Grouped(seen, sent, page);
      sent := sent + page;
      if finished(clock) { break; }
    }
    StandsAt(log(clock), after, seen + sent, cursor);
  }

  lemma Grouped(a: seq<Event>, b: seq<Event>, c: seq<Event>)
    ensures a + (b + c) == a + b + c
  {
  }

  lemma StandsAt(log: seq<Event>, after: nat, seen: seq<Event>, cursor: nat)
    requires Seen(log, after, seen, cursor)
    ensures seen <= Beyond(log, after) && seen + [] == seen
  {
  }

  /** One connection as the client lives it: it may lose the last frames sent. */
  datatype Connection = Connection(rounds: nat, lost: nat)

  /** What the client received of what was sent is where it stands now. */
  lemma Received(log: seq<Event>, after: nat, seen: seq<Event>, sent: seq<Event>, k: nat)
    requires seen + sent <= Beyond(log, after) && k <= |sent|
    ensures var got := seen + sent[..k]; Seen(log, after, got, if got == [] then after else got[|got| - 1].id)
  {
    hide Beyond;
    assert seen + sent[..k] <= seen + sent;
  }

  lemma SeenIsOrdered(log: seq<Event>, after: nat, seen: seq<Event>, cursor: nat)
    requires Ordered(log) && Seen(log, after, seen, cursor)
    ensures Ordered(seen) && (seen != [] ==> cursor > after)
  {
    BeyondIds(log, after);
    hide Beyond;
    assert seen != [] ==> seen[|seen| - 1] == Beyond(log, after)[|seen| - 1];
  }

  /** What the client has after so many connections, of `polls` queries each, and when. */
  function Held(log: nat -> seq<Event>, after: nat, connections: seq<Connection>, polls: seq<nat>): (have: nat)
    requires |polls| == |connections|
  {
    if connections == [] then 0
    else
      var n := |connections| - 1;
      var had := Held(log, after, connections[..n], polls[..n]);
      Max(had, Reach(log, after, had, Sum(polls[..n]), polls[n]) - connections[n].lost)
  }

  function Sum(polls: seq<nat>): nat { if polls == [] then 0 else Sum(polls[..|polls| - 1]) + polls[|polls| - 1] }

  /** Every connection so far lasted as long as it could. */
  ghost predicate AllLast(finished: nat -> bool, gone: nat -> bool, connections: seq<Connection>, polls: seq<nat>) {
    && |polls| <= |connections|
    && forall c :: 0 <= c < |polls| ==> Lasts(finished, gone, Sum(polls[..c]), connections[c].rounds, polls[c])
  }

  lemma OneMoreLasts(finished: nat -> bool, gone: nat -> bool, connections: seq<Connection>, polls: seq<nat>, more: nat)
    requires AllLast(finished, gone, connections, polls) && |polls| < |connections|
    requires Lasts(finished, gone, Sum(polls), connections[|polls|].rounds, more)
    ensures AllLast(finished, gone, connections, polls + [more])
  {
    hide Lasts;
    assert forall c :: 0 <= c <= |polls| ==> (polls + [more])[..c] == polls[..c];
    assert polls[..|polls|] == polls;
  }

  lemma NothingHeld(log: nat -> seq<Event>, finished: nat -> bool, gone: nat -> bool, after: nat, connections: seq<Connection>)
    ensures Held(log, after, connections[..0], []) == 0 && Sum([]) == 0 && AllLast(finished, gone, connections, [])
  {
  }

  lemma HeldOneMore(log: nat -> seq<Event>, after: nat, connections: seq<Connection>, polls: seq<nat>, n: nat, more: nat)
    requires |polls| == n < |connections|
    ensures Sum(polls + [more]) == Sum(polls) + more
    ensures var had := Held(log, after, connections[..n], polls);
            Held(log, after, connections[..n + 1], polls + [more])
            == Max(had, Reach(log, after, had, Sum(polls), more) - connections[n].lost)
  {
    assert (polls + [more])[..n] == polls && connections[..n + 1][..n] == connections[..n];
  }

  /** A client that reconnects with Last-Event-ID set to the last event it received: after any
      number of breaks it holds a prefix of the log beyond its first cursor, as long as the
      queries made and the frames lost allow. */
  method FollowTask(log: nat -> seq<Event>, finished: nat -> bool, gone: nat -> bool, after: nat, connections: seq<Connection>)
    returns (received: seq<Event>, clock: nat, polls: seq<nat>)
    requires Growing(log)
    ensures received <= Beyond(log(clock), after)
    ensures Ordered(received)
    ensures |polls| == |connections| && clock == Sum(polls) && |received| == Held(log, after, connections, polls)
    ensures AllLast(finished, gone, connections, polls)
  {
    hide Beyond; hide Ordered; hide Growing; hide Lasts; hide Reach; hide AllLast; hide Held; hide Sum;
    NothingHeld(log, finished, gone, after, connections);
    var header := 0;
    received, clock, polls := [], 0, [];
    for c := 0 to |connections|
      invariant Seen(log(clock), after, received, if received == [] then after else header)
      invariant received == [] ==> header == 0
      invariant |polls| == c && clock == Sum(polls) && |received| == Held(log, after, connections[..c], polls)
      invariant AllLast(finished, gone, connections, polls)
    {
      GrowingIsOrdered(log, clock);
      SeenIsOrdered(log(clock), after, received, if received == [] then after else header);
      var initial := Max(Max(after, header), 0);
      var start, sent := clock, [];
      ghost var before := received;
      sent, clock := EventGenerator(log, finished, gone, after, received, initial, clock, connections[c].rounds);
      var k := Max(0, |sent| - connections[c].lost);
      Received(log(clock), after, before, sent, k);
      HeldOneMore(log, after, connections, polls, c, clock - start);
      OneMoreLasts(finished, gone, connections, polls, clock - start);
      polls := polls + [clock - start];
      received := received + sent[..k];
      if k > 0 { header := sent[k - 1].id; }
    }
    assert connections[..|connections|] == connections;
    GrowingIsOrdered(log, clock);
    SeenIsOrdered(log(clock), after, received, if received == [] then after else header);
  }

  lemma GrowingGrows(log: nat -> seq<Event>, t: nat)
    requires Growing(log)
    ensures log(t) <= log(t + 1) && Ordered(log(t + 1))
  {
    hide Ordered;
  }

  lemma GrowingIsOrdered(log: nat -> seq<Event>, t: nat)
    requires Growing(log)
    ensures Ordered(log(t))
  {
    hide Ordered;
  }

  // ---- The logs of the task queue are such logs ----

  lemma StepGrowsLog(d: Database, op: Op, id: TaskId)
    requires Legal(d, op)
    ensures EventsOf(d.events, id) <= EventsOf(After(d, op).events, id)
  {
    var d' := After(d, op);
    if |d'.events| > |d.events| {
      var x := d'.events[|d.events|];
      assert d'.events == d.events + [x];
      LogGrows(d.events, x, id);
    } else {
      assert d'.events == d.events;
    }
  }

  /** In every history of the queue a task's log only grows, in id order. */
  lemma {:induction false} QueueLogsGrow(d: seq<Database>, o: seq<Op>, id: TaskId, i: nat, j: nat)
    requires IsHistory(d, o) && i <= j < |d|
    ensures EventsOf(d[i].events, id) <= EventsOf(d[j].events, id)
    ensures Ordered(EventsOf(d[j].events, id))
    decreases j
  {
    hide Inv; hide Legal; hide After; hide EventsOf; hide Ordered;
    AlwaysKept(d, o, j);
    KeptIsOrdered(d[j], id);
    if i < j {
      QueueLogsGrow(d, o, id, i, j - 1);
      StepGrowsLog(d[j - 1], o[j - 1], id);
    }
  }

  lemma KeptIsOrdered(d: Database, id: TaskId)
    requires TaskQueue.Inv(d)
    ensures Ordered(EventsOf(d.events, id))
  {
    hide EventsOf; hide Fold;
    assert RowKept(d, id);
  }
}
