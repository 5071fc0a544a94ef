/**
 The shape of `action_history`: one batch per physical step, a root action followed by the
 local actions absorbed into the same step.
 */
module Batches {
  import opened Basics
  import opened TripTypes

  /** An ActionRecord; `root` and `index` are batch_root_action and batch_index, `absorbed`
      is compressed_actions. */
  datatype Record = Record(
    step: nat, action: Action, success: bool,
    compressed: bool, root: Option<Action>, index: nat, absorbed: seq<Action>)

  datatype Batch = Batch(first: Record, rest: seq<Record>)

  function Lone(step: nat, a: Action, success: bool): Record {
    Record(step, a, success, false, None, 0, [])
  }

  /** The batch number `n` (from 1) written into a compressed record. */
  function Marked(r: Record, root: Action, n: nat): Record {
    r.(compressed := true, root := Some(root), index := n)
  }

  function Records(b: Batch): seq<Record> { [b.first] + b.rest }

  function Flatten(bs: seq<Batch>): seq<Record> {
    if bs == [] then [] else Flatten(bs[..|bs| - 1]) + Records(bs[|bs| - 1])
  }

  function Absorbed(bs: seq<Batch>): nat {
    if bs == [] then 0 else Absorbed(bs[..|bs| - 1]) + |bs[|bs| - 1].rest|
  }

  /** An uncompressed root, and the records it lists, numbered from 1, in its own step; only
      a success goes on. */
  ghost predicate WellFormed(b: Batch, most: nat) {
    && !b.first.compressed && b.first.index == 0 && b.first.root.None?
    && |b.rest| == |b.first.absorbed| <= most
    && (b.rest != [] ==> b.first.success)
    && forall i :: 0 <= i < |b.rest| ==>
         && b.rest[i].compressed && b.rest[i].root == Some(b.first.action) && b.rest[i].index == i + 1
         && b.rest[i].step == b.first.step && b.rest[i].action == b.first.absorbed[i] && b.rest[i].absorbed == []
         && (i + 1 < |b.rest| ==> b.rest[i].success)
  }

  ghost predicate Increasing(bs: seq<Batch>) {
    forall i, j :: 0 <= i < j < |bs| ==> bs[i].first.step < bs[j].first.step
  }

  ghost predicate AllWellFormed(bs: seq<Batch>, step: nat, most: nat) {
    forall i :: 0 <= i < |bs| ==> WellFormed(bs[i], most) && 1 <= bs[i].first.step <= step
  }

  ghost predicate Structured(h: seq<Record>, bs: seq<Batch>, step: nat, compressed: nat, most: nat) {
    && h == Flatten(bs)
    && AllWellFormed(bs, step, most)
    && Increasing(bs)
    && compressed == Absorbed(bs)
  }

  lemma BatchAppends(front: seq<Batch>, b: Batch, step: nat, most: nat)
    requires AllWellFormed(front, step, most) && Increasing(front) && WellFormed(b, most) && 1 <= b.first.step
    requires forall i :: 0 <= i < |front| ==> front[i].first.step < b.first.step
    ensures AllWellFormed(front + [b], Max(step, b.first.step), most) && Increasing(front + [b])
  {
    hide WellFormed;
  }

  lemma BatchDrops(bs: seq<Batch>, step: nat, most: nat)
    requires AllWellFormed(bs, step, most) && Increasing(bs) && bs != []
    ensures var front := bs[..|bs| - 1];
            AllWellFormed(front, step, most) && Increasing(front)
            && forall i :: 0 <= i < |front| ==> front[i].first.step < bs[|bs| - 1].first.step
  {
    hide WellFormed;
  }

  /** A root opens a batch in a step of its own. */
  lemma RootOpens(h: seq<Record>, bs: seq<Batch>, step: nat, compressed: nat, most: nat, a: Action, success: bool)
    requires Structured(h, bs, step, compressed, most)
    ensures Structured(h + [Lone(step + 1, a, success)], bs + [Batch(Lone(step + 1, a, success), [])], step + 1, compressed, most)
  {
    var b := Batch(Lone(step + 1, a, success), []);
    assert (bs + [b])[..|bs|] == bs && Records(b) == [b.first];
    assert WellFormed(b, most);
    BatchAppends(bs, b, step, most);
    hide WellFormed; hide AllWellFormed; hide Increasing;
  }

  lemma StepPasses(h: seq<Record>, bs: seq<Batch>, step: nat, compressed: nat, most: nat)
    requires Structured(h, bs, step, compressed, most)
    ensures Structured(h, bs, step + 1, compressed, most)
  {
    hide WellFormed;
  }

  /** Where the root of the last batch is in the history. */
  lemma LastRootAt(bs: seq<Batch>)
    requires bs != []
    ensures var b := bs[|bs| - 1];
            var at := |Flatten(bs)| - 1 - |b.rest|;
            0 <= at && Flatten(bs)[at] == b.first
  {
  }

  function Joined(b: Batch, a: Action, success: bool): Batch {
    Batch(b.first.(absorbed := b.first.absorbed + [a]),
          b.rest + [Marked(Lone(b.first.step, a, success), b.first.action, |b.rest| + 1)])
  }

  lemma JoinedWellFormed(b: Batch, a: Action, success: bool, most: nat)
    requires WellFormed(b, most) && |b.rest| < most && b.first.success && (b.rest != [] ==> b.rest[|b.rest| - 1].success)
    ensures WellFormed(Joined(b, a, success), most) && Joined(b, a, success).first.step == b.first.step
  {
  }

  /** Replacing the root in its place and appending the record is flattening the longer batch. */
  lemma FlattensTo(front: seq<Batch>, b: Batch, c: Batch)
    requires |c.rest| == |b.rest| + 1 && c.rest[..|b.rest|] == b.rest
    ensures var h := Flatten(front) + Records(b);
            h[|Flatten(front)| := c.first] + [c.rest[|b.rest|]] == Flatten(front + [c])
  {
    var f := Flatten(front);
    assert (front + [c])[..|front|] == front;
    assert c.rest == b.rest + [c.rest[|b.rest|]];
    assert (f + Records(b))[|f| := c.first] == f + ([c.first] + b.rest);
    assert Flatten(front + [c]) == f + Records(c);
    assert f + ([c.first] + b.rest) + [c.rest[|b.rest|]] == f + ([c.first] + (b.rest + [c.rest[|b.rest|]]));
  }

  lemma AbsorbsOneMore(front: seq<Batch>, b: Batch)
    ensures Absorbed(front + [b]) == Absorbed(front) + |b.rest|
  {
    assert (front + [b])[..|front|] == front;
  }

  /** The history after the last batch absorbed one more record. */
  lemma MemberJoins(h: seq<Record>, bs: seq<Batch>, step: nat, compressed: nat, most: nat, a: Action, success: bool)
    requires Structured(h, bs, step, compressed, most) && bs != []
    requires var b := bs[|bs| - 1];
             |b.rest| < most && b.first.success && (b.rest != [] ==> b.rest[|b.rest| - 1].success)
    ensures var b := bs[|bs| - 1];
            var at := |h| - 1 - |b.rest|;
            0 <= at
            && Structured(h[at := Joined(b, a, success).first] + [Joined(b, a, success).rest[|b.rest|]],
                          bs[..|bs| - 1] + [Joined(b, a, success)], step, compressed + 1, most)
  {
    var b := bs[|bs| - 1];
    var front := bs[..|bs| - 1];
    var c := Joined(b, a, success);
    assert h == Flatten(front) + Records(b) && |Flatten(front)| == |h| - 1 - |b.rest|;
    assert WellFormed(b, most) && 1 <= b.first.step <= step;
    JoinedWellFormed(b, a, success, most);
    FlattensTo(front, b, c);
    AbsorbsOneMore(front, b);
    AbsorbsOneMore(front, c);
    assert front + [b] == bs;
    BatchDrops(bs, step, most);
    BatchAppends(front, c, step, most);
    hide WellFormed; hide AllWellFormed; hide Increasing; hide Absorbed; hide Flatten; hide Marked;
  }

  lemma {:induction false} FlattenLength(bs: seq<Batch>, most: nat)
    requires forall i :: 0 <= i < |bs| ==> WellFormed(bs[i], most)
    ensures |Flatten(bs)| == |bs| + Absorbed(bs) <= |bs| * (1 + most)
  {
    if bs != [] {
      FlattenLength(bs[..|bs| - 1], most);
      assert |bs| * (1 + most) == (|bs| - 1) * (1 + most) + (1 + most);
    }
  }

  lemma {:induction false} RootsPerStep(bs: seq<Batch>, step: nat)
    requires Increasing(bs) && forall i :: 0 <= i < |bs| ==> 1 <= bs[i].first.step <= step
    ensures |bs| <= step
  {
    if bs != [] {
      var last := bs[|bs| - 1].first.step;
      RootsPerStep(bs[..|bs| - 1], last - 1);
    }
  }

  lemma Scaled(x: nat, y: nat, k: nat)
    requires x <= y
    ensures x * k <= y * k
  {
  }

  /** The history never outgrows the physical steps. */
  lemma HistoryBounded(h: seq<Record>, bs: seq<Batch>, step: nat, compressed: nat, most: nat)
    requires Structured(h, bs, step, compressed, most)
    ensures |h| == |bs| + compressed && |bs| <= step && |h| <= step * (1 + most)
  {
    FlattenLength(bs, most);
    RootsPerStep(bs, step);
    Scaled(|bs|, step, 1 + most);
  }

  function Compressed(h: seq<Record>): nat {
    if h == [] then 0 else Compressed(h[..|h| - 1]) + if h[|h| - 1].compressed then 1 else 0
  }

  lemma {:induction false} CompressedAppend(g: seq<Record>, h: seq<Record>)
    ensures Compressed(g + h) == Compressed(g) + Compressed(h)
  {
    if h == [] {
      assert g + h == g;
    } else {
      CompressedAppend(g, h[..|h| - 1]);
      assert (g + h)[..|g + h| - 1] == g + h[..|h| - 1];
    }
  }

  lemma {:induction false} AllCompressed(h: seq<Record>)
    requires forall i :: 0 <= i < |h| ==> h[i].compressed
    ensures Compressed(h) == |h|
  {
    if h != [] { AllCompressed(h[..|h| - 1]); }
  }

  /** The counter is the number of compressed records in the history. */
  lemma {:induction false} CountsCompressed(bs: seq<Batch>, most: nat)
    requires forall i :: 0 <= i < |bs| ==> WellFormed(bs[i], most)
    ensures Compressed(Flatten(bs)) == Absorbed(bs)
  {
    if bs != [] {
      var b := bs[|bs| - 1];
      CountsCompressed(bs[..|bs| - 1], most);
      CompressedAppend(Flatten(bs[..|bs| - 1]), Records(b));
      CompressedAppend([b.first], b.rest);
      assert Compressed([b.first]) == 0 by { assert [b.first][..0] == []; }
      AllCompressed(b.rest);
    }
  }
}
