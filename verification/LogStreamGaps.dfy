// A run of the log stream whose gap frame names a range with a record in it that is not lost.
module LogStreamGaps {
  import opened Basics
  import opened LogStream

  predicate CanRun(s: Stream, path: seq<Step>)
    decreases |path|
  {
    path == [] || (Enabled(s, path[0]) && CanRun(Do(s, path[0]), path[1..]))
  }

  function Then(s: Stream, path: seq<Step>): Stream
    requires CanRun(s, path)
    decreases |path|
  {
    if path == [] then s else Then(Do(s, path[0]), path[1..])
  }

  lemma First(s: Stream, step: Step, path: seq<Step>)
    requires Enabled(s, step) && CanRun(Do(s, step), path)
    ensures CanRun(s, [step] + path) && Then(s, [step] + path) == Then(Do(s, step), path)
  {
    var all := [step] + path;
    assert all[0] == step && all[1..] == path;
  }

  function From(lo: int, hi: int): (s: seq<int>)
    requires lo <= hi
    ensures |s| == hi - lo && forall i :: 0 <= i < |s| ==> s[i] == lo + i
  {
    seq(hi - lo, i => lo + i)
  }

  /** Subscribed to an empty ring, `next` records appended since, the first `put` of them queued. */
  function Queueing(capacity: nat, put: nat, next: nat): Stream
    requires put <= next
  {
    Stream(0, capacity, next, From(put, next), 0, From(0, put), NOTHING, Waiting(-1), [])
  }

  lemma {:induction false} Appends(capacity: nat, next: nat, more: nat, path: seq<Step>)
    requires CanRun(Queueing(capacity, 0, next + more), path)
    ensures CanRun(Queueing(capacity, 0, next), Repeat(Append, more) + path)
    ensures Then(Queueing(capacity, 0, next), Repeat(Append, more) + path) ==
            Then(Queueing(capacity, 0, next + more), path)
    decreases more
  {
    if more == 0 {
      assert Repeat(Append, 0) + path == path;
    } else {
      var s := Queueing(capacity, 0, next);
      assert Do(s, Append) == Queueing(capacity, 0, next + 1);
      Appends(capacity, next + 1, more - 1, path);
      First(s, Append, Repeat(Append, more - 1) + path);
      assert Repeat(Append, more) + path == [Append] + (Repeat(Append, more - 1) + path);
    }
  }

  lemma {:induction false} Puts(capacity: nat, put: nat, more: nat, next: nat, path: seq<Step>)
    requires put + more <= QUEUE_MAX && put + more <= next && CanRun(Queueing(capacity, put + more, next), path)
    ensures CanRun(Queueing(capacity, put, next), Repeat(Put, more) + path)
    ensures Then(Queueing(capacity, put, next), Repeat(Put, more) + path) ==
            Then(Queueing(capacity, put + more, next), path)
    decreases more
  {
    if more == 0 {
      assert Repeat(Put, 0) + path == path;
    } else {
      var s := Queueing(capacity, put, next);
      assert Do(s, Put) == Queueing(capacity, put + 1, next);
      Puts(capacity, put + 1, more - 1, next, path);
      First(s, Put, Repeat(Put, more - 1) + path);
      assert Repeat(Put, more) + path == [Put] + (Repeat(Put, more - 1) + path);
    }
  }

  function Repeat(step: Step, n: nat): seq<Step> {
    if n == 0 then [] else [step] + Repeat(step, n - 1)
  }

  /** The end of the run: one drop, the take of the next record, two more puts with one more drop. */
  const TAIL: seq<Step> := [Put, Take, Put, Put, Resume, Send]

  /** After the first three of these: record 0 dropped, record 1 taken, the queue full again. */
  function Between(capacity: nat): Stream {
    Stream(0, capacity, 1003, From(1002, 1003), 0, From(2, 1002), Drop(1, 0, 0, {0}), Took(1, -1), [])
  }

  lemma TailBegins(capacity: nat, path: seq<Step>)
    requires CanRun(Between(capacity), path)
    ensures CanRun(Queueing(capacity, QUEUE_MAX, QUEUE_MAX + 3), [Put, Take, Put] + path)
    ensures Then(Queueing(capacity, QUEUE_MAX, QUEUE_MAX + 3), [Put, Take, Put] + path) == Then(Between(capacity), path)
  {
    hide CanRun, Then;
    var s0 := Queueing(capacity, QUEUE_MAX, QUEUE_MAX + 3);
    var s1 := Stream(0, capacity, 1003, From(1001, 1003), 0, From(1, 1001), Drop(1, 0, 0, {0}), Waiting(-1), []);
    var s2 := s1.(q := From(2, 1001), phase := Took(1, -1));
    PutDrops(s0, s1);
    assert Do(s1, Take) == s2;
    assert Do(s2, Put) == Between(capacity);
    First(s2, Put, path);
    First(s1, Take, [Put] + path);
    First(s0, Put, [Take] + ([Put] + path));
    assert [Put] + ([Take] + ([Put] + path)) == [Put, Take, Put] + path;
  }

  lemma TailEnds(capacity: nat)
    ensures CanRun(Between(capacity), [Put, Resume, Send])
    ensures Then(Between(capacity), [Put, Resume, Send]).frames == [Gap(2, 0, 2, {0, 2}), Line(1)]
  {
    var s3 := Between(capacity);
    var s4 := s3.(ready := [], q := From(3, 1003), drop := Drop(2, 0, 2, {0, 2}));
    var gap := Gap(2, 0, 2, {0, 2});
    var s5 := s4.(frames := [gap], drop := NOTHING, phase := Sending(1));
    PutDrops(s3, s4);
    assert Do(s4, Resume) == s5;
    First(s5, Send, []);
    First(s4, Resume, [Send]);
    First(s3, Put, [Resume, Send]);
  }

  lemma TailStraddles(capacity: nat)
    ensures CanRun(Queueing(capacity, QUEUE_MAX, QUEUE_MAX + 3), TAIL)
    ensures Then(Queueing(capacity, QUEUE_MAX, QUEUE_MAX + 3), TAIL).frames == [Gap(2, 0, 2, {0, 2}), Line(1)]
  {
    TailEnds(capacity);
    TailBegins(capacity, [Put, Resume, Send]);
    assert [Put, Take, Put] + [Put, Resume, Send] == TAIL;
  }

  lemma PutDrops(s: Stream, t: Stream)
    requires s.ready != [] && s.ready[0] >= s.boundary && |s.q| == QUEUE_MAX
    requires t == s.(ready := t.ready, q := t.q, drop := t.drop) && t.ready == s.ready[1..]
    requires t.q == s.q[1..] + [s.ready[0]] && t.drop == Dropped(s.drop, s.q[0])
    ensures PutStep(s) == t
  {
  }

  function Opened(capacity: nat): Stream {
    Stream(0, capacity, 0, [], 0, [], NOTHING, Opening, [])
  }

  /** From the subscription on: the stream is opened, falls 1003 records behind, and ends with a gap frame for
      records 0 and 2 whose range has record 1 in it, which is sent right after. */
  lemma GapMayStraddle(capacity: nat)
    ensures var path := [Snapshot, Start, Replay] + (Repeat(Append, QUEUE_MAX + 3) + (Repeat(Put, QUEUE_MAX) + TAIL));
      && Init(Opened(capacity)) && CanRun(Opened(capacity), path)
      && Then(Opened(capacity), path).frames == [Gap(2, 0, 2, {0, 2}), Line(1)]
    ensures !Exact(Gap(2, 0, 2, {0, 2}))
  {
    TailStraddles(capacity);
    Puts(capacity, 0, QUEUE_MAX, QUEUE_MAX + 3, TAIL);
    Appends(capacity, 0, QUEUE_MAX + 3, Repeat(Put, QUEUE_MAX) + TAIL);
    Opens(capacity, Repeat(Append, QUEUE_MAX + 3) + (Repeat(Put, QUEUE_MAX) + TAIL));
    NotExact();
  }

  lemma NotExact()
    ensures !Exact(Gap(2, 0, 2, {0, 2}))
  {
    var f := Gap(2, 0, 2, {0, 2});
    assert 1 !in f.records;
  }

  lemma Opens(capacity: nat, path: seq<Step>)
    requires CanRun(Queueing(capacity, 0, 0), path)
    ensures CanRun(Opened(capacity), [Snapshot, Start, Replay] + path)
    ensures Then(Opened(capacity), [Snapshot, Start, Replay] + path) == Then(Queueing(capacity, 0, 0), path)
  {
    var s0 := Opened(capacity);
    var s1 := Do(s0, Snapshot);
    var s2 := Do(s1, Start);
    assert Do(s2, Replay) == Queueing(capacity, 0, 0);
    First(s2, Replay, path);
    First(s1, Start, [Replay] + path);
    First(s0, Snapshot, [Start] + ([Replay] + path));
    assert [Snapshot] + ([Start] + ([Replay] + path)) == [Snapshot, Start, Replay] + path;
  }

  // ---- a ring that started over ----

  /** The client's last id, 5, is from before; the ring has three records, none of which is sent or announced. */
  lemma RestartIsSilent(capacity: nat)
    requires capacity >= 3
    ensures var s := Stream(6, capacity, 3, [], 0, [], NOTHING, Opening, []);
      var path := [Snapshot, Start, Replay, Append, Put, Take, Resume, Send];
      && Init(s) && s.since == Cursor(Some(5), 0) && CanRun(s, path) && Then(s, path).frames == [Line(3)]
      && forall x :: 0 <= x < 3 ==> Count(Then(s, path).frames, x) == 0
  {
    var s0 := Stream(6, capacity, 3, [], 0, [], NOTHING, Opening, []);
    var s1, s2 := Do(s0, Snapshot), Do(Do(s0, Snapshot), Start);
    var s3 := Do(s2, Replay);
    assert s3 == Stream(6, capacity, 3, [], 3, [], NOTHING, Waiting(2), []);
    SendsThree(s3);
    var rest := [Append, Put, Take, Resume, Send];
    First(s2, Replay, rest);
    First(s1, Start, [Replay] + rest);
    First(s0, Snapshot, [Start] + ([Replay] + rest));
    assert [Snapshot] + ([Start] + ([Replay] + rest)) == [Snapshot, Start, Replay, Append, Put, Take, Resume, Send];
  }

  lemma SendsThree(s: Stream)
    requires s == Stream(6, s.capacity, 3, [], 3, [], NOTHING, Waiting(2), [])
    ensures CanRun(s, [Append, Put, Take, Resume, Send]) && Then(s, [Append, Put, Take, Resume, Send]).frames == [Line(3)]
  {
    var s1 := Do(s, Append);
    var s2 := Do(s1, Put);
    var s3 := Do(s2, Take);
    var s4 := Do(s3, Resume);
    First(s4, Send, []);
    First(s3, Resume, [Send]);
    First(s2, Take, [Resume, Send]);
    First(s1, Put, [Take, Resume, Send]);
    First(s, Append, [Put, Take, Resume, Send]);
  }
}
