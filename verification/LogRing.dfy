// LogRing: a bounded ring of numbered log records, fanned out to subscribers.
module LogRing {

  datatype Record = Record(seqNo: nat, ts: real, kind: string, text: string)

  /** The number of the oldest record a ring of this capacity still holds after n appends. */
  function Oldest(n: nat, capacity: nat): (first: nat)
    ensures first <= n && (n <= capacity ==> first == 0) && (n > capacity ==> n - first == capacity)
  {
    if n <= capacity then 0 else n - capacity
  }

  /** Records are numbered by their place in the whole history. */
  ghost predicate Numbered(all: seq<Record>) {
    forall i :: 0 <= i < |all| ==> all[i].seqNo == i
  }

  /** The records at or after cursor that are still held. */
  ghost function Since(all: seq<Record>, capacity: nat, cursor: int): (out: seq<Record>)
    ensures forall r <- out :: r in all
  {
    var lo := Oldest(|all|, capacity);
    if cursor <= lo then all[lo..] else if cursor <= |all| then all[cursor..] else []
  }

  /** It is what was asked for and is held, in the order of the history. */
  lemma SinceIs(all: seq<Record>, capacity: nat, cursor: int)
    requires Numbered(all)
    ensures forall r :: r in Since(all, capacity, cursor) <==>
              r in all && r.seqNo >= cursor && r.seqNo >= Oldest(|all|, capacity)
    ensures var out := Since(all, capacity, cursor);
            forall i, j :: 0 <= i < j < |out| ==> out[i].seqNo < out[j].seqNo
  {
    var out, lo := Since(all, capacity, cursor), Oldest(|all|, capacity);
    var from := if cursor <= lo then lo else if cursor <= |all| then cursor else |all|;
    assert out == all[from..];
    forall r | r in all && r.seqNo >= from ensures r in out {
      var k :| 0 <= k < |all| && all[k] == r;
      assert out[k - from] == r;
    }
  }

  /** Polling with the returned cursor loses exactly the records evicted in between: two polls give
      the records of one, less those. */
  lemma PollAgain(all: seq<Record>, more: seq<Record>, capacity: nat, cursor: int)
    requires Numbered(all + more)
    ensures Since(all + more, capacity, |all|) ==
            (all + more)[if |more| <= capacity then |all| else |all + more| - capacity..]
    ensures |more| <= capacity ==> Since(all + more, capacity, |all|) == more
    ensures capacity >= |all + more| ==>
              Since(all, capacity, cursor) + Since(all + more, capacity, |all|)
                == Since(all + more, capacity, if cursor <= |all| then cursor else |all|)
  {
    var both := all + more;
    assert both[|all|..] == more;
    if capacity >= |both| && 0 < cursor <= |all| {
      assert both[cursor..] == all[cursor..] + more;
    }
  }

  class Subscriber {
    var received: seq<Record>

    constructor ()
      ensures received == []
    {
      received := [];
    }

    method Push(record: Record)
      modifies this
      ensures received == old(received) + [record]
    {
      received := received + [record];
    }
  }

  class LogRing {
    const capacity: nat
    var buf: seq<Record>
    var next: nat
    var subs: set<Subscriber>
    /** Every record ever appended. */
    ghost var all: seq<Record>

    ghost predicate Valid()
      reads this
    {
      && next == |all| && Numbered(all)
      && buf == all[Oldest(next, capacity)..]
    }

    constructor (capacity: nat)
      ensures Valid() && this.capacity == capacity && all == [] && subs == {}
    {
      this.capacity := capacity;
      buf, next, subs, all := [], 0, {}, [];
    }

    /** The new record is the last of the history, the oldest held one makes room for it, and every
        subscriber gets it exactly once. */
    method Append(text: string, kind: string, ts: real) returns (record: Record)
      requires Valid()
      modifies this, subs
      ensures Valid() && subs == old(subs)
      ensures record == Record(|old(all)|, ts, kind, text) && all == old(all) + [record]
      ensures forall s <- subs :: s.received == old(s.received) + [record]
    {
      record := Record(next, ts, kind, text);
      Deque(buf, all, record, capacity);
      buf := buf + [record];
      if |buf| > capacity { buf := buf[|buf| - capacity..]; }
      next := next + 1;
      all := all + [record];
      Deliver(subs, record);
    }

    /** The fan-out, over a snapshot of the subscribers and in no particular order. */
    static method Deliver(snapshot: set<Subscriber>, record: Record)
      modifies snapshot
      ensures forall s <- snapshot :: s.received == old(s.received) + [record]
    {
      var rest := snapshot;
      while rest != {}
        invariant rest <= snapshot
        invariant forall s <- rest :: s.received == old(s.received)
        invariant forall s <- snapshot - rest :: s.received == old(s.received) + [record]
        decreases rest
      {
        var s :| s in rest;
        s.Push(record);
        rest := rest - {s};
      }
    }

    /** Everything still held at or after cursor, in order, and the cursor to poll with next. */
    method RecordsSince(cursor: int) returns (out: seq<Record>, nextCursor: nat)
      requires Valid()
      ensures out == Since(all, capacity, cursor) && nextCursor == |all|
      ensures forall r :: r in out <==> r in all && r.seqNo >= cursor && r.seqNo >= Oldest(|all|, capacity)
      ensures forall i, j :: 0 <= i < j < |out| ==> out[i].seqNo < out[j].seqNo
    {
      hide Since;
      ghost var lo := Oldest(next, capacity);
      out := [];
      assert Since(all[..lo], 0, cursor) == [] by { SinceNone(all[..lo], cursor); }
      for i := 0 to |buf|
        invariant out == Since(all[..lo + i], i, cursor)
      {
        SinceSnoc(all, lo, i, cursor);
        if buf[i].seqNo >= cursor {
          out := out + [buf[i]];
        }
      }
      assert all[..|all|] == all && Oldest(|all|, |all| - lo) == lo;
      SinceHeld(all, |all| - lo, capacity, cursor);
      SinceIs(all, capacity, cursor);
      return out, next;
    }

    method Subscribe(s: Subscriber)
      requires Valid()
      modifies this
      ensures Valid() && subs == old(subs) + {s} && all == old(all)
    {
      subs := subs + {s};
    }

    method Unsubscribe(s: Subscriber)
      requires Valid()
      modifies this
      ensures Valid() && subs == old(subs) - {s} && all == old(all)
    {
      subs := subs - {s};
    }
  }

  /** A full deque drops its first record for a new one. */
  lemma Deque(buf: seq<Record>, all: seq<Record>, record: Record, capacity: nat)
    requires buf == all[Oldest(|all|, capacity)..]
    ensures var grown := buf + [record];
            (all + [record])[Oldest(|all| + 1, capacity)..] ==
            if |grown| > capacity then grown[|grown| - capacity..] else grown
  {
  }

  lemma SinceNone(all: seq<Record>, cursor: int)
    ensures Since(all, 0, cursor) == []
  {
  }

  lemma SinceHeld(all: seq<Record>, held: nat, capacity: nat, cursor: int)
    requires Oldest(|all|, held) == Oldest(|all|, capacity)
    ensures Since(all, held, cursor) == Since(all, capacity, cursor)
  {
  }

  lemma SinceSnoc(all: seq<Record>, lo: nat, i: nat, cursor: int)
    requires Numbered(all) && lo + i < |all|
    ensures Since(all[..lo + i + 1], i + 1, cursor) ==
            Since(all[..lo + i], i, cursor) + if lo + i >= cursor then [all[lo + i]] else []
  {
    assert all[..lo + i + 1] == all[..lo + i] + [all[lo + i]];
  }
}
