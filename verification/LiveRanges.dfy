// live_ranges, bisect and remap: the range lists the hotfix tool works with, tied to
// the byte-by-byte meaning in Compaction.
module LiveRanges {
  import opened Basics
  import opened FtwFormat
  import opened Compaction

  datatype Range = Range(a: nat, b: nat)

  predicate InRanges(rs: seq<Range>, p: nat) {
    exists i :: 0 <= i < |rs| && rs[i].a <= p < rs[i].b
  }

  /** Non-empty, inside [s0, s1), in order, and no two touch. */
  predicate Separated(rs: seq<Range>, s0: nat, s1: nat) {
    && (forall i :: 0 <= i < |rs| ==> s0 <= rs[i].a < rs[i].b <= s1)
    && (forall i, j :: 0 <= i < j < |rs| ==> rs[i].b < rs[j].a)
  }

  /** rs lists exactly the live bytes of [s0, s1). */
  ghost predicate ListsLive(rs: seq<Range>, tensors: seq<Entry>, s0: nat, s1: nat) {
    && Separated(rs, s0, s1)
    && forall p :: s0 <= p < s1 ==> (InRanges(rs, p) <==> Live(tensors, p))
  }

  // ---- sorting ranges ----

  predicate Before(x: Range, y: Range) {
    x.a < y.a || (x.a == y.a && x.b <= y.b)
  }

  predicate InOrder(rs: seq<Range>) {
    forall i, j :: 0 <= i < j < |rs| ==> Before(rs[i], rs[j])
  }

  function SortRanges(rs: seq<Range>): (r: seq<Range>)
    ensures InOrder(r) && forall x :: x in r <==> x in rs
  {
    if rs == [] then [] else InsertRange(rs[0], SortRanges(rs[1..]))
  }

  function InsertRange(x: Range, rs: seq<Range>): (r: seq<Range>)
    requires InOrder(rs)
    ensures InOrder(r) && forall y :: y in r <==> y == x || y in rs
  {
    if rs == [] || Before(x, rs[0]) then
      [x] + rs
    else
      var rest := InsertRange(x, rs[1..]);
      assert forall y <- rest :: Before(rs[0], y);
      [rs[0]] + rest
  }

  // ---- live_ranges ----

  /** Referenced byte ranges of shard [s0, s1), merged and sorted. */
  method LiveRangesOf(tensors: seq<Entry>, s0: nat, s1: nat) returns (merged: seq<Range>)
    requires s0 <= s1
    ensures ListsLive(merged, tensors, s0, s1)
  {
    var rs: seq<Range> := [];
    for i := 0 to |tensors|
      invariant forall r <- rs :: s0 <= r.a < r.b <= s1
      invariant forall p :: s0 <= p < s1 ==> (InRanges(rs, p) <==> Live(tensors[..i], p))
    {
      var a, b := Max(tensors[i].globalOff, s0), Min(tensors[i].BlockEnd(), s1);
      ghost var before := rs;
      if a < b {
        rs := rs + [Range(a, b)];
      }
      forall p | s0 <= p < s1
        ensures InRanges(rs, p) <==> Live(tensors[..i + 1], p)
      {
        LiveSnoc(tensors, i, p);
        if a < b { RangesSnoc(before, Range(a, b), p); }
      }
    }
    assert tensors[..|tensors|] == tensors;
    var sorted := SortRanges(rs);
    forall p ensures InRanges(sorted, p) <==> InRanges(rs, p) { RangesSame(sorted, rs, p); }
    merged := MergeRanges(sorted, s0, s1);
  }

  method MergeRanges(rs: seq<Range>, s0: nat, s1: nat) returns (merged: seq<Range>)
    requires InOrder(rs) && forall r <- rs :: s0 <= r.a < r.b <= s1
    ensures Separated(merged, s0, s1)
    ensures forall p :: InRanges(merged, p) <==> InRanges(rs, p)
  {
    hide InRanges, Separated;
    merged := [];
    assert Separated([], s0, s1) by { NoneSeparated(s0, s1); }
    assert forall p :: InRanges(merged, p) <==> InRanges(rs[..0], p) by { assert rs[..0] == merged; }
    for j := 0 to |rs|
      invariant Separated(merged, s0, s1)
      invariant forall p :: InRanges(merged, p) <==> InRanges(rs[..j], p)
      invariant merged != [] ==> forall k :: j <= k < |rs| ==> merged[|merged| - 1].a <= rs[k].a
    {
      ghost var before := merged;
      assert rs[..j + 1] == rs[..j] + [rs[j]];
      if merged != [] && rs[j].a <= merged[|merged| - 1].b {
        var last := merged[|merged| - 1];
        merged := merged[|merged| - 1 := Range(last.a, Max(last.b, rs[j].b))];
        MergedWiden(before, rs[..j], rs[j]);
        WidenSeparated(before, rs[j], s0, s1);
      } else {
        merged := merged + [rs[j]];
        MergedSnoc(before, rs[..j], rs[j]);
        SnocSeparated(before, rs[j], s0, s1);
      }
    }
    assert rs[..|rs|] == rs;
  }

  lemma NoneSeparated(s0: nat, s1: nat)
    ensures Separated([], s0, s1)
  {
  }

  lemma SnocSeparated(rs: seq<Range>, r: Range, s0: nat, s1: nat)
    requires Separated(rs, s0, s1) && s0 <= r.a < r.b <= s1
    requires rs != [] ==> rs[|rs| - 1].b < r.a
    ensures Separated(rs + [r], s0, s1)
  {
  }

  lemma WidenSeparated(rs: seq<Range>, r: Range, s0: nat, s1: nat)
    requires Separated(rs, s0, s1) && rs != [] && s0 <= r.a < r.b <= s1
    ensures var last := rs[|rs| - 1];
            Separated(rs[|rs| - 1 := Range(last.a, Max(last.b, r.b))], s0, s1)
  {
  }

  lemma MergedSnoc(merged: seq<Range>, rs: seq<Range>, r: Range)
    requires forall p :: InRanges(merged, p) <==> InRanges(rs, p)
    ensures forall p :: InRanges(merged + [r], p) <==> InRanges(rs + [r], p)
  {
    forall p ensures InRanges(merged + [r], p) <==> InRanges(rs + [r], p) {
      RangesSnoc(merged, r, p);
      RangesSnoc(rs, r, p);
    }
  }

  lemma MergedWiden(merged: seq<Range>, rs: seq<Range>, r: Range)
    requires forall p :: InRanges(merged, p) <==> InRanges(rs, p)
    requires merged != [] && merged[|merged| - 1].a <= r.a <= merged[|merged| - 1].b && r.a < r.b
    ensures var last := merged[|merged| - 1];
            forall p :: InRanges(merged[|merged| - 1 := Range(last.a, Max(last.b, r.b))], p) <==> InRanges(rs + [r], p)
  {
    var last := merged[|merged| - 1];
    var wide := merged[|merged| - 1 := Range(last.a, Max(last.b, r.b))];
    forall p ensures InRanges(wide, p) <==> InRanges(rs + [r], p) {
      RangesWiden(merged, r, p);
      RangesSnoc(rs, r, p);
    }
  }

  lemma LiveSnoc(tensors: seq<Entry>, i: nat, p: nat)
    requires i < |tensors|
    ensures Live(tensors[..i + 1], p) <==> Live(tensors[..i], p) || Covers(tensors[i], p)
  {
    if Live(tensors[..i], p) {
      var k :| 0 <= k < i && Covers(tensors[..i][k], p);
      assert tensors[..i + 1][k] == tensors[..i][k];
    }
    if Live(tensors[..i + 1], p) {
      var k :| 0 <= k < i + 1 && Covers(tensors[..i + 1][k], p);
      assert k < i ==> tensors[..i][k] == tensors[..i + 1][k];
    }
    assert tensors[..i + 1][i] == tensors[i];
  }

  lemma RangesSnoc(rs: seq<Range>, r: Range, p: nat)
    ensures InRanges(rs + [r], p) <==> InRanges(rs, p) || r.a <= p < r.b
  {
    var s := rs + [r];
    if InRanges(rs, p) {
      var i :| 0 <= i < |rs| && rs[i].a <= p < rs[i].b;
      assert s[i] == rs[i];
    }
    if InRanges(s, p) {
      var i :| 0 <= i < |s| && s[i].a <= p < s[i].b;
      assert i < |rs| ==> rs[i] == s[i];
    }
    assert s[|rs|] == r;
  }

  lemma RangesWiden(rs: seq<Range>, r: Range, p: nat)
    requires rs != [] && rs[|rs| - 1].a <= r.a <= rs[|rs| - 1].b && r.a < r.b
    ensures var last := rs[|rs| - 1];
            InRanges(rs[|rs| - 1 := Range(last.a, Max(last.b, r.b))], p) <==> InRanges(rs, p) || r.a <= p < r.b
  {
    var n := |rs| - 1;
    var w := rs[n := Range(rs[n].a, Max(rs[n].b, r.b))];
    if InRanges(rs, p) {
      var i :| 0 <= i < |rs| && rs[i].a <= p < rs[i].b;
      assert w[i].a <= p < w[i].b;
    }
    if r.a <= p < r.b { assert w[n].a <= p < w[n].b; }
    if InRanges(w, p) {
      var i :| 0 <= i < |w| && w[i].a <= p < w[i].b;
      assert rs[i].a <= p < rs[i].b || r.a <= p < r.b;
    }
  }

  lemma RangesSame(x: seq<Range>, y: seq<Range>, p: nat)
    requires forall r :: r in x <==> r in y
    ensures InRanges(x, p) <==> InRanges(y, p)
  {
    if InRanges(x, p) {
      var i :| 0 <= i < |x| && x[i].a <= p < x[i].b;
      assert x[i] in y;
    }
    if InRanges(y, p) {
      var i :| 0 <= i < |y| && y[i].a <= p < y[i].b;
      assert y[i] in x;
    }
  }

  // ---- prefix sums and remap ----

  /** prefix[i]: bytes in the first i ranges. */
  function Prefix(live: seq<Range>, i: nat): nat
    requires i <= |live| && forall k :: 0 <= k < i ==> live[k].a <= live[k].b
  {
    if i == 0 then 0 else Prefix(live, i - 1) + (live[i - 1].b - live[i - 1].a)
  }

  lemma GapIsDead(live: seq<Range>, tensors: seq<Entry>, s0: nat, s1: nat, i: nat, p: nat)
    requires ListsLive(live, tensors, s0, s1) && i <= |live|
    requires i > 0 ==> live[i - 1].b <= p
    requires i < |live| ==> p < live[i].a
    requires s0 <= p < s1
    ensures !Live(tensors, p)
  {
    assert forall k :: 0 <= k < i - 1 ==> live[k].b < live[i - 1].a;
  }

  lemma RangeIsLive(live: seq<Range>, tensors: seq<Entry>, s0: nat, s1: nat, i: nat, p: nat)
    requires ListsLive(live, tensors, s0, s1) && i < |live| && live[i].a <= p < live[i].b
    ensures Live(tensors, p)
  {
  }

  function Start(live: seq<Range>, i: nat, s1: nat): nat
    requires i <= |live|
  {
    if i < |live| then live[i].a else s1
  }

  /** Up to anywhere in the gap before range i, the live bytes are those of the first i ranges. */
  lemma {:induction false} PrefixCounts(live: seq<Range>, tensors: seq<Entry>, s0: nat, s1: nat, i: nat, p: nat)
    requires ListsLive(live, tensors, s0, s1) && i <= |live| && s0 <= p <= Start(live, i, s1) && s0 <= s1
    requires i > 0 ==> live[i - 1].b <= p
    ensures CountLive(tensors, s0, p) == Prefix(live, i)
    decreases i
  {
    hide ListsLive, CountLive;
    if i == 0 {
      GapCounts(live, tensors, s0, s1, 0, s0, p);
    } else {
      var r := live[i - 1];
      ListsInside(live, tensors, s0, s1, i - 1);
      PrefixCounts(live, tensors, s0, s1, i - 1, r.a);
      RangeCounts(live, tensors, s0, s1, i - 1, r.b);
      GapCounts(live, tensors, s0, s1, i, r.b, p);
      CountSplit(tensors, s0, r.a, r.b);
      CountSplit(tensors, s0, r.b, p);
    }
  }

  lemma ListsInside(live: seq<Range>, tensors: seq<Entry>, s0: nat, s1: nat, i: nat)
    requires ListsLive(live, tensors, s0, s1) && i < |live|
    ensures s0 <= live[i].a < live[i].b <= s1 && (i > 0 ==> live[i - 1].b < live[i].a)
  {
  }

  lemma RangeCounts(live: seq<Range>, tensors: seq<Entry>, s0: nat, s1: nat, i: nat, p: nat)
    requires ListsLive(live, tensors, s0, s1) && s0 <= s1 && i < |live| && live[i].a <= p <= live[i].b
    ensures CountLive(tensors, live[i].a, p) == p - live[i].a
  {
    forall q | live[i].a <= q < p ensures Live(tensors, q) { RangeIsLive(live, tensors, s0, s1, i, q); }
    CountAll(tensors, live[i].a, p);
  }

  lemma GapCounts(live: seq<Range>, tensors: seq<Entry>, s0: nat, s1: nat, i: nat, from: nat, p: nat)
    requires ListsLive(live, tensors, s0, s1) && s0 <= s1 && i <= |live|
    requires s0 <= from <= p <= Start(live, i, s1) && (i > 0 ==> live[i - 1].b <= from)
    ensures CountLive(tensors, from, p) == 0
  {
    forall q | from <= q < p ensures !Live(tensors, q) { GapIsDead(live, tensors, s0, s1, i, q); }
    CountNone(tensors, from, p);
  }

  /** Python's bisect_right on an ascending list. */
  function BisectRight(starts: seq<nat>, x: nat): (i: nat)
    ensures i <= |starts|
    ensures i > 0 ==> starts[i - 1] <= x
    ensures i < |starts| ==> x < starts[i]
  {
    if starts == [] || x < starts[0] then 0 else 1 + BisectRight(starts[1..], x)
  }

  /** starts and prefix as compact_in_place tabulates them. */
  predicate Tables(live: seq<Range>, starts: seq<nat>, prefix: seq<nat>) {
    && |starts| == |live| && |prefix| == |live| + 1
    && (forall k :: 0 <= k < |live| ==> starts[k] == live[k].a)
    && (forall k :: 0 <= k < |live| ==> live[k].a <= live[k].b)
    && (forall k :: 0 <= k <= |live| ==> prefix[k] == Prefix(live, k))
  }

  /** Where an entry starting at `go` inside the rewritten shard goes. Only a zero-byte entry can
      sit in a dead gap: it is parked at the next live block. */
  function Remap(live: seq<Range>, starts: seq<nat>, prefix: seq<nat>, s0: nat, go: nat): nat
    requires Tables(live, starts, prefix)
  {
    var i := BisectRight(starts, go) - 1;
    if i < 0 || go >= live[i].b then s0 + prefix[i + 1]
    else s0 + prefix[i] + (go - starts[i])
  }

  lemma RemapIsNewOff(live: seq<Range>, starts: seq<nat>, prefix: seq<nat>, tensors: seq<Entry>, s0: nat, s1: nat, go: nat)
    requires ListsLive(live, tensors, s0, s1) && s0 <= go < s1
    requires Tables(live, starts, prefix)
    ensures Remap(live, starts, prefix, s0, go) == NewOff(tensors, s0, s1, go)
  {
    var i := BisectRight(starts, go) - 1;
    if i < 0 || go >= live[i].b {
      PrefixCounts(live, tensors, s0, s1, i + 1, go);
    } else {
      ListsInside(live, tensors, s0, s1, i);
      PrefixCounts(live, tensors, s0, s1, i, live[i].a);
      RangeCounts(live, tensors, s0, s1, i, go);
      CountSplit(tensors, s0, live[i].a, go);
    }
  }
}
