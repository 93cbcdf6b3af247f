// One compaction step on a whole index: the new index over the new files decodes to
// the same name-to-bytes list and has exactly one dirty shard less.
module CompactionStep {
  import opened FtwFormat
  import opened Compaction

  function Shift(shards: seq<Shard>, delta: nat): (r: seq<Shard>)
    requires forall s <- shards :: delta <= s.globalOff
  {
    seq(|shards|, i requires 0 <= i < |shards| => shards[i].(globalOff := shards[i].globalOff - delta))
  }

  lemma {:induction false} ShiftTiles(shards: seq<Shard>, start: nat, delta: nat)
    requires delta <= start && Tiles(shards, start)
    requires forall s <- shards :: delta <= s.globalOff
    ensures Tiles(Shift(shards, delta), start - delta)
    ensures RegionEnd(Shift(shards, delta), start - delta) == RegionEnd(shards, start) - delta
  {
    if shards != [] {
      ShiftTiles(shards[1..], shards[0].End(), delta);
      assert Shift(shards, delta)[1..] == Shift(shards[1..], delta);
    }
  }

  // ---- dirty shards ----

  function LiveBytes(tensors: seq<Entry>, s: Shard): nat {
    CountLive(tensors, s.globalOff, s.End())
  }

  /** The shard holds bytes no entry references. */
  predicate IsDirty(tensors: seq<Entry>, s: Shard) {
    LiveBytes(tensors, s) < s.nbytes
  }

  function DirtyCount(tensors: seq<Entry>, shards: seq<Shard>): nat {
    if shards == [] then 0
    else (if IsDirty(tensors, shards[0]) then 1 else 0) + DirtyCount(tensors, shards[1..])
  }

  lemma {:induction false} DirtyCountAppend(tensors: seq<Entry>, a: seq<Shard>, b: seq<Shard>)
    ensures DirtyCount(tensors, a + b) == DirtyCount(tensors, a) + DirtyCount(tensors, b)
  {
    if a == [] {
      assert a + b == b;
    } else {
      DirtyCountAppend(tensors, a[1..], b);
      assert (a + b)[1..] == a[1..] + b;
    }
  }

  lemma {:induction false} DirtyCountZero(tensors: seq<Entry>, shards: seq<Shard>)
    ensures DirtyCount(tensors, shards) == 0 <==> forall s <- shards :: !IsDirty(tensors, s)
  {
    if shards != [] {
      DirtyCountZero(tensors, shards[1..]);
      assert shards == [shards[0]] + shards[1..];
    }
  }

  // ---- the shard list after rewriting one shard ----

  /** The rewritten shard, absent when nothing in it is live. */
  function Rewritten(sh: Shard, live: nat, newFile: nat): seq<Shard> {
    if live == 0 then [] else [Shard(newFile, sh.globalOff, live)]
  }

  /** Shards before the rewritten one stay, shards after it move down. */
  function Relist(a: seq<Shard>, sh: Shard, b: seq<Shard>, live: nat, newFile: nat): seq<Shard>
    requires live <= sh.nbytes && forall s <- b :: sh.nbytes <= s.globalOff
  {
    a + (Rewritten(sh, live, newFile) + Shift(b, sh.nbytes - live))
  }

  lemma RewrittenTiles(sh: Shard, live: nat, newFile: nat)
    ensures var mid := Rewritten(sh, live, newFile);
            Tiles(mid, sh.globalOff) && RegionEnd(mid, sh.globalOff) == sh.globalOff + live
  {
    var mid := Rewritten(sh, live, newFile);
    if live > 0 {
      assert mid[1..] == [];
      assert mid[0].End() == sh.globalOff + live;
    }
  }

  lemma RelistTiles(a: seq<Shard>, sh: Shard, b: seq<Shard>, live: nat, newFile: nat)
    requires Tiles(a, 0) && RegionEnd(a, 0) == sh.globalOff && Tiles(b, sh.End())
    requires live <= sh.nbytes && forall s <- b :: sh.nbytes <= s.globalOff
    ensures Tiles(Relist(a, sh, b, live, newFile), 0)
    ensures RegionEnd(Relist(a, sh, b, live, newFile), 0) == RegionEnd(b, sh.End()) - (sh.nbytes - live)
  {
    var mid := Rewritten(sh, live, newFile);
    var delta := sh.nbytes - live;
    ShiftTiles(b, sh.End(), delta);
    RewrittenTiles(sh, live, newFile);
    TilesAppend(mid, Shift(b, delta), sh.globalOff);
    TilesAppend(a, mid + Shift(b, delta), 0);
  }

  lemma RelistAligned(a: seq<Shard>, sh: Shard, b: seq<Shard>, live: nat, newFile: nat)
    requires AlignedShards(a) && AlignedShards(b) && Aligned(live)
    requires live <= sh.nbytes && forall s <- b :: sh.nbytes <= s.globalOff
    ensures AlignedShards(Relist(a, sh, b, live, newFile))
  {
    forall s | s in Shift(b, sh.nbytes - live) ensures Aligned(s.nbytes) {
      var i :| 0 <= i < |b| && Shift(b, sh.nbytes - live)[i] == s;
      assert b[i] in b;
    }
  }

  /** The file of each shard of the new list. */
  lemma RelistFileAt(a: seq<Shard>, sh: Shard, b: seq<Shard>, live: nat, newFile: nat, i: nat)
    requires live <= sh.nbytes && forall s <- b :: sh.nbytes <= s.globalOff
    requires i < |Relist(a, sh, b, live, newFile)|
    ensures var r := Relist(a, sh, b, live, newFile);
            var m := |r| - |b|;
            && (i < |a| ==> r[i] == a[i])
            && (|a| <= i < m ==> live > 0 && r[i] == Shard(newFile, sh.globalOff, live))
            && (m <= i ==> r[i].file == b[i - m].file && r[i].nbytes == b[i - m].nbytes)
  {
  }

  lemma RelistDistinct(a: seq<Shard>, sh: Shard, b: seq<Shard>, live: nat, newFile: nat)
    requires live <= sh.nbytes && forall s <- b :: sh.nbytes <= s.globalOff
    requires DistinctFiles(a + b) && (live > 0 ==> forall s <- a + b :: s.file != newFile)
    ensures DistinctFiles(Relist(a, sh, b, live, newFile))
  {
    var r := Relist(a, sh, b, live, newFile);
    var m := |r| - |b|;
    forall i, j | 0 <= i < j < |r| ensures r[i].file != r[j].file {
      RelistFileAt(a, sh, b, live, newFile, i);
      RelistFileAt(a, sh, b, live, newFile, j);
      assert i < |a| ==> r[i] == (a + b)[i];
      assert j < |a| ==> r[j] == (a + b)[j];
      assert m <= i ==> r[i].file == (a + b)[|a| + i - m].file;
      assert m <= j ==> r[j].file == (a + b)[|a| + j - m].file;
    }
  }

  // ---- dirty count of the new list ----

  lemma DirtyMoves(tensors: seq<Entry>, s0: nat, s1: nat, s: Shard, delta: nat)
    requires s0 <= s1 && delta == (s1 - s0) - CountLive(tensors, s0, s1)
    ensures s.End() <= s0 ==> (IsDirty(Moved(tensors, s0, s1), s) <==> IsDirty(tensors, s))
    ensures s1 <= s.globalOff ==>
              (IsDirty(Moved(tensors, s0, s1), s.(globalOff := s.globalOff - delta)) <==> IsDirty(tensors, s))
    ensures s.End() <= s0 ==> LiveBytes(Moved(tensors, s0, s1), s) == LiveBytes(tensors, s)
    ensures s1 <= s.globalOff ==>
              LiveBytes(Moved(tensors, s0, s1), s.(globalOff := s.globalOff - delta)) == LiveBytes(tensors, s)
  {
    hide NewOff, Moved, Live;
    CountMoves(tensors, s0, s1, s.globalOff, s.End());
    NewOffOutside(tensors, s0, s1, s.globalOff);
    NewOffOutside(tensors, s0, s1, s.End());
  }

  lemma {:induction false} DirtyBefore(tensors: seq<Entry>, s0: nat, s1: nat, a: seq<Shard>)
    requires s0 <= s1 && forall s <- a :: s.End() <= s0
    ensures DirtyCount(Moved(tensors, s0, s1), a) == DirtyCount(tensors, a)
  {
    hide IsDirty, Moved;
    if a != [] {
      DirtyMoves(tensors, s0, s1, a[0], (s1 - s0) - CountLive(tensors, s0, s1));
      DirtyBefore(tensors, s0, s1, a[1..]);
    }
  }

  lemma {:induction false} DirtyAfter(tensors: seq<Entry>, s0: nat, s1: nat, b: seq<Shard>, delta: nat)
    requires s0 <= s1 && delta == (s1 - s0) - CountLive(tensors, s0, s1)
    requires forall s <- b :: s1 <= s.globalOff
    ensures DirtyCount(Moved(tensors, s0, s1), Shift(b, delta)) == DirtyCount(tensors, b)
  {
    hide IsDirty, Moved;
    if b != [] {
      DirtyMoves(tensors, s0, s1, b[0], delta);
      DirtyAfter(tensors, s0, s1, b[1..], delta);
      assert Shift(b, delta)[1..] == Shift(b[1..], delta);
    }
  }

  lemma RewrittenClean(tensors: seq<Entry>, sh: Shard, newFile: nat)
    ensures var live := LiveBytes(tensors, sh);
            DirtyCount(Moved(tensors, sh.globalOff, sh.End()), Rewritten(sh, live, newFile)) == 0
  {
    CountMoves(tensors, sh.globalOff, sh.End(), sh.globalOff, sh.End());
  }

  /** The rewritten shard is fully live, the other shards keep their status. */
  lemma RelistDirty(tensors: seq<Entry>, a: seq<Shard>, sh: Shard, b: seq<Shard>, newFile: nat)
    requires IsDirty(tensors, sh)
    requires forall s <- a :: s.End() <= sh.globalOff
    requires forall s <- b :: sh.End() <= s.globalOff
    ensures DirtyCount(Moved(tensors, sh.globalOff, sh.End()),
                       Relist(a, sh, b, LiveBytes(tensors, sh), newFile)) + 1
         == DirtyCount(tensors, a + ([sh] + b))
  {
    hide Moved, Live, Rewritten;
    var live := LiveBytes(tensors, sh);
    var moved := Moved(tensors, sh.globalOff, sh.End());
    var mid, tail := Rewritten(sh, live, newFile), Shift(b, sh.nbytes - live);
    DirtyCountAppend(moved, a, mid + tail);
    DirtyCountAppend(moved, mid, tail);
    DirtyCountAppend(tensors, a, [sh] + b);
    DirtyBefore(tensors, sh.globalOff, sh.End(), a);
    DirtyAfter(tensors, sh.globalOff, sh.End(), b, sh.nbytes - live);
    RewrittenClean(tensors, sh, newFile);
    assert ([sh] + b)[1..] == b;
  }

  // ---- free numbers ----

  predicate Clean(tensors: seq<Entry>, shards: seq<Shard>) {
    forall s <- shards :: !IsDirty(tensors, s)
  }

  /** Dirty shards are rewritten in region order. One with a live byte asks for the next number, which
      must not be a file the index names by then; `taken` are those files. */
  predicate Room(tensors: seq<Entry>, todo: seq<Shard>, taken: set<nat>, next: nat) {
    todo == [] ||
    if !IsDirty(tensors, todo[0]) then Room(tensors, todo[1..], taken, next)
    else if LiveBytes(tensors, todo[0]) == 0 then Room(tensors, todo[1..], taken - {todo[0].file}, next)
    else next !in taken && Room(tensors, todo[1..], taken - {todo[0].file}, next + 1)
  }

  lemma {:induction false} RoomSkips(tensors: seq<Entry>, a: seq<Shard>, rest: seq<Shard>, taken: set<nat>, next: nat)
    requires Clean(tensors, a)
    ensures Room(tensors, a + rest, taken, next) <==> Room(tensors, rest, taken, next)
  {
    hide IsDirty;
    if a == [] {
      assert a + rest == rest;
    } else {
      RoomSkips(tensors, a[1..], rest, taken, next);
      assert (a + rest)[0] == a[0] && (a + rest)[1..] == a[1..] + rest;
    }
  }

  /** A file numbered below all that are still asked for never gets in the way. */
  lemma {:induction false} RoomBelow(tensors: seq<Entry>, todo: seq<Shard>, taken: set<nat>, x: nat, next: nat)
    requires x < next
    ensures Room(tensors, todo, taken + {x}, next) <==> Room(tensors, todo, taken, next)
  {
    hide IsDirty, LiveBytes;
    if todo != [] {
      var f := todo[0].file;
      var next' := if LiveBytes(tensors, todo[0]) == 0 then next else next + 1;
      RoomBelow(tensors, todo[1..], taken, x, next);
      RoomBelow(tensors, todo[1..], taken - {f}, x, next');
      assert taken + {x} - {f} == if x == f then taken - {f} else taken - {f} + {x};
    }
  }

  lemma {:induction false} RoomAbove(tensors: seq<Entry>, todo: seq<Shard>, taken: set<nat>, next: nat)
    requires forall x <- taken :: x < next
    ensures Room(tensors, todo, taken, next)
  {
    hide IsDirty, LiveBytes;
    if todo != [] {
      RoomAbove(tensors, todo[1..], taken, next);
      RoomAbove(tensors, todo[1..], taken - {todo[0].file}, next);
      RoomAbove(tensors, todo[1..], taken - {todo[0].file}, next + 1);
    }
  }

  lemma {:induction false} RoomMoves(tensors: seq<Entry>, s0: nat, s1: nat, b: seq<Shard>, delta: nat, taken: set<nat>, next: nat)
    requires s0 <= s1 && delta == (s1 - s0) - CountLive(tensors, s0, s1)
    requires forall s <- b :: s1 <= s.globalOff
    ensures Room(Moved(tensors, s0, s1), Shift(b, delta), taken, next) <==> Room(tensors, b, taken, next)
  {
    hide IsDirty, Moved, LiveBytes;
    if b != [] {
      DirtyMoves(tensors, s0, s1, b[0], delta);
      RoomMoves(tensors, s0, s1, b[1..], delta, taken, next);
      RoomMoves(tensors, s0, s1, b[1..], delta, taken - {b[0].file}, next);
      RoomMoves(tensors, s0, s1, b[1..], delta, taken - {b[0].file}, next + 1);
      assert Shift(b, delta)[1..] == Shift(b[1..], delta);
    }
  }

  lemma CleanMoves(tensors: seq<Entry>, a: seq<Shard>, sh: Shard, newFile: nat)
    requires Clean(tensors, a) && forall s <- a :: s.End() <= sh.globalOff
    ensures Clean(Moved(tensors, sh.globalOff, sh.End()), a + Rewritten(sh, LiveBytes(tensors, sh), newFile))
  {
    hide IsDirty, Moved, LiveBytes, Rewritten;
    var moved, mid := Moved(tensors, sh.globalOff, sh.End()), Rewritten(sh, LiveBytes(tensors, sh), newFile);
    DirtyBefore(tensors, sh.globalOff, sh.End(), a);
    DirtyCountZero(tensors, a);
    RewrittenClean(tensors, sh, newFile);
    DirtyCountAppend(moved, a, mid);
    DirtyCountZero(moved, a + mid);
  }

  function Made(live: nat, next: nat): set<nat> {
    if live > 0 then {next} else {}
  }

  function After(live: nat, next: nat): nat {
    if live > 0 then next + 1 else next
  }

  /** A step leaves room exactly when there was room before it. */
  lemma RoomStep(tensors: seq<Entry>, a: seq<Shard>, sh: Shard, b: seq<Shard>, taken: set<nat>, next: nat)
    requires Clean(tensors, a) && IsDirty(tensors, sh)
    requires forall s <- a :: s.End() <= sh.globalOff
    requires forall s <- b :: sh.End() <= s.globalOff
    requires LiveBytes(tensors, sh) > 0 ==> next !in taken
    ensures var live := LiveBytes(tensors, sh);
            Room(tensors, a + ([sh] + b), taken, next)
              == Room(Moved(tensors, sh.globalOff, sh.End()), Relist(a, sh, b, live, next),
                      taken - {sh.file} + Made(live, next), After(live, next))
  {
    hide Moved, Live, LiveBytes, IsDirty, Clean, Room, Made, After, Shift, Rewritten;
    DeadBytes(tensors, sh);
    RoomSkips(tensors, a, [sh] + b, taken, next);
    RoomHead(tensors, sh, b, taken, next);
    RoomTail(tensors, a, sh, b, taken - {sh.file}, next);
  }

  lemma RoomTail(tensors: seq<Entry>, a: seq<Shard>, sh: Shard, b: seq<Shard>, taken: set<nat>, next: nat)
    requires Clean(tensors, a)
    requires forall s <- a :: s.End() <= sh.globalOff
    requires forall s <- b :: sh.End() <= s.globalOff
    ensures var live := LiveBytes(tensors, sh);
            Room(tensors, b, taken, After(live, next))
              == Room(Moved(tensors, sh.globalOff, sh.End()), Relist(a, sh, b, live, next),
                      taken + Made(live, next), After(live, next))
  {
    hide Moved, Live, LiveBytes, IsDirty, Clean, Room, Made, After, Shift, Rewritten;
    DeadBytes(tensors, sh);
    var live := LiveBytes(tensors, sh);
    var moved := Moved(tensors, sh.globalOff, sh.End());
    var tail := Shift(b, sh.nbytes - live);
    RoomMoves(tensors, sh.globalOff, sh.End(), b, sh.nbytes - live, taken, After(live, next));
    RoomMade(moved, tail, taken, live, next);
    CleanMoves(tensors, a, sh, next);
    RoomSkips3(moved, a, Rewritten(sh, live, next), tail, taken + Made(live, next), After(live, next));
  }

  lemma RoomSkips3(tensors: seq<Entry>, a: seq<Shard>, mid: seq<Shard>, rest: seq<Shard>, taken: set<nat>, next: nat)
    requires Clean(tensors, a + mid)
    ensures Room(tensors, a + (mid + rest), taken, next) <==> Room(tensors, rest, taken, next)
  {
    hide Clean, Room;
    RoomSkips(tensors, a + mid, rest, taken, next);
    assert a + (mid + rest) == a + mid + rest;
  }

  lemma RoomHead(tensors: seq<Entry>, sh: Shard, b: seq<Shard>, taken: set<nat>, next: nat)
    requires IsDirty(tensors, sh)
    requires LiveBytes(tensors, sh) > 0 ==> next !in taken
    ensures Room(tensors, [sh] + b, taken, next)
       <==> Room(tensors, b, taken - {sh.file}, After(LiveBytes(tensors, sh), next))
  {
    hide IsDirty, LiveBytes;
    assert ([sh] + b)[1..] == b;
  }

  lemma RoomMade(tensors: seq<Entry>, todo: seq<Shard>, taken: set<nat>, live: nat, next: nat)
    ensures Room(tensors, todo, taken + Made(live, next), After(live, next))
       <==> Room(tensors, todo, taken, After(live, next))
  {
    hide Room;
    if live > 0 {
      RoomBelow(tensors, todo, taken, next, After(live, next));
    } else {
      assert taken + {} == taken;
    }
  }

  lemma DeadBytes(tensors: seq<Entry>, sh: Shard)
    ensures LiveBytes(tensors, sh) <= sh.nbytes
    ensures sh.nbytes - LiveBytes(tensors, sh) == (sh.End() - sh.globalOff) - CountLive(tensors, sh.globalOff, sh.End())
  {
  }

  // ---- the index after the step ----

  lemma SplitFacts(a: seq<Shard>, sh: Shard, b: seq<Shard>)
    requires Tiles(a + ([sh] + b), 0)
    ensures Tiles(a, 0) && RegionEnd(a, 0) == sh.globalOff
    ensures Tiles(b, sh.End()) && RegionEnd(b, sh.End()) == RegionEnd(a + ([sh] + b), 0)
    ensures sh.End() <= RegionEnd(a + ([sh] + b), 0)
    ensures forall x <- a :: x.End() <= sh.globalOff
    ensures forall x <- b :: sh.End() <= x.globalOff
  {
    TilesAppend(a, [sh] + b, 0);
    assert ([sh] + b)[1..] == b;
    TilesAscending(a, 0);
    TilesAscending(b, sh.End());
  }

  lemma {:induction false} AlignedEnd(shards: seq<Shard>, start: nat)
    requires AlignedShards(shards) && Tiles(shards, start) && Aligned(start)
    ensures Aligned(RegionEnd(shards, start))
  {
    if shards != [] {
      AlignedEnd(shards[1..], shards[0].End());
    }
  }

  /** Shard sh of the index, with the shards before and after it in region order. */
  ghost predicate SplitAt(index: Index, a: seq<Shard>, sh: Shard, b: seq<Shard>) {
    SortShards(index.shards) == a + ([sh] + b)
  }

  /** newFile is free to take the live bytes of sh. */
  ghost predicate CanCompact(index: Index, a: seq<Shard>, sh: Shard, b: seq<Shard>, newFile: nat) {
    && WellFormed(index) && SplitAt(index, a, sh, b)
    && (LiveBytes(index.tensors, sh) > 0 ==> (forall s <- a :: s.file != newFile) && forall s <- b :: s.file != newFile)
  }

  lemma SplitIndex(index: Index, a: seq<Shard>, sh: Shard, b: seq<Shard>)
    requires WellFormed(index) && SplitAt(index, a, sh, b)
    ensures Tiles(a, 0) && RegionEnd(a, 0) == sh.globalOff
    ensures Tiles(b, sh.End()) && RegionEnd(b, sh.End()) == index.totalBytes
    ensures forall x <- a :: x.End() <= sh.globalOff
    ensures forall x <- b :: sh.End() <= x.globalOff
    ensures sh.End() <= index.totalBytes
    ensures AlignedShards(a) && AlignedShards(b) && DistinctFiles(a + b)
    ensures Aligned(sh.globalOff) && Aligned(sh.End())
  {
    hide WellPlaced, Tiles, RegionEnd, AlignedShards, DistinctFiles, SortShards;
    SplitFacts(a, sh, b);
    PartsAligned(a, sh, b);
    AlignedEnd(a, 0);
    RestDistinct(a, sh, b);
  }

  lemma PartsAligned(a: seq<Shard>, sh: Shard, b: seq<Shard>)
    requires AlignedShards(a + ([sh] + b))
    ensures AlignedShards(a) && Aligned(sh.nbytes) && AlignedShards(b)
  {
    var s := a + ([sh] + b);
    assert forall x <- a :: x in s;
    assert forall x <- b :: x in s;
    assert sh in s;
  }

  lemma RestDistinct(a: seq<Shard>, sh: Shard, b: seq<Shard>)
    requires DistinctFiles(a + ([sh] + b))
    ensures DistinctFiles(a + b)
    ensures forall x <- a + b :: x.file != sh.file
  {
    var s, r := a + ([sh] + b), a + b;
    assert forall i :: 0 <= i < |a| ==> r[i] == s[i];
    assert forall i :: |a| <= i < |r| ==> r[i] == s[i + 1];
    assert s[|a|] == sh;
  }

  /** The index compact_in_place installs after rewriting sh into newFile. */
  ghost function Compacted(index: Index, a: seq<Shard>, sh: Shard, b: seq<Shard>, newFile: nat): Index
    requires WellFormed(index) && SplitAt(index, a, sh, b)
  {
    SplitIndex(index, a, sh, b);
    var live := LiveBytes(index.tensors, sh);
    index.(tensors := Moved(index.tensors, sh.globalOff, sh.End()),
           shards := Relist(a, sh, b, live, newFile),
           totalBytes := index.totalBytes - (sh.nbytes - live))
  }

  lemma CompactedSorted(index: Index, a: seq<Shard>, sh: Shard, b: seq<Shard>, newFile: nat)
    requires CanCompact(index, a, sh, b, newFile)
    ensures var c := Compacted(index, a, sh, b, newFile);
            && Tiles(c.shards, 0) && RegionEnd(c.shards, 0) == c.totalBytes
            && SortShards(c.shards) == c.shards
  {
    SplitIndex(index, a, sh, b);
    RelistTiles(a, sh, b, LiveBytes(index.tensors, sh), newFile);
    TilesAscending(Compacted(index, a, sh, b, newFile).shards, 0);
    SortShardsIdentity(Compacted(index, a, sh, b, newFile).shards);
  }

  /** Tiling, alignment, unique names and disjoint blocks survive the step. */
  lemma CompactedWellFormed(index: Index, a: seq<Shard>, sh: Shard, b: seq<Shard>, newFile: nat)
    requires CanCompact(index, a, sh, b, newFile)
    ensures WellFormed(Compacted(index, a, sh, b, newFile))
  {
    hide WellPlaced, AlignedShards, DistinctFiles, Tiles, RegionEnd, Relist, NewOff, Moved, SplitAt;
    CompactedSorted(index, a, sh, b, newFile);
    CompactedParts(index, a, sh, b, newFile);
  }

  lemma CompactedParts(index: Index, a: seq<Shard>, sh: Shard, b: seq<Shard>, newFile: nat)
    requires CanCompact(index, a, sh, b, newFile)
    ensures var c := Compacted(index, a, sh, b, newFile);
            AlignedShards(c.shards) && DistinctFiles(c.shards) && WellPlaced(c.tensors, c.totalBytes)
  {
    hide WellPlaced, AlignedShards, DistinctFiles, Tiles, RegionEnd, Relist, NewOff, Moved, SortShards;
    SplitIndex(index, a, sh, b);
    LiveAligned(index.tensors, index.totalBytes, sh);
    RelistAligned(a, sh, b, LiveBytes(index.tensors, sh), newFile);
    DistinctAvoid(a, b, newFile);
    RelistDistinct(a, sh, b, LiveBytes(index.tensors, sh), newFile);
    MovedWellPlaced(index.tensors, sh.globalOff, sh.End(), index.totalBytes);
    NewOffOutside(index.tensors, sh.globalOff, sh.End(), index.totalBytes);
  }

  lemma LiveAligned(tensors: seq<Entry>, total: nat, sh: Shard)
    requires WellPlaced(tensors, total) && Aligned(sh.globalOff) && Aligned(sh.End())
    ensures Aligned(LiveBytes(tensors, sh))
  {
    CountAligned(tensors, sh.globalOff, sh.End());
  }

  lemma DistinctAvoid(a: seq<Shard>, b: seq<Shard>, newFile: nat)
    ensures (forall s <- a :: s.file != newFile) && (forall s <- b :: s.file != newFile) ==>
              forall s <- a + b :: s.file != newFile
  {
  }

  /** Dirty shards drop by exactly one: the termination measure of compact_in_place. */
  lemma CompactedDirty(index: Index, a: seq<Shard>, sh: Shard, b: seq<Shard>, newFile: nat)
    requires CanCompact(index, a, sh, b, newFile) && IsDirty(index.tensors, sh)
    ensures var c := Compacted(index, a, sh, b, newFile);
            DirtyCount(c.tensors, SortShards(c.shards)) + 1 == DirtyCount(index.tensors, SortShards(index.shards))
  {
    SplitIndex(index, a, sh, b);
    CompactedSorted(index, a, sh, b, newFile);
    RelistDirty(index.tensors, a, sh, b, newFile);
  }

  // ---- the bytes after the step ----

  lemma RegionThree(files: map<nat, Bytes>, a: seq<Shard>, m: seq<Shard>, b: seq<Shard>)
    requires HasShards(files, a) && HasShards(files, m) && HasShards(files, b)
    ensures HasShards(files, a + (m + b))
    ensures Region(files, a + (m + b)) == Region(files, a) + Region(files, m) + Region(files, b)
  {
    RegionAppend(files, m, b);
    RegionAppend(files, a, m + b);
  }

  lemma OneShard(files: map<nat, Bytes>, s: Shard)
    requires HasShards(files, [s])
    ensures Region(files, [s]) == files[s.file]
  {
  }

  lemma HasParts(files: map<nat, Bytes>, a: seq<Shard>, sh: Shard, b: seq<Shard>)
    requires HasShards(files, a + ([sh] + b))
    ensures HasShards(files, a) && HasShards(files, [sh]) && HasShards(files, b)
  {
    var s := a + ([sh] + b);
    assert forall x <- a :: x in s;
    assert forall x <- b :: x in s;
    assert sh in s;
  }

  /** The region around shard sh. */
  lemma RegionParts(files: map<nat, Bytes>, a: seq<Shard>, sh: Shard, b: seq<Shard>)
    requires HasShards(files, a + ([sh] + b)) && Tiles(a + ([sh] + b), 0)
    ensures HasShards(files, a) && HasShards(files, b)
    ensures var region := Region(files, a + ([sh] + b));
            && sh.End() <= |region|
            && Region(files, a) == region[..sh.globalOff]
            && Region(files, b) == region[sh.End()..]
            && sh.file in files && files[sh.file] == region[sh.globalOff..sh.End()]
  {
    SplitFacts(a, sh, b);
    HasParts(files, a, sh, b);
    RegionThree(files, a, [sh], b);
    RegionLength(files, a, 0);
    OneShard(files, sh);
  }

  lemma SameFiles(files: map<nat, Bytes>, files': map<nat, Bytes>, a: seq<Shard>, b: seq<Shard>, tail: seq<Shard>)
    requires HasShards(files, a) && HasShards(files, b)
    requires forall x <- a :: x.file in files' && files'[x.file] == files[x.file]
    requires forall x <- b :: x.file in files' && files'[x.file] == files[x.file]
    requires |tail| == |b| && forall i :: 0 <= i < |b| ==> tail[i].file == b[i].file && tail[i].nbytes == b[i].nbytes
    ensures HasShards(files', a) && HasShards(files', tail)
    ensures Region(files', a) == Region(files, a) && Region(files', tail) == Region(files, b)
  {
    RegionFrame(files', files, a, a);
    RegionFrame(files', files, tail, b);
  }

  /** files' keeps the other shards' files and holds the live bytes of sh in newFile. */
  ghost predicate Rewrote(files: map<nat, Bytes>, files': map<nat, Bytes>, tensors: seq<Entry>,
                          a: seq<Shard>, sh: Shard, b: seq<Shard>, newFile: nat)
    requires HasShards(files, a + ([sh] + b))
  {
    && (forall x <- a :: x.file in files' && files'[x.file] == files[x.file])
    && (forall x <- b :: x.file in files' && files'[x.file] == files[x.file])
    && sh.End() <= |Region(files, a + ([sh] + b))|
    && (LiveBytes(tensors, sh) > 0 ==>
          && newFile in files'
          && files'[newFile] == Kept(Region(files, a + ([sh] + b)), tensors, sh.globalOff, sh.End()))
  }

  lemma RelistRegion(files: map<nat, Bytes>, files': map<nat, Bytes>, tensors: seq<Entry>,
                     a: seq<Shard>, sh: Shard, b: seq<Shard>, newFile: nat)
    requires HasShards(files, a + ([sh] + b)) && Tiles(a + ([sh] + b), 0)
    requires Rewrote(files, files', tensors, a, sh, b, newFile)
    ensures forall x <- b :: sh.nbytes <= x.globalOff
    ensures var s' := Relist(a, sh, b, LiveBytes(tensors, sh), newFile);
            && HasShards(files', s')
            && Region(files', s') == NewRegion(Region(files, a + ([sh] + b)), tensors, sh.globalOff, sh.End())
  {
    SplitFacts(a, sh, b);
    RegionParts(files, a, sh, b);
    RelistParts(files, files', a, sh, b, LiveBytes(tensors, sh), newFile,
                Kept(Region(files, a + ([sh] + b)), tensors, sh.globalOff, sh.End()));
  }

  lemma RelistParts(files: map<nat, Bytes>, files': map<nat, Bytes>, a: seq<Shard>, sh: Shard, b: seq<Shard>,
                    live: nat, newFile: nat, content: Bytes)
    requires HasShards(files, a) && HasShards(files, b)
    requires live <= sh.nbytes && forall x <- b :: sh.nbytes <= x.globalOff
    requires forall x <- a :: x.file in files' && files'[x.file] == files[x.file]
    requires forall x <- b :: x.file in files' && files'[x.file] == files[x.file]
    requires |content| == live && (live > 0 ==> newFile in files' && files'[newFile] == content)
    ensures var s' := Relist(a, sh, b, live, newFile);
            && HasShards(files', s')
            && Region(files', s') == Region(files, a) + content + Region(files, b)
  {
    var mid, tail := Rewritten(sh, live, newFile), Shift(b, sh.nbytes - live);
    SameFiles(files, files', a, b, tail);
    if live > 0 {
      OneShard(files', mid[0]);
    }
    RegionThree(files', a, mid, tail);
  }

  /** Slicing the new region at the moved entries gives the old slices. */
  lemma SlicesKept(region: Bytes, tensors: seq<Entry>, s0: nat, s1: nat)
    requires s0 <= s1 <= |region| && forall e <- tensors :: e.globalOff + e.nbytes <= |region|
    ensures forall e <- Moved(tensors, s0, s1) :: e.globalOff + e.nbytes <= |NewRegion(region, tensors, s0, s1)|
    ensures Slices(NewRegion(region, tensors, s0, s1), Moved(tensors, s0, s1)) == Slices(region, tensors)
  {
    hide NewOff, NewRegion, Live;
    var r', t' := NewRegion(region, tensors, s0, s1), Moved(tensors, s0, s1);
    forall i | 0 <= i < |tensors|
      ensures t'[i].globalOff + t'[i].nbytes <= |r'|
      ensures r'[t'[i].globalOff..t'[i].globalOff + t'[i].nbytes]
           == region[tensors[i].globalOff..tensors[i].globalOff + tensors[i].nbytes]
    {
      EntryKept(region, tensors, s0, s1, tensors[i]);
    }
  }

  lemma CompactedLoads(files: map<nat, Bytes>, files': map<nat, Bytes>, index: Index,
                       a: seq<Shard>, sh: Shard, b: seq<Shard>, newFile: nat)
    requires CanCompact(index, a, sh, b, newFile) && Loads(files, index)
    requires Rewrote(files, files', index.tensors, a, sh, b, newFile)
    ensures var c := Compacted(index, a, sh, b, newFile);
            && Loads(files', c)
            && Region(files', SortShards(c.shards))
            == NewRegion(Region(files, SortShards(index.shards)), index.tensors, sh.globalOff, sh.End())
  {
    CompactedWellFormed(index, a, sh, b, newFile);
    CompactedSorted(index, a, sh, b, newFile);
    RelistRegion(files, files', index.tensors, a, sh, b, newFile);
  }

  /** Every entry of the new index reads back its old bytes. */
  lemma CompactedDecodes(files: map<nat, Bytes>, files': map<nat, Bytes>, index: Index,
                         a: seq<Shard>, sh: Shard, b: seq<Shard>, newFile: nat)
    requires CanCompact(index, a, sh, b, newFile) && Loads(files, index)
    requires Rewrote(files, files', index.tensors, a, sh, b, newFile)
    ensures Loads(files', Compacted(index, a, sh, b, newFile))
    ensures Decode(files', Compacted(index, a, sh, b, newFile)) == Decode(files, index)
  {
    CompactedLoads(files, files', index, a, sh, b, newFile);
    LoadedRegion(files, index);
    SlicesKept(Region(files, SortShards(index.shards)), index.tensors, sh.globalOff, sh.End());
  }

  // ---- what a clean index weighs ----

  function PaddedBytes(tensors: seq<Entry>): nat {
    if tensors == [] then 0
    else PaddedBytes(tensors[..|tensors| - 1]) + AlignUp(tensors[|tensors| - 1].nbytes)
  }

  function Overlap(e: Entry, hi: nat): nat {
    if hi <= e.globalOff then 0 else if hi < e.BlockEnd() then hi - e.globalOff else AlignUp(e.nbytes)
  }

  /** Where block e lies, no other block does. */
  lemma LiveLast(tensors: seq<Entry>, p: nat)
    requires |tensors| > 0 && DisjointBlocks(tensors)
    ensures var rest, e := tensors[..|tensors| - 1], tensors[|tensors| - 1];
            && (Live(tensors, p) <==> Live(rest, p) || Covers(e, p))
            && !(Live(rest, p) && Covers(e, p))
  {
    var n := |tensors| - 1;
    var rest, e := tensors[..n], tensors[n];
    assert forall i :: 0 <= i < n ==> rest[i] == tensors[i];
    assert forall i :: 0 <= i < n ==> !(Covers(tensors[i], p) && Covers(e, p));
  }

  lemma {:induction false} CountLast(tensors: seq<Entry>, hi: nat)
    requires |tensors| > 0 && DisjointBlocks(tensors)
    ensures var e := tensors[|tensors| - 1];
            CountLive(tensors, 0, hi) == CountLive(tensors[..|tensors| - 1], 0, hi) + Overlap(e, hi)
    decreases hi
  {
    hide Live, DisjointBlocks;
    if hi > 0 {
      CountLast(tensors, hi - 1);
      LiveLast(tensors, hi - 1);
    }
  }

  lemma {:induction false} CountIsPadded(tensors: seq<Entry>, total: nat)
    requires DisjointBlocks(tensors) && forall e <- tensors :: e.BlockEnd() <= total
    ensures CountLive(tensors, 0, total) == PaddedBytes(tensors)
    decreases |tensors|
  {
    if tensors == [] {
      CountNone(tensors, 0, total);
    } else {
      CountLast(tensors, total);
      CountIsPadded(tensors[..|tensors| - 1], total);
    }
  }

  lemma {:induction false} CountOverShards(tensors: seq<Entry>, shards: seq<Shard>, start: nat)
    requires Tiles(shards, start)
    ensures start <= RegionEnd(shards, start)
    ensures CountLive(tensors, start, RegionEnd(shards, start)) == RegionEnd(shards, start) - start
       <==> DirtyCount(tensors, shards) == 0
  {
    if shards != [] {
      CountOverShards(tensors, shards[1..], shards[0].End());
      CountSplit(tensors, start, shards[0].End(), RegionEnd(shards, start));
    }
  }

  lemma BlocksInside(index: Index)
    requires WellFormed(index)
    ensures forall e <- index.tensors :: e.BlockEnd() <= index.totalBytes
  {
    AlignedEnd(SortShards(index.shards), 0);
  }

  /** An index has no dirty shard exactly when its region is as long as its padded entries. */
  lemma CleanIffTight(index: Index)
    requires WellFormed(index)
    ensures DirtyCount(index.tensors, SortShards(index.shards)) == 0
       <==> index.totalBytes == PaddedBytes(index.tensors)
  {
    BlocksInside(index);
    CountIsPadded(index.tensors, index.totalBytes);
    CountOverShards(index.tensors, SortShards(index.shards), 0);
  }
}
