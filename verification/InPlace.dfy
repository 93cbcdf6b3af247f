// compact_in_place and the rerun after an interruption, on a Store.
module InPlace {
  import opened Basics
  import opened FtwFormat
  import opened Compaction
  import opened CompactionStep
  import opened LiveRanges
  import opened HotfixStore

  type Content = seq<(string, Bytes)>

  /** history only grew since h0, and every state recorded since then can be crashed into without
      losing anything. */
  ghost predicate Grew(h0: seq<Disk>, history: seq<Disk>, content: Content) {
    && h0 <= history
    && forall k :: |h0| <= k < |history| ==> Sound(history[k], content)
  }

  lemma GrewFurther(h0: seq<Disk>, h1: seq<Disk>, h2: seq<Disk>, content: Content)
    requires Grew(h0, h1, content) && Grew(h1, h2, content)
    ensures Grew(h0, h2, content)
  {
  }

  lemma GrewNone(h0: seq<Disk>, content: Content)
    ensures Grew(h0, h0, content)
  {
  }

  /** The state between two steps: nothing pending, and the index decodes to `content`. */
  ghost predicate Settled(store: Store, content: Content)
    reads store
  {
    store.rollback == None && Sound(store.Now(), content)
  }

  ghost function Dirtiness(index: Index): nat {
    DirtyCount(index.tensors, SortShards(index.shards))
  }

  /** dirty_shards: shards holding bytes no entry references, with their live ranges. */
  datatype Dirty = Dirty(shard: Shard, live: seq<Range>, liveBytes: nat)

  method DirtyShards(index: Index) returns (out: seq<Dirty>)
    requires WellFormed(index)
    ensures |out| == Dirtiness(index)
    ensures forall d <- out :: Describes(d, index)
    ensures out != [] ==> ComesFirst(index, out[0].shard)
  {
    hide WellFormed, ListsLive, LiveBytes, Describes, ComesFirst, IsDirty, SortShards;
    var s := SortShards(index.shards);
    out := [];
    for i := 0 to |s|
      invariant |out| == DirtyCount(index.tensors, s[..i])
      invariant forall d <- out :: Describes(d, index)
      invariant if out == [] then Clean(index.tensors, s[..i]) else ComesFirst(index, out[0].shard)
    {
      var live, liveBytes := Weigh(index.tensors, s[i]);
      if liveBytes < s[i].nbytes {
        ItComesFirst(index, s, i);
        ItIsDirty(index, s[i], live, liveBytes);
        out := out + [Dirty(s[i], live, liveBytes)];
      } else {
        ItIsClean(index, s[i], liveBytes);
      }
      CountOne(index.tensors, s, i);
    }
    assert s[..|s|] == s;
  }

  lemma CountOne(tensors: seq<Entry>, s: seq<Shard>, i: nat)
    requires i < |s|
    ensures DirtyCount(tensors, s[..i + 1]) == DirtyCount(tensors, s[..i]) + if IsDirty(tensors, s[i]) then 1 else 0
    ensures Clean(tensors, s[..i + 1]) <==> Clean(tensors, s[..i]) && !IsDirty(tensors, s[i])
  {
    hide IsDirty;
    assert s[..i + 1] == s[..i] + [s[i]];
    DirtyCountAppend(tensors, s[..i], [s[i]]);
    assert DirtyCount(tensors, [s[i]]) == if IsDirty(tensors, s[i]) then 1 else 0;
  }

  /** The first shard that holds dead bytes. */
  ghost predicate ComesFirst(index: Index, sh: Shard) {
    exists a, b :: SplitAt(index, a, sh, b) && Clean(index.tensors, a)
  }

  lemma ItComesFirst(index: Index, s: seq<Shard>, i: nat)
    requires s == SortShards(index.shards) && i < |s|
    ensures Clean(index.tensors, s[..i]) ==> ComesFirst(index, s[i])
  {
    assert s == s[..i] + ([s[i]] + s[i + 1..]);
    assert SplitAt(index, s[..i], s[i], s[i + 1..]);
  }

  lemma ItIsDirty(index: Index, sh: Shard, live: seq<Range>, liveBytes: nat)
    requires sh in SortShards(index.shards) && liveBytes < sh.nbytes
    requires ListsLive(live, index.tensors, sh.globalOff, sh.End()) && liveBytes == LiveBytes(index.tensors, sh)
    ensures Describes(Dirty(sh, live, liveBytes), index) && IsDirty(index.tensors, sh)
  {
  }

  lemma ItIsClean(index: Index, sh: Shard, liveBytes: nat)
    requires liveBytes == LiveBytes(index.tensors, sh) && liveBytes >= sh.nbytes
    ensures !IsDirty(index.tensors, sh)
  {
  }

  method Weigh(tensors: seq<Entry>, sh: Shard) returns (live: seq<Range>, liveBytes: nat)
    ensures ListsLive(live, tensors, sh.globalOff, sh.End()) && liveBytes == LiveBytes(tensors, sh)
  {
    live := LiveRangesOf(tensors, sh.globalOff, sh.End());
    liveBytes := Prefix(live, |live|);
    PrefixCountsAll(live, tensors, sh.globalOff, sh.End());
  }

  lemma PrefixCountsAll(live: seq<Range>, tensors: seq<Entry>, s0: nat, s1: nat)
    requires ListsLive(live, tensors, s0, s1) && s0 <= s1
    ensures Prefix(live, |live|) == CountLive(tensors, s0, s1)
  {
    PrefixCounts(live, tensors, s0, s1, |live|, s1);
  }

  // ---- copying the live ranges ----

  /** The bytes the first i ranges contribute to the new file. */
  lemma KeptUpTo(region: Bytes, tensors: seq<Entry>, live: seq<Range>, s0: nat, s1: nat, i: nat)
    requires s0 <= s1 <= |region| && ListsLive(live, tensors, s0, s1) && i <= |live|
    ensures var from := if i == 0 then s0 else live[i - 1].b;
            Kept(region, tensors, s0, Start(live, i, s1)) == Kept(region, tensors, s0, from)
  {
    var from := if i == 0 then s0 else live[i - 1].b;
    var to := Start(live, i, s1);
    assert from <= to;
    forall q | from <= q < to ensures !Live(tensors, q) { GapIsDead(live, tensors, s0, s1, i, q); }
    KeptDeadStretch(region, tensors, s0, from, to);
  }

  lemma KeptRange(region: Bytes, tensors: seq<Entry>, live: seq<Range>, s0: nat, s1: nat, i: nat, upTo: nat)
    requires s0 <= s1 <= |region| && ListsLive(live, tensors, s0, s1) && i < |live|
    requires live[i].a <= upTo <= live[i].b
    ensures Kept(region, tensors, s0, upTo) == Kept(region, tensors, s0, live[i].a) + region[live[i].a..upTo]
  {
    forall q | live[i].a <= q < upTo ensures Live(tensors, q) { RangeIsLive(live, tensors, s0, s1, i, q); }
    KeptLiveStretch(region, tensors, s0, live[i].a, upTo);
  }

  /** Writing a file no index names keeps the state sound. */
  lemma ScratchStep(files: map<nat, File>, files': map<nat, File>, index: Index, num: nat, content: Content)
    requires Sound(Disk(files, index, None), content)
    requires forall s <- index.shards :: s.file != num
    requires files' - {num} == files - {num}
    ensures Sound(Disk(files', index, None), content)
  {
    ScratchFile(Disk(files, index, None), Disk(files', index, None), num, content);
  }

  /** A copy under way: only newFile differs from the start, and every state on the way was sound. */
  ghost predicate Copying(store: Store, files0: map<nat, File>, index: Index, newFile: nat, file: File,
                          h0: seq<Disk>, content: Content)
    reads store
  {
    && store.index == index && store.rollback == None
    && store.files == files0[newFile := file]
    && Grew(h0, store.history, content)
    && Sound(Disk(files0, index, None), content)
    && (forall s <- index.shards :: s.file != newFile)
  }

  lemma CopyingSound(store: Store, files0: map<nat, File>, index: Index, newFile: nat, file: File,
                     h0: seq<Disk>, content: Content)
    requires Copying(store, files0, index, newFile, file, h0, content)
    ensures Settled(store, content) && store.index == index
    ensures store.files == files0[newFile := file] && Grew(h0, store.history, content)
  {
    ScratchStep(files0, store.files, index, newFile, content);
  }

  method AppendScratch(store: Store, newFile: nat, buf: Bytes, ghost files0: map<nat, File>, ghost index: Index,
                       ghost data: Bytes, ghost h0: seq<Disk>, ghost content: Content)
    requires Copying(store, files0, index, newFile, File(data, false), h0, content)
    modifies store
    ensures Copying(store, files0, index, newFile, File(data + buf, false), h0, content)
  {
    store.Append(newFile, buf);
    ScratchStep(files0, store.files, index, newFile, content);
  }

  /** Copy region[range.a..range.b] out of shard sh, in reads of any size. */
  method CopyRange(store: Store, sh: Shard, range: Range, newFile: nat, ghost region: Bytes, ghost data: Bytes,
                   ghost files0: map<nat, File>, ghost index: Index, ghost h0: seq<Disk>, ghost content: Content)
    requires sh.globalOff <= range.a <= range.b <= sh.End() <= |region|
    requires sh.file != newFile && sh.file in files0 && files0[sh.file].data == region[sh.globalOff..sh.End()]
    requires Copying(store, files0, index, newFile, File(data, false), h0, content)
    modifies store
    ensures Copying(store, files0, index, newFile, File(data + region[range.a..range.b], false), h0, content)
  {
    var left := range.b - range.a;
    assert data + region[range.a..range.a] == data;
    while left > 0
      invariant 0 <= left <= range.b - range.a
      invariant Copying(store, files0, index, newFile,
                        File(data + region[range.a..range.b - left], false), h0, content)
    {
      ghost var at := range.b - left;
      var buf := store.Read(sh.file, range.b - left - sh.globalOff, left);
      SliceOfSlice(region, sh.globalOff, sh.End(), at - sh.globalOff, at - sh.globalOff + |buf|);
      AppendScratch(store, newFile, buf, files0, index, data + region[range.a..at], h0, content);
      assert data + region[range.a..at] + buf == data + region[range.a..at + |buf|];
      left := left - |buf|;
    }
  }

  method BeginScratch(store: Store, newFile: nat, ghost content: Content)
    requires Settled(store, content) && forall s <- store.index.shards :: s.file != newFile
    modifies store
    ensures Copying(store, old(store.files), old(store.index), newFile, File([], false), old(store.history), content)
  {
    ghost var files0, index := store.files, store.index;
    store.Create(newFile);
    ScratchStep(files0, store.files, index, newFile, content);
  }

  method SealScratch(store: Store, newFile: nat, ghost files0: map<nat, File>, ghost index: Index,
                     ghost data: Bytes, ghost h0: seq<Disk>, ghost content: Content)
    requires Copying(store, files0, index, newFile, File(data, false), h0, content)
    modifies store
    ensures Copying(store, files0, index, newFile, File(data, true), h0, content)
  {
    store.Sync(newFile);
    ScratchStep(files0, store.files, index, newFile, content);
  }

  /** The live ranges of sh, one after the other. */
  method CopyRanges(store: Store, sh: Shard, live: seq<Range>, newFile: nat, ghost tensors: seq<Entry>, ghost region: Bytes,
                    ghost files0: map<nat, File>, ghost index: Index, ghost h0: seq<Disk>, ghost content: Content)
    requires sh.End() <= |region| && ListsLive(live, tensors, sh.globalOff, sh.End())
    requires sh.file != newFile && sh.file in files0 && files0[sh.file].data == region[sh.globalOff..sh.End()]
    requires Copying(store, files0, index, newFile, File([], false), h0, content)
    modifies store
    ensures Copying(store, files0, index, newFile,
                    File(Kept(region, tensors, sh.globalOff, sh.End()), false), h0, content)
  {
    hide Copying;
    ghost var s0, s1 := sh.globalOff, sh.End();
    ghost var data: Bytes := [];
    for i := 0 to |live|
      invariant data == Kept(region, tensors, s0, if i == 0 then s0 else live[i - 1].b)
      invariant Copying(store, files0, index, newFile, File(data, false), h0, content)
    {
      KeptUpTo(region, tensors, live, s0, s1, i);
      KeptRange(region, tensors, live, s0, s1, i, live[i].b);
      CopyRange(store, sh, live[i], newFile, region, data, files0, index, h0, content);
      data := data + region[live[i].a..live[i].b];
    }
    KeptUpTo(region, tensors, live, s0, s1, |live|);
  }

  /** Copy the live ranges of sh into a fresh synced file. */
  method CopyLive(store: Store, sh: Shard, live: seq<Range>, newFile: nat, ghost tensors: seq<Entry>,
                  ghost region: Bytes, ghost content: Content)
    requires Settled(store, content) && forall s <- store.index.shards :: s.file != newFile
    requires sh.file != newFile && sh.file in store.files && sh.End() <= |region|
    requires store.files[sh.file].data == region[sh.globalOff..sh.End()]
    requires ListsLive(live, tensors, sh.globalOff, sh.End())
    modifies store
    ensures Settled(store, content) && store.index == old(store.index)
    ensures store.files == old(store.files)[newFile := File(Kept(region, tensors, sh.globalOff, sh.End()), true)]
    ensures Grew(old(store.history), store.history, content)
  {
    hide Copying, HasShards, WellFormed, ListsLive;
    ghost var h0, files0, index := store.history, store.files, store.index;
    ghost var data := Kept(region, tensors, sh.globalOff, sh.End());
    BeginScratch(store, newFile, content);
    CopyRanges(store, sh, live, newFile, tensors, region, files0, index, h0, content);
    SealScratch(store, newFile, files0, index, data, h0, content);
    CopyingSound(store, files0, index, newFile, File(data, true), h0, content);
  }

  // ---- the new index ----

  method Tabulate(live: seq<Range>) returns (starts: seq<nat>, prefix: seq<nat>)
    requires forall k :: 0 <= k < |live| ==> live[k].a <= live[k].b
    ensures Tables(live, starts, prefix)
  {
    starts, prefix := [], [0];
    for i := 0 to |live|
      invariant |starts| == i && |prefix| == i + 1
      invariant forall k :: 0 <= k < i ==> starts[k] == live[k].a
      invariant forall k :: 0 <= k <= i ==> prefix[k] == Prefix(live, k)
    {
      starts := starts + [live[i].a];
      prefix := prefix + [prefix[i] + (live[i].b - live[i].a)];
    }
  }

  /** Entries after the shard move down by delta, entries inside it are remapped. */
  method MoveEntries(tensors: seq<Entry>, live: seq<Range>, sh: Shard, delta: nat) returns (moved: seq<Entry>)
    requires ListsLive(live, tensors, sh.globalOff, sh.End())
    requires delta == sh.nbytes - LiveBytes(tensors, sh)
    ensures moved == Moved(tensors, sh.globalOff, sh.End())
  {
    var s0, s1 := sh.globalOff, sh.End();
    var starts, prefix := Tabulate(live);
    moved := [];
    for i := 0 to |tensors|
      invariant moved == Moved(tensors, s0, s1)[..i]
    {
      var e := tensors[i];
      var go := e.globalOff;
      if go >= s1 {
        e := e.(globalOff := go - delta);
      } else if go >= s0 {
        RemapIsNewOff(live, starts, prefix, tensors, s0, s1, go);
        e := e.(globalOff := Remap(live, starts, prefix, s0, go));
      }
      assert e == Moved(tensors, s0, s1)[i];
      moved := moved + [e];
    }
  }

  /** The rewritten shard takes the place of the old one, later shards move down by delta. */
  method MoveShards(s: seq<Shard>, sh: Shard, liveBytes: nat, newFile: nat,
                    ghost a: seq<Shard>, ghost b: seq<Shard>) returns (shards: seq<Shard>)
    requires s == a + ([sh] + b) && liveBytes < sh.nbytes
    requires forall x <- a :: x.End() <= sh.globalOff && x.file != sh.file
    requires forall x <- b :: sh.globalOff + sh.nbytes <= x.globalOff && x.file != sh.file
    ensures shards == Relist(a, sh, b, liveBytes, newFile)
  {
    var delta := sh.nbytes - liveBytes;
    ghost var mid := Rewritten(sh, liveBytes, newFile);
    shards := [];
    for i := 0 to |s|
      invariant i <= |a| ==> shards == a[..i]
      invariant |a| < i ==> shards == a + (mid + Shift(b, delta)[..i - |a| - 1])
    {
      var x := s[i];
      assert i < |a| ==> x == a[i];
      assert i == |a| ==> x == sh;
      assert i > |a| ==> x == b[i - |a| - 1];
      if x.file == sh.file {
        if liveBytes > 0 {
          shards := shards + [Shard(newFile, sh.globalOff, liveBytes)];
        }
      } else if x.globalOff > sh.globalOff {
        shards := shards + [x.(globalOff := x.globalOff - delta)];
      } else {
        shards := shards + [x];
      }
    }
    assert Shift(b, delta)[..|b|] == Shift(b, delta);
  }

  // ---- file numbers ----

  function FilesOf(shards: seq<Shard>): set<nat> {
    set s | s in shards :: s.file
  }

  lemma FilesOfAppend(a: seq<Shard>, b: seq<Shard>)
    ensures FilesOf(a + b) == FilesOf(a) + FilesOf(b)
  {
    assert forall s :: s in a + b <==> s in a || s in b;
  }

  lemma FilesOfShift(b: seq<Shard>, delta: nat)
    requires forall s <- b :: delta <= s.globalOff
    ensures FilesOf(Shift(b, delta)) == FilesOf(b)
  {
    var t := Shift(b, delta);
    forall f | f in FilesOf(b) ensures f in FilesOf(t) {
      var i :| 0 <= i < |b| && b[i].file == f;
      assert t[i] in t;
    }
    forall f | f in FilesOf(t) ensures f in FilesOf(b) {
      var i :| 0 <= i < |t| && t[i].file == f;
      assert b[i] in b;
    }
  }

  lemma FilesOfSplit(index: Index, a: seq<Shard>, sh: Shard, b: seq<Shard>)
    requires SplitAt(index, a, sh, b) && DistinctFiles(a + ([sh] + b))
    ensures FilesOf(index.shards) == FilesOf(a) + {sh.file} + FilesOf(b)
    ensures sh.file !in FilesOf(a) + FilesOf(b)
  {
    hide DistinctFiles, SortShards;
    assert FilesOf(index.shards) == FilesOf(SortShards(index.shards));
    FilesOfAppend(a, [sh] + b);
    FilesOfAppend([sh], b);
    RestDistinct(a, sh, b);
    FilesOfAppend(a, b);
  }

  lemma FilesOfRelist(a: seq<Shard>, sh: Shard, b: seq<Shard>, live: nat, newFile: nat)
    requires live <= sh.nbytes && forall s <- b :: sh.nbytes <= s.globalOff
    ensures FilesOf(Relist(a, sh, b, live, newFile))
         == FilesOf(a) + (if live > 0 then {newFile} else {}) + FilesOf(b)
  {
    var mid, tail := Rewritten(sh, live, newFile), Shift(b, sh.nbytes - live);
    FilesOfAppend(a, mid + tail);
    FilesOfAppend(mid, tail);
    FilesOfShift(b, sh.nbytes - live);
  }

  function Unreferenced(files: map<nat, File>, index: Index): set<nat> {
    files.Keys - FilesOf(index.shards)
  }

  /** No shard of the index has a number from `next` on. */
  predicate NumbersBelow(index: Index, next: nat) {
    forall f <- FilesOf(index.shards) :: f < next
  }

  /** Every number the run asks for is free by the time it asks for it. */
  ghost predicate HasRoom(index: Index, next: nat) {
    Room(index.tensors, SortShards(index.shards), FilesOf(index.shards), next)
  }

  lemma BelowIsRoom(index: Index, next: nat)
    requires NumbersBelow(index, next)
    ensures HasRoom(index, next)
  {
    RoomAbove(index.tensors, SortShards(index.shards), FilesOf(index.shards), next);
  }

  // ---- compact_in_place ----

  predicate SameEntries(x: seq<Entry>, y: seq<Entry>) {
    |x| == |y| && forall i :: 0 <= i < |x| ==> x[i].name == y[i].name && x[i].nbytes == y[i].nbytes
  }

  lemma SameSelf(x: seq<Entry>)
    ensures SameEntries(x, x)
  {
  }

  lemma SameFurther(x: seq<Entry>, y: seq<Entry>, z: seq<Entry>)
    requires SameEntries(x, y) && SameEntries(y, z)
    ensures SameEntries(x, z)
  {
  }

  lemma CompactedFiles(index: Index, a: seq<Shard>, sh: Shard, b: seq<Shard>, newFile: nat)
    requires CanCompact(index, a, sh, b, newFile) && (LiveBytes(index.tensors, sh) > 0 ==> newFile != sh.file)
    ensures FilesOf(Compacted(index, a, sh, b, newFile).shards)
         == FilesOf(index.shards) - {sh.file} + Made(LiveBytes(index.tensors, sh), newFile)
    ensures forall s <- Compacted(index, a, sh, b, newFile).shards :: s.file != sh.file
  {
    hide WellPlaced, AlignedShards, Tiles, RegionEnd, DistinctFiles, SortShards, FilesOf, Relist, Moved;
    SplitIndex(index, a, sh, b);
    FilesOfRelist(a, sh, b, LiveBytes(index.tensors, sh), newFile);
    FilesOfSplit(index, a, sh, b);
    NotNamed(Compacted(index, a, sh, b, newFile).shards, sh.file);
  }

  lemma NotNamed(shards: seq<Shard>, f: nat)
    ensures f !in FilesOf(shards) <==> forall s <- shards :: s.file != f
  {
  }

  /** The last recorded state but one: the new index is installed, and the file it no longer names is still there. */
  ghost predicate Stranded(history: seq<Disk>, index: Index, f: nat) {
    && |history| >= 2
    && var d := history[|history| - 2];
       && d.index == index && d.rollback == None
       && f in d.files && d.files[f].synced && forall s <- index.shards :: s.file != f
  }

  /** Installing the compacted index, then deleting the old file: sound before, between and after. */
  method SwapIndex(store: Store, newIndex: Index, sh: Shard, ghost content: Content)
    requires Settled(store, content) && sh.file in store.files && store.files[sh.file].synced
    requires LoadsAs(Durable(store.files), newIndex, content)
    requires forall s <- newIndex.shards :: s.file != sh.file
    modifies store
    ensures Settled(store, content) && store.index == newIndex
    ensures store.files == old(store.files) - {sh.file}
    ensures Grew(old(store.history), store.history, content)
    ensures Stranded(store.history, newIndex, sh.file)
  {
    store.WriteIndex(newIndex);
    ghost var swapped := store.files;
    store.Remove(sh.file);
    ScratchStep(swapped, store.files, newIndex, sh.file, content);
  }

  /** After the copy, the new file and the untouched ones are what the step needs. */
  lemma CopiedEnough(files: map<nat, File>, files': map<nat, File>, index: Index,
                     a: seq<Shard>, sh: Shard, b: seq<Shard>, newFile: nat)
    requires CanCompact(index, a, sh, b, newFile) && Loads(Durable(files), index)
    requires sh.End() <= |Region(Durable(files), a + ([sh] + b))|
    requires if LiveBytes(index.tensors, sh) == 0 then files' == files else
             files' == files[newFile := File(Kept(Region(Durable(files), a + ([sh] + b)), index.tensors,
                                                  sh.globalOff, sh.End()), true)]
    ensures Rewrote(Durable(files), Durable(files'), index.tensors, a, sh, b, newFile)
  {
    hide WellFormed, Region, Kept, LiveBytes;
    HasParts(Durable(files), a, sh, b);
  }

  /** d describes a dirty shard of the index. */
  ghost predicate Describes(d: Dirty, index: Index) {
    && d.shard in SortShards(index.shards) && IsDirty(index.tensors, d.shard)
    && ListsLive(d.live, index.tensors, d.shard.globalOff, d.shard.End())
    && d.liveBytes == LiveBytes(index.tensors, d.shard)
  }

  /** The rebuilt index is the compacted one. */
  method Reindex(index: Index, d: Dirty, newFile: nat, ghost a: seq<Shard>, ghost b: seq<Shard>)
    returns (newIndex: Index)
    requires Describes(d, index) && CanCompact(index, a, d.shard, b, newFile)
    ensures newIndex == Compacted(index, a, d.shard, b, newFile) && newIndex.shardLimit == index.shardLimit
  {
    hide ListsLive, WellPlaced, DisjointBlocks;
    var sh := d.shard;
    var delta := sh.nbytes - d.liveBytes;
    SplitIndex(index, a, sh, b);
    FilesOfSplit(index, a, sh, b);
    NotNamed(a, sh.file);
    NotNamed(b, sh.file);
    var tensors := MoveEntries(index.tensors, d.live, sh, delta);
    var shards := MoveShards(SortShards(index.shards), sh, d.liveBytes, newFile, a, b);
    newIndex := index.(tensors := tensors, shards := shards, totalBytes := index.totalBytes - delta);
  }

  /** The step deletes one referenced file, makes at most one, and leaves the others alone. */
  lemma StepFiles(index: Index, files: map<nat, File>, files': map<nat, File>,
                  a: seq<Shard>, sh: Shard, b: seq<Shard>, newFile: nat)
    requires CanCompact(index, a, sh, b, newFile)
    requires LiveBytes(index.tensors, sh) > 0 ==> newFile != sh.file
    requires files'.Keys == files.Keys + Made(LiveBytes(index.tensors, sh), newFile) - {sh.file}
    ensures Unreferenced(files', Compacted(index, a, sh, b, newFile)) <= Unreferenced(files, index)
  {
    hide WellFormed, SplitAt, Compacted, FilesOf, LiveBytes;
    CompactedFiles(index, a, sh, b, newFile);
  }

  /** The room left after the step is the room there was. */
  lemma StepRoom(index: Index, a: seq<Shard>, sh: Shard, b: seq<Shard>, newFile: nat)
    requires CanCompact(index, a, sh, b, newFile) && Clean(index.tensors, a) && IsDirty(index.tensors, sh)
    requires LiveBytes(index.tensors, sh) > 0 ==> newFile !in FilesOf(index.shards)
    ensures HasRoom(Compacted(index, a, sh, b, newFile), After(LiveBytes(index.tensors, sh), newFile))
       <==> HasRoom(index, newFile)
  {
    hide WellPlaced, AlignedShards, Tiles, RegionEnd, DistinctFiles, SortShards, FilesOf, Relist, Moved, Clean, IsDirty, LiveBytes, Room;
    SplitIndex(index, a, sh, b);
    SplitFile(index, a, sh, b, newFile);
    CompactedFiles(index, a, sh, b, newFile);
    CompactedSorted(index, a, sh, b, newFile);
    RoomStep(index.tensors, a, sh, b, FilesOf(index.shards), newFile);
  }

  /** The number a step asks for. */
  lemma NumberForStep(index: Index, a: seq<Shard>, sh: Shard, b: seq<Shard>, newFile: nat)
    requires SplitAt(index, a, sh, b) && Clean(index.tensors, a) && IsDirty(index.tensors, sh)
    requires HasRoom(index, newFile)
    ensures LiveBytes(index.tensors, sh) > 0 ==> newFile !in FilesOf(index.shards)
  {
    hide LiveBytes, IsDirty, FilesOf, SortShards, Clean;
    RoomSkips(index.tensors, a, [sh] + b, FilesOf(index.shards), newFile);
  }

  /** The shards without dead bytes are still there: named, as long, clean, and their files untouched. */
  ghost predicate CleanKept(index: Index, files: map<nat, File>, index': Index, files': map<nat, File>) {
    forall s <- index.shards :: !IsDirty(index.tensors, s) && s.file in files ==>
      && s.file in files' && files'[s.file] == files[s.file]
      && exists t <- index'.shards :: SameShard(s, index'.tensors, t)
  }

  predicate SameShard(s: Shard, tensors: seq<Entry>, t: Shard) {
    t.file == s.file && t.nbytes == s.nbytes && !IsDirty(tensors, t)
  }

  lemma CleanKeptSelf(index: Index, files: map<nat, File>)
    ensures CleanKept(index, files, index, files)
  {
    forall s | s in index.shards && !IsDirty(index.tensors, s) ensures SameShard(s, index.tensors, s) {}
  }

  lemma CleanKeptFurther(i0: Index, f0: map<nat, File>, i1: Index, f1: map<nat, File>, i2: Index, f2: map<nat, File>)
    requires CleanKept(i0, f0, i1, f1) && CleanKept(i1, f1, i2, f2)
    ensures CleanKept(i0, f0, i2, f2)
  {
    hide IsDirty;
    forall s | s in i0.shards && !IsDirty(i0.tensors, s) && s.file in f0
      ensures s.file in f2 && f2[s.file] == f0[s.file] && exists t <- i2.shards :: SameShard(s, i2.tensors, t)
    {
      var t :| t in i1.shards && SameShard(s, i1.tensors, t);
      var u :| u in i2.shards && SameShard(t, i2.tensors, u);
      assert SameShard(s, i2.tensors, u);
    }
  }

  /** A clean shard before the rewritten one stays as it is, one behind it moves down. */
  lemma CleanMoved(tensors: seq<Entry>, a: seq<Shard>, sh: Shard, b: seq<Shard>, newFile: nat, s: Shard) returns (t: Shard)
    requires (s in a || s in b) && !IsDirty(tensors, s)
    requires forall x <- a :: x.End() <= sh.globalOff
    requires forall x <- b :: sh.End() <= x.globalOff
    ensures t in Relist(a, sh, b, LiveBytes(tensors, sh), newFile)
    ensures SameShard(s, Moved(tensors, sh.globalOff, sh.End()), t)
  {
    hide IsDirty, Moved, LiveBytes, Rewritten;
    DeadBytes(tensors, sh);
    var delta := sh.nbytes - LiveBytes(tensors, sh);
    DirtyMoves(tensors, sh.globalOff, sh.End(), s, delta);
    if s in a {
      t := s;
    } else {
      var k :| 0 <= k < |b| && b[k] == s;
      t := Shift(b, delta)[k];
      assert t in Shift(b, delta);
    }
  }

  lemma StepClean(index: Index, files: map<nat, File>, files': map<nat, File>,
                  a: seq<Shard>, sh: Shard, b: seq<Shard>, newFile: nat)
    requires CanCompact(index, a, sh, b, newFile) && IsDirty(index.tensors, sh)
    requires LiveBytes(index.tensors, sh) > 0 ==> newFile !in FilesOf(index.shards)
    requires forall f <- files :: f != sh.file && f !in Made(LiveBytes(index.tensors, sh), newFile) ==>
               f in files' && files'[f] == files[f]
    ensures CleanKept(index, files, Compacted(index, a, sh, b, newFile), files')
  {
    hide WellPlaced, AlignedShards, Tiles, RegionEnd, SortShards, Relist, Moved, IsDirty, LiveBytes, FilesOf, SameShard;
    SplitIndex(index, a, sh, b);
    FilesOfSplit(index, a, sh, b);
    var c := Compacted(index, a, sh, b, newFile);
    forall s | s in index.shards && !IsDirty(index.tensors, s) && s.file in files
      ensures s.file in files' && files'[s.file] == files[s.file]
      ensures exists t <- c.shards :: SameShard(s, c.tensors, t)
    {
      assert s in a + ([sh] + b);
      NotNamed(index.shards, s.file);
      NotNamed(a, sh.file);
      NotNamed(b, sh.file);
      var t := CleanMoved(index.tensors, a, sh, b, newFile, s);
      assert t in c.shards;
    }
  }

  lemma StepEntries(index: Index, a: seq<Shard>, sh: Shard, b: seq<Shard>, newFile: nat)
    requires CanCompact(index, a, sh, b, newFile)
    ensures SameEntries(index.tensors, Compacted(index, a, sh, b, newFile).tensors)
    ensures Compacted(index, a, sh, b, newFile).shardLimit == index.shardLimit
  {
  }

  lemma StepDirty(index: Index, a: seq<Shard>, sh: Shard, b: seq<Shard>, newFile: nat)
    requires CanCompact(index, a, sh, b, newFile) && IsDirty(index.tensors, sh)
    ensures Dirtiness(Compacted(index, a, sh, b, newFile)) + 1 == Dirtiness(index)
  {
    CompactedDirty(index, a, sh, b, newFile);
  }

  lemma SplitFile(index: Index, a: seq<Shard>, sh: Shard, b: seq<Shard>, newFile: nat)
    requires WellFormed(index) && SplitAt(index, a, sh, b)
    ensures sh.file in FilesOf(index.shards)
    ensures newFile !in FilesOf(index.shards) ==>
              CanCompact(index, a, sh, b, newFile) && newFile != sh.file && forall s <- index.shards :: s.file != newFile
    ensures LiveBytes(index.tensors, sh) == 0 ==> CanCompact(index, a, sh, b, newFile)
  {
    hide SortShards, FilesOf, WellPlaced, AlignedShards, Tiles, RegionEnd, DistinctFiles, LiveBytes;
    FilesOfSplit(index, a, sh, b);
    NotNamed(index.shards, newFile);
    NotNamed(a, newFile);
    NotNamed(b, newFile);
  }

  /** One turn of the loop, as far as index and shard numbers go. */
  ghost predicate Turn(index: Index, next: nat, index': Index, next': nat) {
    exists a, sh, b :: TurnAt(index, next, index', next', a, sh, b)
  }

  ghost predicate TurnAt(index: Index, next: nat, index': Index, next': nat, a: seq<Shard>, sh: Shard, b: seq<Shard>) {
    && CanCompact(index, a, sh, b, next) && Clean(index.tensors, a) && IsDirty(index.tensors, sh)
    && (LiveBytes(index.tensors, sh) > 0 ==> next !in FilesOf(index.shards))
    && index' == Compacted(index, a, sh, b, next) && next' == After(LiveBytes(index.tensors, sh), next)
  }

  /** One step: rewrite the dirty shard, swap the index, delete the old file. */
  method CompactShard(store: Store, d: Dirty, newFile: nat, ghost content: Content)
    requires Settled(store, content) && HasRoom(store.index, newFile)
    requires Describes(d, store.index) && ComesFirst(store.index, d.shard)
    modifies store
    ensures Settled(store, content) && HasRoom(store.index, After(d.liveBytes, newFile))
    ensures Turn(old(store.index), newFile, store.index, After(d.liveBytes, newFile))
    ensures Stranded(store.history, store.index, d.shard.file)
    ensures Grew(old(store.history), store.history, content)
    ensures Dirtiness(store.index) + 1 == Dirtiness(old(store.index))
    ensures SameEntries(old(store.index).tensors, store.index.tensors) && store.index.shardLimit == old(store.index).shardLimit
    ensures CleanKept(old(store.index), old(store.files), store.index, store.files)
    ensures Unreferenced(store.files, store.index) <= Unreferenced(old(store.files), old(store.index))
  {
    hide WellFormed, ListsLive, HasShards, Grew, Rewrote, IsDirty, Unreferenced, SameEntries, Dirtiness, Clean, HasRoom, LiveBytes, Turn, FilesOf, SplitAt, Region, Kept, Compacted, After, CleanKept;
    ghost var h0, files0, index0 := store.history, store.files, store.index;
    var sh := d.shard;
    ghost var a, b :| SplitAt(index0, a, sh, b) && Clean(index0.tensors, a);
    SplitForStep(index0, a, sh, b, newFile, files0);
    ghost var region := Region(Durable(files0), a + ([sh] + b));
    var newIndex := Reindex(store.index, d, newFile, a, b);
    if d.liveBytes > 0 {
      CopyLive(store, sh, d.live, newFile, index0.tensors, region, content);
    } else {
      GrewNone(h0, content);
    }
    ghost var h1, files1 := store.history, store.files;
    CopiedEnough(files0, files1, index0, a, sh, b, newFile);
    CompactedDecodes(Durable(files0), Durable(files1), index0, a, sh, b, newFile);
    CompactedFiles(index0, a, sh, b, newFile);
    SwapIndex(store, newIndex, sh, content);
    GrewFurther(h0, h1, store.history, content);
    StepFiles(index0, files0, store.files, a, sh, b, newFile);
    TurnOf(index0, a, sh, b, newFile);
    StepRoom(index0, a, sh, b, newFile);
    StepEntries(index0, a, sh, b, newFile);
    StepClean(index0, files0, store.files, a, sh, b, newFile);
    StepDirty(index0, a, sh, b, newFile);
  }

  lemma SplitForStep(index: Index, a: seq<Shard>, sh: Shard, b: seq<Shard>, newFile: nat, files: map<nat, File>)
    requires WellFormed(index) && SplitAt(index, a, sh, b) && IsDirty(index.tensors, sh)
    requires Clean(index.tensors, a) && HasRoom(index, newFile)
    requires Loads(Durable(files), index)
    ensures CanCompact(index, a, sh, b, newFile)
    ensures LiveBytes(index.tensors, sh) > 0 ==>
              newFile != sh.file && newFile !in FilesOf(index.shards) && forall s <- index.shards :: s.file != newFile
    ensures HasShards(Durable(files), a + ([sh] + b)) && sh.End() <= |Region(Durable(files), a + ([sh] + b))|
    ensures sh.file in Durable(files)
    ensures Durable(files)[sh.file] == Region(Durable(files), a + ([sh] + b))[sh.globalOff..sh.End()]
  {
    hide SortShards, WellPlaced, AlignedShards, HasRoom, FilesOf, LiveBytes, IsDirty, Clean, Region;
    NumberForStep(index, a, sh, b, newFile);
    SplitFile(index, a, sh, b, newFile);
    SplitIndex(index, a, sh, b);
    RegionParts(Durable(files), a, sh, b);
  }

  /** Rewrite each dirty shard without its dead bytes; one atomic index swap per shard. */
  method CompactInPlace(store: Store, nextNum: nat, ghost content: Content) returns (n: nat)
    requires Settled(store, content) && HasRoom(store.index, nextNum)
    modifies store
    ensures Settled(store, content) && Dirtiness(store.index) == 0
    ensures n == Dirtiness(old(store.index))
    ensures n > 0 ==> exists f :: Stranded(store.history, store.index, f)
    ensures store.index.totalBytes == PaddedBytes(store.index.tensors)
    ensures Grew(old(store.history), store.history, content)
    ensures SameEntries(old(store.index).tensors, store.index.tensors) && store.index.shardLimit == old(store.index).shardLimit
    ensures CleanKept(old(store.index), old(store.files), store.index, store.files)
    ensures Unreferenced(store.files, store.index) <= Unreferenced(old(store.files), old(store.index))
  {
    hide WellFormed, HasShards, HasRoom, Unreferenced, Describes, ComesFirst, Turn, Dirtiness, Grew, SameEntries, Stranded, CleanKept;
    ghost var h0, entries0, index0, files0 := store.history, store.index.tensors, store.index, store.files;
    CleanKeptSelf(index0, files0);
    GrewNone(h0, content);
    SameSelf(entries0);
    var next := nextNum;
    var dirty := DirtyShards(store.index);
    n := 0;
    while dirty != []
      invariant Settled(store, content) && HasRoom(store.index, next)
      invariant |dirty| == Dirtiness(store.index)
      invariant forall d <- dirty :: Describes(d, store.index)
      invariant dirty != [] ==> ComesFirst(store.index, dirty[0].shard)
      invariant n + Dirtiness(store.index) == Dirtiness(old(store.index))
      invariant n > 0 ==> exists f :: Stranded(store.history, store.index, f)
      invariant Grew(old(store.history), store.history, content)
      invariant CleanKept(index0, files0, store.index, store.files)
      invariant SameEntries(old(store.index).tensors, store.index.tensors) && store.index.shardLimit == old(store.index).shardLimit
      invariant Unreferenced(store.files, store.index) <= Unreferenced(old(store.files), old(store.index))
      decreases |dirty|
    {
      ghost var h1, entries1, index1, files1 := store.history, store.index.tensors, store.index, store.files;
      CompactShard(store, dirty[0], next, content);
      CleanKeptFurther(index0, files0, index1, files1, store.index, store.files);
      GrewFurther(h0, h1, store.history, content);
      SameFurther(entries0, entries1, store.index.tensors);
      if dirty[0].liveBytes > 0 {
        next := next + 1;
      }
      n := n + 1;
      dirty := DirtyShards(store.index);
    }
    CleanMeansTight(store.index);
  }

  // ---- exactly when every number is free ----

  ghost predicate Reaches(index: Index, next: nat, index': Index, next': nat, turns: nat)
    decreases turns
  {
    if turns == 0 then index' == index && next' == next
    else exists i, n :: Turn(index, next, i, n) && Reaches(i, n, index', next', turns - 1)
  }

  /** The next turn empties a file the index names. */
  ghost predicate Collides(index: Index, next: nat) {
    && next in FilesOf(index.shards)
    && exists sh :: ComesFirst(index, sh) && IsDirty(index.tensors, sh) && LiveBytes(index.tensors, sh) > 0
  }

  lemma RoomNeverCollides(index: Index, next: nat)
    requires HasRoom(index, next)
    ensures !Collides(index, next)
  {
    hide HasRoom, FilesOf, IsDirty, LiveBytes, Clean, SplitAt;
    if Collides(index, next) {
      var sh :| ComesFirst(index, sh) && IsDirty(index.tensors, sh) && LiveBytes(index.tensors, sh) > 0;
      var a, b :| SplitAt(index, a, sh, b) && Clean(index.tensors, a);
      NumberForStep(index, a, sh, b, next);
    }
  }

  lemma TurnKeepsRoom(index: Index, next: nat, index': Index, next': nat)
    requires Turn(index, next, index', next')
    ensures HasRoom(index', next') <==> HasRoom(index, next)
    ensures WellFormed(index') && Dirtiness(index') + 1 == Dirtiness(index)
  {
    hide HasRoom, FilesOf, IsDirty, LiveBytes, Clean, Compacted, WellFormed, Dirtiness, SplitAt;
    var a, sh, b :| TurnAt(index, next, index', next', a, sh, b);
    StepRoom(index, a, sh, b, next);
    StepDirty(index, a, sh, b, next);
    CompactedWellFormed(index, a, sh, b, next);
  }

  lemma {:induction false} ReachKeepsRoom(index: Index, next: nat, index': Index, next': nat, turns: nat)
    requires HasRoom(index, next) && Reaches(index, next, index', next', turns)
    ensures HasRoom(index', next')
    decreases turns
  {
    hide HasRoom, Turn;
    if turns > 0 {
      var i, n :| Turn(index, next, i, n) && Reaches(i, n, index', next', turns - 1);
      TurnKeepsRoom(index, next, i, n);
      ReachKeepsRoom(i, n, index', next', turns - 1);
    }
  }

  lemma {:induction false} NoRoomCollides(index: Index, next: nat) returns (index': Index, next': nat, turns: nat)
    requires WellFormed(index) && !HasRoom(index, next)
    ensures Reaches(index, next, index', next', turns) && Collides(index', next')
    decreases Dirtiness(index)
  {
    hide HasRoom, Turn, Collides, WellFormed, ComesFirst, SplitAt, Clean, Compacted, CanCompact, FilesOf;
    var a, sh, b := FirstDirty(index, next);
    if LiveBytes(index.tensors, sh) > 0 && next in FilesOf(index.shards) {
      CollidesNow(index, a, sh, b, next);
      index', next', turns := index, next, 0;
    } else {
      SplitFile(index, a, sh, b, next);
      var i, n := Compacted(index, a, sh, b, next), After(LiveBytes(index.tensors, sh), next);
      TurnOf(index, a, sh, b, next);
      TurnKeepsRoom(index, next, i, n);
      index', next', turns := NoRoomCollides(i, n);
      turns := turns + 1;
    }
  }

  lemma CollidesNow(index: Index, a: seq<Shard>, sh: Shard, b: seq<Shard>, next: nat)
    requires SplitAt(index, a, sh, b) && Clean(index.tensors, a) && IsDirty(index.tensors, sh)
    requires LiveBytes(index.tensors, sh) > 0 && next in FilesOf(index.shards)
    ensures Collides(index, next)
  {
    hide SplitAt, Clean, IsDirty, LiveBytes, FilesOf;
    assert ComesFirst(index, sh);
  }

  lemma TurnOf(index: Index, a: seq<Shard>, sh: Shard, b: seq<Shard>, next: nat)
    requires CanCompact(index, a, sh, b, next) && Clean(index.tensors, a) && IsDirty(index.tensors, sh)
    requires LiveBytes(index.tensors, sh) > 0 ==> next !in FilesOf(index.shards)
    ensures Turn(index, next, Compacted(index, a, sh, b, next), After(LiveBytes(index.tensors, sh), next))
  {
    hide Clean, IsDirty, LiveBytes, FilesOf, Compacted, After, WellFormed, SplitAt;
    assert TurnAt(index, next, Compacted(index, a, sh, b, next), After(LiveBytes(index.tensors, sh), next), a, sh, b);
  }

  /** With no dirty shard there is always room. */
  lemma FirstDirty(index: Index, next: nat) returns (a: seq<Shard>, sh: Shard, b: seq<Shard>)
    requires !HasRoom(index, next)
    ensures SplitAt(index, a, sh, b) && Clean(index.tensors, a) && IsDirty(index.tensors, sh)
  {
    hide IsDirty, FilesOf, SortShards, LiveBytes;
    a, sh, b := FirstDirtyIn(index.tensors, SortShards(index.shards), FilesOf(index.shards), next);
  }

  lemma {:induction false} FirstDirtyIn(tensors: seq<Entry>, s: seq<Shard>, taken: set<nat>, next: nat)
    returns (a: seq<Shard>, sh: Shard, b: seq<Shard>)
    requires !Room(tensors, s, taken, next)
    ensures s == a + ([sh] + b) && Clean(tensors, a) && IsDirty(tensors, sh)
  {
    hide IsDirty, LiveBytes;
    if IsDirty(tensors, s[0]) {
      a, sh, b := [], s[0], s[1..];
    } else {
      a, sh, b := FirstDirtyIn(tensors, s[1..], taken, next);
      assert s == [s[0]] + s[1..];
      a := [s[0]] + a;
    }
  }

  /** There is room exactly when no turn the run comes to finds its number taken. */
  lemma RoomExactlyWhen(index: Index, next: nat)
    requires WellFormed(index)
    ensures HasRoom(index, next)
       <==> forall i, n, turns :: Reaches(index, next, i, n, turns) ==> !Collides(i, n)
  {
    hide HasRoom, Reaches, Collides, WellFormed;
    if HasRoom(index, next) {
      forall i, n, turns | Reaches(index, next, i, n, turns) ensures !Collides(i, n) {
        ReachKeepsRoom(index, next, i, n, turns);
        RoomNeverCollides(i, n);
      }
    } else {
      var i, n, turns := NoRoomCollides(index, next);
    }
  }

  /** A number the index names is opened for writing first, and the directory no longer loads: not after a power
      loss, since the file is not synced, and not after a mere kill either, since the shard's bytes are gone. */
  lemma CollisionLoses(files: map<nat, File>, index: Index, next: nat)
    requires next in FilesOf(index.shards)
    ensures var emptied := files[next := File([], false)];
      && !Loads(Durable(emptied), index)
      && ((forall s <- index.shards :: s.file == next ==> s.nbytes > 0) ==> !HasShards(Contents(emptied), SortShards(index.shards)))
  {
    var s :| s in index.shards && s.file == next;
    assert s in SortShards(index.shards);
  }

  /** A loadable directory with shards 99999 and 100000, the first half dead: the run asks for one number, and
      it is 100000. */
  lemma CollisionExample(next: nat)
    requires IsNext(next, Numbers({99999, 100000}, HALF_DEAD))
    ensures WellFormed(HALF_DEAD) && next == 100000
    ensures Collides(HALF_DEAD, next) && !HasRoom(HALF_DEAD, next) && !StartsWithRoom({99999, 100000}, HALF_DEAD)
    ensures forall s <- HALF_DEAD.shards :: s.nbytes > 0
  {
    hide IsDirty, LiveBytes, HasRoom, Collides, WellFormed, SortShards;
    var a, b := HALF_DEAD.shards[0], HALF_DEAD.shards[1];
    HalfDeadIsWellFormed();
    HalfDeadLive();
    assert b.file in Numbers({99999, 100000}, HALF_DEAD);
    SixDigitCollision(Numbers({99999, 100000}, HALF_DEAD), next);
    assert SortShards(HALF_DEAD.shards) == [] + ([a] + [b]);
    CollidesNow(HALF_DEAD, [], a, [b], next);
    if HasRoom(HALF_DEAD, next) { RoomNeverCollides(HALF_DEAD, next); }
  }

  const HALF_DEAD: Index :=
    Index(8192, 12288, [Entry("a", 0, 4096)], [Shard(99999, 0, 8192), Shard(100000, 8192, 4096)])

  lemma HalfDeadIsWellFormed()
    ensures SortShards(HALF_DEAD.shards) == HALF_DEAD.shards && WellFormed(HALF_DEAD)
  {
    hide Tiles, RegionEnd, WellPlaced, SortShards;
    SortShardsIdentity(HALF_DEAD.shards);
    TwoShards(HALF_DEAD.shards[0], HALF_DEAD.shards[1]);
    assert HALF_DEAD.shards == [HALF_DEAD.shards[0], HALF_DEAD.shards[1]];
    OnePlaced(HALF_DEAD.tensors[0], 12288);
    assert HALF_DEAD.tensors == [HALF_DEAD.tensors[0]];
  }

  lemma TwoShards(s: Shard, t: Shard)
    requires s.globalOff == 0 && t.globalOff == s.End()
    ensures Tiles([s, t], 0) && RegionEnd([s, t], 0) == t.End()
  {
    assert [s, t][1..] == [t] && [t][1..] == [];
    assert RegionEnd([t], s.End()) == RegionEnd([], t.End());
  }

  lemma OnePlaced(e: Entry, total: nat)
    requires Aligned(e.globalOff) && e.globalOff + e.nbytes <= total
    ensures WellPlaced([e], total)
  {
  }

  lemma HalfDeadLive()
    ensures LiveBytes(HALF_DEAD.tensors, HALF_DEAD.shards[0]) == 4096 && IsDirty(HALF_DEAD.tensors, HALF_DEAD.shards[0])
  {
    var ts := HALF_DEAD.tensors;
    forall p | 0 <= p < 4096 ensures Live(ts, p) { assert ts[0] in ts; }
    forall p | 4096 <= p < 8192 ensures !Live(ts, p) {}
    CountAll(ts, 0, 4096);
    CountNone(ts, 4096, 8192);
    CountSplit(ts, 0, 4096, 8192);
  }

  lemma CleanMeansTight(index: Index)
    requires WellFormed(index)
    ensures Dirtiness(index) == 0 <==> index.totalBytes == PaddedBytes(index.tensors)
  {
    CleanIffTight(index);
  }

  /** Shard files the index does not reference are deleted, one by one. */
  method RemoveOrphans(store: Store, orphans: set<nat>, ghost content: Content)
    requires Settled(store, content) && orphans <= Unreferenced(store.files, store.index)
    modifies store
    ensures Settled(store, content) && store.index == old(store.index)
    ensures store.files == old(store.files) - orphans
    ensures Grew(old(store.history), store.history, content)
  {
    var left := orphans;
    while left != {}
      invariant left <= orphans
      invariant Settled(store, content) && store.index == old(store.index)
      invariant store.files == old(store.files) - (orphans - left)
      invariant Grew(old(store.history), store.history, content)
      decreases left
    {
      var f :| f in left;
      ghost var files0 := store.files;
      NotNamed(store.index.shards, f);
      store.Remove(f);
      ScratchStep(files0, store.files, store.index, f, content);
      left := left - {f};
    }
  }

  function Strays(files: map<nat, File>, index: Index): set<nat> {
    set f | f in Unreferenced(files, index) && f < FIVE_DIGITS
  }

  /** Pick the next shard number and delete the recognised shard files the index does not reference. */
  method DropOrphans(store: Store, ghost content: Content) returns (next: nat)
    requires Settled(store, content)
    modifies store
    ensures Settled(store, content) && store.index == old(store.index)
    ensures IsNext(next, Numbers(old(store.files).Keys, store.index))
    ensures store.files == old(store.files) - Strays(old(store.files), store.index)
    ensures forall f <- Unreferenced(store.files, store.index) :: f >= FIVE_DIGITS
    ensures Grew(old(store.history), store.history, content)
  {
    hide WellFormed, HasShards, Grew;
    var orphans;
    next, orphans := ShardNumbers(store.files.Keys, store.index);
    assert orphans == Strays(store.files, store.index) by {
      forall f | f in store.files ensures f in orphans <==> f in Strays(store.files, store.index) {
        NotNamed(store.index.shards, f);
      }
    }
    RemoveOrphans(store, orphans, content);
  }

  /** The number a run starts with leaves room; so it is when the index names no six-digit file. */
  ghost predicate StartsWithRoom(onDisk: set<nat>, index: Index) {
    forall next :: IsNext(next, Numbers(onDisk, index)) ==> HasRoom(index, next)
  }

  lemma FiveDigitsAreRoom(onDisk: set<nat>, index: Index, next: nat)
    requires forall s <- index.shards :: s.file < FIVE_DIGITS
    requires IsNext(next, Numbers(onDisk, index))
    ensures NumbersBelow(index, next) && HasRoom(index, next)
  {
    LaterAreFree(Numbers(onDisk, index), next);
    assert forall f <- FilesOf(index.shards) :: f in Numbers(onDisk, index);
    BelowIsRoom(index, next);
  }

  /** The in-place run of the tool when nothing is left to repair but dead bytes: what a rerun does
      in whatever directory the interrupted run left. It ends with every shard fully live and the same names and
      bytes. The stray files it recognises are deleted exactly when it found a dirty shard; with none there is
      nothing to do, and nothing is touched. */
  method Rerun(store: Store, ghost content: Content) returns (compacted: nat)
    requires Settled(store, content) && StartsWithRoom(store.files.Keys, store.index)
    modifies store
    ensures Settled(store, content) && Dirtiness(store.index) == 0
    ensures compacted == Dirtiness(old(store.index))
    ensures SameEntries(old(store.index).tensors, store.index.tensors) && store.index.shardLimit == old(store.index).shardLimit
    ensures Dirtiness(old(store.index)) == 0 ==>
              store.files == old(store.files) && store.index == old(store.index) && store.history == old(store.history)
    ensures Strays(store.files, store.index) == if Dirtiness(old(store.index)) == 0 then Strays(old(store.files), old(store.index)) else {}
    ensures store.index.totalBytes == PaddedBytes(store.index.tensors)
    ensures Grew(old(store.history), store.history, content)
  {
    hide WellFormed, HasShards, Grew, HasRoom, Dirtiness, Describes, ComesFirst;
    ghost var h0 := store.history;
    GrewNone(h0, content);
    var dirty := DirtyShards(store.index);
    if dirty == [] {
      // "nothing to do; the FTW loads as is"
      CleanMeansTight(store.index);
      SameSelf(store.index.tensors);
      return 0;
    }
    var next := DropOrphans(store, content);
    ghost var h1 := store.history;
    compacted := CompactInPlace(store, next, content);
    GrewFurther(h0, h1, store.history, content);
  }

  /** Whatever instant of a run is hit, by a kill or a power loss, the directory found afterwards
      loads with the same contents, and a rerun may start from it. */
  lemma AnyCrashIsResumable(h0: seq<Disk>, history: seq<Disk>, k: nat, found: Disk, content: Content)
    requires Grew(h0, history, content) && |h0| <= k < |history|
    requires Crash(history[k], found)
    ensures Sound(found, content) && found.rollback == None
  {
    CrashKeepsContent(history[k], found, content);
  }

  /** Crash anywhere, then run again: the same names and bytes and every shard fully live. The job is finished,
      with no stray file the tool recognises, exactly when a shard was found dirty or no stray was there. */
  method RerunAfterCrash(found: Disk, ghost at: Disk, ghost content: Content) returns (store: Store)
    requires Sound(at, content) && Crash(at, found)
    requires StartsWithRoom(found.files.Keys, found.index)
    ensures fresh(store) && Settled(store, content) && Dirtiness(store.index) == 0
    ensures Strays(store.files, store.index) == {} <==>
              Dirtiness(found.index) > 0 || Strays(found.files, found.index) == {}
    ensures Dirtiness(found.index) == 0 ==> store.files == found.files && store.index == found.index
    ensures Grew([found], store.history, content)
  {
    CrashKeepsContent(at, found, content);
    store := new Store(found.files, found.index);
    var _ := Rerun(store, content);
  }

  /** A crash between the last index swap and the deletion of the old file: the directory found is clean, so a
      rerun has nothing to do, and the old file is a stray it recognises, so every rerun leaves it there. */
  lemma StrandedStays(history: seq<Disk>, index: Index, f: nat, found: Disk, content: Content)
    requires Stranded(history, index, f) && Sound(history[|history| - 2], content)
    requires Crash(history[|history| - 2], found)
    ensures Sound(found, content) && found.index == index
    ensures f < FIVE_DIGITS ==> f in Strays(found.files, found.index)
  {
    CrashKeepsContent(history[|history| - 2], found, content);
    NotNamed(index.shards, f);
  }

  /** Such a directory: the only shard had no live byte, and its file is what was to be deleted. */
  lemma StrandedExample(data: Bytes)
    ensures var found := Disk(map[7 := File(data, true)], Index(4096, 0, [], []), None);
      && Sound(found, []) && Crash(found, found) && Dirtiness(found.index) == 0
      && Strays(found.files, found.index) == {7} && StartsWithRoom(found.files.Keys, found.index)
  {
    var found := Disk(map[7 := File(data, true)], Index(4096, 0, [], []), None);
    assert Unreferenced(found.files, found.index) == {7};
  }
}
