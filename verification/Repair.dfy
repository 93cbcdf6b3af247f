// What a closed writer leaves: the index over old and new shards, and the whole in-place
// repair run (delete strays, append, swap the index, compact) with a crash at any point.
module Repair {
  import opened Basics
  import opened FtwFormat
  import opened CompactionStep
  import opened HotfixStore
  import opened InPlace
  import opened ShardWriting

  // ---- shards appended after the old ones ----

  lemma {:induction false} InsertAppend(x: Shard, s: seq<Shard>, b: seq<Shard>)
    requires Ascending(s) && Ascending(s + b)
    requires forall y <- b :: x.globalOff <= y.globalOff
    ensures InsertShard(x, s + b) == InsertShard(x, s) + b
  {
    hide Ascending;
    if s == [] {
      assert s + b == b;
    } else {
      TailAscending(s);
      TailAscending(s + b);
      assert (s + b)[0] == s[0] && (s + b)[1..] == s[1..] + b;
      if x.globalOff > s[0].globalOff {
        InsertAppend(x, s[1..], b);
      }
    }
  }

  lemma {:induction false} SortAppend(a: seq<Shard>, b: seq<Shard>)
    requires Ascending(b) && forall x <- a, y <- b :: x.globalOff <= y.globalOff
    ensures SortShards(a + b) == SortShards(a) + b
  {
    if a == [] {
      assert a + b == b;
      SortShardsIdentity(b);
    } else {
      SortAppend(a[1..], b);
      assert (a + b)[0] == a[0] && (a + b)[1..] == a[1..] + b;
      AscendingAppend(SortShards(a[1..]), b);
      InsertAppend(a[0], SortShards(a[1..]), b);
    }
  }

  lemma AscendingAppend(s: seq<Shard>, b: seq<Shard>)
    requires Ascending(s) && Ascending(b) && forall x <- s, y <- b :: x.globalOff <= y.globalOff
    ensures Ascending(s + b)
  {
  }

  /** The index that keeps some old entries and adds the written ones. */
  function Joined(index0: Index, kept: seq<Entry>, entries: seq<Entry>, shards: seq<Shard>, total: nat): Index {
    index0.(tensors := kept + entries, shards := index0.shards + shards, totalBytes := total)
  }

  /** None of the shards has one of the `count` numbers from `first` on. */
  predicate Apart(shards: seq<Shard>, first: nat, count: nat) {
    forall s <- shards :: s.file < first || first + count <= s.file
  }

  lemma JoinedShards(files: map<nat, Bytes>, index0: Index, parts: seq<Shard>, first: nat, stream: Bytes)
    requires Loads(files, index0) && Wrote(files, parts, first, index0.totalBytes, stream) && AlignedShards(parts)
    requires Apart(index0.shards, first, |parts|)
    ensures var s := SortShards(index0.shards);
            && SortShards(index0.shards + parts) == s + parts
            && HasShards(files, s + parts)
            && Region(files, s + parts) == Region(files, s) + stream
            && Tiles(s + parts, 0) && RegionEnd(s + parts, 0) == index0.totalBytes + |stream|
            && AlignedShards(s + parts) && DistinctFiles(s + parts)
  {
    hide WellPlaced, DistinctFiles;
    var s := SortShards(index0.shards);
    TilesAscending(s, 0);
    TilesAscending(parts, index0.totalBytes);
    SortAppend(index0.shards, parts);
    RegionAppend(files, s, parts);
    TilesAppend(s, parts, 0);
    JoinedDistinct(s, parts, first);
  }

  lemma JoinedDistinct(s: seq<Shard>, parts: seq<Shard>, first: nat)
    requires DistinctFiles(s) && Apart(s, first, |parts|)
    requires forall i :: 0 <= i < |parts| ==> parts[i].file == first + i
    ensures DistinctFiles(s + parts)
  {
  }

  lemma JoinedPlaced(kept: seq<Entry>, added: seq<Tensor>, start: nat)
    requires WellPlaced(kept, start) && Aligned(start)
    requires forall i, j :: 0 <= i < j < |added| ==> added[i].0 != added[j].0
    requires forall i, j :: 0 <= i < |kept| && 0 <= j < |added| ==> kept[i].name != added[j].0
    ensures WellPlaced(kept + EntriesOf(added, start), start + |Layout(added)|)
  {
    var es := EntriesOf(added, start);
    EntriesAligned(added, start);
    forall i | 0 <= i < |added|
      ensures es[i].name == added[i].0 && start <= es[i].globalOff
      ensures es[i].globalOff + es[i].nbytes <= start + |Layout(added)|
    {
      LayoutReads(added, start, i);
    }
    forall i, j | 0 <= i < j < |es| ensures es[i].BlockEnd() <= es[j].globalOff {
      EntriesOrdered(added, start, i, j);
    }
    forall i | 0 <= i < |kept| ensures kept[i].BlockEnd() <= start {
      assert kept[i] in kept;
      BlockBelow(kept[i], start);
    }
    PlacedJoin(kept, es, start, start + |Layout(added)|);
  }

  lemma BlockBelow(e: Entry, end: nat)
    requires Aligned(e.globalOff) && Aligned(end) && e.globalOff + e.nbytes <= end
    ensures e.BlockEnd() <= end
  {
  }

  lemma PlacedJoin(kept: seq<Entry>, es: seq<Entry>, start: nat, total: nat)
    requires WellPlaced(kept, start) && start <= total
    requires forall i :: 0 <= i < |kept| ==> kept[i].BlockEnd() <= start
    requires forall e <- es :: Aligned(e.globalOff) && start <= e.globalOff && e.globalOff + e.nbytes <= total
    requires forall i, j :: 0 <= i < j < |es| ==> es[i].BlockEnd() <= es[j].globalOff && es[i].name != es[j].name
    requires forall i, j :: 0 <= i < |kept| && 0 <= j < |es| ==> kept[i].name != es[j].name
    ensures WellPlaced(kept + es, total)
  {
    var all := kept + es;
    forall i, j | 0 <= i < j < |all|
      ensures all[i].name != all[j].name
      ensures all[i].BlockEnd() <= all[j].globalOff || all[j].BlockEnd() <= all[i].globalOff
    {
      if i < |kept| && |kept| <= j {
        assert all[j] in es;
      }
    }
  }

  lemma SlicesOfOld(region: Bytes, more: Bytes, kept: seq<Entry>)
    requires forall e <- kept :: e.globalOff + e.nbytes <= |region|
    ensures Slices(region + more, kept) == Slices(region, kept)
  {
    forall i | 0 <= i < |kept|
      ensures Slices(region + more, kept)[i] == Slices(region, kept)[i]
    {
      assert kept[i] in kept;
      SliceLeft(region, more, kept[i].globalOff, kept[i].globalOff + kept[i].nbytes);
    }
  }

  lemma SlicesOfNew(region: Bytes, added: seq<Tensor>)
    ensures forall e <- EntriesOf(added, |region|) :: e.globalOff + e.nbytes <= |region + Layout(added)|
    ensures Slices(region + Layout(added), EntriesOf(added, |region|)) == added
  {
    hide Layout, EntriesOf;
    var all, es := region + Layout(added), EntriesOf(added, |region|);
    forall i | 0 <= i < |es|
      ensures |region| <= es[i].globalOff && es[i].globalOff + es[i].nbytes <= |all|
      ensures (es[i].name, all[es[i].globalOff..es[i].globalOff + es[i].nbytes]) == added[i]
    {
      LayoutReads(added, |region|, i);
      SliceRight(region, Layout(added), es[i].globalOff, es[i].globalOff + es[i].nbytes);
    }
  }

  lemma SlicesConcat(region: Bytes, a: seq<Entry>, b: seq<Entry>)
    requires forall e <- a :: e.globalOff + e.nbytes <= |region|
    requires forall e <- b :: e.globalOff + e.nbytes <= |region|
    ensures Slices(region, a + b) == Slices(region, a) + Slices(region, b)
  {
  }

  lemma SliceRight(x: Bytes, y: Bytes, lo: nat, hi: nat)
    requires |x| <= lo <= hi <= |x| + |y|
    ensures (x + y)[lo..hi] == y[lo - |x|..hi - |x|]
  {
  }

  // ---- the joined index ----

  predicate DistinctNames(kept: seq<Entry>, added: seq<Tensor>) {
    && (forall i, j :: 0 <= i < j < |added| ==> added[i].0 != added[j].0)
    && (forall i, j :: 0 <= i < |kept| && 0 <= j < |added| ==> kept[i].name != added[j].0)
  }

  /** What the repaired directory must hold: the kept entries as they were, then the new tensors. */
  ghost function Repaired(files: map<nat, Bytes>, index: Index, kept: seq<Entry>, added: seq<Tensor>): Content
    requires Loads(files, index) && WellPlaced(kept, index.totalBytes)
  {
    LoadedRegion(files, index);
    Slices(Region(files, SortShards(index.shards)), kept) + added
  }

  /** The index over the old and the appended shards reads back exactly that. */
  lemma JoinedDecodes(files: map<nat, Bytes>, index0: Index, kept: seq<Entry>, added: seq<Tensor>,
                      parts: seq<Shard>, first: nat)
    requires Loads(files, index0) && WellPlaced(kept, index0.totalBytes) && DistinctNames(kept, added)
    requires Wrote(files, parts, first, index0.totalBytes, Layout(added)) && AlignedShards(parts)
    requires Apart(index0.shards, first, |parts|)
    ensures var c := Joined(index0, kept, EntriesOf(added, index0.totalBytes), parts, index0.totalBytes + |Layout(added)|);
            LoadsAs(files, c, Repaired(files, index0, kept, added))
  {
    hide WellPlaced, Layout, EntriesOf, Wrote, Tiles, AlignedShards, DistinctFiles, HasShards, Region, RegionEnd, Aligned, Slices;
    JoinedShards(files, index0, parts, first, Layout(added));
    TotalAligned(index0);
    JoinedPlaced(kept, added, index0.totalBytes);
    LoadedRegion(files, index0);
    JoinedSlices(Region(files, SortShards(index0.shards)), kept, added);
  }

  lemma JoinedSlices(region: Bytes, kept: seq<Entry>, added: seq<Tensor>)
    requires WellPlaced(kept, |region|)
    ensures forall e <- kept :: e.globalOff + e.nbytes <= |region|
    ensures forall e <- kept + EntriesOf(added, |region|) :: e.globalOff + e.nbytes <= |region + Layout(added)|
    ensures Slices(region + Layout(added), kept + EntriesOf(added, |region|)) == Slices(region, kept) + added
  {
    hide WellPlaced, Layout, EntriesOf, Slices;
    PlacedInside(kept, |region|);
    SlicesOfNew(region, added);
    SlicesOfOld(region, Layout(added), kept);
    SlicesConcat(region + Layout(added), kept, EntriesOf(added, |region|));
  }

  lemma TotalAligned(index: Index)
    requires WellFormed(index)
    ensures Aligned(index.totalBytes)
  {
    AlignedEnd(SortShards(index.shards), 0);
  }

  lemma PlacedInside(kept: seq<Entry>, total: nat)
    requires WellPlaced(kept, total)
    ensures forall e <- kept :: e.globalOff + e.nbytes <= total
  {
  }

  // ---- the round trip of a fresh conversion ----

  /** Whatever tensors FTWWriter was given, the finalized index loads, yields exactly them in call
      order, has no dirty shard, and keeps every tensor that fits a shard in one shard. */
  lemma FreshRoundTrip(files: map<nat, Bytes>, limit: nat, added: seq<Tensor>, parts: seq<Shard>)
    requires Wrote(files, parts, 0, 0, Layout(added)) && AlignedShards(parts) && DistinctNames([], added)
    ensures var c := Index(limit, |Layout(added)|, EntriesOf(added, 0), parts);
            && LoadsAs(files, c, added) && Dirtiness(c) == 0
  {
    var none := Index(limit, 0, [], []);
    JoinedDecodes(files, none, [], added, parts, 0);
    var c := Joined(none, [], EntriesOf(added, 0), parts, |Layout(added)|);
    assert [] + EntriesOf(added, 0) == EntriesOf(added, 0) && [] + parts == parts;
    assert c == Index(limit, |Layout(added)|, EntriesOf(added, 0), parts);
    assert Repaired(files, none, [], added) == added;
    EntriesPadded(added, 0);
    CleanMeansTight(c);
  }

  // ---- the in-place repair run ----

  /** In the middle of the run the index reads as the old contents or as the new ones. */
  ghost predicate SoundEither(d: Disk, old_: Content, new_: Content) {
    && (LoadsAs(Durable(d.files), d.index, old_) || LoadsAs(Durable(d.files), d.index, new_))
    && (d.rollback.Some? ==>
          LoadsAs(Durable(d.files), d.rollback.value, old_) || LoadsAs(Durable(d.files), d.rollback.value, new_))
  }

  ghost predicate GrewEither(h0: seq<Disk>, history: seq<Disk>, old_: Content, new_: Content) {
    && h0 <= history
    && forall k :: |h0| <= k < |history| ==> SoundEither(history[k], old_, new_)
  }

  /** A crash at any instant of a repair leaves either all old contents or all new ones. */
  lemma CrashIsAllOrNothing(d: Disk, d': Disk, old_: Content, new_: Content)
    requires SoundEither(d, old_, new_) && Crash(d, d')
    ensures Sound(d', old_) || Sound(d', new_)
  {
    LoadsFrame(Durable(d.files), Durable(d'.files), d'.index);
  }

  lemma EitherFromGrew(h0: seq<Disk>, h1: seq<Disk>, old_: Content, new_: Content)
    requires Grew(h0, h1, old_) || Grew(h0, h1, new_)
    ensures GrewEither(h0, h1, old_, new_)
  {
    forall k | |h0| <= k < |h1| ensures SoundEither(h1[k], old_, new_) {
      assert Sound(h1[k], old_) || Sound(h1[k], new_);
    }
  }

  lemma EitherFurther(h0: seq<Disk>, h1: seq<Disk>, h2: seq<Disk>, old_: Content, new_: Content)
    requires GrewEither(h0, h1, old_, new_) && GrewEither(h1, h2, old_, new_)
    ensures GrewEither(h0, h2, old_, new_)
  {
  }

  /** The appending writer never touches what the old index reads. */
  lemma AppendedSound(files0: map<nat, File>, index0: Index, first: nat, count: nat, d: Disk, content: Content)
    requires Sound(Disk(files0, index0, None), content) && Appended(files0, index0, first, count, d)
    requires Apart(index0.shards, first, count)
    ensures Sound(d, content)
  {
    LoadsFrame(Durable(files0), Durable(d.files), index0);
  }

  lemma AppendedGrew(files0: map<nat, File>, index0: Index, first: nat, count: nat,
                     h0: seq<Disk>, history: seq<Disk>, content: Content)
    requires Sound(Disk(files0, index0, None), content) && AppendHistory(files0, index0, first, count, h0, history)
    requires Apart(index0.shards, first, count)
    ensures Grew(h0, history, content)
  {
    forall k | |h0| <= k < |history| ensures Sound(history[k], content) {
      AppendedSound(files0, index0, first, count, history[k], content);
    }
  }

  /** Once every shard is synced, the written region is durable. */
  lemma WroteDurable(files: map<nat, File>, parts: seq<Shard>, first: nat, start: nat, stream: Bytes)
    requires Wrote(Contents(files), parts, first, start, stream)
    requires forall s <- parts :: s.file in files && files[s.file].synced
    ensures Wrote(Durable(files), parts, first, start, stream)
  {
    RegionFrame(Contents(files), Durable(files), parts, parts);
  }

  /** Stream all tensors into shards numbered from `first`, starting at region offset `start`. */
  method WriteAll(store: Store, limit: nat, first: nat, start: nat, ts: seq<Tensor>) returns (w: ShardWriter)
    requires limit > 0 && Aligned(limit) && Aligned(start)
    requires store.rollback == None
    modifies store
    ensures fresh(w) && w.store == store && w.Valid() && w.Holds(ts) && !w.isOpen
    ensures w.firstShard == first && w.start == start && w.shardLimit == limit
    ensures w.shards == PartsOf(limit, first, start, ts) && RollsWhenNeeded(limit, w.shards, w.entries)
    ensures w.files0 == old(store.files) && w.index0 == old(store.index) && w.h0 == old(store.history)
  {
    hide ShardWriter.Valid, PartsOf, Whole, Layout, EntriesOf, RollsWhenNeeded;
    w := new ShardWriter(store, limit, first, start);
    w.NothingYet();
    for i := 0 to |ts|
      invariant fresh(w) && w.store == store && w.Valid() && w.Holds(ts[..i]) && w.Laid(ts[..i])
      invariant w.firstShard == first && w.start == start && w.shardLimit == limit
      invariant w.files0 == old(store.files) && w.index0 == old(store.index) && w.h0 == old(store.history)
    {
      w.Add(ts[i].0, ts[i].1, ts[..i]);
      assert ts[..i] + [(ts[i].0, ts[i].1)] == ts[..i + 1];
    }
    assert ts[..|ts|] == ts;
    var _ := w.Close(ts);
    PartsRoll(limit, first, start, ts);
  }

  /** The shards the new tensors go into. */
  function NewParts(index: Index, first: nat, ts: seq<Tensor>): seq<Shard>
    requires index.shardLimit > 0
  {
    PartsOf(index.shardLimit, first, index.totalBytes, ts)
  }

  /** The index the run installs before it compacts. */
  function NewIndex(index: Index, kept: seq<Entry>, ts: seq<Tensor>, first: nat): Index
    requires index.shardLimit > 0
  {
    Joined(index, kept, EntriesOf(ts, index.totalBytes), NewParts(index, first, ts), index.totalBytes + |Layout(ts)|)
  }

  /** New tensors go into appended shards, then one index swap makes them and the kept entries
      visible together. */
  method AppendAndSwap(store: Store, kept: seq<Entry>, ts: seq<Tensor>, next: nat, ghost content: Content)
    returns (next': nat, ghost repaired: Content)
    requires Settled(store, content)
    requires store.index.shardLimit > 0 && Aligned(store.index.shardLimit)
    requires Apart(store.index.shards, next, |NewParts(store.index, next, ts)|)
    requires WellPlaced(kept, store.index.totalBytes) && DistinctNames(kept, ts)
    modifies store
    ensures repaired == Repaired(Durable(old(store.files)), old(store.index), kept, ts)
    ensures Settled(store, repaired) && store.index == NewIndex(old(store.index), kept, ts, next)
    ensures store.index.shardLimit == old(store.index).shardLimit
    ensures next' == next + |NewParts(old(store.index), next, ts)|
    ensures Unreferenced(store.files, store.index) <= Unreferenced(old(store.files), old(store.index))
    ensures GrewEither(old(store.history), store.history, content, repaired)
  {
    hide Wrote, WellFormed, HasShards, WellPlaced, Layout, EntriesOf, DistinctNames, AlignedShards, Appended, AppendHistory, PartsOf, Apart, FilesOf;
    ghost var files0, index0, h0 := store.files, store.index, store.history;
    repaired := Repaired(Durable(files0), index0, kept, ts);
    TotalAligned(index0);
    var w := WriteAll(store, store.index.shardLimit, next, store.index.totalBytes, ts);
    ghost var parts := w.shards;
    AppendedGrew(files0, index0, next, |parts|, h0, store.history, content);
    EitherFromGrew(h0, store.history, content, repaired);
    ghost var h1, files1 := store.history, store.files;
    next' := w.firstShard + |w.shards|;
    WriterLeaves(files0, store.Now(), index0, next, parts, kept, ts, content);
    PartsNumbered(Contents(files1), parts, next, w.start, w.stream);
    AppendedKeeps(files0, index0, next, |parts|, store.Now());
    NewFiles(files0, files1, index0, parts, next);
    store.WriteIndex(Joined(store.index, kept, w.entries, w.shards, w.globalOff));
    SwapGrew(h1, store.history, content, repaired);
    EitherFurther(h0, h1, store.history, content, repaired);
  }

  /** Both indexes read their contents from the files the closed writer leaves. */
  lemma WriterLeaves(files0: map<nat, File>, d: Disk, index0: Index, first: nat, parts: seq<Shard>,
                     kept: seq<Entry>, ts: seq<Tensor>, content: Content)
    requires Sound(Disk(files0, index0, None), content) && Appended(files0, index0, first, |parts|, d)
    requires Wrote(Contents(d.files), parts, first, index0.totalBytes, Layout(ts)) && AlignedShards(parts)
    requires forall s <- parts :: s.file in d.files && d.files[s.file].synced
    requires WellPlaced(kept, index0.totalBytes) && DistinctNames(kept, ts)
    requires Apart(index0.shards, first, |parts|)
    ensures LoadsAs(Durable(d.files), index0, content)
    ensures LoadsAs(Durable(d.files),
                    Joined(index0, kept, EntriesOf(ts, index0.totalBytes), parts, index0.totalBytes + |Layout(ts)|),
                    Repaired(Durable(files0), index0, kept, ts))
  {
    hide WellPlaced, Layout, EntriesOf, Wrote, AlignedShards, WellFormed, HasShards, Region, DistinctNames;
    AppendedSound(files0, index0, first, |parts|, d, content);
    WroteDurable(d.files, parts, first, index0.totalBytes, Layout(ts));
    JoinedDecodes(Durable(d.files), index0, kept, ts, parts, first);
    RepairedFrame(files0, d.files, index0, kept, ts);
  }

  lemma RepairedFrame(files0: map<nat, File>, files: map<nat, File>, index0: Index, kept: seq<Entry>, ts: seq<Tensor>)
    requires Loads(Durable(files0), index0) && WellPlaced(kept, index0.totalBytes)
    requires forall s <- index0.shards :: s.file in files0 ==> s.file in files && files[s.file] == files0[s.file]
    ensures Loads(Durable(files), index0)
    ensures Repaired(Durable(files), index0, kept, ts) == Repaired(Durable(files0), index0, kept, ts)
  {
    var s := SortShards(index0.shards);
    RegionFrame(Durable(files0), Durable(files), s, s);
  }

  lemma NewFiles(files0: map<nat, File>, files: map<nat, File>, index0: Index, parts: seq<Shard>, first: nat)
    requires forall i :: 0 <= i < |parts| ==> parts[i].file == first + i && parts[i].file in files
    requires forall f <- files :: f in files0 || first <= f < first + |parts|
    ensures files.Keys - FilesOf(index0.shards + parts) <= Unreferenced(files0, index0)
  {
    FilesOfAppend(index0.shards, parts);
    forall f | first <= f < first + |parts| ensures f in FilesOf(parts) {
      assert parts[f - first] in parts;
    }
  }

  lemma PartsNumbered(files: map<nat, Bytes>, parts: seq<Shard>, first: nat, start: nat, stream: Bytes)
    requires Wrote(files, parts, first, start, stream)
    ensures forall i :: 0 <= i < |parts| ==> parts[i].file == first + i && parts[i].file in files
  {
    assert forall i :: 0 <= i < |parts| ==> parts[i] in parts;
  }

  lemma AppendedKeeps(files0: map<nat, File>, index0: Index, first: nat, count: nat, d: Disk)
    requires Appended(files0, index0, first, count, d)
    ensures d.index == index0
  {
  }

  lemma SwapGrew(h1: seq<Disk>, h2: seq<Disk>, old_: Content, new_: Content)
    requires |h2| == |h1| + 2 && h2[..|h1|] == h1
    requires SoundEither(h2[|h1|], old_, new_) && SoundEither(h2[|h1| + 1], old_, new_)
    ensures GrewEither(h1, h2, old_, new_)
  {
  }

  /** Every number the run asks for is free by then: those of the appended shards, and those of the
      compaction. */
  ghost predicate CanRepair(onDisk: set<nat>, index: Index, kept: seq<Entry>, ts: seq<Tensor>)
    requires index.shardLimit > 0
  {
    forall next: nat :: IsNext(next, Numbers(onDisk, index)) ==>
      Apart(index.shards, next, |NewParts(index, next, ts)|) && HasRoom(NewIndex(index, kept, ts, next), next + |NewParts(index, next, ts)|)
  }

  /** An index that names only five-digit files can be repaired, whatever else is on disk. */
  lemma FiveDigitsCanRepair(onDisk: set<nat>, index: Index, kept: seq<Entry>, ts: seq<Tensor>)
    requires index.shardLimit > 0 && forall s <- index.shards :: s.file < FIVE_DIGITS
    ensures CanRepair(onDisk, index, kept, ts)
  {
    hide HasRoom, PartsOf, Layout, EntriesOf;
    forall next: nat | IsNext(next, Numbers(onDisk, index))
      ensures Apart(index.shards, next, |NewParts(index, next, ts)|)
      ensures HasRoom(NewIndex(index, kept, ts, next), next + |NewParts(index, next, ts)|)
    {
      FiveDigitsAreRoom(onDisk, index, next);
      assert forall s <- index.shards :: s.file in FilesOf(index.shards);
      PartsOfNumbers(index.shardLimit, next, index.totalBytes, ts);
      FilesOfAppend(index.shards, NewParts(index, next, ts));
      BelowIsRoom(NewIndex(index, kept, ts, next), next + |NewParts(index, next, ts)|);
    }
  }

  lemma PartsOfNumbers(limit: nat, first: nat, start: nat, ts: seq<Tensor>)
    requires limit > 0
    ensures forall s <- PartsOf(limit, first, start, ts) :: s.file < first + |PartsOf(limit, first, start, ts)|
  {
    if ts != [] {
      var p := PartsOf(limit, first, start, ts[..|ts| - 1]);
      var n := |ts[|ts| - 1].1|;
      PartsOfNumbers(limit, first, start, ts[..|ts| - 1]);
      SpreadNumbers(limit, first, Roomed(limit, first, start, p, n), n);
      SpreadNumbers(limit, first, Spread(limit, first, Roomed(limit, first, start, p, n), n), AlignUp(n) - n);
    }
  }

  lemma {:induction false} SpreadNumbers(limit: nat, first: nat, parts: seq<Shard>, n: nat)
    requires limit > 0 && parts != [] && Last(parts).nbytes <= limit
    requires forall s <- parts :: s.file < first + |parts|
    ensures forall s <- Spread(limit, first, parts, n) :: s.file < first + |Spread(limit, first, parts, n)|
    decreases n, limit - Last(parts).nbytes == 0
  {
    if n > 0 {
      if Last(parts).nbytes == limit {
        SpreadNumbers(limit, first, Opened(parts, first, Last(parts).End()), n);
      } else {
        var take := Min(n, limit - Last(parts).nbytes);
        assert Last(parts) in parts;
        SpreadNumbers(limit, first, Wider(parts, take), n - take);
      }
    }
  }

  /** A run with something to do. */
  method Work(store: Store, kept: seq<Entry>, ts: seq<Tensor>, ghost content: Content) returns (ghost repaired: Content)
    requires Settled(store, content)
    requires store.index.shardLimit > 0 && Aligned(store.index.shardLimit)
    requires CanRepair(store.files.Keys, store.index, kept, ts)
    requires WellPlaced(kept, store.index.totalBytes) && DistinctNames(kept, ts)
    modifies store
    ensures repaired == Repaired(Durable(old(store.files)), old(store.index), kept, ts)
    ensures Settled(store, repaired) && Dirtiness(store.index) == 0
    ensures forall f <- Unreferenced(store.files, store.index) :: f >= FIVE_DIGITS
    ensures store.index.totalBytes == PaddedBytes(store.index.tensors) && store.index.shardLimit == old(store.index).shardLimit
    ensures GrewEither(old(store.history), store.history, content, repaired)
  {
    hide WellFormed, HasShards, WellPlaced, Grew, GrewEither, Dirtiness, Unreferenced, DistinctNames, HasRoom, Apart, Repaired, IsNext, PartsOf, Stranded;
    ghost var files0, index0, h0 := store.files, store.index, store.history;
    repaired := Repaired(Durable(files0), index0, kept, ts);
    var next := DropOrphans(store, content);
    ghost var h1 := store.history;
    StraysDoNotMatter(files0, store.files, index0, kept, ts);
    if kept != store.index.tensors || ts != [] {
      next, repaired := AppendAndSwap(store, kept, ts, next, content);
    } else {
      SameIndex(index0, next);
      SameRepaired(files0, index0, content);
      EitherNone(h1, content, repaired);
    }
    ghost var h2 := store.history;
    var _ := CompactInPlace(store, next, repaired);
    EitherFromGrew(h0, h1, content, repaired);
    EitherFurther(h0, h1, h2, content, repaired);
    EitherFromGrew(h2, store.history, content, repaired);
    EitherFurther(h0, h2, store.history, content, repaired);
  }

  /** The in-place run: strays are deleted, new tensors appended, the index swapped, and the dead bytes of replaced
      or dropped entries squeezed out. `sideFiles` tells whether files beside the shards are to be written. When
      there is nothing to do nothing is touched, and that is the one case in which recognised strays stay. */
  method RepairInPlace(store: Store, kept: seq<Entry>, ts: seq<Tensor>, sideFiles: bool, ghost content: Content)
    returns (ghost repaired: Content)
    requires Settled(store, content)
    requires store.index.shardLimit > 0 && Aligned(store.index.shardLimit)
    requires CanRepair(store.files.Keys, store.index, kept, ts)
    requires WellPlaced(kept, store.index.totalBytes) && DistinctNames(kept, ts)
    modifies store
    ensures repaired == Repaired(Durable(old(store.files)), old(store.index), kept, ts)
    ensures Settled(store, repaired) && Dirtiness(store.index) == 0
    ensures var idle := kept == old(store.index).tensors && ts == [] && !sideFiles && Dirtiness(old(store.index)) == 0;
      && (idle ==> store.files == old(store.files) && store.index == old(store.index) && store.history == old(store.history))
      && Strays(store.files, store.index) == if idle then Strays(old(store.files), old(store.index)) else {}
    ensures store.index.totalBytes == PaddedBytes(store.index.tensors) && store.index.shardLimit == old(store.index).shardLimit
    ensures GrewEither(old(store.history), store.history, content, repaired)
  {
    hide WellFormed, HasShards, WellPlaced, GrewEither, Dirtiness, Unreferenced, DistinctNames, CanRepair, Describes, ComesFirst, Repaired;
    var dirty := DirtyShards(store.index);
    if kept == store.index.tensors && ts == [] && !sideFiles && dirty == [] {
      SameRepaired(store.files, store.index, content);
      repaired := content;
      EitherNone(store.history, content, repaired);
      CleanMeansTight(store.index);
    } else {
      repaired := Work(store, kept, ts, content);
    }
  }

  lemma EitherNone(h: seq<Disk>, old_: Content, new_: Content)
    ensures GrewEither(h, h, old_, new_)
  {
  }

  /** With all entries kept and none added the contents and the index are the same. */
  lemma SameRepaired(files: map<nat, File>, index: Index, content: Content)
    requires Sound(Disk(files, index, None), content)
    ensures WellPlaced(index.tensors, index.totalBytes)
    ensures Repaired(Durable(files), index, index.tensors, []) == content
  {
  }

  lemma SameIndex(index: Index, next: nat)
    requires index.shardLimit > 0
    ensures NewParts(index, next, []) == [] && NewIndex(index, index.tensors, [], next) == index
  {
  }

  lemma StraysDoNotMatter(files0: map<nat, File>, files: map<nat, File>, index0: Index, kept: seq<Entry>, ts: seq<Tensor>)
    requires Loads(Durable(files0), index0) && WellPlaced(kept, index0.totalBytes)
    requires files == files0 - Strays(files0, index0)
    ensures Loads(Durable(files), index0)
    ensures Repaired(Durable(files), index0, kept, ts) == Repaired(Durable(files0), index0, kept, ts)
  {
    hide WellFormed, WellPlaced, Repaired;
    assert forall s <- index0.shards :: s.file in FilesOf(index0.shards);
    RepairedFrame(files0, files, index0, kept, ts);
  }
}
