// The streaming writer of shard files. ShardWriter of the hotfix tool appends to a
// directory; FTWWriter is the same writer started on an empty directory at offset 0.
module ShardWriting {
  import opened Basics
  import opened FtwFormat
  import opened HotfixStore
  import opened CompactionStep

  type Tensor = (string, Bytes)

  // ---- the layout the writers promise ----

  function Zeros(n: nat): (r: Bytes)
    ensures |r| == n
  {
    seq(n, _ => 0 as byte)
  }

  function Padded(data: Bytes): (r: Bytes)
    ensures |r| == AlignUp(|data|) && Aligned(|r|)
  {
    data + Zeros(AlignUp(|data|) - |data|)
  }

  /** Tensors one after the other in call order, each padded to ALIGN. */
  function Layout(ts: seq<Tensor>): (r: Bytes)
    ensures Aligned(|r|)
  {
    if ts == [] then []
    else
      AlignedSum(|Layout(ts[..|ts| - 1])|, |Padded(ts[|ts| - 1].1)|);
      Layout(ts[..|ts| - 1]) + Padded(ts[|ts| - 1].1)
  }

  function EntriesOf(ts: seq<Tensor>, start: nat): (r: seq<Entry>)
    ensures |r| == |ts|
  {
    if ts == [] then []
    else
      var rest := ts[..|ts| - 1];
      EntriesOf(rest, start) + [Entry(ts[|ts| - 1].0, start + |Layout(rest)|, |ts[|ts| - 1].1|)]
  }

  lemma SliceLeft(x: Bytes, y: Bytes, lo: nat, hi: nat)
    requires lo <= hi <= |x|
    ensures (x + y)[lo..hi] == x[lo..hi]
  {
  }

  lemma SliceMiddle(x: Bytes, y: Bytes, z: Bytes)
    ensures (x + (y + z))[|x|..|x| + |y|] == y
  {
  }

  /** Entry i starts where the first i tensors end, aligned, and its bytes are tensor i. */
  lemma {:induction false} LayoutReads(ts: seq<Tensor>, start: nat, i: nat)
    requires i < |ts|
    ensures var e := EntriesOf(ts, start)[i];
            && e.name == ts[i].0 && e.nbytes == |ts[i].1|
            && start <= e.globalOff && e.BlockEnd() - start <= |Layout(ts)|
            && Layout(ts)[e.globalOff - start..e.globalOff - start + e.nbytes] == ts[i].1
    decreases |ts|
  {
    hide Aligned, AlignUp, Padded;
    var n := |ts| - 1;
    var rest := ts[..n];
    if i < n {
      LayoutReads(rest, start, i);
      var e := EntriesOf(rest, start)[i];
      assert ts[i] == rest[i];
      SliceLeft(Layout(rest), Padded(ts[n].1), e.globalOff - start, e.globalOff - start + e.nbytes);
    } else {
      LayoutReadsLast(Layout(rest), ts[n].1);
    }
  }

  lemma LayoutReadsLast(before: Bytes, data: Bytes)
    ensures (before + Padded(data))[|before|..|before| + |data|] == data
  {
    SliceMiddle(before, data, Zeros(AlignUp(|data|) - |data|));
  }

  lemma {:induction false} EntriesOrdered(ts: seq<Tensor>, start: nat, i: nat, j: nat)
    requires i < j < |ts|
    ensures EntriesOf(ts, start)[i].BlockEnd() <= EntriesOf(ts, start)[j].globalOff
    decreases |ts|
  {
    var rest := ts[..|ts| - 1];
    if j < |rest| {
      EntriesOrdered(rest, start, i, j);
    } else {
      LayoutReads(rest, start, i);
    }
  }

  lemma {:induction false} EntriesAligned(ts: seq<Tensor>, start: nat)
    requires Aligned(start)
    ensures forall e <- EntriesOf(ts, start) :: Aligned(e.globalOff)
  {
    if ts != [] {
      var rest := ts[..|ts| - 1];
      EntriesAligned(rest, start);
      AlignedSum(start, |Layout(rest)|);
    }
  }

  lemma {:induction false} EntriesPadded(ts: seq<Tensor>, start: nat)
    ensures PaddedBytes(EntriesOf(ts, start)) == |Layout(ts)|
  {
    if ts != [] {
      var rest := ts[..|ts| - 1];
      EntriesPadded(rest, start);
      var es := EntriesOf(ts, start);
      assert es[..|es| - 1] == EntriesOf(rest, start);
    }
  }

  // ---- growing the last shard ----

  lemma GrowLast(files: map<nat, Bytes>, files': map<nat, Bytes>, closed: seq<Shard>, last: Shard, chunk: Bytes, start: nat)
    requires HasShards(files, closed + [last]) && Tiles(closed + [last], start)
    requires forall s <- closed :: s.file != last.file
    requires last.file in files' && files'[last.file] == files[last.file] + chunk
    requires forall s <- closed :: s.file in files' && files'[s.file] == files[s.file]
    ensures var grown := closed + [last.(nbytes := last.nbytes + |chunk|)];
            && HasShards(files', grown) && Tiles(grown, start)
            && RegionEnd(grown, start) == RegionEnd(closed + [last], start) + |chunk|
            && Region(files', grown) == Region(files, closed + [last]) + chunk
  {
    var last' := last.(nbytes := last.nbytes + |chunk|);
    HasParts(files, closed, last, []);
    assert closed + ([last] + []) == closed + [last];
    TilesAppend(closed, [last], start);
    TilesAppend(closed, [last'], start);
    RegionFrame(files, files', closed, closed);
    RegionAppend(files, closed, [last]);
    RegionAppend(files', closed, [last']);
    OneShard(files, last);
    OneShard(files', last');
  }

  lemma AddShard(files: map<nat, Bytes>, files': map<nat, Bytes>, parts: seq<Shard>, num: nat, start: nat)
    requires HasShards(files, parts) && Tiles(parts, start)
    requires forall s <- parts :: s.file in files' && files'[s.file] == files[s.file]
    requires num in files' && files'[num] == []
    ensures var more := parts + [Shard(num, RegionEnd(parts, start), 0)];
            && HasShards(files', more) && Tiles(more, start)
            && RegionEnd(more, start) == RegionEnd(parts, start)
            && Region(files', more) == Region(files, parts)
  {
    var s := Shard(num, RegionEnd(parts, start), 0);
    TilesAppend(parts, [s], start);
    RegionFrame(files, files', parts, parts);
    OneShard(files', s);
    RegionAppend(files', parts, [s]);
  }

  /** parts are numbered from `first`, tile from `start` on, and hold the stream. */
  ghost predicate Wrote(files: map<nat, Bytes>, parts: seq<Shard>, first: nat, start: nat, stream: Bytes) {
    && (forall i :: 0 <= i < |parts| ==> parts[i].file == first + i)
    && Tiles(parts, start) && RegionEnd(parts, start) == start + |stream|
    && HasShards(files, parts) && Region(files, parts) == stream
  }

  lemma WroteMore(files: map<nat, Bytes>, files': map<nat, Bytes>, closed: seq<Shard>, last: Shard, chunk: Bytes,
                  first: nat, start: nat, stream: Bytes)
    requires Wrote(files, closed + [last], first, start, stream)
    requires last.file in files && files' == files[last.file := files[last.file] + chunk]
    ensures Wrote(files', closed + [last.(nbytes := last.nbytes + |chunk|)], first, start, stream + chunk)
  {
    var parts := closed + [last];
    assert forall i :: 0 <= i < |closed| ==> parts[i] == closed[i];
    assert parts[|closed|] == last;
    HasParts(files, closed, last, []);
    GrowLast(files, files', closed, last, chunk, start);
  }

  lemma WroteRoll(files: map<nat, Bytes>, parts: seq<Shard>, first: nat, start: nat, stream: Bytes)
    requires Wrote(files, parts, first, start, stream)
    ensures Wrote(files[first + |parts| := []],
                  parts + [Shard(first + |parts|, start + |stream|, 0)], first, start, stream)
  {
    assert forall s <- parts :: s.file != first + |parts|;
    AddShard(files, files[first + |parts| := []], parts, first + |parts|, start);
  }

  predicate WithinLimit(shards: seq<Shard>, limit: nat) {
    forall s <- shards :: s.nbytes <= limit
  }

  // ---- which shards the writer makes ----

  function Last(parts: seq<Shard>): Shard
    requires parts != []
  {
    parts[|parts| - 1]
  }

  /** A new shard after the others, at region offset `at`. */
  function Opened(parts: seq<Shard>, first: nat, at: nat): (r: seq<Shard>)
    ensures r != [] && Last(r).nbytes == 0
  {
    parts + [Shard(first + |parts|, at, 0)]
  }

  function Wider(parts: seq<Shard>, n: nat): (r: seq<Shard>)
    requires parts != []
    ensures |r| == |parts| && Last(r) == Last(parts).(nbytes := Last(parts).nbytes + n)
  {
    parts[..|parts| - 1] + [Last(parts).(nbytes := Last(parts).nbytes + n)]
  }

  /** n bytes more: the last shard is filled up to the limit, then the next one. */
  function Spread(limit: nat, first: nat, parts: seq<Shard>, n: nat): (r: seq<Shard>)
    requires limit > 0 && parts != [] && Last(parts).nbytes <= limit
    ensures r != [] && Last(r).nbytes <= limit
    decreases n, limit - Last(parts).nbytes == 0
  {
    if n == 0 then parts
    else if Last(parts).nbytes == limit then Spread(limit, first, Opened(parts, first, Last(parts).End()), n)
    else
      var take := Min(n, limit - Last(parts).nbytes);
      Spread(limit, first, Wider(parts, take), n - take)
  }

  /** n bytes after these shards lead where m bytes after those do. */
  ghost predicate SameSpread(limit: nat, first: nat, p: seq<Shard>, n: nat, q: seq<Shard>, m: nat) {
    && limit > 0 && p != [] && Last(p).nbytes <= limit && q != [] && Last(q).nbytes <= limit
    && Spread(limit, first, p, n) == Spread(limit, first, q, m)
  }

  lemma SpreadSelf(limit: nat, first: nat, p: seq<Shard>, n: nat)
    requires limit > 0 && p != [] && Last(p).nbytes <= limit
    ensures SameSpread(limit, first, p, n, p, n)
  {
  }

  lemma SpreadFurther(limit: nat, first: nat, p: seq<Shard>, n: nat, q: seq<Shard>, m: nat, r: seq<Shard>, k: nat)
    requires SameSpread(limit, first, p, n, q, m) && SameSpread(limit, first, q, m, r, k)
    ensures SameSpread(limit, first, p, n, r, k)
  {
  }

  lemma SpreadRolls(limit: nat, first: nat, p: seq<Shard>, n: nat)
    requires limit > 0 && p != [] && Last(p).nbytes == limit && n > 0
    ensures SameSpread(limit, first, p, n, Opened(p, first, Last(p).End()), n)
  {
  }

  lemma SpreadTakes(limit: nat, first: nat, p: seq<Shard>, n: nat)
    requires p != [] && Last(p).nbytes < limit
    ensures var take := Min(n, limit - Last(p).nbytes);
            SameSpread(limit, first, p, n, Wider(p, take), n - take)
  {
  }

  ghost predicate SameRoom(limit: nat, first: nat, start: nat, p: seq<Shard>, n: nat, q: seq<Shard>) {
    (p != [] ==> Last(p).nbytes <= limit) && q == Roomed(limit, first, start, p, n)
  }

  ghost predicate Lays(limit: nat, first: nat, start: nat, p: seq<Shard>, n: nat, q: seq<Shard>) {
    limit > 0 && (p != [] ==> Last(p).nbytes <= limit) && q == OneMore(limit, first, start, p, n)
  }

  lemma LaysOne(limit: nat, first: nat, start: nat, n: nat, pad: nat,
                p: seq<Shard>, q: seq<Shard>, r: seq<Shard>, t: seq<Shard>)
    requires pad == AlignUp(n) - n && SameSpread(limit, first, q, n, r, 0) && SameSpread(limit, first, r, pad, t, 0)
    ensures SameRoom(limit, first, start, p, n, q) ==> Lays(limit, first, start, p, n, t)
  {
    SpreadDone(limit, first, q, n, r);
    SpreadDone(limit, first, r, pad, t);
  }

  lemma LayMore(limit: nat, first: nat, start: nat, added: seq<Tensor>, name: string, data: Bytes)
    requires limit > 0
    ensures PartsOf(limit, first, start, added + [(name, data)])
         == OneMore(limit, first, start, PartsOf(limit, first, start, added), |data|)
  {
    var more := added + [(name, data)];
    assert more[..|more| - 1] == added;
  }

  lemma SpreadDone(limit: nat, first: nat, p: seq<Shard>, n: nat, q: seq<Shard>)
    requires SameSpread(limit, first, p, n, q, 0)
    ensures q == Spread(limit, first, p, n)
  {
  }

  /** Room for a tensor of n bytes: the first shard, or a new one rather than a tensor cut in two. */
  function Roomed(limit: nat, first: nat, start: nat, parts: seq<Shard>, n: nat): (r: seq<Shard>)
    requires parts != [] ==> Last(parts).nbytes <= limit
    ensures r != [] && Last(r).nbytes <= limit
  {
    if parts == [] then Opened(parts, first, start)
    else if n <= limit && Last(parts).nbytes + n > limit then Opened(parts, first, Last(parts).End())
    else parts
  }

  /** One tensor of n bytes more, with its padding. */
  function OneMore(limit: nat, first: nat, start: nat, parts: seq<Shard>, n: nat): (r: seq<Shard>)
    requires limit > 0 && (parts != [] ==> Last(parts).nbytes <= limit)
    ensures r != [] && Last(r).nbytes <= limit
  {
    Spread(limit, first, Spread(limit, first, Roomed(limit, first, start, parts, n), n), AlignUp(n) - n)
  }

  /** The shards after streaming the tensors into them from region offset `start` on. */
  function PartsOf(limit: nat, first: nat, start: nat, added: seq<Tensor>): (r: seq<Shard>)
    requires limit > 0
    ensures r == [] <==> added == []
    ensures r != [] ==> Last(r).nbytes <= limit
  {
    if added == [] then []
    else OneMore(limit, first, start, PartsOf(limit, first, start, added[..|added| - 1]), |added[|added| - 1].1|)
  }

  /** Shard q is not started without need: shard p before it is full, or a tensor that starts q would have been
      cut by the limit. */
  predicate Needed(limit: nat, p: Shard, q: Shard, entries: seq<Entry>) {
    p.nbytes == limit || exists e <- entries :: e.globalOff == q.globalOff && e.nbytes <= limit && p.nbytes + e.nbytes > limit
  }

  predicate NeededAt(limit: nat, parts: seq<Shard>, entries: seq<Entry>, i: nat)
    requires 0 < i < |parts|
  {
    Needed(limit, parts[i - 1], parts[i], entries)
  }

  /** No shard but the first is empty or started without need. */
  predicate RollsWhenNeeded(limit: nat, parts: seq<Shard>, entries: seq<Entry>) {
    forall i :: 0 < i < |parts| ==> parts[i].nbytes > 0 && NeededAt(limit, parts, entries, i)
  }

  /** The same but for the last shard, which may still be empty while it is being filled. */
  predicate Rolled(limit: nat, parts: seq<Shard>, entries: seq<Entry>) {
    && (forall i :: 0 < i < |parts| - 1 ==> parts[i].nbytes > 0)
    && (forall i :: 0 < i < |parts| ==> NeededAt(limit, parts, entries, i))
  }

  lemma RolledMore(limit: nat, parts: seq<Shard>, es: seq<Entry>, e: Entry)
    requires Rolled(limit, parts, es)
    ensures Rolled(limit, parts, es + [e])
  {
    assert forall x <- es :: x in es + [e];
    forall i | 0 < i < |parts| ensures NeededAt(limit, parts, es + [e], i) { assert NeededAt(limit, parts, es, i); }
  }

  lemma RolledWider(limit: nat, parts: seq<Shard>, es: seq<Entry>, n: nat)
    requires parts != [] && Rolled(limit, parts, es)
    ensures Rolled(limit, Wider(parts, n), es)
  {
    var more := Wider(parts, n);
    forall i | 0 < i < |more| ensures NeededAt(limit, more, es, i) {
      assert NeededAt(limit, parts, es, i);
      assert more[i - 1] == parts[i - 1] && more[i].globalOff == parts[i].globalOff;
    }
  }

  lemma RolledOpened(limit: nat, first: nat, parts: seq<Shard>, es: seq<Entry>, at: nat)
    requires parts != [] && Rolled(limit, parts, es) && (|parts| > 1 ==> Last(parts).nbytes > 0)
    requires Needed(limit, Last(parts), Shard(first + |parts|, at, 0), es)
    ensures Rolled(limit, Opened(parts, first, at), es)
  {
    hide Needed;
    var more := Opened(parts, first, at);
    forall i | 0 < i < |more| ensures NeededAt(limit, more, es, i) {
      if i < |parts| { assert NeededAt(limit, parts, es, i); }
    }
  }

  /** Writing n bytes moves the end by n, and starts a shard only after a full one. */
  lemma {:induction false} SpreadRolled(limit: nat, first: nat, parts: seq<Shard>, n: nat, es: seq<Entry>)
    requires limit > 0 && parts != [] && Last(parts).nbytes <= limit && Rolled(limit, parts, es)
    ensures var r := Spread(limit, first, parts, n);
      && Last(r).End() == Last(parts).End() + n && Rolled(limit, r, es)
      && (n > 0 || (|parts| > 1 ==> Last(parts).nbytes > 0) ==> |r| > 1 ==> Last(r).nbytes > 0)
    decreases n, limit - Last(parts).nbytes == 0
  {
    hide Rolled;
    if n > 0 {
      if Last(parts).nbytes == limit {
        RolledOpened(limit, first, parts, es, Last(parts).End());
        SpreadRolled(limit, first, Opened(parts, first, Last(parts).End()), n, es);
      } else {
        var take := Min(n, limit - Last(parts).nbytes);
        RolledWider(limit, parts, es, take);
        SpreadRolled(limit, first, Wider(parts, take), n - take, es);
      }
    }
  }

  /** One tensor more, at the end of the shards so far. */
  lemma OneMoreRolled(limit: nat, first: nat, start: nat, parts: seq<Shard>, es: seq<Entry>, e: Entry)
    requires limit > 0 && (parts != [] ==> Last(parts).nbytes <= limit)
    requires Rolled(limit, parts, es) && (|parts| > 1 ==> Last(parts).nbytes > 0)
    requires e.globalOff == if parts == [] then start else Last(parts).End()
    ensures var r := OneMore(limit, first, start, parts, e.nbytes);
      Last(r).End() == e.globalOff + AlignUp(e.nbytes) && Rolled(limit, r, es + [e]) && (|r| > 1 ==> Last(r).nbytes > 0)
  {
    hide Rolled, Spread;
    var roomy := Roomed(limit, first, start, parts, e.nbytes);
    RolledMore(limit, parts, es, e);
    RoomedRolled(limit, first, start, parts, es + [e], e);
    SpreadRolled(limit, first, roomy, e.nbytes, es + [e]);
    SpreadRolled(limit, first, Spread(limit, first, roomy, e.nbytes), AlignUp(e.nbytes) - e.nbytes, es + [e]);
  }

  lemma RoomedRolled(limit: nat, first: nat, start: nat, parts: seq<Shard>, es: seq<Entry>, e: Entry)
    requires (parts != [] ==> Last(parts).nbytes <= limit) && e in es
    requires Rolled(limit, parts, es) && (|parts| > 1 ==> Last(parts).nbytes > 0)
    requires e.globalOff == if parts == [] then start else Last(parts).End()
    ensures var roomy := Roomed(limit, first, start, parts, e.nbytes);
      && Last(roomy).End() == e.globalOff && Rolled(limit, roomy, es)
      && (e.nbytes > 0 || (|roomy| > 1 ==> Last(roomy).nbytes > 0))
  {
    if parts != [] && e.nbytes <= limit && Last(parts).nbytes + e.nbytes > limit {
      RolledOpened(limit, first, parts, es, Last(parts).End());
    }
  }

  /** The shards of a stream are as few as the limit and uncut tensors allow. */
  lemma {:induction false} PartsRoll(limit: nat, first: nat, start: nat, added: seq<Tensor>)
    requires limit > 0
    ensures var parts, es := PartsOf(limit, first, start, added), EntriesOf(added, start);
      && RollsWhenNeeded(limit, parts, es)
      && (parts != [] ==> Last(parts).End() == start + |Layout(added)|)
  {
    hide Rolled, OneMore;
    var parts := PartsOf(limit, first, start, added);
    if added != [] {
      PartsRolled(limit, first, start, added);
      RolledIsNeeded(limit, parts, EntriesOf(added, start));
    }
  }

  lemma {:induction false} PartsRolled(limit: nat, first: nat, start: nat, added: seq<Tensor>)
    requires limit > 0
    ensures var parts, es := PartsOf(limit, first, start, added), EntriesOf(added, start);
      && Rolled(limit, parts, es) && (|parts| > 1 ==> Last(parts).nbytes > 0)
      && (parts != [] ==> Last(parts).End() == start + |Layout(added)|)
  {
    hide OneMore;
    if added != [] {
      var rest, t := added[..|added| - 1], added[|added| - 1];
      PartsRolled(limit, first, start, rest);
      OneMoreRolled(limit, first, start, PartsOf(limit, first, start, rest), EntriesOf(rest, start),
                    Entry(t.0, start + |Layout(rest)|, |t.1|));
    }
  }

  lemma RolledIsNeeded(limit: nat, parts: seq<Shard>, es: seq<Entry>)
    requires Rolled(limit, parts, es) && (|parts| > 1 ==> Last(parts).nbytes > 0)
    ensures RollsWhenNeeded(limit, parts, es)
  {
  }

  /** Between the tensors there are zeros. */
  lemma {:induction false} PaddingIsZero(ts: seq<Tensor>, start: nat, x: nat)
    requires x < |Layout(ts)|
    requires forall e <- EntriesOf(ts, start) :: !(e.globalOff <= start + x < e.globalOff + e.nbytes)
    ensures Layout(ts)[x] == 0
  {
    var rest, t := ts[..|ts| - 1], ts[|ts| - 1];
    var es := EntriesOf(ts, start);
    assert es[|es| - 1] in es;
    if x < |Layout(rest)| {
      assert forall e <- EntriesOf(rest, start) :: e in es;
      PaddingIsZero(rest, start, x);
    }
  }

  // ---- what the writer leaves alone ----

  /** The writer changes no file but those of its `count` shards, numbered from `first`, and never the index. */
  ghost predicate Appended(files0: map<nat, File>, index0: Index, first: nat, count: nat, d: Disk) {
    && d.index == index0 && d.rollback == None
    && (forall f <- files0 :: f < first || first + count <= f ==> f in d.files && d.files[f] == files0[f])
  }

  ghost predicate AppendHistory(files0: map<nat, File>, index0: Index, first: nat, count: nat, h0: seq<Disk>, history: seq<Disk>) {
    && h0 <= history
    && forall k :: |h0| <= k < |history| ==> Appended(files0, index0, first, count, history[k])
  }

  lemma AppendedOne(files0: map<nat, File>, index0: Index, first: nat, count: nat, h0: seq<Disk>, history: seq<Disk>, d: Disk)
    requires AppendHistory(files0, index0, first, count, h0, history) && Appended(files0, index0, first, count, d)
    ensures AppendHistory(files0, index0, first, count, h0, history + [d])
  {
  }

  lemma AppendedMore(files0: map<nat, File>, index0: Index, first: nat, count: nat, h0: seq<Disk>, history: seq<Disk>)
    requires AppendHistory(files0, index0, first, count, h0, history)
    ensures AppendHistory(files0, index0, first, count + 1, h0, history)
  {
  }

  class ShardWriter {
    const store: Store
    const shardLimit: nat
    const firstShard: nat
    const start: nat
    var globalOff: nat
    var shardIdx: int
    var isOpen: bool
    var shardStart: nat
    var cur: nat
    var shards: seq<Shard>
    var entries: seq<Entry>
    ghost var stream: Bytes
    ghost const files0: map<nat, File>
    ghost const index0: Index
    ghost const h0: seq<Disk>

    ghost function Parts(): seq<Shard>
      reads this
    {
      if isOpen then shards + [Open()] else shards
    }

    function Open(): Shard
      reads this
    {
      Shard(firstShard + |shards|, shardStart, cur)
    }

    /** Numbering, sizes, and the bytes written so far. */
    ghost predicate Valid()
      reads this, store
    {
      && shardLimit > 0 && Aligned(shardLimit) && Aligned(shardStart)
      && shardIdx == firstShard + |shards| - (if isOpen then 0 else 1)
      && cur <= shardLimit && globalOff == start + |stream|
      && (isOpen ==> shardStart + cur == globalOff)
      && AlignedShards(shards) && WithinLimit(shards, shardLimit)
      && Wrote(Contents(store.files), Parts(), firstShard, start, stream)
      && (forall s <- shards :: s.file in store.files && store.files[s.file].synced)
      && Appended(files0, index0, firstShard, |Parts()|, store.Now())
      && AppendHistory(files0, index0, firstShard, |Parts()|, h0, store.history)
      && files0.Keys <= store.files.Keys
      && (forall f <- store.files :: f in files0 || firstShard <= f < firstShard + |Parts()|)
    }

    constructor (store: Store, shardLimit: nat, firstShard: nat, globalOff: nat)
      requires shardLimit > 0 && Aligned(shardLimit) && Aligned(globalOff)
      requires store.rollback == None
      ensures Valid() && this.store == store && this.shardLimit == shardLimit && this.firstShard == firstShard
      ensures start == globalOff && this.globalOff == globalOff && stream == [] && entries == [] && shards == []
      ensures !isOpen && files0 == store.files && index0 == store.index && h0 == store.history
    {
      this.store, this.shardLimit, this.firstShard := store, shardLimit, firstShard;
      this.globalOff, start, shardIdx, isOpen := globalOff, globalOff, firstShard - 1, false;
      shardStart, cur, shards, entries, stream := globalOff, 0, [], [], [];
      files0, index0, h0 := store.files, store.index, store.history;
    }

    method FinishShard()
      requires Valid() && isOpen && Aligned(cur)
      modifies this, store
      ensures Valid() && !isOpen && Parts() == old(Parts())
      ensures globalOff == old(globalOff) && stream == old(stream) && entries == old(entries)
    {
      hide Wrote;
      ghost var files := store.files;
      OpenExists();
      shards := shards + [Shard(shardIdx, shardStart, cur)];
      isOpen := false;
      store.Sync(shardIdx);
      assert Contents(store.files) == Contents(files);
    }

    lemma OpenExists()
      requires Valid() && isOpen
      ensures firstShard + |shards| in store.files
      ensures forall s <- shards :: s.file != firstShard + |shards|
    {
      assert Parts()[|shards|] == Open() && Open() in Parts();
      assert forall i :: 0 <= i < |shards| ==> Parts()[i] == shards[i];
    }

    method OpenNext()
      requires Valid() && !isOpen && Aligned(globalOff)
      modifies this, store
      ensures Valid() && isOpen && cur == 0 && Extends(old(Parts()), Parts())
      ensures Parts() == Opened(old(Parts()), firstShard, globalOff)
      ensures globalOff == old(globalOff) && stream == old(stream) && entries == old(entries)
    {
      hide Wrote, AppendHistory;
      ghost var files, history := store.files, store.history;
      WroteRoll(Contents(files), shards, firstShard, start, stream);
      AppendedMore(files0, index0, firstShard, |shards|, h0, store.history);
      shardIdx := shardIdx + 1;
      shardStart, cur, isOpen := globalOff, 0, true;
      store.Create(shardIdx);
      AppendedOne(files0, index0, firstShard, |shards| + 1, h0, history, store.Now());
      assert Contents(store.files) == Contents(files)[shardIdx := []];
      NotYetUsed(Contents(files), shards, firstShard, start, stream);
    }

    /** Start the next shard file; the previous one is flushed and synced. */
    method Roll()
      requires Valid() && (isOpen ==> Aligned(cur)) && Aligned(globalOff)
      modifies this, store
      ensures Valid() && isOpen && cur == 0 && Extends(old(Parts()), Parts())
      ensures Parts() == Opened(old(Parts()), firstShard, globalOff)
      ensures globalOff == old(globalOff) && stream == old(stream) && entries == old(entries)
    {
      if isOpen {
        FinishShard();
      }
      OpenNext();
    }

    /** Append one chunk to the open shard. */
    method WriteChunk(chunk: Bytes)
      requires Valid() && isOpen && cur + |chunk| <= shardLimit
      modifies this, store
      ensures Valid() && isOpen && cur == old(cur) + |chunk|
      ensures globalOff == old(globalOff) + |chunk| && stream == old(stream) + chunk && entries == old(entries)
      ensures shards == old(shards) && shardStart == old(shardStart) && Extends(old(Parts()), Parts())
    {
      hide Wrote, AppendHistory;
      OpenExists();
      ghost var files, history := store.files, store.history;
      WroteMore(Contents(files), Contents(files)[shardIdx := Contents(files)[shardIdx] + chunk],
                shards, Open(), chunk, firstShard, start, stream);
      store.Append(shardIdx, chunk);
      assert Contents(store.files) == Contents(files)[shardIdx := Contents(files)[shardIdx] + chunk];
      AppendedOne(files0, index0, firstShard, |shards| + 1, h0, history, store.Now());
      cur := cur + |chunk|;
      globalOff := globalOff + |chunk|;
      stream := stream + chunk;
    }
  
    lemma LastOpen()
      requires Valid() && isOpen
      ensures Parts() != [] && Last(Parts()) == Open() && Open().End() == globalOff && cur <= shardLimit
    {
      hide Wrote, Appended, AppendHistory, AlignedShards;
    }

    /** A full shard is closed and the next one started. */
    method MakeSpace(ghost n: nat)
      requires Valid() && isOpen && n > 0
      modifies this, store
      ensures Valid() && isOpen && cur < shardLimit && Extends(old(Parts()), Parts())
      ensures stream == old(stream) && entries == old(entries)
      ensures old(cur) < shardLimit ==> cur == old(cur) && shards == old(shards) && shardStart == old(shardStart)
      ensures SameSpread(shardLimit, firstShard, old(Parts()), n, Parts(), n)
    {
      hide Wrote, Appended, AppendHistory, AlignedShards, Extends, Spread, WithinLimit;
      LastOpen();
      ExtendsSelf(Parts());
      if cur == shardLimit {
        AlignedSum(shardStart, cur);
        SpreadRolls(shardLimit, firstShard, Parts(), n);
        Roll();
      }
    }

    /** As much as fits the open shard is written. */
    method Fill(data: Bytes) returns (take: nat)
      requires Valid() && isOpen && data != [] && cur < shardLimit
      modifies this, store
      ensures Valid() && isOpen && Extends(old(Parts()), Parts()) && shards == old(shards) && shardStart == old(shardStart)
      ensures 0 < take <= |data| && stream == old(stream) + data[..take] && entries == old(entries)
      ensures cur == old(cur) + take
      ensures SameSpread(shardLimit, firstShard, old(Parts()), |data|, Parts(), |data| - take)
    {
      hide Valid, Wider, SameSpread, Spread, Extends;
      LastOpen();
      take := Min(|data|, shardLimit - cur);
      SpreadTakes(shardLimit, firstShard, Parts(), |data|);
      WiderOpen(shards, Open(), take);
      WriteChunk(data[..take]);
    }

    /** One turn of the write loop: a full shard is closed, then as much as fits is written. */
    method WriteSome(data: Bytes) returns (take: nat)
      requires Valid() && isOpen && data != []
      modifies this, store
      ensures Valid() && isOpen && Extends(old(Parts()), Parts())
      ensures 0 < take <= |data| && stream == old(stream) + data[..take] && entries == old(entries)
      ensures SameSpread(shardLimit, firstShard, old(Parts()), |data|, Parts(), |data| - take)
      ensures old(cur) + |data| <= shardLimit ==> cur == old(cur) + take && shards == old(shards) && shardStart == old(shardStart)
    {
      hide Valid, Extends, SameSpread;
      ghost var before := Parts();
      MakeSpace(|data|);
      ghost var parts := Parts();
      take := Fill(data);
      ExtendsFurther(before, parts, Parts());
      SpreadFurther(shardLimit, firstShard, before, |data|, parts, |data|, Parts(), |data| - take);
    }

    /** Split the data over shards at the limit. */
    method Write(data: Bytes)
      requires Valid() && isOpen
      modifies this, store
      ensures WithinLimit(Parts(), shardLimit)
      ensures Valid() && isOpen && Extends(old(Parts()), Parts())
      ensures SameSpread(shardLimit, firstShard, old(Parts()), |data|, Parts(), 0)
      ensures stream == old(stream) + data && entries == old(entries)
      ensures old(cur) + |data| <= shardLimit ==> cur == old(cur) + |data| && shards == old(shards) && shardStart == old(shardStart)
    {
      hide Wrote, Appended, AppendHistory, AlignedShards, Extends, SameSpread;
      var off := 0;
      ghost var before := Parts();
      ExtendsSelf(before);
      LastOpen();
      SpreadSelf(shardLimit, firstShard, before, |data|);
      while off < |data|
        invariant 0 <= off <= |data| && Valid() && isOpen && Extends(before, Parts())
        invariant stream == old(stream) + data[..off] && entries == old(entries)
        invariant SameSpread(shardLimit, firstShard, before, |data|, Parts(), |data| - off)
        invariant old(cur) + |data| <= shardLimit ==>
                    cur == old(cur) + off && shards == old(shards) && shardStart == old(shardStart)
      {
        ghost var parts := Parts();
        var take := WriteSome(data[off..]);
        ExtendsFurther(before, parts, Parts());
        SpreadFurther(shardLimit, firstShard, before, |data|, parts, |data| - off, Parts(), |data| - off - take);
        TakeMore(data, off, take);
        off := off + take;
      }
    }

    /** The tensors added so far, in call order, are exactly what the region and the entries hold. */
    ghost predicate Holds(added: seq<Tensor>)
      reads this
    {
      && stream == Layout(added) && entries == EntriesOf(added, start)
      && Whole(entries, Parts(), shardLimit)
    }

    lemma NothingYet()
      requires Valid() && stream == [] && entries == [] && shards == [] && !isOpen
      ensures Holds([]) && Laid([])
    {
    }

    /** The shards are those the tensors added so far call for, and the last one is still open. */
    ghost predicate Laid(added: seq<Tensor>)
      reads this
    {
      shardLimit > 0 && (isOpen || added == []) && Parts() == PartsOf(shardLimit, firstShard, start, added)
    }

    method Add(name: string, data: Bytes, ghost added: seq<Tensor>)
      requires Valid() && Holds(added) && Aligned(start)
      modifies this, store
      ensures Valid() && Holds(added + [(name, data)])
      ensures old(Laid(added)) ==> Laid(added + [(name, data)])
    {
      hide Valid, Whole, AlignUp, Layout, EntriesOf, OneMore;
      StreamStart();
      LayMore(shardLimit, firstShard, start, added, name, data);
      AppendTensor(added, name, data, start);
      var e := PlaceTensor(name, data);
      Record(e, added + [(name, data)]);
    }

    lemma StreamStart()
      requires Valid()
      ensures globalOff == start + |stream| && shardLimit > 0
    {
      hide Wrote, Appended, AppendHistory, AlignedShards;
    }

    /** Room, the bytes, then zeros up to the next ALIGN boundary. */
    method PlaceTensor(name: string, data: Bytes) returns (e: Entry)
      requires Valid() && Aligned(start) && Aligned(|stream|) && Whole(entries, Parts(), shardLimit)
      modifies this, store
      ensures Valid() && isOpen && entries == old(entries)
      ensures e == Entry(name, old(globalOff), |data|) && Whole(entries + [e], Parts(), shardLimit)
      ensures stream == old(stream) + data + Zeros(AlignUp(|data|) - |data|)
      ensures old(isOpen) || old(Parts()) == [] ==>
                Lays(shardLimit, firstShard, start, old(Parts()), |data|, Parts())
    {
      hide Valid, Whole, AlignUp, SameSpread, SameRoom, Lays;
      ghost var before := Parts();
      StreamStart();
      AlignedSum(start, |stream|);
      MakeRoom(|data|);
      ghost var roomy := Parts();
      StreamStart();
      e := Entry(name, globalOff, |data|);
      WriteWhole(e, data);
      ghost var written := Parts();
      StreamStart();
      AlignUpSum(e.globalOff, |data|);
      var pad := AlignUp(globalOff) - globalOff;
      WritePad(pad, entries + [e]);
      LaysOne(shardLimit, firstShard, start, |data|, pad, before, roomy, written, Parts());
    }

    /** A tensor that fits a shard never straddles two: roll early. */
    method MakeRoom(n: nat)
      requires Valid() && Aligned(globalOff) && Whole(entries, Parts(), shardLimit)
      modifies this, store
      ensures Valid() && isOpen && (n <= shardLimit ==> cur + n <= shardLimit)
      ensures stream == old(stream) && entries == old(entries) && Whole(entries, Parts(), shardLimit)
      ensures old(isOpen) || old(Parts()) == [] ==> SameRoom(shardLimit, firstShard, start, old(Parts()), n, Parts())
    {
      hide Wrote, Appended, AppendHistory, AlignedShards, Extends, Whole;
      if isOpen { AlignedSum(shardStart, cur); LastOpen(); }
      if Parts() == [] { FromStart(); }
      ghost var parts := Parts();
      if !isOpen || (n <= shardLimit && cur + n > shardLimit) {
        Roll();
        ExtendsWhole(entries, parts, Parts(), shardLimit);
      }
    }

    lemma FromStart()
      requires Valid() && Parts() == []
      ensures globalOff == start
    {
    }

    method WritePad(pad: nat, ghost es: seq<Entry>)
      requires Valid() && isOpen && Whole(es, Parts(), shardLimit)
      modifies this, store
      ensures Valid() && isOpen && stream == old(stream) + Zeros(pad) && entries == old(entries)
      ensures SameSpread(shardLimit, firstShard, old(Parts()), pad, Parts(), 0)
      ensures Whole(es, Parts(), shardLimit)
    {
      hide Wrote, Appended, AppendHistory, AlignedShards, Extends, Whole;
      ghost var parts := Parts();
      Write(Zeros(pad));
      ExtendsWhole(es, parts, Parts(), shardLimit);
    }

    method Record(e: Entry, ghost added: seq<Tensor>)
      requires Valid() && stream == Layout(added) && entries + [e] == EntriesOf(added, start)
      requires Whole(entries + [e], Parts(), shardLimit)
      modifies this
      ensures Valid() && Holds(added) && Parts() == old(Parts()) && isOpen == old(isOpen)
    {
      hide Wrote, Appended, AppendHistory, AlignedShards, Whole, Aligned, Layout, EntriesOf;
      entries := entries + [e];
    }

    /** The bytes of one tensor; if it fits the shard limit it fits the open shard. */
    method WriteWhole(e: Entry, data: Bytes)
      requires Valid() && isOpen && e.globalOff == globalOff && e.nbytes == |data|
      requires |data| <= shardLimit ==> cur + |data| <= shardLimit
      requires Whole(entries, Parts(), shardLimit)
      modifies this, store
      ensures Valid() && isOpen && stream == old(stream) + data && entries == old(entries)
      ensures SameSpread(shardLimit, firstShard, old(Parts()), |data|, Parts(), 0)
      ensures Whole(entries + [e], Parts(), shardLimit)
    {
      hide Wrote, Appended, AppendHistory, AlignedShards, Aligned;
      ghost var parts := Parts();
      Write(data);
      ExtendsWhole(entries, parts, Parts(), shardLimit);
      assert |data| <= shardLimit ==> Inside(e, Open()) && Open() in Parts();
    }

    /** Flush the last shard; the shard list then covers everything written. */
    method Close(ghost added: seq<Tensor>) returns (list: seq<Shard>)
      requires Valid() && Holds(added) && Aligned(start)
      modifies this, store
      ensures Valid() && Holds(added) && !isOpen && list == shards == Parts() && WithinLimit(list, shardLimit)
      ensures Parts() == old(Parts())
    {
      AlignedSum(start, |stream|);
      if isOpen {
        AlignedSum(shardStart, cur);
        FinishShard();
      }
      list := shards;
    }
  }

  /** Shards are only added at the end or made longer. */
  predicate Extends(p: seq<Shard>, q: seq<Shard>) {
    && |p| <= |q|
    && forall i :: 0 <= i < |p| ==> q[i].globalOff == p[i].globalOff && p[i].End() <= q[i].End()
  }

  lemma WiderOpen(closed: seq<Shard>, last: Shard, n: nat)
    ensures Wider(closed + [last], n) == closed + [last.(nbytes := last.nbytes + n)]
  {
    assert (closed + [last])[..|closed|] == closed;
  }

  lemma ExtendsSelf(p: seq<Shard>)
    ensures Extends(p, p)
  {
  }

  lemma ExtendsFurther(p: seq<Shard>, q: seq<Shard>, r: seq<Shard>)
    requires Extends(p, q) && Extends(q, r)
    ensures Extends(p, r)
  {
  }

  predicate Inside(e: Entry, s: Shard) {
    s.globalOff <= e.globalOff && e.globalOff + e.nbytes <= s.End()
  }

  /** A tensor no larger than the limit lies in one shard. */
  predicate Whole(entries: seq<Entry>, parts: seq<Shard>, limit: nat) {
    forall e <- entries :: e.nbytes <= limit ==> exists s <- parts :: Inside(e, s)
  }

  lemma ExtendsWhole(entries: seq<Entry>, p: seq<Shard>, q: seq<Shard>, limit: nat)
    requires Whole(entries, p, limit) && Extends(p, q)
    ensures Whole(entries, q, limit)
  {
    forall e | e in entries && e.nbytes <= limit ensures exists s <- q :: Inside(e, s) {
      var s :| s in p && Inside(e, s);
      var i :| 0 <= i < |p| && p[i] == s;
      assert q[i] in q && Inside(e, q[i]);
    }
  }

  lemma AppendTensor(added: seq<Tensor>, name: string, data: Bytes, start: nat)
    ensures var more := added + [(name, data)];
            && Layout(more) == Layout(added) + data + Zeros(AlignUp(|data|) - |data|)
            && EntriesOf(more, start) == EntriesOf(added, start) + [Entry(name, start + |Layout(added)|, |data|)]
  {
    var more := added + [(name, data)];
    assert more[..|more| - 1] == added;
  }

  lemma TakeMore(data: Bytes, off: nat, take: nat)
    requires off + take <= |data|
    ensures data[..off] + data[off..][..take] == data[..off + take]
  {
    assert data[off..][..take] == data[off..off + take];
  }

  lemma NotYetUsed(files: map<nat, Bytes>, parts: seq<Shard>, first: nat, start: nat, stream: Bytes)
    requires Wrote(files, parts, first, start, stream)
    ensures forall s <- parts :: s.file < first + |parts|
  {
  }
}
