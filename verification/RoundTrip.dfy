// From tensors to files and back.
module RoundTrip {
  import opened FtwFormat
  import opened HotfixStore
  import opened InPlace
  import opened ShardWriting
  import opened Repair
  import opened FtwReading
  import opened FtwBanks

  /** FTWWriter over a fresh directory, then finalize: the index loads, yields the tensors in call
      order, has no dirty shard and no shard over the limit, and a tensor no larger than the limit lies in one shard. */
  method Convert(limit: nat, ts: seq<Tensor>) returns (store: Store, index: Index)
    requires limit > 0 && Aligned(limit) && DistinctNames([], ts)
    ensures LoadsAs(Contents(store.files), index, ts) && Dirtiness(index) == 0
    ensures Whole(index.tensors, index.shards, limit) && SortShards(index.shards) == index.shards
    ensures WithinLimit(index.shards, limit) && RollsWhenNeeded(limit, index.shards, index.tensors)
    ensures HasShards(Contents(store.files), index.shards) && |Region(Contents(store.files), index.shards)| == index.totalBytes
    ensures forall x :: 0 <= x < index.totalBytes && !InEntry(index.tensors, x) ==> Region(Contents(store.files), index.shards)[x] == 0
    ensures index.shards == PartsOf(limit, 0, 0, ts) && index.shardLimit == limit
    ensures index.tensors == EntriesOf(ts, 0) && index.totalBytes == |Layout(ts)|
  {
    hide Wrote, RollsWhenNeeded, InEntry, Whole, Layout, EntriesOf, AlignedShards, Appended, AppendHistory, LoadsAs, DistinctNames;
    store := new Store(map[], Index(limit, 0, [], []));
    AlignedZero();
    var w := WriteAll(store, limit, 0, 0, ts);
    index := Index(limit, w.globalOff, w.entries, w.shards);
    FreshRoundTrip(Contents(store.files), limit, ts, w.shards);
    WrittenInOrder(Contents(store.files), w.shards, w.stream);
    ZeroElsewhere(ts);
  }

  predicate InEntry(tensors: seq<Entry>, x: int) {
    exists e <- tensors :: e.globalOff <= x < e.globalOff + e.nbytes
  }

  lemma ZeroElsewhere(ts: seq<Tensor>)
    ensures forall x :: 0 <= x < |Layout(ts)| && !InEntry(EntriesOf(ts, 0), x) ==> Layout(ts)[x] == 0
  {
    forall x | 0 <= x < |Layout(ts)| && !InEntry(EntriesOf(ts, 0), x) ensures Layout(ts)[x] == 0 { PaddingIsZero(ts, 0, x); }
  }

  lemma WrittenInOrder(files: map<nat, Bytes>, parts: seq<Shard>, stream: Bytes)
    requires Wrote(files, parts, 0, 0, stream)
    ensures SortShards(parts) == parts && HasShards(files, parts) && Region(files, parts) == stream
  {
    TilesAscending(parts, 0);
    SortShardsIdentity(parts);
  }

  /** Reading entry i of a written checkpoint back gives tensor i, for every schedule of the reads. */
  method ReadBack(files: map<nat, Bytes>, index: Index, ghost ts: seq<Tensor>, i: nat, chunk: nat) returns (data: Bytes)
    requires LoadsAs(files, index, ts) && i < |ts| && chunk > 0 && Aligned(chunk)
    ensures data == ts[i].1
  {
    var shards := SortShards(index.shards);
    LoadedRegion(files, index);
    assert |Decode(files, index)| == |index.tensors|;
    var e := index.tensors[i];
    assert e in index.tensors;
    data := ReadEntry(shards, e, chunk, files);
    assert Decode(files, index)[i].1 == data;
  }
}
