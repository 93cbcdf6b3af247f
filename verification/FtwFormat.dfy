// The FTW on-disk format: one logical byte region cut into shard files, and an
// index naming the shards and the tensors stored in the region.
module FtwFormat {

  const ALIGN: nat := 4096

  newtype byte = x: int | 0 <= x < 256

  type Bytes = seq<byte>

  /** A shard file is known by the number NNNNN of its name freetoken-NNNNN.ftw. */
  datatype Shard = Shard(file: nat, globalOff: nat, nbytes: nat) {
    function End(): nat { globalOff + nbytes }
  }

  /** An index entry; kind, dtype and shape ride along unchanged and are not kept. */
  datatype Entry = Entry(name: string, globalOff: nat, nbytes: nat) {
    /** Every entry owns its ALIGN-padded block [globalOff, BlockEnd()). */
    function BlockEnd(): nat { globalOff + AlignUp(nbytes) }
  }

  datatype Index = Index(shardLimit: nat, totalBytes: nat, tensors: seq<Entry>, shards: seq<Shard>)

  predicate Aligned(n: nat) {
    n % ALIGN == 0
  }

  lemma AlignedSum(x: nat, y: nat)
    requires Aligned(x)
    ensures Aligned(x + y) <==> Aligned(y)
  {
  }

  function AlignUp(n: nat): (m: nat)
    ensures n <= m < n + ALIGN && Aligned(m)
  {
    (n + ALIGN - 1) / ALIGN * ALIGN
  }

  lemma AlignUpSum(at: nat, n: nat)
    requires Aligned(at)
    ensures AlignUp(at + n) == at + AlignUp(n)
  {
  }

  lemma SliceOfSlice(region: Bytes, lo: nat, hi: nat, x: nat, y: nat)
    requires lo <= hi <= |region| && x <= y <= hi - lo
    ensures region[lo..hi][x..y] == region[lo + x..lo + y]
  {
    forall i | 0 <= i < y - x ensures region[lo..hi][x..y][i] == region[lo + x..lo + y][i] {
      assert region[lo..hi][x..y][i] == region[lo..hi][x + i];
    }
  }

  // ---- shards in region order ----

  /** Python's sorted(shards, key=global_off). */
  function SortShards(shards: seq<Shard>): (r: seq<Shard>)
    ensures |r| == |shards|
    ensures forall s :: s in r <==> s in shards
    ensures Ascending(r)
  {
    if shards == [] then [] else InsertShard(shards[0], SortShards(shards[1..]))
  }

  predicate Ascending(shards: seq<Shard>) {
    forall i, j :: 0 <= i < j < |shards| ==> shards[i].globalOff <= shards[j].globalOff
  }

  function InsertShard(x: Shard, sorted: seq<Shard>): (r: seq<Shard>)
    requires Ascending(sorted)
    ensures |r| == |sorted| + 1
    ensures forall s :: s in r <==> s == x || s in sorted
    ensures Ascending(r)
  {
    if sorted == [] || x.globalOff <= sorted[0].globalOff then
      [x] + sorted
    else
      var rest := InsertShard(x, sorted[1..]);
      assert forall s <- rest :: sorted[0].globalOff <= s.globalOff;
      [sorted[0]] + rest
  }

  /** The shards that start at an offset, in the order they come. */
  function StartingAt(shards: seq<Shard>, off: nat): seq<Shard> {
    if shards == [] then []
    else (if shards[0].globalOff == off then [shards[0]] else []) + StartingAt(shards[1..], off)
  }

  lemma Cons(x: Shard, s: seq<Shard>, off: nat)
    ensures multiset([x] + s) == multiset(s) + multiset{x}
    ensures StartingAt([x] + s, off) == (if x.globalOff == off then [x] else []) + StartingAt(s, off)
  {
    assert ([x] + s)[0] == x && ([x] + s)[1..] == s;
  }

  lemma {:induction false} InsertKeeps(x: Shard, sorted: seq<Shard>, off: nat)
    requires Ascending(sorted)
    ensures multiset(InsertShard(x, sorted)) == multiset(sorted) + multiset{x}
    ensures StartingAt(InsertShard(x, sorted), off) == (if x.globalOff == off then [x] else []) + StartingAt(sorted, off)
  {
    hide Ascending, StartingAt, InsertShard;
    InsertCases(x, sorted);
    if sorted == [] || x.globalOff <= sorted[0].globalOff {
      Cons(x, sorted, off);
    } else {
      InsertKeeps(x, sorted[1..], off);
      Cons(sorted[0], sorted[1..], off);
      Cons(sorted[0], InsertShard(x, sorted[1..]), off);
    }
  }

  lemma InsertCases(x: Shard, sorted: seq<Shard>)
    requires Ascending(sorted)
    ensures sorted == [] || x.globalOff <= sorted[0].globalOff ==> InsertShard(x, sorted) == [x] + sorted
    ensures sorted != [] ==> Ascending(sorted[1..]) && sorted == [sorted[0]] + sorted[1..]
    ensures sorted != [] && x.globalOff > sorted[0].globalOff ==> InsertShard(x, sorted) == [sorted[0]] + InsertShard(x, sorted[1..])
  {
  }

  lemma TailAscending(s: seq<Shard>)
    requires Ascending(s) && s != []
    ensures Ascending(s[1..])
  {
  }

  /** Sorting keeps every shard as often as it is there, and the order of those that start at the same offset. */
  lemma {:induction false} SortKeeps(shards: seq<Shard>, off: nat)
    ensures multiset(SortShards(shards)) == multiset(shards)
    ensures StartingAt(SortShards(shards), off) == StartingAt(shards, off)
  {
    if shards != [] {
      SortKeeps(shards[1..], off);
      InsertKeeps(shards[0], SortShards(shards[1..]), off);
      Cons(shards[0], shards[1..], off);
      assert shards == [shards[0]] + shards[1..];
    }
  }

  lemma {:induction false} SortShardsIdentity(shards: seq<Shard>)
    requires Ascending(shards)
    ensures SortShards(shards) == shards
  {
    if shards != [] {
      SortShardsIdentity(shards[1..]);
      assert shards == [shards[0]] + shards[1..];
    }
  }

  /** Shards in order, contiguous from `start`. */
  predicate Tiles(shards: seq<Shard>, start: nat) {
    shards == [] ||
    (shards[0].globalOff == start && Tiles(shards[1..], shards[0].End()))
  }

  function RegionEnd(shards: seq<Shard>, start: nat): nat {
    if shards == [] then start else RegionEnd(shards[1..], shards[0].End())
  }

  /** The structural demands of validate_ftw, plus what both writers guarantee: aligned shard
      bounds and one file per shard. */
  ghost predicate WellFormed(index: Index) {
    && var s := SortShards(index.shards);
    && Tiles(s, 0)
    && RegionEnd(s, 0) == index.totalBytes
    && AlignedShards(s)
    && DistinctFiles(s)
    && WellPlaced(index.tensors, index.totalBytes)
  }

  predicate AlignedShards(shards: seq<Shard>) {
    forall s <- shards :: Aligned(s.nbytes)
  }

  predicate DistinctFiles(shards: seq<Shard>) {
    forall i, j :: 0 <= i < j < |shards| ==> shards[i].file != shards[j].file
  }

  ghost predicate WellPlaced(tensors: seq<Entry>, total: nat) {
    && (forall i, j :: 0 <= i < j < |tensors| ==> tensors[i].name != tensors[j].name)
    && (forall e <- tensors :: Aligned(e.globalOff) && e.globalOff + e.nbytes <= total)
    && DisjointBlocks(tensors)
  }

  predicate DisjointBlocks(tensors: seq<Entry>) {
    forall i, j :: 0 <= i < j < |tensors| ==>
      tensors[i].BlockEnd() <= tensors[j].globalOff || tensors[j].BlockEnd() <= tensors[i].globalOff
  }

  // ---- meaning of a directory ----

  /** Every shard's file is there with the recorded size. */
  predicate HasShards(files: map<nat, Bytes>, shards: seq<Shard>) {
    forall s <- shards :: s.file in files && |files[s.file]| == s.nbytes
  }

  /** The logical byte region. */
  ghost function Region(files: map<nat, Bytes>, shards: seq<Shard>): (r: Bytes)
    requires HasShards(files, shards)
  {
    if shards == [] then [] else files[shards[0].file] + Region(files, shards[1..])
  }

  lemma {:induction false} RegionLength(files: map<nat, Bytes>, shards: seq<Shard>, start: nat)
    requires HasShards(files, shards) && Tiles(shards, start)
    ensures start + |Region(files, shards)| == RegionEnd(shards, start)
  {
    if shards != [] {
      RegionLength(files, shards[1..], shards[0].End());
    }
  }

  lemma {:induction false} RegionAppend(files: map<nat, Bytes>, a: seq<Shard>, b: seq<Shard>)
    requires HasShards(files, a) && HasShards(files, b)
    ensures HasShards(files, a + b)
    ensures Region(files, a + b) == Region(files, a) + Region(files, b)
  {
    if a == [] {
      assert a + b == b;
    } else {
      RegionAppend(files, a[1..], b);
      assert (a + b)[1..] == a[1..] + b;
    }
  }

  /** Regions depend only on the contents of the files the shards name. */
  lemma {:induction false} RegionFrame(f: map<nat, Bytes>, g: map<nat, Bytes>, a: seq<Shard>, b: seq<Shard>)
    requires |a| == |b| && HasShards(f, a) && HasShards(g, b)
    requires forall i :: 0 <= i < |a| ==> f[a[i].file] == g[b[i].file]
    ensures Region(f, a) == Region(g, b)
  {
    if a != [] {
      RegionFrame(f, g, a[1..], b[1..]);
    }
  }

  lemma {:induction false} TilesAppend(a: seq<Shard>, b: seq<Shard>, start: nat)
    ensures Tiles(a + b, start) <==> Tiles(a, start) && Tiles(b, RegionEnd(a, start))
    ensures RegionEnd(a + b, start) == RegionEnd(b, RegionEnd(a, start))
  {
    if a == [] {
      assert a + b == b;
    } else {
      TilesAppend(a[1..], b, a[0].End());
      assert (a + b)[1..] == a[1..] + b;
    }
  }

  lemma {:induction false} TilesAscending(shards: seq<Shard>, start: nat)
    requires Tiles(shards, start)
    ensures Ascending(shards)
    ensures forall s <- shards :: start <= s.globalOff && s.End() <= RegionEnd(shards, start)
    ensures start <= RegionEnd(shards, start)
  {
    if shards != [] {
      TilesAscending(shards[1..], shards[0].End());
      forall i, j | 0 <= i < j < |shards|
        ensures shards[i].globalOff <= shards[j].globalOff
      {
        if i == 0 { assert shards[j] == shards[1..][j - 1]; }
        else { assert shards[i] == shards[1..][i - 1] && shards[j] == shards[1..][j - 1]; }
      }
    }
  }

  /** The index over these files can be read: it is well formed and its shards are all there. */
  ghost predicate Loads(files: map<nat, Bytes>, index: Index) {
    WellFormed(index) && HasShards(files, SortShards(index.shards))
  }

  lemma LoadedRegion(files: map<nat, Bytes>, index: Index)
    requires Loads(files, index)
    ensures |Region(files, SortShards(index.shards))| == index.totalBytes
  {
    RegionLength(files, SortShards(index.shards), 0);
  }

  /** Name and bytes of every entry, in index order. */
  ghost function Slices(region: Bytes, tensors: seq<Entry>): (r: seq<(string, Bytes)>)
    requires forall e <- tensors :: e.globalOff + e.nbytes <= |region|
  {
    seq(|tensors|, i requires 0 <= i < |tensors| =>
      (tensors[i].name, region[tensors[i].globalOff..tensors[i].globalOff + tensors[i].nbytes]))
  }

  /** What the directory stores: the name-to-bytes list a reader gets. */
  ghost function Decode(files: map<nat, Bytes>, index: Index): (r: seq<(string, Bytes)>)
    requires Loads(files, index)
  {
    LoadedRegion(files, index);
    Slices(Region(files, SortShards(index.shards)), index.tensors)
  }
}
