// load_ftw_banks: the flat bank read through aligned enclosing windows and the bank stored
// one entry per layer give the same per-layer tensors.
module FtwBanks {
  import opened FtwFormat
  import opened CompactionStep
  import opened FtwReading

  /** A directory that loads: its shards in region order tile an aligned region. */
  ghost predicate Readable(files: map<nat, Bytes>, shards: seq<Shard>) {
    Tiles(shards, 0) && HasShards(files, shards) && AlignedShards(shards)
  }

  lemma ReadableSize(files: map<nat, Bytes>, shards: seq<Shard>)
    requires Readable(files, shards)
    ensures |Region(files, shards)| == RegionEnd(shards, 0) && Aligned(|Region(files, shards)|)
  {
    RegionLength(files, shards, 0);
    AlignedZero();
    AlignedEnd(shards, 0);
  }

  /** Reading an aligned range into a buffer of its padded size. */
  method ReadRange(shards: seq<Shard>, off: nat, n: nat, chunk: nat, files: map<nat, Bytes>) returns (buf: Bytes)
    requires Readable(files, shards) && chunk > 0 && Aligned(chunk)
    requires Aligned(off) && off + AlignUp(n) <= |Region(files, shards)|
    ensures buf == Region(files, shards)[off..off + AlignUp(n)]
  {
    hide Tiles, HasShards, AlignedShards, Region, RegionEnd, AllPresent, IsByte;
    ReadableSize(files, shards);
    WholeRange(files, shards, off, AlignUp(n));
    var dest := new byte[AlignUp(n)];
    var ok := ReadInto(dest, shards, off, n, chunk, files);
    assert ok;
    buf := dest[..];
    assert buf[..AlignUp(n)] == buf;
  }

  /** Reading one entry into a buffer of its padded size gives exactly its bytes. */
  method ReadEntry(shards: seq<Shard>, e: Entry, chunk: nat, files: map<nat, Bytes>) returns (data: Bytes)
    requires Readable(files, shards) && chunk > 0 && Aligned(chunk)
    requires Aligned(e.globalOff) && e.globalOff + e.nbytes <= |Region(files, shards)|
    ensures data == Region(files, shards)[e.globalOff..e.globalOff + e.nbytes]
  {
    hide Tiles, HasShards, AlignedShards, Region, RegionEnd;
    ReadableSize(files, shards);
    RoundedFits(e, |Region(files, shards)|);
    var buf := ReadRange(shards, e.globalOff, e.nbytes, chunk, files);
    data := buf[..e.nbytes];
    SliceOfSlice(Region(files, shards), e.globalOff, e.globalOff + AlignUp(e.nbytes), 0, e.nbytes);
  }

  lemma RoundedFits(e: Entry, total: nat)
    requires Aligned(e.globalOff) && Aligned(total) && e.globalOff + e.nbytes <= total
    ensures e.globalOff + AlignUp(e.nbytes) <= total
  {
    AlignUpSum(e.globalOff, e.nbytes);
  }

  // ---- the flat layout ----

  function AlignDown(n: nat): (m: nat)
    ensures m <= n < m + ALIGN && Aligned(m)
  {
    n / ALIGN * ALIGN
  }

  /** Layer l of a flat bank is read through the aligned window around its bytes. */
  method ReadWindow(shards: seq<Shard>, off: nat, layerBytes: nat, chunk: nat, files: map<nat, Bytes>) returns (data: Bytes)
    requires Readable(files, shards) && chunk > 0 && Aligned(chunk)
    requires off + layerBytes <= |Region(files, shards)|
    ensures data == Region(files, shards)[off..off + layerBytes]
  {
    hide Tiles, HasShards, AlignedShards, Region, RegionEnd;
    var winOff, winEnd := AlignDown(off), AlignUp(off + layerBytes);
    var headPad := off - winOff;
    ReadableSize(files, shards);
    WindowFits(off, layerBytes, |Region(files, shards)|);
    var buf := ReadRange(shards, winOff, winEnd - winOff, chunk, files);
    data := buf[headPad..headPad + layerBytes];
    SliceOfSlice(Region(files, shards), winOff, winEnd, headPad, headPad + layerBytes);
  }

  lemma WindowFits(off: nat, n: nat, total: nat)
    requires off + n <= total && Aligned(total)
    ensures AlignUp(off + n) <= total && AlignDown(off) <= AlignUp(off + n)
    ensures AlignUp(AlignUp(off + n) - AlignDown(off)) == AlignUp(off + n) - AlignDown(off)
  {
  }

  function LayerOff(l: nat, layerBytes: nat): nat {
    l * layerBytes
  }

  /** The flat bytes cut into `layers` equal parts. */
  function Layers(flat: Bytes, layers: nat, layerBytes: nat): (r: seq<Bytes>)
    requires |flat| == LayerOff(layers, layerBytes)
    ensures |r| == layers
    decreases layers
  {
    if layers == 0 then []
    else
      LayerStep(layers - 1, layerBytes);
      [flat[..layerBytes]] + Layers(flat[layerBytes..], layers - 1, layerBytes)
  }

  lemma LayerStep(l: nat, layerBytes: nat)
    ensures LayerOff(l + 1, layerBytes) == LayerOff(l, layerBytes) + layerBytes
  {
  }

  lemma {:induction false} LayerInside(l: nat, layers: nat, layerBytes: nat)
    requires l < layers
    ensures LayerOff(l, layerBytes) + layerBytes <= LayerOff(layers, layerBytes)
    decreases layers
  {
    hide LayerOff;
    LayerStep(layers - 1, layerBytes);
    if l < layers - 1 { LayerInside(l, layers - 1, layerBytes); }
  }

  function Concat(parts: seq<Bytes>): Bytes {
    if parts == [] then [] else parts[0] + Concat(parts[1..])
  }

  /** Nothing is lost or reordered by the split. */
  lemma {:induction false} LayersConcat(flat: Bytes, layers: nat, layerBytes: nat)
    requires |flat| == LayerOff(layers, layerBytes)
    ensures Concat(Layers(flat, layers, layerBytes)) == flat
    decreases layers
  {
    hide LayerOff;
    if layers == 0 {
      LayerZero(layerBytes);
    } else {
      LayerStep(layers - 1, layerBytes);
      LayersConcat(flat[layerBytes..], layers - 1, layerBytes);
      assert Layers(flat, layers, layerBytes)[1..] == Layers(flat[layerBytes..], layers - 1, layerBytes);
    }
  }

  lemma {:induction false} LayerAt(flat: Bytes, layers: nat, layerBytes: nat, l: nat)
    requires |flat| == LayerOff(layers, layerBytes) && l < layers
    ensures LayerOff(l, layerBytes) + layerBytes <= |flat|
    ensures Layers(flat, layers, layerBytes)[l] == flat[LayerOff(l, layerBytes)..LayerOff(l, layerBytes) + layerBytes]
    decreases layers
  {
    hide LayerOff;
    LayerInside(l, layers, layerBytes);
    LayerStep(layers - 1, layerBytes);
    if l == 0 {
      LayerZero(layerBytes);
    } else {
      LayerStep(l - 1, layerBytes);
      LayerAt(flat[layerBytes..], layers - 1, layerBytes, l - 1);
      var k := LayerOff(l - 1, layerBytes);
      SliceOfSlice(flat, layerBytes, |flat|, k, k + layerBytes);
    }
  }

  lemma LayerZero(layerBytes: nat)
    ensures LayerOff(0, layerBytes) == 0
  {
  }

  /** All layers of a flat bank, whatever the layer size is modulo ALIGN. */
  method ReadFlatBank(shards: seq<Shard>, e: Entry, layers: nat, layerBytes: nat, chunk: nat, files: map<nat, Bytes>)
    returns (views: seq<Bytes>)
    requires Readable(files, shards) && chunk > 0 && Aligned(chunk)
    requires e.nbytes == LayerOff(layers, layerBytes) && e.globalOff + e.nbytes <= |Region(files, shards)|
    ensures views == Layers(Region(files, shards)[e.globalOff..e.globalOff + e.nbytes], layers, layerBytes)
  {
    hide Tiles, HasShards, AlignedShards, Region, Layers, LayerOff;
    ghost var region := Region(files, shards);
    ghost var flat := region[e.globalOff..e.globalOff + e.nbytes];
    views := [];
    for l := 0 to layers
      invariant |views| == l && forall k :: 0 <= k < l ==> views[k] == Layers(flat, layers, layerBytes)[k]
    {
      LayerAt(flat, layers, layerBytes, l);
      var at := LayerOff(l, layerBytes);
      var v := ReadWindow(shards, e.globalOff + at, layerBytes, chunk, files);
      SliceOfSlice(region, e.globalOff, e.globalOff + e.nbytes, at, at + layerBytes);
      views := views + [v];
    }
  }

  // ---- the per-layer layout ----

  /** One aligned entry per layer, read directly. */
  method ReadLayerBank(shards: seq<Shard>, entries: seq<Entry>, chunk: nat, files: map<nat, Bytes>)
    returns (views: seq<Bytes>)
    requires Readable(files, shards) && chunk > 0 && Aligned(chunk)
    requires forall e <- entries :: Aligned(e.globalOff) && e.globalOff + e.nbytes <= |Region(files, shards)|
    ensures |views| == |entries|
    ensures forall l :: 0 <= l < |entries| ==>
              views[l] == Region(files, shards)[entries[l].globalOff..entries[l].globalOff + entries[l].nbytes]
  {
    hide Tiles, HasShards, AlignedShards, Region;
    views := [];
    for l := 0 to |entries|
      invariant |views| == l
      invariant forall k :: 0 <= k < l ==>
                  views[k] == Region(files, shards)[entries[k].globalOff..entries[k].globalOff + entries[k].nbytes]
    {
      var v := ReadEntry(shards, entries[l], chunk, files);
      views := views + [v];
    }
  }

  /** The two layouts of one bank agree: a directory holding it flat and a directory holding its
      layers as separate entries load as the same list, whose concatenation is the flat bank. */
  method LoadBothLayouts(flatShards: seq<Shard>, flatFiles: map<nat, Bytes>, e: Entry,
                         layerShards: seq<Shard>, layerFiles: map<nat, Bytes>, entries: seq<Entry>,
                         layerBytes: nat, chunk: nat)
    returns (a: seq<Bytes>, b: seq<Bytes>)
    requires Readable(flatFiles, flatShards) && Readable(layerFiles, layerShards) && chunk > 0 && Aligned(chunk)
    requires e.nbytes == LayerOff(|entries|, layerBytes) && e.globalOff + e.nbytes <= |Region(flatFiles, flatShards)|
    requires forall x <- entries :: Aligned(x.globalOff) && x.globalOff + x.nbytes <= |Region(layerFiles, layerShards)|
    requires var flat := Region(flatFiles, flatShards)[e.globalOff..e.globalOff + e.nbytes];
             forall l :: 0 <= l < |entries| ==>
               Region(layerFiles, layerShards)[entries[l].globalOff..entries[l].globalOff + entries[l].nbytes]
               == Layers(flat, |entries|, layerBytes)[l]
    ensures a == b
    ensures Concat(a) == Region(flatFiles, flatShards)[e.globalOff..e.globalOff + e.nbytes]
  {
    hide Tiles, HasShards, AlignedShards, Region, Layers, LayerOff;
    a := ReadFlatBank(flatShards, e, |entries|, layerBytes, chunk, flatFiles);
    b := ReadLayerBank(layerShards, entries, chunk, layerFiles);
    LayersConcat(Region(flatFiles, flatShards)[e.globalOff..e.globalOff + e.nbytes], |entries|, layerBytes);
  }
}
