// One request served from empty buffers, its tokens cut into any list of chunks: what the staging of a
// forward looks like, and what is in the slab at the end.
module PooledCacheRun {
  import opened Basics
  import opened PooledAddressing
  import opened PooledCache
  import opened PooledCacheOps
  import opened PooledCacheStore

  function Join<K>(chunks: seq<seq<K>>): seq<K> {
    if chunks == [] then [] else Join(chunks[..|chunks| - 1]) + chunks[|chunks| - 1]
  }

  /** All pages of the pool, in order. */
  function AllPages(g: Geometry): (pages: seq<nat>)
    ensures |pages| == g.pages && forall i :: 0 <= i < |pages| ==> pages[i] == i
  {
    seq(g.pages, i requires 0 <= i < g.pages => i)
  }

  /** On pages in order, a position is its own slot and a group its own row. */
  lemma InOrder(g: Geometry, p: nat, n: nat)
    requires Sound(g)
    ensures PageSize(g) >= 1
    ensures p / PageSize(g) < g.pages ==> Loc(g, AllPages(g), p) == p
    ensures n / g.groups < g.pages ==> GroupRow(g, AllPages(g), n) == n
  {
    GroupOf(g, p);
    Parts(p, PageSize(g));
    Parts(n, g.groups);
  }

  /** The batch of one request in slot 0 that has `start` tokens and brings a chunk more. */
  function OneChunk<K>(start: nat, chunk: seq<K>): Batch<K> {
    var t := |chunk|;
    Batch(chunk, seq(t, r requires 0 <= r < t => start + r), seq(t, r requires 0 <= r < t => start + r),
          seq(t, _ => 0), [0, t], [0])
  }

  lemma OneChunkRagged<K>(start: nat, chunk: seq<K>)
    ensures Ragged(OneChunk(start, chunk))
  {
    var b := OneChunk(start, chunk);
    assert From(b, 0) == 0 && To(b, 0) == |chunk|;
  }

  lemma OneChunkGrown<K>(g: Geometry, c: Ctx<K>, chunk: seq<K>)
    requires Sound(g) && g.slots >= 1 && c.slot == Some(0) && (c.pages == [] || c.pages == AllPages(g))
    requires |c.keys| + |chunk| <= g.pages * PageSize(g)
    ensures Ragged(OneChunk(|c.keys|, chunk))
    ensures Grown(g, OneChunk(|c.keys|, chunk), 0, c, Ctx(c.keys + chunk, AllPages(g), Some(0)))
  {
    var b, d := OneChunk(|c.keys|, chunk), Ctx(c.keys + chunk, AllPages(g), Some(0));
    OneChunkRagged(|c.keys|, chunk);
    assert From(b, 0) == 0 && To(b, 0) == |chunk| && b.keys[0..|chunk|] == chunk;
    forall r: nat | OfRequest(b, 0, r) ensures RowFits(g, b, 0, c, d, r) {
      var p := |c.keys| + r;
      PositionHasPage(g, d.pages, |d.keys|, p);
      InOrder(g, p, 0);
    }
  }

  /** The scheduler's promises hold of such a batch: they can be kept. */
  lemma OneChunkStaged<K>(g: Geometry, c: Ctx<K>, chunk: seq<K>)
    requires Sound(g) && g.slots >= 1 && c.slot == Some(0) && (c.pages == [] || c.pages == AllPages(g))
    requires |c.keys| + |chunk| <= g.pages * PageSize(g)
    ensures Staged(g, OneChunk(|c.keys|, chunk), [0], map[0 := c],
                   map[0 := Ctx(c.keys + chunk, AllPages(g), Some(0))])
  {
    hide Grown, Ragged;
    OneChunkGrown(g, c, chunk);
  }

  function Upto(n: nat): (order: seq<nat>)
    ensures |order| == n && forall i :: 0 <= i < n ==> order[i] == i
  {
    seq(n, i requires 0 <= i < n => i)
  }

  lemma UptoIsOrder(n: nat)
    ensures IsOrder(Upto(n), n)
  {
    forall r: nat | r < n ensures r in Upto(n) { assert Upto(n)[r] == r; }
  }

  /** A request in slot 0 whose pages, once it has any, are all there are. */
  predicate Alone<K(==)>(g: Geometry, c: Ctx<K>) {
    c.slot == Some(0) && (c.pages == [] || c.pages == AllPages(g))
  }

  method Begin<K, V>(g: Geometry, pool: seq<K> -> V, junk: V, key: K) returns (buffers: Buffers<K, V>)
    requires Sound(g) && g.slots >= 1
    ensures fresh(buffers) && fresh(buffers.slab) && fresh(buffers.ring) && buffers.g == g && buffers.pool == pool
    ensures buffers.Valid() && buffers.ctxs == map[0 := Ctx([], [], Some(0))]
  {
    hide Inv;
    buffers := new Buffers(g, pool, junk, key);
    buffers.Admit(0, Ctx([], [], None), 0, Some(0));
    ghost var none: Ctx<K> := Ctx([], [], None);
    assert PrefixOf(g, none, 0, Some(0)) == Ctx([], [], Some(0));
  }

  /** One forward of the request alone. */
  method ServeChunk<K, V>(buffers: Buffers<K, V>, ghost c: Ctx<K>, start: nat, chunk: seq<K>)
    requires buffers.Valid() && buffers.ctxs == map[0 := c] && Alone(buffers.g, c)
    requires start == |c.keys| && buffers.g.slots >= 1 && start + |chunk| <= buffers.g.pages * PageSize(buffers.g)
    modifies buffers, buffers.slab, buffers.ring
    ensures buffers.Valid() && buffers.ctxs == map[0 := Ctx(c.keys + chunk, AllPages(buffers.g), Some(0))]
  {
    hide Inv, Staged, Ragged, IsOrder, PageSize;
    OneChunkStaged(buffers.g, c, chunk);
    UptoIsOrder(|chunk|);
    buffers.Forward(OneChunk(start, chunk), [0], map[0 := Ctx(c.keys + chunk, AllPages(buffers.g), Some(0))],
                    Upto(|chunk|), Upto(|chunk|));
  }

  /** Whatever the chunks, the slab ends with the pooling of each complete group of all the keys, in
      order, as pooling them at once would fill it. */
  method Serve<K, V>(g: Geometry, pool: seq<K> -> V, junk: V, key: K, chunks: seq<seq<K>>) returns (buffers: Buffers<K, V>)
    requires Sound(g) && g.slots >= 1 && |Join(chunks)| <= g.pages * PageSize(g)
    ensures fresh(buffers) && buffers.Valid() && buffers.g == g
    ensures forall n: nat :: n < |Join(chunks)| / g.kp ==> GroupStored(g, pool, buffers.slab[..], Join(chunks), n)
  {
    hide Inv, PageSize, Join, Sound, AllPages, GroupStored;
    buffers := Begin(g, pool, junk, key);
    ghost var c: Ctx<K> := Ctx([], [], Some(0));
    var start := 0;
    JoinNone(chunks);
    for i := 0 to |chunks|
      invariant fresh(buffers) && fresh(buffers.slab) && fresh(buffers.ring) && buffers.g == g && buffers.pool == pool
      invariant buffers.Valid() && buffers.ctxs == map[0 := c] && Alone(g, c)
      invariant c.keys == Join(chunks[..i]) && start == |c.keys|
    {
      JoinGrows(chunks, i);
      ServeChunk(buffers, c, start, chunks[i]);
      start := start + |chunks[i]|;
      c := Ctx(c.keys + chunks[i], AllPages(g), Some(0));
    }
    assert chunks[..|chunks|] == chunks;
    AllPooled(g, pool, buffers.slab[..], buffers.ring[..], c);
  }

  lemma JoinNone<K>(chunks: seq<seq<K>>)
    ensures Join(chunks[..0]) == []
  {
  }

  /** Row n of the slab holds the pooling of group n. */
  ghost predicate GroupStored<K, V>(g: Geometry, pool: seq<K> -> V, slab: seq<V>, keys: seq<K>, n: nat) {
    n < |slab| && n * g.kp + g.kp <= |keys| && slab[n] == pool(Group(keys, n, g.kp))
  }

  lemma {:induction false} JoinGrows<K>(chunks: seq<seq<K>>, i: nat)
    requires i < |chunks|
    ensures Join(chunks[..i + 1]) == Join(chunks[..i]) + chunks[i] && |Join(chunks[..i + 1])| <= |Join(chunks)|
    decreases |chunks|
  {
    assert chunks[..i + 1][..i] == chunks[..i];
    if i + 1 < |chunks| {
      var rest := chunks[..|chunks| - 1];
      assert rest[..i + 1] == chunks[..i + 1] && rest[..i] == chunks[..i];
      JoinGrows(rest, i);
    } else {
      assert chunks[..i + 1] == chunks;
    }
  }

  lemma AllPooled<K, V>(g: Geometry, pool: seq<K> -> V, slab: seq<V>, ring: seq<K>, c: Ctx<K>)
    requires Inv(g, pool, slab, ring, map[0 := c]) && Alone(g, c)
    ensures forall n: nat :: n < |c.keys| / g.kp ==> GroupStored(g, pool, slab, c.keys, n)
  {
    hide Group;
    assert Held(g, pool, slab, ring, map[0 := c][0]);
    forall n: nat | n < |c.keys| / g.kp ensures GroupStored(g, pool, slab, c.keys, n) {
      assert PooledAt(g, pool, slab, c, n);
      InOrder(g, 0, n);
    }
  }
}
