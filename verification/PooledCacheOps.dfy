// The pooled cache at work: admission with a shared prefix, canonical pages, eviction, and the fused
// store of a forward, its rows in any order.
module PooledCacheOps {
  import opened Basics
  import opened PooledAddressing
  import opened PooledCache

  // ---- no write race ----

  predicate SameSlabRow<K>(g: Geometry, b: Batch<K>, r: nat, s: nat)
    requires Sound(g) && Ragged(b) && r < |b.keys| && s < |b.keys|
  {
    Closing(g, b, r) && Closing(g, b, s) && CmpRow(g, b, r) == CmpRow(g, b, s)
  }

  predicate SameRingRow<K>(g: Geometry, b: Batch<K>, r: nat, s: nat)
    requires Sound(g) && Ragged(b) && r < |b.keys| && s < |b.keys|
  {
    Kept(g, b, r) && Kept(g, b, s) && KeptRow(g, b, r) == KeptRow(g, b, s)
  }

  /** Closing rows of a forward go to different slab rows, all of them below the scratch rows. */
  ghost predicate SlabRowsDiffer<K>(g: Geometry, b: Batch<K>)
    requires Sound(g) && Ragged(b)
  {
    && (forall r: nat :: r < |b.keys| && Closing(g, b, r) ==> CmpRow(g, b, r) < ScratchBase(g))
    && (forall r: nat, s: nat :: r < |b.keys| && s < |b.keys| && SameSlabRow(g, b, r, s) ==> r == s)
  }

  /** Kept rows go to different ring rows. */
  ghost predicate RingRowsDiffer<K>(g: Geometry, b: Batch<K>)
    requires Sound(g) && Ragged(b)
  {
    && (forall r: nat :: r < |b.keys| ==> KeptRow(g, b, r) < RingRows(g))
    && (forall r: nat, s: nat :: r < |b.keys| && s < |b.keys| && SameRingRow(g, b, r, s) ==> r == s)
  }

  /** The group a closing row completes. */
  lemma ClosedGroup<K>(g: Geometry, b: Batch<K>, q: nat, c: Ctx<K>, d: Ctx<K>, r: nat) returns (n: nat)
    requires Sound(g) && Ragged(b) && q < |b.slots| && r < |b.keys| && OfRequest(b, q, r) && Grown(g, b, q, c, d)
    requires Closing(g, b, r)
    ensures |c.keys| + (r - From(b, q)) == n * g.kp + (g.kp - 1) && |c.keys| < n * g.kp + g.kp
    ensures n / g.groups < |d.pages| && CmpRow(g, b, r) == GroupRow(g, d.pages, n)
  {
    hide Ragged, Grown, Covered, GroupRow, CmpRow, Closing, GroupIndex, PageSize;
    ClosingRow(g, b, q, c, d, r);
    n := GroupIndex(g, b, r);
  }

  lemma ClosingRowsDiffer<K>(g: Geometry, b: Batch<K>, same: bool, q: nat, c: Ctx<K>, d: Ctx<K>, r: nat,
                             q2: nat, c2: Ctx<K>, d2: Ctx<K>, s: nat)
    requires Sound(g) && Ragged(b) && q < |b.slots| && q2 < |b.slots| && r < |b.keys| && s < |b.keys|
    requires OfRequest(b, q, r) && Grown(g, b, q, c, d) && OfRequest(b, q2, s) && Grown(g, b, q2, c2, d2)
    requires if same then q == q2 && c == c2 && d == d2 else Shares(g, c, c2) && FreshPages(c, d, c2, d2)
    requires SameSlabRow(g, b, r, s)
    ensures r == s
  {
    hide Ragged, Grown, Covered, Shares, FreshPages, GroupRow, CmpRow, Closing;
    var n := ClosedGroup(g, b, q, c, d, r);
    var m := ClosedGroup(g, b, q2, c2, d2, s);
    GrownCovers(g, b, q, c, d);
    GrownCovers(g, b, q2, c2, d2);
    if same { SameRowSelf(g, d, n, m); } else { SameRowOther(g, c, d, n, c2, d2, m); }
  }

  lemma KeptRowsDiffer<K>(g: Geometry, b: Batch<K>, q: nat, c: Ctx<K>, d: Ctx<K>, r: nat, s: nat)
    requires Sound(g) && Ragged(b) && q < |b.slots| && r < |b.keys| && s < |b.keys|
    requires OfRequest(b, q, r) && Grown(g, b, q, c, d) && OfRequest(b, q, s)
    requires SameRingRow(g, b, r, s)
    ensures r == s
  {
    hide Grown, RingRow;
    RowPosition(g, b, q, c, d, r);
    RowPosition(g, b, q, c, d, s);
    RingRowsApart(g, b.slots[q], b.positions[r], b.slots[q], b.positions[s]);
    RingRowsApart(g, b.slots[q], b.positions[s], b.slots[q], b.positions[r]);
  }

  /** A staged forward has no write race, in the slab or in the rings. */
  lemma NoWriteRace<K>(g: Geometry, b: Batch<K>, ids: seq<nat>, ctxs: map<nat, Ctx<K>>, after: map<nat, Ctx<K>>)
    requires Staged(g, b, ids, ctxs, after) && AllApart(g, ctxs)
    ensures SlabRowsDiffer(g, b) && RingRowsDiffer(g, b)
  {
    NoSlabRace(g, b, ids, ctxs, after);
    NoRingRace(g, b, ids, ctxs, after);
  }

  lemma NoSlabRace<K>(g: Geometry, b: Batch<K>, ids: seq<nat>, ctxs: map<nat, Ctx<K>>, after: map<nat, Ctx<K>>)
    requires Staged(g, b, ids, ctxs, after) && AllApart(g, ctxs)
    ensures SlabRowsDiffer(g, b)
  {
    hide Covered, Grown, Shares, FreshPages, CmpRow, Closing, Ragged;
    forall r: nat | r < |b.keys| && Closing(g, b, r) ensures CmpRow(g, b, r) < ScratchBase(g) {
      RowRequest(g, b, ids, ctxs, after, r);
      var id := ids[ReqOf(b, r)];
      ClosingRow(g, b, ReqOf(b, r), ctxs[id], after[id], r);
    }
    forall r: nat, s: nat | r < |b.keys| && s < |b.keys| && SameSlabRow(g, b, r, s) ensures r == s {
      RowRequest(g, b, ids, ctxs, after, r);
      RowRequest(g, b, ids, ctxs, after, s);
      var q, q2 := ReqOf(b, r), ReqOf(b, s);
      PairApart(g, ctxs, ids[q], ids[q2]);
      ClosingRowsDiffer(g, b, q == q2, q, ctxs[ids[q]], after[ids[q]], r, q2, ctxs[ids[q2]], after[ids[q2]], s);
    }
  }

  lemma PairApart<K>(g: Geometry, ctxs: map<nat, Ctx<K>>, x: nat, y: nat)
    requires Sound(g) && AllApart(g, ctxs) && x in ctxs && y in ctxs
    ensures x != y ==> Apart(g, ctxs[x], ctxs[y])
  {
  }

  function ReqOf<K>(b: Batch<K>, r: nat): nat
    requires Ragged(b) && r < |b.keys|
  {
    b.tokenToReq[r]
  }

  lemma NoRingRace<K>(g: Geometry, b: Batch<K>, ids: seq<nat>, ctxs: map<nat, Ctx<K>>, after: map<nat, Ctx<K>>)
    requires Staged(g, b, ids, ctxs, after) && AllApart(g, ctxs)
    ensures RingRowsDiffer(g, b)
  {
    hide Covered, Grown, Shares, FreshPages, Kept, RingRow;
    forall r: nat | r < |b.keys| ensures KeptRow(g, b, r) < RingRows(g) {
      RowRequest(g, b, ids, ctxs, after, r);
      var q := ReqOf(b, r);
      GrownCovers(g, b, q, ctxs[ids[q]], after[ids[q]]);
      RingRowInRange(g, b.slots[q], b.positions[r]);
    }
    forall r: nat, s: nat | r < |b.keys| && s < |b.keys| && SameRingRow(g, b, r, s) ensures r == s {
      RowRequest(g, b, ids, ctxs, after, r);
      RowRequest(g, b, ids, ctxs, after, s);
      var q, q2 := ReqOf(b, r), ReqOf(b, s);
      PairApart(g, ctxs, ids[q], ids[q2]);
      RingRowsApart(g, b.slots[q], b.positions[r], b.slots[q2], b.positions[s]);
      GrownCovers(g, b, q, ctxs[ids[q]], after[ids[q]]);
      GrownCovers(g, b, q2, ctxs[ids[q2]], after[ids[q2]]);
      KeptRowsDiffer(g, b, q, ctxs[ids[q]], after[ids[q]], r, s);
    }
  }

  // ---- admission, canonical pages, eviction ----

  /** The first n pages of a context, for a new request or to be retained. */
  function PrefixOf<K>(g: Geometry, c: Ctx<K>, n: nat, slot: Option<nat>): Ctx<K>
    requires n <= |c.pages| && n * PageSize(g) <= |c.keys|
  {
    Ctx(c.keys[..n * PageSize(g)], c.pages[..n], slot)
  }

  lemma PrefixHeld<K, V>(g: Geometry, pool: seq<K> -> V, slab: seq<V>, ring: seq<K>, c: Ctx<K>, n: nat, slot: Option<nat>)
    requires Sound(g) && |slab| == SlabRows(g) && |ring| == RingRows(g) && Held(g, pool, slab, ring, c)
    requires n <= |c.pages| && n * PageSize(g) <= |c.keys| && (slot.Some? ==> slot.value < g.slots)
    ensures Held(g, pool, slab, ring, PrefixOf(g, c, n, slot))
  {
    hide PooledAt, RingRow;
    var d := PrefixOf(g, c, n, slot);
    forall m: nat | m < |d.keys| / g.kp ensures PooledAt(g, pool, slab, d, m) {
      CompleteGroup(m, |d.keys|, g.kp);
      CompleteGroup(m, |c.keys|, g.kp);
      PrefixPooled(g, pool, slab, c, n, slot, m);
    }
    NothingOpen(g, n);
  }

  /** Whole pages leave no group open. */
  lemma NothingOpen(g: Geometry, n: nat)
    requires Sound(g)
    ensures n * PageSize(g) / g.kp * g.kp == n * PageSize(g)
  {
    Associate(n, g.groups, g.kp);
    DivMod(n * PageSize(g), g.kp, n * g.groups, 0);
  }

  lemma PrefixPooled<K, V>(g: Geometry, pool: seq<K> -> V, slab: seq<V>, c: Ctx<K>, n: nat, slot: Option<nat>, m: nat)
    requires Sound(g) && |slab| == SlabRows(g) && PooledAt(g, pool, slab, c, m)
    requires n <= |c.pages| && n * PageSize(g) <= |c.keys| && m * g.kp + g.kp <= n * PageSize(g)
    ensures PooledAt(g, pool, slab, PrefixOf(g, c, n, slot), m)
  {
    hide PageSize, Group;
    GroupInPages(g, n, m);
    SameGroup(PrefixOf(g, c, n, slot).keys, c.keys, n * PageSize(g), m, g.kp);
  }

  /** A group that ends within the first n pages is on one of them. */
  lemma GroupInPages(g: Geometry, n: nat, m: nat)
    requires Sound(g) && m * g.kp + g.kp <= n * PageSize(g)
    ensures m / g.groups < n
  {
    GroupPage(g, m);
    PagesBelow(m / g.groups, n, PageSize(g));
  }

  lemma PagesBelow(i: nat, n: nat, size: nat)
    requires i * size < n * size
    ensures i < n
  {
    assert (i - n) * size == i * size - n * size;
    Multiples(i - n, size);
  }

  lemma FullPages(g: Geometry, i: nat, n: nat)
    requires i < n
    ensures (i + 1) * PageSize(g) <= n * PageSize(g)
  {
    assert n * PageSize(g) == (n - i - 1) * PageSize(g) + (i + 1) * PageSize(g);
    Multiples(n - i - 1, PageSize(g));
  }

  lemma PrefixShares<K>(g: Geometry, c: Ctx<K>, n: nat, slot: Option<nat>, x: Ctx<K>)
    requires Sound(g) && Covered(g, c) && n <= |c.pages| && n * PageSize(g) <= |c.keys| && (x == c || Shares(g, c, x))
    ensures Shares(g, PrefixOf(g, c, n, slot), x) && Shares(g, x, PrefixOf(g, c, n, slot))
  {
    var d := PrefixOf(g, c, n, slot);
    forall i: nat, j: nat | i < |d.pages| && j < |x.pages| && d.pages[i] == x.pages[j]
      ensures i == j && SamePrefix(g, d, x, i) && SamePrefix(g, x, d, i)
    {
      assert c.pages[i] == x.pages[j];
      FullPages(g, i, n);
      assert x != c ==> SamePrefix(g, c, x, i);
      var len := (i + 1) * PageSize(g);
      assert d.keys[..len] == c.keys[..len];
    }
  }

  lemma SharesBack<K>(g: Geometry, a: Ctx<K>, b: Ctx<K>)
    requires Shares(g, a, b)
    ensures Shares(g, b, a)
  {
    forall i: nat, j: nat | i < |b.pages| && j < |a.pages| && b.pages[i] == a.pages[j]
      ensures i == j && SamePrefix(g, b, a, i)
    {
      assert SamePrefix(g, a, b, j);
    }
  }

  /** A slot nobody uses, or none. */
  predicate SlotFree<K>(g: Geometry, ctxs: map<nat, Ctx<K>>, slot: Option<nat>) {
    slot.Some? ==> slot.value < g.slots && forall id <- ctxs :: ctxs[id].slot != slot
  }

  /** A request starts, or a prefix is retained, on any number of whole pages of any context there is:
      its groups are pooled already, and its ring owes it nothing. */
  lemma AdmitKeeps<K, V>(g: Geometry, pool: seq<K> -> V, slab: seq<V>, ring: seq<K>, ctxs: map<nat, Ctx<K>>,
                         id: nat, c: Ctx<K>, n: nat, slot: Option<nat>)
    requires Inv(g, pool, slab, ring, ctxs) && id !in ctxs && SlotFree(g, ctxs, slot)
    requires c in ctxs.Values || c == Ctx([], [], None)
    requires n <= |c.pages| && n * PageSize(g) <= |c.keys|
    ensures Inv(g, pool, slab, ring, ctxs[id := PrefixOf(g, c, n, slot)])
  {
    hide Covered, Pooled, Pending, Shares, PrefixOf;
    var d, after := PrefixOf(g, c, n, slot), ctxs[id := PrefixOf(g, c, n, slot)];
    if c !in ctxs.Values { EmptyHeld(g, pool, slab, ring); }
    PrefixHeld(g, pool, slab, ring, c, n, slot);
    PrefixSlot(g, c, n, slot);
    forall x <- ctxs ensures Shares(g, d, ctxs[x]) && Shares(g, ctxs[x], d) {
      if c in ctxs.Values {
        var y :| y in ctxs && ctxs[y] == c;
        assert x != y ==> Apart(g, ctxs[y], ctxs[x]);
      } else {
        EmptyShares(g, ctxs[x]);
      }
      assert Covered(g, c) by { assert Held(g, pool, slab, ring, c); }
      PrefixShares(g, c, n, slot, ctxs[x]);
    }
    forall x <- after ensures Held(g, pool, slab, ring, after[x]) {}
    forall x <- after, y <- after | x != y ensures Apart(g, after[x], after[y]) {
      assert x != id && y != id ==> Apart(g, ctxs[x], ctxs[y]);
    }
  }

  lemma PrefixSlot<K>(g: Geometry, c: Ctx<K>, n: nat, slot: Option<nat>)
    requires n <= |c.pages| && n * PageSize(g) <= |c.keys|
    ensures PrefixOf(g, c, n, slot).slot == slot
  {
  }

  lemma EmptyHeld<K, V>(g: Geometry, pool: seq<K> -> V, slab: seq<V>, ring: seq<K>)
    requires Sound(g) && |slab| == SlabRows(g) && |ring| == RingRows(g)
    ensures Held(g, pool, slab, ring, Ctx([], [], None))
  {
  }

  lemma EmptyShares<K>(g: Geometry, x: Ctx<K>)
    ensures Shares(g, Ctx([], [], None), x)
  {
  }

  /** Dropping a context, running or retained, frees its own pages for others. */
  lemma DropKeeps<K, V>(g: Geometry, pool: seq<K> -> V, slab: seq<V>, ring: seq<K>, ctxs: map<nat, Ctx<K>>, id: nat)
    requires Inv(g, pool, slab, ring, ctxs)
    ensures Inv(g, pool, slab, ring, ctxs - {id})
  {
    hide Held, Apart;
    var after := ctxs - {id};
    forall x <- after ensures x in ctxs && after[x] == ctxs[x] {}
  }

  // ---- canonical pages ----

  /** cache_req: a running request gives up its own copies of pages the prefix cache has already. */
  function Rebased<K>(c: Ctx<K>, a: Ctx<K>, n: nat): Ctx<K>
    requires n <= |c.pages| && n <= |a.pages|
  {
    c.(pages := a.pages[..n] + c.pages[n..])
  }

  ghost predicate CommonPrefix<K>(g: Geometry, c: Ctx<K>, a: Ctx<K>, n: nat) {
    var len := n * PageSize(g);
    n <= |c.pages| && n <= |a.pages| && len <= |c.keys| && len <= |a.keys| && c.keys[..len] == a.keys[..len]
  }

  lemma RebasedPooled<K, V>(g: Geometry, pool: seq<K> -> V, slab: seq<V>, c: Ctx<K>, a: Ctx<K>, n: nat, m: nat)
    requires Sound(g) && |slab| == SlabRows(g) && Pooled(g, pool, slab, c) && Pooled(g, pool, slab, a)
    requires CommonPrefix(g, c, a, n) && m < |c.keys| / g.kp
    ensures PooledAt(g, pool, slab, Rebased(c, a, n), m)
  {
    hide PageSize;
    assert PooledAt(g, pool, slab, c, m);
    if m / g.groups < n {
      FrontGroup(g, n, m, |a.keys|);
      assert PooledAt(g, pool, slab, a, m);
      SameGroup(c.keys, a.keys, n * PageSize(g), m, g.kp);
      FrontRow(g, c, a, n, m);
    } else {
      BackRow(g, c, a, n, m);
    }
  }

  /** A group on the first n pages ends within them. */
  lemma FrontGroup(g: Geometry, n: nat, m: nat, len: nat)
    requires Sound(g) && m / g.groups < n && n * PageSize(g) <= len
    ensures m * g.kp + g.kp <= n * PageSize(g) && m < len / g.kp
  {
    GroupPage(g, m);
    FullPages(g, m / g.groups, n);
    CompleteGroup(m, len, g.kp);
  }

  lemma FrontRow<K>(g: Geometry, c: Ctx<K>, a: Ctx<K>, n: nat, m: nat)
    requires Sound(g) && n <= |c.pages| && n <= |a.pages| && m / g.groups < n
    ensures GroupRow(g, Rebased(c, a, n).pages, m) == GroupRow(g, a.pages, m)
  {
    assert Rebased(c, a, n).pages[m / g.groups] == a.pages[m / g.groups];
  }

  lemma BackRow<K>(g: Geometry, c: Ctx<K>, a: Ctx<K>, n: nat, m: nat)
    requires Sound(g) && n <= |c.pages| && n <= |a.pages| && n <= m / g.groups < |c.pages|
    ensures GroupRow(g, Rebased(c, a, n).pages, m) == GroupRow(g, c.pages, m)
  {
    assert Rebased(c, a, n).pages[m / g.groups] == c.pages[m / g.groups];
  }

  lemma SameGroup<K>(x: seq<K>, y: seq<K>, len: nat, m: nat, kp: nat)
    requires len <= |x| && len <= |y| && x[..len] == y[..len] && m * kp + kp <= len
    ensures Group(x, m, kp) == Group(y, m, kp)
  {
    assert x[..len][m * kp..m * kp + kp] == Group(x, m, kp);
    assert y[..len][m * kp..m * kp + kp] == Group(y, m, kp);
  }

  lemma RebasedHeld<K, V>(g: Geometry, pool: seq<K> -> V, slab: seq<V>, ring: seq<K>, c: Ctx<K>, a: Ctx<K>, n: nat)
    requires Sound(g) && |slab| == SlabRows(g) && |ring| == RingRows(g)
    requires Held(g, pool, slab, ring, c) && Held(g, pool, slab, ring, a) && CommonPrefix(g, c, a, n) && Shares(g, c, a)
    ensures Held(g, pool, slab, ring, Rebased(c, a, n))
  {
    var d := Rebased(c, a, n);
    forall m: nat | m < |d.keys| / g.kp ensures PooledAt(g, pool, slab, d, m) {
      RebasedPooled(g, pool, slab, c, a, n, m);
    }
    RebasedCovered(g, c, a, n);
  }

  lemma RebasedCovered<K>(g: Geometry, c: Ctx<K>, a: Ctx<K>, n: nat)
    requires Covered(g, c) && Covered(g, a) && CommonPrefix(g, c, a, n) && Shares(g, c, a)
    ensures Covered(g, Rebased(c, a, n))
  {
    hide SamePrefix;
    var d := Rebased(c, a, n);
    forall i, j | 0 <= i < j < |d.pages| ensures d.pages[i] != d.pages[j] {
      assert d.pages[i] == (if i < n then a.pages[i] else c.pages[i]) && d.pages[j] == (if j < n then a.pages[j] else c.pages[j]);
      assert i < n <= j && c.pages[j] == a.pages[i] ==> j == i;
    }
  }

  lemma RebasedShares<K>(g: Geometry, c: Ctx<K>, a: Ctx<K>, n: nat, x: Ctx<K>)
    requires Sound(g) && Covered(g, a) && CommonPrefix(g, c, a, n) && Shares(g, c, x) && (x == a || Shares(g, a, x))
    ensures Shares(g, Rebased(c, a, n), x)
  {
    var d := Rebased(c, a, n);
    forall i: nat, j: nat | i < |d.pages| && j < |x.pages| && d.pages[i] == x.pages[j]
      ensures i == j && SamePrefix(g, d, x, i)
    {
      var len := (i + 1) * PageSize(g);
      if i < n {
        assert a.pages[i] == x.pages[j];
        FullPages(g, i, n);
        assert x != a ==> SamePrefix(g, a, x, i);
        SamePrefixes(c.keys, a.keys, n * PageSize(g), len);
      } else {
        assert c.pages[i] == x.pages[j];
        assert SamePrefix(g, c, x, i);
      }
    }
  }

  lemma SamePrefixes<K>(x: seq<K>, y: seq<K>, long: nat, len: nat)
    requires len <= long <= |x| && long <= |y| && x[..long] == y[..long]
    ensures x[..len] == y[..len]
  {
    assert x[..long][..len] == x[..len] && y[..long][..len] == y[..len];
  }

  /** Pages may be exchanged for another context's with the same keys. */
  lemma RebaseKeeps<K, V>(g: Geometry, pool: seq<K> -> V, slab: seq<V>, ring: seq<K>, ctxs: map<nat, Ctx<K>>,
                          id: nat, from: nat, n: nat)
    requires Inv(g, pool, slab, ring, ctxs) && id in ctxs && from in ctxs && id != from
    requires CommonPrefix(g, ctxs[id], ctxs[from], n)
    ensures Inv(g, pool, slab, ring, ctxs[id := Rebased(ctxs[id], ctxs[from], n)])
  {
    hide Covered, Pooled, Pending, Shares, CommonPrefix;
    CommonPages(g, ctxs[id], ctxs[from], n);
    var c, a := ctxs[id], ctxs[from];
    var d := Rebased(c, a, n);
    var after := ctxs[id := d];
    assert Held(g, pool, slab, ring, c) && Held(g, pool, slab, ring, a) && Apart(g, c, a);
    RebasedHeld(g, pool, slab, ring, c, a, n);
    forall x <- ctxs | x != id ensures Apart(g, d, ctxs[x]) && Apart(g, ctxs[x], d) {
      assert Apart(g, c, ctxs[x]) && (x != from ==> Apart(g, a, ctxs[x]));
      RebasedShares(g, c, a, n, ctxs[x]);
      SharesBack(g, d, ctxs[x]);
    }
    forall x <- after, y <- after | x != y ensures Apart(g, after[x], after[y]) {
      assert x != id && y != id ==> Apart(g, ctxs[x], ctxs[y]);
    }
  }

  lemma CommonPages<K>(g: Geometry, c: Ctx<K>, a: Ctx<K>, n: nat)
    requires CommonPrefix(g, c, a, n)
    ensures n <= |c.pages| && n <= |a.pages|
  {
  }
}
