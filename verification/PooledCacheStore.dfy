// The buffers of the pooled cache and the operations on them.
module PooledCacheStore {
  import opened Basics
  import opened PooledAddressing
  import opened PooledCache
  import opened PooledCacheOps

  // ---- what a selection reads ----

  /** The rows snapshot of a request: the token slot of each of its first len positions. */
  function Rows(g: Geometry, pages: seq<nat>, len: nat): (rows: seq<nat>)
    requires Sound(g) && len <= |pages| * PageSize(g)
    ensures |rows| == len
    ensures forall p :: 0 <= p < len ==> p / PageSize(g) < |pages| && rows[p] == Loc(g, pages, p)
  {
    GroupOf(g, 0);
    seq(len, p requires 0 <= p < len => PositionHasPage(g, pages, len, p); Loc(g, pages, p))
  }

  lemma PositionHasPage(g: Geometry, pages: seq<nat>, len: nat, p: nat)
    requires Sound(g) && p < len <= |pages| * PageSize(g)
    ensures PageSize(g) >= 1 && p / PageSize(g) < |pages|
  {
    GroupOf(g, 0);
    Parts(p, PageSize(g));
    PagesBelow(p / PageSize(g), |pages|, PageSize(g));
  }

  /** kpool: the strided snapshot, divided into the shadow slab. */
  function PoolRow(g: Geometry, rows: seq<nat>, n: nat): nat
    requires Sound(g) && n * g.kp + (g.kp - 1) < |rows|
  {
    rows[n * g.kp + (g.kp - 1)] / g.kp
  }

  /** QSA: place n of the block table, in the slab seen as pages of `groups` rows. */
  function BlockRow(g: Geometry, pages: seq<nat>, n: nat): nat
    requires Sound(g) && n / g.groups < |pages|
  {
    pages[n / g.groups] * g.groups + n % g.groups
  }

  /** No stale read: each block visible at a position of a context is read, by either addressing, from
      the row that holds the pooling of that context's own keys. */
  lemma VisibleBlocksAreFresh<K, V>(g: Geometry, pool: seq<K> -> V, slab: seq<V>, ring: seq<K>,
                                    ctxs: map<nat, Ctx<K>>, id: nat, pos: nat, n: nat)
    requires Inv(g, pool, slab, ring, ctxs) && id in ctxs && pos < |ctxs[id].keys| && n < (pos + 1) / g.kp
    ensures |ctxs[id].keys| <= |ctxs[id].pages| * PageSize(g) && n * g.kp + g.kp <= |ctxs[id].keys|
    ensures n / g.groups < |ctxs[id].pages|
    ensures var row := PoolRow(g, Rows(g, ctxs[id].pages, |ctxs[id].keys|), n);
            && row == BlockRow(g, ctxs[id].pages, n) && row < ScratchBase(g)
            && slab[row] == pool(Group(ctxs[id].keys, n, g.kp))
  {
    var c := ctxs[id];
    assert Held(g, pool, slab, ring, c);
    CompleteGroup(n, pos + 1, g.kp);
    CompleteGroup(n, |c.keys|, g.kp);
    assert PooledAt(g, pool, slab, c, n);
    var p := n * g.kp + (g.kp - 1);
    GroupBetween(p, n, g.kp);
    SlotGroup(g, c.pages, p);
  }

  /** blocks_to_global over a rows snapshot: block b is at its first token's slot divided by the ratio, and
      -1 stays -1. */
  function GlobalRow(g: Geometry, rows: seq<nat>, block: int): int
    requires Sound(g) && (block >= 0 ==> block * g.kp < |rows|)
  {
    if block < 0 then -1 else rows[block * g.kp] / g.kp
  }

  /** Any token of a block names the block's row, the first one, as blocks_to_global reads it, like the one that
      completed it, as a store addresses it: a row below the scratch rows. */
  lemma GlobalRowIsAnyToken<K>(g: Geometry, c: Ctx<K>, n: nat, p: nat)
    requires Sound(g) && Covered(g, c) && n * g.kp <= p < n * g.kp + g.kp && p < |c.keys|
    ensures |c.keys| <= |c.pages| * PageSize(g) && n / g.groups < |c.pages|
    ensures var rows := Rows(g, c.pages, |c.keys|);
            GlobalRow(g, rows, n) == rows[p] / g.kp == GroupRow(g, c.pages, n) && GlobalRow(g, rows, n) < ScratchBase(g)
  {
    hide Loc, GroupRow;
    GroupHasPage(g, c, n);
    GroupBetween(p, n, g.kp);
    GroupBetween(n * g.kp, n, g.kp);
    SlotGroup(g, c.pages, p);
    SlotGroup(g, c.pages, n * g.kp);
  }

  /** Distinct blocks have distinct rows; -1 has none. */
  lemma GlobalRowsDiffer<K>(g: Geometry, c: Ctx<K>, n: int, m: int)
    requires Sound(g) && Covered(g, c) && n != m && n * g.kp < |c.keys| && m * g.kp < |c.keys| && n >= -1 && m >= -1
    ensures |c.keys| <= |c.pages| * PageSize(g)
    ensures var rows := Rows(g, c.pages, |c.keys|);
            GlobalRow(g, rows, n) != GlobalRow(g, rows, m) && (GlobalRow(g, rows, n) == -1 <==> n == -1)
  {
    hide Loc, GroupRow, Covered;
    CoveredPages(g, c);
    if n >= 0 { GlobalRowIsAnyToken(g, c, n, n * g.kp); }
    if m >= 0 { GlobalRowIsAnyToken(g, c, m, m * g.kp); }
    if n >= 0 && m >= 0 && GroupRow(g, c.pages, n) == GroupRow(g, c.pages, m) { SameRowSelf(g, c, n, m); }
  }

  lemma CoveredPages<K>(g: Geometry, c: Ctx<K>)
    requires Covered(g, c)
    ensures |c.keys| <= |c.pages| * PageSize(g)
  {
  }

  /** How the tokens were cut into forwards, interleaved with others', shared or placed does not show:
      two caches that hold the same keys for a sequence read the same pooled keys. */
  lemma SplitDoesNotShow<K, V>(g: Geometry, pool: seq<K> -> V,
                               slab: seq<V>, ring: seq<K>, ctxs: map<nat, Ctx<K>>, id: nat,
                               slab2: seq<V>, ring2: seq<K>, ctxs2: map<nat, Ctx<K>>, id2: nat, n: nat)
    requires Inv(g, pool, slab, ring, ctxs) && id in ctxs && Inv(g, pool, slab2, ring2, ctxs2) && id2 in ctxs2
    requires ctxs[id].keys == ctxs2[id2].keys && n < |ctxs[id].keys| / g.kp
    ensures n / g.groups < |ctxs[id].pages| && GroupRow(g, ctxs[id].pages, n) < |slab|
    ensures n / g.groups < |ctxs2[id2].pages| && GroupRow(g, ctxs2[id2].pages, n) < |slab2|
    ensures slab[GroupRow(g, ctxs[id].pages, n)] == slab2[GroupRow(g, ctxs2[id2].pages, n)]
  {
    hide Group, GroupRow;
    assert Held(g, pool, slab, ring, ctxs[id]) && Held(g, pool, slab2, ring2, ctxs2[id2]);
    assert PooledAt(g, pool, slab, ctxs[id], n) && PooledAt(g, pool, slab2, ctxs2[id2], n);
  }

  // ---- a row at a time ----

  ghost predicate IsOrder(order: seq<nat>, rows: nat) {
    (forall i :: 0 <= i < |order| ==> order[i] < rows) && forall r: nat :: r < rows ==> r in order
  }

  /** Row r, if it closes a group, has been pooled. */
  ghost predicate RowClosed<K, V>(g: Geometry, pool: seq<K> -> V, b: Batch<K>, ring: seq<K>, slab: seq<V>, r: nat)
    requires Sound(g) && Ragged(b) && SlotsInRange(g, b) && |slab| == SlabRows(g) && |ring| == RingRows(g)
    requires r < |b.keys|
  {
    Closing(g, b, r) ==> ClosedAt(g, pool, b, ring, slab, r)
  }

  ghost predicate AllClosed<K, V>(g: Geometry, pool: seq<K> -> V, b: Batch<K>, ring: seq<K>, slab: seq<V>)
    requires Sound(g) && Ragged(b) && SlotsInRange(g, b) && |slab| == SlabRows(g) && |ring| == RingRows(g)
  {
    forall r: nat :: r < |b.keys| ==> RowClosed(g, pool, b, ring, slab, r)
  }

  ghost predicate OthersKept<K, V>(g: Geometry, b: Batch<K>, slab: seq<V>, newSlab: seq<V>)
    requires Sound(g) && Ragged(b) && |slab| == |newSlab| == SlabRows(g)
  {
    forall x: nat :: x < ScratchBase(g) && !IsTarget(g, b, x) ==> newSlab[x] == slab[x]
  }

  ghost predicate RowKept<K>(g: Geometry, b: Batch<K>, ring: seq<K>, r: nat)
    requires Sound(g) && Ragged(b) && |ring| == RingRows(g) && r < |b.keys|
  {
    Kept(g, b, r) ==> KeptAt(g, b, ring, r)
  }

  ghost predicate AllKept<K>(g: Geometry, b: Batch<K>, ring: seq<K>)
    requires Sound(g) && Ragged(b) && |ring| == RingRows(g)
  {
    forall r: nat :: r < |b.keys| ==> RowKept(g, b, ring, r)
  }

  ghost predicate KeysKept<K>(g: Geometry, b: Batch<K>, ring: seq<K>, newRing: seq<K>)
    requires Sound(g) && Ragged(b) && |ring| == |newRing| == RingRows(g)
  {
    forall x: nat :: x < |ring| && !IsKeptTarget(g, b, x) ==> newRing[x] == ring[x]
  }

  lemma CmpRowFits<K>(g: Geometry, b: Batch<K>, r: nat)
    requires Sound(g) && Ragged(b) && SlotsInRange(g, b) && SlabRowsDiffer(g, b) && r < |b.keys|
    ensures SlotOf(b, r) < g.slots && CmpRow(g, b, r) < SlabRows(g)
    ensures !Closing(g, b, r) ==> CmpRow(g, b, r) >= ScratchBase(g)
  {
  }

  lemma KeptRowFits<K>(g: Geometry, b: Batch<K>, r: nat)
    requires Sound(g) && Ragged(b) && RingRowsDiffer(g, b) && r < |b.keys|
    ensures KeptRow(g, b, r) < RingRows(g)
  {
  }

  lemma NothingDone<K, V>(g: Geometry, pool: seq<K> -> V, b: Batch<K>, ring: seq<K>, slab: seq<V>)
    requires Sound(g) && Ragged(b) && |slab| == SlabRows(g)
    ensures OthersKept(g, b, slab, slab)
  {
  }

  lemma KeysKeptSame<K>(g: Geometry, b: Batch<K>, ring: seq<K>)
    requires Sound(g) && Ragged(b) && |ring| == RingRows(g)
    ensures KeysKept(g, b, ring, ring)
  {
  }

  /** Storing row s leaves what an earlier row stored. */
  lemma StillClosed<K, V>(g: Geometry, pool: seq<K> -> V, b: Batch<K>, ring: seq<K>, slab: seq<V>, value: V, r: nat, s: nat)
    requires Sound(g) && Ragged(b) && SlotsInRange(g, b) && SlabRowsDiffer(g, b)
    requires |slab| == SlabRows(g) && |ring| == RingRows(g) && r < |b.keys| && s < |b.keys|
    requires CmpRow(g, b, s) < |slab| && RowClosed(g, pool, b, ring, slab, r)
    requires Spot(b, s) >= g.kp - 1 ==> SlotOf(b, s) < g.slots && value == pool(Members(g, b, ring, s))
    ensures RowClosed(g, pool, b, ring, slab[CmpRow(g, b, s) := value], r)
  {
    hide Ragged, SlotsInRange, Closing, Members;
    CmpRowFits(g, b, s);
    if Closing(g, b, r) {
      ClosingIsLate(g, b, r);
      assert SameSlabRow(g, b, r, s) ==> r == s;
    }
  }

  lemma NowClosed<K, V>(g: Geometry, pool: seq<K> -> V, b: Batch<K>, ring: seq<K>, slab: seq<V>, value: V, s: nat)
    requires Sound(g) && Ragged(b) && SlotsInRange(g, b) && SlabRowsDiffer(g, b)
    requires |slab| == SlabRows(g) && |ring| == RingRows(g) && s < |b.keys| && CmpRow(g, b, s) < |slab|
    requires Spot(b, s) >= g.kp - 1 ==> SlotOf(b, s) < g.slots && value == pool(Members(g, b, ring, s))
    ensures RowClosed(g, pool, b, ring, slab[CmpRow(g, b, s) := value], s)
  {
    hide SlotsInRange, Members;
    if Closing(g, b, s) { ClosingIsLate(g, b, s); }
  }

  lemma RowDone<K, V>(g: Geometry, pool: seq<K> -> V, b: Batch<K>, ring: seq<K>, first: seq<V>, slab: seq<V>,
                      value: V, newSlab: seq<V>, order: seq<nat>, i: nat)
    requires Sound(g) && Ragged(b) && SlotsInRange(g, b) && SlabRowsDiffer(g, b) && IsOrder(order, |b.keys|)
    requires |first| == |slab| == |newSlab| == SlabRows(g) && |ring| == RingRows(g) && i < |order|
    requires SlotOf(b, order[i]) < g.slots && CmpRow(g, b, order[i]) < |slab|
    requires newSlab == slab[CmpRow(g, b, order[i]) := value]
    requires Spot(b, order[i]) >= g.kp - 1 ==> value == pool(Members(g, b, ring, order[i]))
    requires forall j: nat :: j < i ==> RowClosed(g, pool, b, ring, slab, order[j])
    requires OthersKept(g, b, first, slab)
    ensures forall j: nat :: j < i + 1 ==> RowClosed(g, pool, b, ring, newSlab, order[j])
    ensures OthersKept(g, b, first, newSlab)
  {
    hide Ragged, SlotsInRange, SlabRowsDiffer, RowClosed, Closing, CmpRow, Members;
    var s := order[i];
    forall j: nat | j < i ensures RowClosed(g, pool, b, ring, newSlab, order[j]) {
      StillClosed(g, pool, b, ring, slab, value, order[j], s);
    }
    NowClosed(g, pool, b, ring, slab, value, s);
    CmpRowFits(g, b, s);
    assert Closing(g, b, s) ==> IsTarget(g, b, CmpRow(g, b, s));
  }

  lemma AllDone<K, V>(g: Geometry, pool: seq<K> -> V, b: Batch<K>, ring: seq<K>, slab: seq<V>, order: seq<nat>)
    requires Sound(g) && Ragged(b) && SlotsInRange(g, b) && |slab| == SlabRows(g) && |ring| == RingRows(g)
    requires IsOrder(order, |b.keys|) && forall j: nat :: j < |order| ==> RowClosed(g, pool, b, ring, slab, order[j])
    ensures AllClosed(g, pool, b, ring, slab)
  {
    hide Ragged, SlotsInRange, RowClosed;
    forall r: nat | r < |b.keys| ensures RowClosed(g, pool, b, ring, slab, r) {
      assert r in order;
      var j: nat :| j < |order| && order[j] == r;
    }
  }

  lemma KeyDone<K>(g: Geometry, b: Batch<K>, first: seq<K>, ring: seq<K>, newRing: seq<K>, order: seq<nat>, i: nat)
    requires Sound(g) && Ragged(b) && RingRowsDiffer(g, b) && IsOrder(order, |b.keys|)
    requires |first| == |ring| == |newRing| == RingRows(g) && i < |order| && KeptRow(g, b, order[i]) < |ring|
    requires newRing == if Kept(g, b, order[i]) then ring[KeptRow(g, b, order[i]) := b.keys[order[i]]] else ring
    requires (forall j: nat :: j < i ==> RowKept(g, b, ring, order[j])) && KeysKept(g, b, first, ring)
    ensures (forall j: nat :: j < i + 1 ==> RowKept(g, b, newRing, order[j])) && KeysKept(g, b, first, newRing)
  {
    hide Ragged, Kept, KeptRow;
    var s := order[i];
    forall j: nat | j < i ensures RowKept(g, b, newRing, order[j]) {
      assert RowKept(g, b, ring, order[j]);
      assert SameRingRow(g, b, order[j], s) ==> order[j] == s;
    }
    assert Kept(g, b, s) ==> IsKeptTarget(g, b, KeptRow(g, b, s));
  }

  lemma AllKeysDone<K>(g: Geometry, b: Batch<K>, ring: seq<K>, order: seq<nat>)
    requires Sound(g) && Ragged(b) && |ring| == RingRows(g)
    requires IsOrder(order, |b.keys|) && forall j: nat :: j < |order| ==> RowKept(g, b, ring, order[j])
    ensures AllKept(g, b, ring)
  {
    hide Ragged, RowKept;
    forall r: nat | r < |b.keys| ensures RowKept(g, b, ring, r) {
      assert r in order;
      var j: nat :| j < |order| && order[j] == r;
    }
  }

  lemma StoredAll<K, V>(g: Geometry, pool: seq<K> -> V, b: Batch<K>, slab: seq<V>, ring: seq<K>,
                        newSlab: seq<V>, newRing: seq<K>)
    requires Sound(g) && Ragged(b) && SlotsInRange(g, b)
    requires |slab| == |newSlab| == SlabRows(g) && |ring| == |newRing| == RingRows(g)
    requires AllClosed(g, pool, b, ring, newSlab) && OthersKept(g, b, slab, newSlab)
    requires AllKept(g, b, newRing) && KeysKept(g, b, ring, newRing)
    ensures Stored(g, pool, b, slab, ring, newSlab, newRing)
  {
    hide Ragged, SlotsInRange, ClosedAt, KeptAt, IsTarget, IsKeptTarget, Closing, Kept;
    forall r: nat | r < |b.keys| && Closing(g, b, r) ensures ClosedAt(g, pool, b, ring, newSlab, r) {
      assert RowClosed(g, pool, b, ring, newSlab, r);
    }
    forall r: nat | r < |b.keys| && Kept(g, b, r) ensures KeptAt(g, b, newRing, r) {
      assert RowKept(g, b, newRing, r);
    }
  }

  lemma StagedRagged<K>(g: Geometry, b: Batch<K>, ids: seq<nat>, ctxs: map<nat, Ctx<K>>, after: map<nat, Ctx<K>>)
    requires Staged(g, b, ids, ctxs, after)
    ensures Sound(g) && Ragged(b)
  {
  }

  // ---- the buffers ----

  class Buffers<K, V> {
    const g: Geometry
    const pool: seq<K> -> V
    /** What the kernel leaves for a row that has no whole group behind it. */
    const junk: V
    const slab: array<V>
    const ring: array<K>
    ghost var ctxs: map<nat, Ctx<K>>

    ghost predicate Shaped()
      reads this
    {
      Sound(g) && slab.Length == SlabRows(g) && ring.Length == RingRows(g) && slab as object != ring as object
    }

    ghost predicate Valid()
      reads this, slab, ring
    {
      Shaped() && Inv(g, pool, slab[..], ring[..], ctxs)
    }

    constructor (g: Geometry, pool: seq<K> -> V, junk: V, key: K)
      requires Sound(g)
      ensures Valid() && this.g == g && this.pool == pool && ctxs == map[] && fresh(slab) && fresh(ring)
    {
      this.g, this.pool, this.junk := g, pool, junk;
      slab := new V[SlabRows(g)](_ => junk);
      ring := new K[RingRows(g)](_ => key);
      ctxs := map[];
    }

    /** The fused compress kernel, one row after the other in any order. */
    method Compress(b: Batch<K>, order: seq<nat>)
      requires Shaped() && Ragged(b) && SlotsInRange(g, b) && SlabRowsDiffer(g, b) && IsOrder(order, |b.keys|)
      modifies slab
      ensures AllClosed(g, pool, b, ring[..], slab[..])
      ensures OthersKept(g, b, old(slab[..]), slab[..])
    {
      hide Ragged, SlotsInRange, SlabRowsDiffer, RowClosed, OthersKept;
      NothingDone(g, pool, b, ring[..], slab[..]);
      for i := 0 to |order|
        invariant forall j: nat :: j < i ==> RowClosed(g, pool, b, ring[..], slab[..], order[j])
        invariant OthersKept(g, b, old(slab[..]), slab[..])
      {
        ghost var before := slab[..];
        CompressRow(b, order[i]);
        RowDone(g, pool, b, ring[..], old(slab[..]), before, slab[CmpRow(g, b, order[i])], slab[..], order, i);
      }
      assert slab[..] == slab[..];
      AllDone(g, pool, b, ring[..], slab[..], order);
    }

    /** One row: its members pooled into its slab row. */
    method CompressRow(b: Batch<K>, r: nat)
      requires Shaped() && Ragged(b) && SlotsInRange(g, b) && SlabRowsDiffer(g, b) && r < |b.keys|
      modifies slab
      ensures SlotOf(b, r) < g.slots && CmpRow(g, b, r) < slab.Length
      ensures slab[..] == old(slab[..])[CmpRow(g, b, r) :=
                            if Spot(b, r) >= g.kp - 1 then pool(Members(g, b, ring[..], r)) else junk]
    {
      hide Ragged, SlotsInRange, SlabRowsDiffer, CmpRow, Members;
      CmpRowFits(g, b, r);
      var value := junk;
      if Spot(b, r) >= g.kp - 1 {
        value := pool(Members(g, b, ring[..], r));
      }
      slab[CmpRow(g, b, r)] := value;
    }

    /** The refresh of the rings, after every read. */
    method Refresh(b: Batch<K>, order: seq<nat>)
      requires Shaped() && Ragged(b) && SlotsInRange(g, b) && RingRowsDiffer(g, b) && IsOrder(order, |b.keys|)
      modifies ring
      ensures AllKept(g, b, ring[..])
      ensures KeysKept(g, b, old(ring[..]), ring[..])
    {
      hide Ragged, SlotsInRange, RingRowsDiffer, Kept, KeptRow, RowKept, KeysKept;
      KeysKeptSame(g, b, ring[..]);
      for i := 0 to |order|
        invariant forall j: nat :: j < i ==> RowKept(g, b, ring[..], order[j])
        invariant KeysKept(g, b, old(ring[..]), ring[..])
      {
        var r := order[i];
        KeptRowFits(g, b, r);
        ghost var before := ring[..];
        if Kept(g, b, r) {
          ring[KeptRow(g, b, r)] := b.keys[r];
        }
        assert ring[..] == if Kept(g, b, r) then before[KeptRow(g, b, r) := b.keys[r]] else before;
        KeyDone(g, b, old(ring[..]), before, ring[..], order, i);
      }
      AllKeysDone(g, b, ring[..], order);
    }

    /** A forward: whatever was staged, in whatever order the rows are done, the contexts grow by their
        chunks and the cache is again what pooling all their keys at once would give. */
    method Forward(b: Batch<K>, ghost ids: seq<nat>, ghost after: map<nat, Ctx<K>>, order: seq<nat>, reorder: seq<nat>)
      requires Valid() && Staged(g, b, ids, ctxs, after) && IsOrder(order, |b.keys|) && IsOrder(reorder, |b.keys|)
      modifies this, slab, ring
      ensures Valid() && ctxs == after
    {
      hide Inv, Staged, AllApart, SlabRowsDiffer, RingRowsDiffer, Ragged, SlotsInRange, AllClosed, OthersKept, AllKept,
        KeysKept, Stored, IsOrder;
      ghost var slab0, ring0 := slab[..], ring[..];
      StagedRagged(g, b, ids, ctxs, after);
      InvApart(g, pool, slab0, ring0, ctxs);
      StagedSlots(g, b, ids, ctxs, after);
      NoWriteRace(g, b, ids, ctxs, after);
      Compress(b, order);
      ghost var slab1 := slab[..];
      Refresh(b, reorder);
      assert slab[..] == slab1;
      StoredAll(g, pool, b, slab0, ring0, slab[..], ring[..]);
      ForwardKeeps(g, pool, b, slab0, ring0, slab[..], ring[..], ids, ctxs, after);
      ctxs := after;
    }

    /** A request admitted on n cached pages of some context, or on none. */
    ghost method Admit(id: nat, c: Ctx<K>, n: nat, slot: Option<nat>)
      requires Valid() && id !in ctxs && SlotFree(g, ctxs, slot) && (c in ctxs.Values || c == Ctx([], [], None))
      requires n <= |c.pages| && n * PageSize(g) <= |c.keys|
      modifies this`ctxs
      ensures Valid() && ctxs == old(ctxs)[id := PrefixOf(g, c, n, slot)]
    {
      AdmitKeeps(g, pool, slab[..], ring[..], ctxs, id, c, n, slot);
      ctxs := ctxs[id := PrefixOf(g, c, n, slot)];
    }

    ghost method Rebase(id: nat, from: nat, n: nat)
      requires Valid() && id in ctxs && from in ctxs && id != from && CommonPrefix(g, ctxs[id], ctxs[from], n)
      modifies this`ctxs
      ensures Valid() && ctxs == old(ctxs)[id := Rebased(old(ctxs)[id], old(ctxs)[from], n)]
    {
      RebaseKeeps(g, pool, slab[..], ring[..], ctxs, id, from, n);
      ctxs := ctxs[id := Rebased(ctxs[id], ctxs[from], n)];
    }

    ghost method Drop(id: nat)
      requires Valid()
      modifies this`ctxs
      ensures Valid() && ctxs == old(ctxs) - {id}
    {
      DropKeeps(g, pool, slab[..], ring[..], ctxs, id);
      ctxs := ctxs - {id};
    }
  }
}
