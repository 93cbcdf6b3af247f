// The incremental cache of pooled index keys: a slab that shadows the KV pages and a ring of raw keys
// per request slot, filled by forwards that cut each request's tokens into arbitrary chunks.
module PooledCache {
  import opened Basics
  import opened PooledAddressing

  /** What a sequence of cached tokens is: the raw index keys it stands for, its pages, and, while a
      request runs on it, that request's slot. Without a slot it is a prefix the cache retains. */
  datatype Ctx<K> = Ctx(keys: seq<K>, pages: seq<nat>, slot: Option<nat>)

  /** One forward's ragged batch, as the scheduler stages it: one row per new token. */
  datatype Batch<K> = Batch(
    keys: seq<K>, positions: seq<nat>, outLoc: seq<nat>, tokenToReq: seq<nat>, cu: seq<nat>, slots: seq<nat>)

  // ---- the invariant ----

  /** The raw keys of group n. */
  function Group<K>(keys: seq<K>, n: nat, kp: nat): seq<K>
    requires n * kp + kp <= |keys|
  {
    keys[n * kp..n * kp + kp]
  }

  ghost predicate Covered<K>(g: Geometry, c: Ctx<K>) {
    && |c.keys| <= |c.pages| * PageSize(g) && InRange(g, c.pages)
    && (forall i, j :: 0 <= i < j < |c.pages| ==> c.pages[i] != c.pages[j])
    && (c.slot.Some? ==> c.slot.value < g.slots)
  }

  /** The slab has, in group n's row, what pooling its keys at once gives. */
  ghost predicate PooledAt<K, V>(g: Geometry, pool: seq<K> -> V, slab: seq<V>, c: Ctx<K>, n: nat)
    requires Sound(g) && |slab| == SlabRows(g)
  {
    && n / g.groups < |c.pages| && GroupRow(g, c.pages, n) < ScratchBase(g) && n * g.kp + g.kp <= |c.keys|
    && slab[GroupRow(g, c.pages, n)] == pool(Group(c.keys, n, g.kp))
  }

  ghost predicate Pooled<K, V>(g: Geometry, pool: seq<K> -> V, slab: seq<V>, c: Ctx<K>)
    requires Sound(g) && |slab| == SlabRows(g)
  {
    forall n: nat :: n < |c.keys| / g.kp ==> PooledAt(g, pool, slab, c, n)
  }

  /** The ring holds the keys of the open group, each at its position modulo the capacity. */
  ghost predicate Pending<K>(g: Geometry, ring: seq<K>, c: Ctx<K>)
    requires Sound(g) && |ring| == RingRows(g)
  {
    c.slot.Some? ==>
      forall p: nat :: |c.keys| / g.kp * g.kp <= p < |c.keys| ==>
        RingRow(g, c.slot.value, p) < |ring| && ring[RingRow(g, c.slot.value, p)] == c.keys[p]
  }

  /** The keys of the first i + 1 pages. */
  ghost predicate SamePrefix<K>(g: Geometry, a: Ctx<K>, b: Ctx<K>, i: nat) {
    var len := (i + 1) * PageSize(g);
    len <= |a.keys| && len <= |b.keys| && a.keys[..len] == b.keys[..len]
  }

  /** A page is shared only as a full page of a common prefix. */
  ghost predicate Shares<K>(g: Geometry, a: Ctx<K>, b: Ctx<K>) {
    forall i: nat, j: nat :: i < |a.pages| && j < |b.pages| && a.pages[i] == b.pages[j] ==> i == j && SamePrefix(g, a, b, i)
  }

  ghost predicate Apart<K>(g: Geometry, a: Ctx<K>, b: Ctx<K>) {
    Shares(g, a, b) && (a.slot.Some? && b.slot.Some? ==> a.slot != b.slot)
  }

  ghost predicate Held<K, V>(g: Geometry, pool: seq<K> -> V, slab: seq<V>, ring: seq<K>, c: Ctx<K>)
    requires Sound(g) && |slab| == SlabRows(g) && |ring| == RingRows(g)
  {
    Covered(g, c) && Pooled(g, pool, slab, c) && Pending(g, ring, c)
  }

  ghost predicate Inv<K, V>(g: Geometry, pool: seq<K> -> V, slab: seq<V>, ring: seq<K>, ctxs: map<nat, Ctx<K>>) {
    && Sound(g) && |slab| == SlabRows(g) && |ring| == RingRows(g)
    && (forall id <- ctxs :: Held(g, pool, slab, ring, ctxs[id]))
    && (forall id <- ctxs, other <- ctxs :: id != other ==> Apart(g, ctxs[id], ctxs[other]))
  }

  // ---- one forward ----

  /** cu_seqlens: request q's rows are From to To. */
  function From<K>(b: Batch<K>, q: nat): nat
    requires q < |b.cu|
  {
    b.cu[q]
  }

  function To<K>(b: Batch<K>, q: nat): nat
    requires q + 1 < |b.cu|
  {
    b.cu[q + 1]
  }

  predicate Ragged<K>(b: Batch<K>) {
    && |b.positions| == |b.outLoc| == |b.tokenToReq| == |b.keys|
    && |b.cu| == |b.slots| + 1
    && (forall q :: 0 <= q < |b.slots| ==> From(b, q) <= To(b, q) <= |b.keys|)
    && (forall r :: 0 <= r < |b.keys| ==> b.tokenToReq[r] < |b.slots| && OfRequest(b, b.tokenToReq[r], r))
    && (forall q, r :: 0 <= q < |b.slots| && 0 <= r < |b.keys| && OfRequest(b, q, r) ==> b.tokenToReq[r] == q)
    && (forall r :: 0 <= r < |b.keys| ==> b.positions[r] >= r - From(b, b.tokenToReq[r]))
  }

  predicate OfRequest<K>(b: Batch<K>, q: nat, r: int)
    requires q + 1 < |b.cu|
  {
    From(b, q) <= r < To(b, q)
  }

  function SlotOf<K>(b: Batch<K>, r: nat): nat
    requires Ragged(b) && r < |b.keys|
  {
    b.slots[b.tokenToReq[r]]
  }

  predicate Closing<K>(g: Geometry, b: Batch<K>, r: nat)
    requires Sound(g) && Ragged(b) && r < |b.keys|
  {
    b.positions[r] % g.kp == g.kp - 1
  }

  /** cmp_rows: a closing row goes to its group's slab row, the others to the request's scratch row. */
  function CmpRow<K>(g: Geometry, b: Batch<K>, r: nat): nat
    requires Sound(g) && Ragged(b) && r < |b.keys|
  {
    if Closing(g, b, r) then b.outLoc[r] / g.kp else ScratchBase(g) + SlotOf(b, r)
  }

  /** Only a request's last cap rows go to its ring: */
  predicate Kept<K>(g: Geometry, b: Batch<K>, r: nat)
    requires Ragged(b) && r < |b.keys|
  {
    r >= To(b, b.tokenToReq[r]) - g.cap
  }

  /** ring_rows, for the rows that are kept. */
  function KeptRow<K>(g: Geometry, b: Batch<K>, r: nat): nat
    requires Sound(g) && Ragged(b) && r < |b.keys|
  {
    RingRow(g, SlotOf(b, r), b.positions[r])
  }

  function ChunkStart<K>(b: Batch<K>, r: nat): nat
    requires Ragged(b) && r < |b.keys|
  {
    b.positions[r] - (r - From(b, b.tokenToReq[r]))
  }

  /** The kernel's member rule: a position of this forward is read from its rows, an older one from the
      ring. */
  function Member<K>(g: Geometry, b: Batch<K>, ring: seq<K>, r: nat, p: nat): K
    requires Sound(g) && Ragged(b) && r < |b.keys| && p <= b.positions[r]
    requires SlotOf(b, r) < g.slots && |ring| == RingRows(g)
  {
    RingRowInRange(g, SlotOf(b, r), p);
    if p >= ChunkStart(b, r) then b.keys[From(b, b.tokenToReq[r]) + (p - ChunkStart(b, r))]
    else ring[RingRow(g, SlotOf(b, r), p)]
  }

  /** The kernel's loop over a group: its o-th member from the back. */
  function MemberAt<K>(g: Geometry, b: Batch<K>, ring: seq<K>, r: nat, o: nat): K
    requires Sound(g) && Ragged(b) && r < |b.keys| && b.positions[r] >= g.kp - 1 && o < g.kp
    requires SlotOf(b, r) < g.slots && |ring| == RingRows(g)
  {
    Member(g, b, ring, r, b.positions[r] - (g.kp - 1 - o))
  }

  /** The kp keys ending at row r's position. */
  function Members<K>(g: Geometry, b: Batch<K>, ring: seq<K>, r: nat): seq<K>
    requires Sound(g) && Ragged(b) && r < |b.keys| && b.positions[r] >= g.kp - 1
    requires SlotOf(b, r) < g.slots && |ring| == RingRows(g)
  {
    seq(g.kp, o requires 0 <= o < g.kp => MemberAt(g, b, ring, r, o))
  }

  predicate SlotsInRange<K>(g: Geometry, b: Batch<K>) {
    forall q :: 0 <= q < |b.slots| ==> b.slots[q] < g.slots
  }

  lemma ClosingIsLate<K>(g: Geometry, b: Batch<K>, r: nat)
    requires Sound(g) && Ragged(b) && r < |b.keys| && Closing(g, b, r)
    ensures b.positions[r] >= g.kp - 1
  {
    var p := b.positions[r];
    Parts(p, g.kp);
    Multiples(p / g.kp, g.kp);
  }

  /** What a forward leaves behind: the pooled members in the row of every closing row, the kept keys in
      their ring rows, and everything else but the scratch rows as it was. */
  ghost predicate Stored<K, V>(g: Geometry, pool: seq<K> -> V, b: Batch<K>, slab: seq<V>, ring: seq<K>,
                               newSlab: seq<V>, newRing: seq<K>)
    requires Sound(g) && Ragged(b) && SlotsInRange(g, b)
    requires |slab| == |newSlab| == SlabRows(g) && |ring| == |newRing| == RingRows(g)
  {
    && (forall r: nat :: r < |b.keys| && Closing(g, b, r) ==> ClosedAt(g, pool, b, ring, newSlab, r))
    && (forall x: nat :: x < ScratchBase(g) && !IsTarget(g, b, x) ==> newSlab[x] == slab[x])
    && (forall r: nat :: r < |b.keys| && Kept(g, b, r) ==> KeptAt(g, b, newRing, r))
    && (forall x: nat :: x < |ring| && !IsKeptTarget(g, b, x) ==> newRing[x] == ring[x])
  }

  ghost predicate ClosedAt<K, V>(g: Geometry, pool: seq<K> -> V, b: Batch<K>, ring: seq<K>, newSlab: seq<V>, r: nat)
    requires Sound(g) && Ragged(b) && SlotsInRange(g, b) && |newSlab| == SlabRows(g) && |ring| == RingRows(g)
    requires r < |b.keys| && Closing(g, b, r)
  {
    ClosingIsLate(g, b, r);
    CmpRow(g, b, r) < ScratchBase(g) && newSlab[CmpRow(g, b, r)] == pool(Members(g, b, ring, r))
  }

  ghost predicate KeptAt<K>(g: Geometry, b: Batch<K>, newRing: seq<K>, r: nat)
    requires Sound(g) && Ragged(b) && r < |b.keys| && |newRing| == RingRows(g)
  {
    KeptRow(g, b, r) < |newRing| && newRing[KeptRow(g, b, r)] == b.keys[r]
  }

  /** Some closing row is stored there. */
  ghost predicate IsTarget<K>(g: Geometry, b: Batch<K>, x: nat)
    requires Sound(g) && Ragged(b)
  {
    exists r: nat :: r < |b.keys| && Closing(g, b, r) && CmpRow(g, b, r) == x
  }

  ghost predicate IsKeptTarget<K>(g: Geometry, b: Batch<K>, x: nat)
    requires Sound(g) && Ragged(b)
  {
    exists r: nat :: r < |b.keys| && Kept(g, b, r) && KeptRow(g, b, r) == x
  }

  // ---- what the scheduler stages ----

  /** Request q's context c becomes d: its new keys are the batch's rows of q, at the following positions
      and in the slots the page table gives them. */
  ghost predicate Grown<K>(g: Geometry, b: Batch<K>, q: nat, c: Ctx<K>, d: Ctx<K>)
    requires Sound(g) && Ragged(b) && q < |b.slots|
  {
    && c.slot == d.slot == Some(b.slots[q])
    && d.keys == c.keys + b.keys[From(b, q)..To(b, q)]
    && c.pages <= d.pages && Covered(g, d)
    && (forall r: nat :: OfRequest(b, q, r) ==> RowFits(g, b, q, c, d, r))
  }

  ghost predicate RowFits<K>(g: Geometry, b: Batch<K>, q: nat, c: Ctx<K>, d: Ctx<K>, r: nat)
    requires Sound(g) && Ragged(b) && q < |b.slots| && r < |b.keys|
  {
    && b.positions[r] == |c.keys| + (r - From(b, q))
    && b.positions[r] / PageSize(g) < |d.pages| && b.outLoc[r] == Loc(g, d.pages, b.positions[r])
  }

  /** Pages allocated for this forward are in no other context. */
  ghost predicate FreshPages<K>(c: Ctx<K>, d: Ctx<K>, c2: Ctx<K>, d2: Ctx<K>) {
    forall i: nat, j: nat :: i < |d.pages| && j < |d2.pages| && d.pages[i] == d2.pages[j] ==> i < |c.pages| && j < |c2.pages|
  }

  ghost predicate Staged<K>(g: Geometry, b: Batch<K>, ids: seq<nat>, ctxs: map<nat, Ctx<K>>, after: map<nat, Ctx<K>>) {
    && Sound(g) && Ragged(b) && |ids| == |b.slots| && after.Keys == ctxs.Keys
    && (forall q :: 0 <= q < |ids| ==> ids[q] in ctxs && Grown(g, b, q, ctxs[ids[q]], after[ids[q]]))
    && (forall id <- ctxs :: id !in ids ==> after[id] == ctxs[id])
    && (forall p, q :: 0 <= p < q < |ids| ==> ids[p] != ids[q])
    && (forall id <- ctxs, other <- ctxs :: id != other ==> FreshPages(ctxs[id], after[id], ctxs[other], after[other]))
  }

  // ---- no two requests meet in a row ----

  /** If a row is a group of two contexts, now or as they grow, then it is the same group of both and was
      complete, and shared, before. */
  lemma SameRowOther<K>(g: Geometry, c: Ctx<K>, d: Ctx<K>, n: nat, c2: Ctx<K>, d2: Ctx<K>, m: nat)
    requires Sound(g) && Shares(g, c, c2) && FreshPages(c, d, c2, d2) && c.pages <= d.pages && c2.pages <= d2.pages
    requires n / g.groups < |d.pages| && m / g.groups < |d2.pages|
    requires GroupRow(g, d.pages, n) == GroupRow(g, d2.pages, m)
    ensures n == m && n * g.kp + g.kp <= |c.keys| && m * g.kp + g.kp <= |c2.keys|
  {
    SameRow(g, d.pages, n, d2.pages, m);
    var i, j := n / g.groups, m / g.groups;
    assert i < |c.pages| && j < |c2.pages|;
    assert c.pages[i] == d.pages[i] && c2.pages[j] == d2.pages[j];
    assert i == j && SamePrefix(g, c, c2, i);
    Parts(n, g.groups);
    Parts(m, g.groups);
    GroupPage(g, n);
  }

  lemma SameRowSelf<K>(g: Geometry, d: Ctx<K>, n: nat, m: nat)
    requires Sound(g) && Covered(g, d) && n / g.groups < |d.pages| && m / g.groups < |d.pages|
    requires GroupRow(g, d.pages, n) == GroupRow(g, d.pages, m)
    ensures n == m
  {
    SameRow(g, d.pages, n, d.pages, m);
    Parts(n, g.groups);
    Parts(m, g.groups);
  }

  /** A group within the keys has its page. */
  lemma GroupHasPage<K>(g: Geometry, d: Ctx<K>, n: nat)
    requires Sound(g) && Covered(g, d) && n * g.kp < |d.keys|
    ensures n / g.groups < |d.pages| && GroupRow(g, d.pages, n) < ScratchBase(g)
  {
    GroupPage(g, n);
    var i := n / g.groups;
    assert (i - |d.pages|) * PageSize(g) == i * PageSize(g) - |d.pages| * PageSize(g);
    Multiples(i - |d.pages|, PageSize(g));
    RowBelowScratch(g, d.pages, n);
  }

  // ---- what a closing row is ----

  lemma RowPosition<K>(g: Geometry, b: Batch<K>, q: nat, c: Ctx<K>, d: Ctx<K>, r: nat)
    requires Sound(g) && Ragged(b) && q < |b.slots| && r < |b.keys| && OfRequest(b, q, r) && Grown(g, b, q, c, d)
    ensures b.tokenToReq[r] == q && SlotOf(b, r) == b.slots[q] && ChunkStart(b, r) == |c.keys|
    ensures |c.keys| <= b.positions[r] == |c.keys| + (r - From(b, q)) < |d.keys|
    ensures b.positions[r] / PageSize(g) < |d.pages| && b.outLoc[r] == Loc(g, d.pages, b.positions[r])
  {
    assert RowFits(g, b, q, c, d, r);
  }

  /** A position that closes group n, in the slot the page table gives it. */
  lemma ClosingPosition<K>(g: Geometry, c: Ctx<K>, d: Ctx<K>, p: nat)
    requires Sound(g) && Covered(g, d) && |c.keys| <= p < |d.keys| && p / PageSize(g) < |d.pages|
    ensures p % g.kp == g.kp - 1 <==> Loc(g, d.pages, p) % g.kp == g.kp - 1
    ensures p % g.kp == g.kp - 1 ==>
              var n := p / g.kp;
              && p == n * g.kp + (g.kp - 1) && |c.keys| < n * g.kp + g.kp <= |d.keys|
              && n / g.groups < |d.pages| && Loc(g, d.pages, p) / g.kp == GroupRow(g, d.pages, n) < ScratchBase(g)
  {
    hide Covered;
    Parts(p, g.kp);
    GroupHasPage(g, d, p / g.kp);
    SlotGroup(g, d.pages, p);
  }

  /** The group of a row's position. */
  function GroupIndex<K>(g: Geometry, b: Batch<K>, r: nat): nat
    requires Sound(g) && Ragged(b) && r < |b.keys|
  {
    b.positions[r] / g.kp
  }

  /** A closing row completes group n of its request, and goes to that group's row. Whether a row closes
      can be told from its slot as well as from its position. */
  lemma ClosingRow<K>(g: Geometry, b: Batch<K>, q: nat, c: Ctx<K>, d: Ctx<K>, r: nat)
    requires Sound(g) && Ragged(b) && q < |b.slots| && r < |b.keys| && OfRequest(b, q, r) && Grown(g, b, q, c, d)
    ensures Closing(g, b, r) <==> b.outLoc[r] % g.kp == g.kp - 1
    ensures Closing(g, b, r) ==>
              var n := GroupIndex(g, b, r);
              && |c.keys| + (r - From(b, q)) == n * g.kp + (g.kp - 1) && |c.keys| < n * g.kp + g.kp <= |d.keys|
              && n / g.groups < |d.pages| && CmpRow(g, b, r) == GroupRow(g, d.pages, n) < ScratchBase(g)
  {
    hide Grown, Covered, Loc, GroupRow;
    RowPosition(g, b, q, c, d, r);
    GrownCovers(g, b, q, c, d);
    ClosingPosition(g, c, d, b.positions[r]);
  }

  lemma GrownCovers<K>(g: Geometry, b: Batch<K>, q: nat, c: Ctx<K>, d: Ctx<K>)
    requires Sound(g) && Ragged(b) && q < |b.slots| && Grown(g, b, q, c, d)
    ensures Covered(g, d) && c.pages <= d.pages && |d.keys| == |c.keys| + (To(b, q) - From(b, q))
    ensures c.slot == d.slot == Some(b.slots[q]) && b.slots[q] < g.slots
  {
  }

  /** The members of row r's group that this forward did not bring are those of the open group before it. */
  lemma OlderMember<K>(g: Geometry, ring: seq<K>, c: Ctx<K>, slot: nat, pos: nat, p: nat)
    requires Sound(g) && |ring| == RingRows(g) && Pending(g, ring, c) && c.slot == Some(slot)
    requires pos / g.kp * g.kp <= p < |c.keys| <= pos
    ensures RingRow(g, slot, p) < |ring| && ring[RingRow(g, slot, p)] == c.keys[p]
  {
    hide RingRow;
    Groups(pos, g.kp);
    GroupBetween(|c.keys|, pos / g.kp, g.kp);
  }

  /** Every member of a closing group is read right, from the rows or from the ring. */
  lemma MemberIsKey<K>(g: Geometry, b: Batch<K>, ring: seq<K>, q: nat, c: Ctx<K>, d: Ctx<K>, r: nat, p: nat)
    requires Sound(g) && Ragged(b) && q < |b.slots| && r < |b.keys| && OfRequest(b, q, r) && Grown(g, b, q, c, d)
    requires |ring| == RingRows(g) && Pending(g, ring, c) && SlotOf(b, r) < g.slots
    requires b.positions[r] / g.kp * g.kp <= p <= b.positions[r]
    ensures p < |d.keys| && Member(g, b, ring, r, p) == d.keys[p]
  {
    hide Pending, RingRow, Grown, Covered;
    RowPosition(g, b, q, c, d, r);
    GrownKeys(g, b, q, c, d, p);
    if p < |c.keys| { OlderMember(g, ring, c, b.slots[q], b.positions[r], p); }
  }

  lemma GrownKeys<K>(g: Geometry, b: Batch<K>, q: nat, c: Ctx<K>, d: Ctx<K>, p: nat)
    requires Sound(g) && Ragged(b) && q < |b.slots| && Grown(g, b, q, c, d) && p < |d.keys|
    ensures c.slot == Some(b.slots[q])
    ensures p < |c.keys| ==> d.keys[p] == c.keys[p]
    ensures p >= |c.keys| ==> From(b, q) + (p - |c.keys|) < |b.keys| && d.keys[p] == b.keys[From(b, q) + (p - |c.keys|)]
  {
    hide RowFits, Covered;
  }

  lemma MembersAreGroup<K>(g: Geometry, b: Batch<K>, ring: seq<K>, q: nat, c: Ctx<K>, d: Ctx<K>, r: nat, n: nat)
    requires Sound(g) && Ragged(b) && q < |b.slots| && r < |b.keys| && OfRequest(b, q, r) && Grown(g, b, q, c, d)
    requires |ring| == RingRows(g) && Pending(g, ring, c) && SlotOf(b, r) < g.slots && Closing(g, b, r)
    requires n == b.positions[r] / g.kp && b.positions[r] >= g.kp - 1 && n * g.kp + g.kp <= |d.keys|
    ensures Members(g, b, ring, r) == Group(d.keys, n, g.kp)
  {
    hide Grown, Pending, Member;
    var p := b.positions[r];
    Parts(p, g.kp);
    ClosingRow(g, b, q, c, d, r);
    forall o | 0 <= o < g.kp ensures MemberAt(g, b, ring, r, o) == d.keys[n * g.kp + o] {
      MemberIsKey(g, b, ring, q, c, d, r, p - (g.kp - 1 - o));
    }
  }

  // ---- the slab after a forward ----

  /** A group complete before the forward is in no closing row's way. */
  lemma NotHit<K>(g: Geometry, b: Batch<K>, c: Ctx<K>, d: Ctx<K>, n: nat, same: bool,
                  q: nat, c2: Ctx<K>, d2: Ctx<K>, r: nat)
    requires Sound(g) && Ragged(b) && q < |b.slots| && r < |b.keys| && OfRequest(b, q, r) && Grown(g, b, q, c2, d2)
    requires Covered(g, d) && c.pages <= d.pages && n * g.kp + g.kp <= |c.keys| && n / g.groups < |d.pages|
    requires if same then c == c2 && d == d2 else Shares(g, c, c2) && FreshPages(c, d, c2, d2)
    requires Closing(g, b, r)
    ensures CmpRow(g, b, r) != GroupRow(g, d.pages, n)
  {
    hide Ragged, Grown, Covered, Shares, FreshPages, GroupRow, CmpRow, GroupIndex, PageSize;
    ClosingRow(g, b, q, c2, d2, r);
    GrownCovers(g, b, q, c2, d2);
    var m := GroupIndex(g, b, r);
    if CmpRow(g, b, r) == GroupRow(g, d.pages, n) {
      if same { SameRowSelf(g, d, n, m); } else { SameRowOther(g, c, d, n, c2, d2, m); }
    }
  }

  function Spot<K>(b: Batch<K>, r: nat): nat
    requires Ragged(b) && r < |b.keys|
  {
    b.positions[r]
  }

  lemma OldGroupKept<K, V>(g: Geometry, pool: seq<K> -> V, b: Batch<K>, slab: seq<V>, ring: seq<K>,
                           newSlab: seq<V>, newRing: seq<K>, c: Ctx<K>, d: Ctx<K>, n: nat)
    requires Sound(g) && Ragged(b) && SlotsInRange(g, b)
    requires |slab| == |newSlab| == SlabRows(g) && |ring| == |newRing| == RingRows(g)
    requires Stored(g, pool, b, slab, ring, newSlab, newRing)
    requires PooledAt(g, pool, slab, c, n) && c.pages <= d.pages && c.keys <= d.keys
    requires n / g.groups < |d.pages| && !IsTarget(g, b, GroupRow(g, d.pages, n))
    ensures PooledAt(g, pool, newSlab, d, n)
  {
    assert GroupRow(g, d.pages, n) == GroupRow(g, c.pages, n);
    assert Group(d.keys, n, g.kp) == Group(c.keys, n, g.kp);
  }

  /** A group the forward completes is pooled from all its keys, however many came before. */
  lemma NewGroupPooled<K, V>(g: Geometry, pool: seq<K> -> V, b: Batch<K>, slab: seq<V>, ring: seq<K>,
                             newSlab: seq<V>, newRing: seq<K>, q: nat, c: Ctx<K>, d: Ctx<K>, n: nat)
    requires Sound(g) && Ragged(b) && SlotsInRange(g, b) && q < |b.slots| && Grown(g, b, q, c, d)
    requires |slab| == |newSlab| == SlabRows(g) && |ring| == |newRing| == RingRows(g)
    requires Stored(g, pool, b, slab, ring, newSlab, newRing) && Pending(g, ring, c)
    requires |c.keys| < n * g.kp + g.kp <= |d.keys|
    ensures PooledAt(g, pool, newSlab, d, n)
  {
    hide Grown, Pending, IsTarget, IsKeptTarget, Members, PooledAt, GroupRow;
    GrownCovers(g, b, q, c, d);
    var r: nat := From(b, q) + (n * g.kp + (g.kp - 1) - |c.keys|);
    RowPosition(g, b, q, c, d, r);
    GroupBetween(b.positions[r], n, g.kp);
    ClosingRow(g, b, q, c, d, r);
    ClosingIsLate(g, b, r);
    MembersAreGroup(g, b, ring, q, c, d, r, n);
    assert ClosedAt(g, pool, b, ring, newSlab, r);
    NowPooled(g, pool, newSlab, d, n);
  }

  lemma NowPooled<K, V>(g: Geometry, pool: seq<K> -> V, slab: seq<V>, d: Ctx<K>, n: nat)
    requires Sound(g) && |slab| == SlabRows(g)
    requires n / g.groups < |d.pages| && GroupRow(g, d.pages, n) < ScratchBase(g) && n * g.kp + g.kp <= |d.keys|
    ensures PooledAt(g, pool, slab, d, n) <==> slab[GroupRow(g, d.pages, n)] == pool(Group(d.keys, n, g.kp))
  {
  }

  // ---- the rings after a forward ----

  lemma NewKeyKept<K, V>(g: Geometry, pool: seq<K> -> V, b: Batch<K>, slab: seq<V>, ring: seq<K>,
                         newSlab: seq<V>, newRing: seq<K>, q: nat, c: Ctx<K>, d: Ctx<K>, p: nat)
    requires Sound(g) && Ragged(b) && SlotsInRange(g, b) && q < |b.slots| && Grown(g, b, q, c, d)
    requires |slab| == |newSlab| == SlabRows(g) && |ring| == |newRing| == RingRows(g)
    requires Stored(g, pool, b, slab, ring, newSlab, newRing)
    requires |c.keys| <= p < |d.keys| && p >= |d.keys| - g.cap
    ensures RingRow(g, b.slots[q], p) < |newRing| && newRing[RingRow(g, b.slots[q], p)] == d.keys[p]
  {
    hide IsTarget, IsKeptTarget, Members, RingRow;
    GrownCovers(g, b, q, c, d);
    var r: nat := From(b, q) + (p - |c.keys|);
    RowPosition(g, b, q, c, d, r);
    assert Kept(g, b, r) && KeptAt(g, b, newRing, r);
    assert b.keys[From(b, q)..To(b, q)][p - |c.keys|] == b.keys[r];
  }

  /** A kept row of request q' does not overwrite an older key of an open group of slot s at p, unless it
      is that very request's and far on. */
  lemma RingNotHit<K>(g: Geometry, b: Batch<K>, s: nat, p: nat, far: nat, q: nat, c2: Ctx<K>, d2: Ctx<K>, r: nat)
    requires Sound(g) && Ragged(b) && q < |b.slots| && r < |b.keys| && OfRequest(b, q, r) && Grown(g, b, q, c2, d2)
    requires s != b.slots[q] || (p < |c2.keys| && |d2.keys| <= far <= p + g.cap)
    ensures KeptRow(g, b, r) != RingRow(g, s, p)
  {
    hide Grown, RingRow;
    RowPosition(g, b, q, c2, d2, r);
    if KeptRow(g, b, r) == RingRow(g, s, p) {
      RingRowsApart(g, s, p, b.slots[q], b.positions[r]);
    }
  }

  lemma OldKeyKept<K, V>(g: Geometry, pool: seq<K> -> V, b: Batch<K>, slab: seq<V>, ring: seq<K>,
                         newSlab: seq<V>, newRing: seq<K>, c: Ctx<K>, p: nat)
    requires Sound(g) && Ragged(b) && SlotsInRange(g, b) && c.slot.Some?
    requires |slab| == |newSlab| == SlabRows(g) && |ring| == |newRing| == RingRows(g)
    requires Stored(g, pool, b, slab, ring, newSlab, newRing) && Pending(g, ring, c)
    requires |c.keys| / g.kp * g.kp <= p < |c.keys| && !IsKeptTarget(g, b, RingRow(g, c.slot.value, p))
    ensures RingRow(g, c.slot.value, p) < |newRing| && newRing[RingRow(g, c.slot.value, p)] == c.keys[p]
  {
    hide IsTarget, IsKeptTarget, Members, RingRow;
  }

  // ---- a forward keeps the invariant ----

  /** What holds of one context across a forward, whether it took part or not. */
  lemma Across<K>(g: Geometry, b: Batch<K>, ids: seq<nat>, ctxs: map<nat, Ctx<K>>, after: map<nat, Ctx<K>>, id: nat)
    requires Staged(g, b, ids, ctxs, after) && id in ctxs && Covered(g, ctxs[id])
    ensures id in after && Covered(g, after[id]) && after[id].slot == ctxs[id].slot
    ensures ctxs[id].pages <= after[id].pages && ctxs[id].keys <= after[id].keys
  {
    hide Ragged, Covered, FreshPages, RowFits;
    if id in ids {
      var q: nat :| q < |ids| && ids[q] == id;
      assert Grown(g, b, q, ctxs[ids[q]], after[ids[q]]);
    }
  }

  /** The request of a row, before and after. */
  lemma RowRequest<K>(g: Geometry, b: Batch<K>, ids: seq<nat>, ctxs: map<nat, Ctx<K>>, after: map<nat, Ctx<K>>, r: nat)
    requires Staged(g, b, ids, ctxs, after) && r < |b.keys|
    ensures var q := b.tokenToReq[r];
            && q < |b.slots| == |ids| && OfRequest(b, q, r) && ids[q] in ctxs && ids[q] in after
            && Grown(g, b, q, ctxs[ids[q]], after[ids[q]])
  {
    hide Grown, FreshPages;
  }

  lemma StagedSlots<K>(g: Geometry, b: Batch<K>, ids: seq<nat>, ctxs: map<nat, Ctx<K>>, after: map<nat, Ctx<K>>)
    requires Staged(g, b, ids, ctxs, after)
    ensures SlotsInRange(g, b)
  {
    hide FreshPages, RowFits, Ragged;
    forall q | 0 <= q < |b.slots| ensures b.slots[q] < g.slots {
      assert Grown(g, b, q, ctxs[ids[q]], after[ids[q]]);
    }
  }

  ghost predicate AllApart<K>(g: Geometry, ctxs: map<nat, Ctx<K>>)
    requires Sound(g)
  {
    && (forall id <- ctxs :: Covered(g, ctxs[id]))
    && (forall id <- ctxs, other <- ctxs :: id != other ==> Apart(g, ctxs[id], ctxs[other]))
  }

  lemma OldGroupsMissed<K>(g: Geometry, b: Batch<K>, ids: seq<nat>, ctxs: map<nat, Ctx<K>>, after: map<nat, Ctx<K>>,
                           id: nat, n: nat)
    requires Staged(g, b, ids, ctxs, after) && AllApart(g, ctxs)
    requires id in ctxs && id in after && n * g.kp + g.kp <= |ctxs[id].keys| && n / g.groups < |after[id].pages|
    ensures !IsTarget(g, b, GroupRow(g, after[id].pages, n))
  {
    hide Covered, Grown, Shares, FreshPages, Closing, CmpRow, GroupRow;
    Across(g, b, ids, ctxs, after, id);
    forall r: nat | r < |b.keys| && Closing(g, b, r) ensures CmpRow(g, b, r) != GroupRow(g, after[id].pages, n) {
      RowRequest(g, b, ids, ctxs, after, r);
      var other := ids[b.tokenToReq[r]];
      assert other != id ==> Apart(g, ctxs[id], ctxs[other]);
      NotHit(g, b, ctxs[id], after[id], n, other == id, b.tokenToReq[r], ctxs[other], after[other], r);
    }
  }

  lemma PooledForward<K, V>(g: Geometry, pool: seq<K> -> V, b: Batch<K>, slab: seq<V>, ring: seq<K>,
                            newSlab: seq<V>, newRing: seq<K>,
                            ids: seq<nat>, ctxs: map<nat, Ctx<K>>, after: map<nat, Ctx<K>>, id: nat)
    requires Inv(g, pool, slab, ring, ctxs) && Staged(g, b, ids, ctxs, after) && SlotsInRange(g, b)
    requires |newSlab| == SlabRows(g) && |newRing| == RingRows(g)
    requires Stored(g, pool, b, slab, ring, newSlab, newRing) && id in ctxs && id in after && AllApart(g, ctxs)
    ensures Pooled(g, pool, newSlab, after[id])
  {
    hide Ragged, Stored, SlotsInRange, Covered, Grown, FreshPages, PooledAt, Pending, Apart, AllApart;
    var c, d := ctxs[id], after[id];
    assert Held(g, pool, slab, ring, c);
    Across(g, b, ids, ctxs, after, id);
    forall n: nat | n < |d.keys| / g.kp ensures PooledAt(g, pool, newSlab, d, n) {
      CompleteGroup(n, |d.keys|, g.kp);
      CompleteGroup(n, |c.keys|, g.kp);
      GroupHasPage(g, d, n);
      if n < |c.keys| / g.kp {
        OldGroupsMissed(g, b, ids, ctxs, after, id, n);
        OldGroupKept(g, pool, b, slab, ring, newSlab, newRing, c, d, n);
      } else {
        var q: nat :| q < |ids| && ids[q] == id;
        NewGroupPooled(g, pool, b, slab, ring, newSlab, newRing, q, c, d, n);
      }
    }
  }

  /** An older key of an open group that is still open stays in the ring. */
  lemma OldKeysMissed<K>(g: Geometry, b: Batch<K>, ids: seq<nat>, ctxs: map<nat, Ctx<K>>, after: map<nat, Ctx<K>>,
                         id: nat, p: nat)
    requires Staged(g, b, ids, ctxs, after) && AllApart(g, ctxs) && id in ctxs && id in after
    requires ctxs[id].slot.Some? && p < |ctxs[id].keys| && |after[id].keys| <= p + g.cap
    ensures !IsKeptTarget(g, b, RingRow(g, ctxs[id].slot.value, p))
  {
    hide Covered, Grown, Shares, FreshPages, Kept, KeptRow, RingRow;
    forall r: nat | r < |b.keys| && Kept(g, b, r) ensures KeptRow(g, b, r) != RingRow(g, ctxs[id].slot.value, p) {
      RowRequest(g, b, ids, ctxs, after, r);
      var q := b.tokenToReq[r];
      var other := ids[q];
      assert other != id ==> Apart(g, ctxs[id], ctxs[other]);
      GrownCovers(g, b, q, ctxs[other], after[other]);
      RingNotHit(g, b, ctxs[id].slot.value, p, |after[id].keys|, q, ctxs[other], after[other], r);
    }
  }

  lemma PendingForward<K, V>(g: Geometry, pool: seq<K> -> V, b: Batch<K>, slab: seq<V>, ring: seq<K>,
                             newSlab: seq<V>, newRing: seq<K>,
                             ids: seq<nat>, ctxs: map<nat, Ctx<K>>, after: map<nat, Ctx<K>>, id: nat)
    requires Inv(g, pool, slab, ring, ctxs) && Staged(g, b, ids, ctxs, after) && SlotsInRange(g, b)
    requires |newSlab| == SlabRows(g) && |newRing| == RingRows(g)
    requires Stored(g, pool, b, slab, ring, newSlab, newRing) && id in ctxs && id in after && AllApart(g, ctxs)
    ensures Pending(g, newRing, after[id])
  {
    hide Ragged, Stored, SlotsInRange, Covered, Grown, FreshPages, Pooled, Apart, AllApart, RingRow;
    var c, d := ctxs[id], after[id];
    assert Held(g, pool, slab, ring, c);
    Across(g, b, ids, ctxs, after, id);
    if d.slot.Some? {
      forall p: nat | |d.keys| / g.kp * g.kp <= p < |d.keys|
        ensures RingRow(g, d.slot.value, p) < |newRing| && newRing[RingRow(g, d.slot.value, p)] == d.keys[p]
      {
        Groups(|d.keys|, g.kp);
        if p < |c.keys| {
          GroupBetween(|c.keys|, |d.keys| / g.kp, g.kp);
          OldKeysMissed(g, b, ids, ctxs, after, id, p);
          OldKeyKept(g, pool, b, slab, ring, newSlab, newRing, c, p);
        } else {
          var q: nat :| q < |ids| && ids[q] == id;
          GrownCovers(g, b, q, c, d);
          NewKeyKept(g, pool, b, slab, ring, newSlab, newRing, q, c, d, p);
        }
      }
    }
  }

  lemma SharesForward<K>(g: Geometry, c: Ctx<K>, d: Ctx<K>, c2: Ctx<K>, d2: Ctx<K>)
    requires Shares(g, c, c2) && FreshPages(c, d, c2, d2)
    requires c.pages <= d.pages && c2.pages <= d2.pages && c.keys <= d.keys && c2.keys <= d2.keys
    ensures Shares(g, d, d2)
  {
    forall i: nat, j: nat | i < |d.pages| && j < |d2.pages| && d.pages[i] == d2.pages[j]
      ensures i == j && SamePrefix(g, d, d2, i)
    {
      assert i < |c.pages| && j < |c2.pages|;
      assert c.pages[i] == d.pages[i] && c2.pages[j] == d2.pages[j];
      assert SamePrefix(g, c, c2, i);
      var len := (i + 1) * PageSize(g);
      assert d.keys[..len] == c.keys[..len] && d2.keys[..len] == c2.keys[..len];
    }
  }

  /** However a batch cuts the requests' tokens into chunks, and wherever its new pages are: after the
      forward each complete group of every context, running or retained, has in its slab row what pooling
      its raw keys at once gives, and each ring holds its open group. */
  lemma ForwardKeeps<K, V>(g: Geometry, pool: seq<K> -> V, b: Batch<K>, slab: seq<V>, ring: seq<K>,
                           newSlab: seq<V>, newRing: seq<K>,
                           ids: seq<nat>, ctxs: map<nat, Ctx<K>>, after: map<nat, Ctx<K>>)
    requires Inv(g, pool, slab, ring, ctxs) && Staged(g, b, ids, ctxs, after) && SlotsInRange(g, b)
    requires |newSlab| == SlabRows(g) && |newRing| == RingRows(g)
    requires Stored(g, pool, b, slab, ring, newSlab, newRing)
    ensures Inv(g, pool, newSlab, newRing, after)
  {
    hide Ragged, Stored, SlotsInRange, Covered, Grown, FreshPages, Pooled, Pending, Shares;
    InvApart(g, pool, slab, ring, ctxs);
    forall id <- after ensures Held(g, pool, newSlab, newRing, after[id]) {
      assert Held(g, pool, slab, ring, ctxs[id]);
      Across(g, b, ids, ctxs, after, id);
      PooledForward(g, pool, b, slab, ring, newSlab, newRing, ids, ctxs, after, id);
      PendingForward(g, pool, b, slab, ring, newSlab, newRing, ids, ctxs, after, id);
    }
    forall id <- after, other <- after | id != other ensures Apart(g, after[id], after[other]) {
      assert Held(g, pool, slab, ring, ctxs[id]) && Held(g, pool, slab, ring, ctxs[other]);
      Across(g, b, ids, ctxs, after, id);
      Across(g, b, ids, ctxs, after, other);
      assert Apart(g, ctxs[id], ctxs[other]) && FreshPages(ctxs[id], after[id], ctxs[other], after[other]);
      SharesForward(g, ctxs[id], after[id], ctxs[other], after[other]);
    }
  }

  lemma InvApart<K, V>(g: Geometry, pool: seq<K> -> V, slab: seq<V>, ring: seq<K>, ctxs: map<nat, Ctx<K>>)
    requires Inv(g, pool, slab, ring, ctxs)
    ensures AllApart(g, ctxs)
  {
    hide Covered, Pooled, Pending, Apart;
    forall id <- ctxs ensures Covered(g, ctxs[id]) { assert Held(g, pool, slab, ring, ctxs[id]); }
  }
}
