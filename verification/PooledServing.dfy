// Selection on a pooled cache: the rows a query reads are those of its own request, and the scores it picks by
// are scores of its own pooled keys.
module PooledServing {
  import opened Basics
  import opened PooledAddressing
  import opened PooledCache
  import opened PooledCacheStore
  import opened PooledSelection

  /** The slots of a request's positions are all different. */
  lemma RowsDiffer<K>(g: Geometry, c: Ctx<K>, p: nat, q: nat)
    requires Sound(g) && Covered(g, c) && p < q < |c.keys|
    ensures |c.keys| <= |c.pages| * PageSize(g)
    ensures Rows(g, c.pages, |c.keys|)[p] != Rows(g, c.pages, |c.keys|)[q]
  {
    hide PageSize;
    GroupOf(g, 0);
    PositionHasPage(g, c.pages, |c.keys|, p);
    PositionHasPage(g, c.pages, |c.keys|, q);
    PlacesDiffer(c.pages, PageSize(g), p, q);
  }

  lemma PlacesDiffer(pages: seq<nat>, size: nat, p: nat, q: nat)
    requires size > 0 && p < q && p / size < |pages| && q / size < |pages|
    requires forall i, j :: 0 <= i < j < |pages| ==> pages[i] != pages[j]
    ensures pages[p / size] * size + p % size != pages[q / size] * size + q % size
  {
    Parts(p, size);
    Parts(q, size);
    PlaceDiffers(pages[p / size], p / size, p % size, pages[q / size], q / size, q % size, p, q, size);
  }

  lemma PlaceDiffers(a: nat, i: nat, x: nat, b: nat, j: nat, y: nat, p: nat, q: nat, size: nat)
    requires p == i * size + x && q == j * size + y && x < size && y < size && p < q && (a == b ==> i == j)
    ensures a * size + x != b * size + y
  {
    if a * size + x == b * size + y { Unique(a, x, b, y, size); }
  }

  /** The rows snapshot of a request in a kept cache. */
  ghost function OwnRows<K, V>(g: Geometry, pool: seq<K> -> V, slab: seq<V>, ring: seq<K>,
                               ctxs: map<nat, Ctx<K>>, id: nat): (rows: seq<nat>)
    requires Inv(g, pool, slab, ring, ctxs) && id in ctxs
    ensures Sound(g) && |slab| == SlabRows(g)
    ensures |rows| == |ctxs[id].keys| <= |ctxs[id].pages| * PageSize(g) && rows == Rows(g, ctxs[id].pages, |ctxs[id].keys|)
  {
    assert Held(g, pool, slab, ring, ctxs[id]);
    CoveredPages(g, ctxs[id]);
    Rows(g, ctxs[id].pages, |ctxs[id].keys|)
  }

  /** Each complete group is read from the row that holds the pooling of the request's own keys. */
  lemma OwnGroup<K, V>(g: Geometry, pool: seq<K> -> V, slab: seq<V>, ring: seq<K>, ctxs: map<nat, Ctx<K>>, id: nat, n: nat)
    requires Inv(g, pool, slab, ring, ctxs) && id in ctxs && Sound(g) && n < |ctxs[id].keys| / g.kp
    ensures n * g.kp + g.kp <= |ctxs[id].keys|
    ensures var row := PoolRow(g, OwnRows(g, pool, slab, ring, ctxs, id), n);
            row < |slab| && slab[row] == pool(Group(ctxs[id].keys, n, g.kp))
  {
    VisibleBlocksAreFresh(g, pool, slab, ring, ctxs, id, |ctxs[id].keys| - 1, n);
  }

  /** The scores of a request's complete groups, as the slab has them in the rows the snapshot names. */
  ghost function SlabScores<K, V>(g: Geometry, pool: seq<K> -> V, score: V -> real, slab: seq<V>, ring: seq<K>,
                                  ctxs: map<nat, Ctx<K>>, id: nat): (scores: seq<Score>)
    requires Inv(g, pool, slab, ring, ctxs) && id in ctxs && Sound(g)
    ensures |scores| == |ctxs[id].keys| / g.kp
  {
    seq(|ctxs[id].keys| / g.kp, n requires 0 <= n < |ctxs[id].keys| / g.kp =>
      SlabScore(g, pool, score, slab, ring, ctxs, id, n))
  }

  ghost function SlabScore<K, V>(g: Geometry, pool: seq<K> -> V, score: V -> real, slab: seq<V>, ring: seq<K>,
                                 ctxs: map<nat, Ctx<K>>, id: nat, n: nat): Score
    requires Inv(g, pool, slab, ring, ctxs) && id in ctxs && Sound(g) && n < |ctxs[id].keys| / g.kp
  {
    hide Inv, PoolRow, SlabRows;
    OwnGroup(g, pool, slab, ring, ctxs, id, n);
    Fin(score(slab[PoolRow(g, OwnRows(g, pool, slab, ring, ctxs, id), n)]))
  }

  /** The scores of pooling the request's own keys, group by group. */
  function OwnScores<K, V>(pool: seq<K> -> V, score: V -> real, keys: seq<K>, kp: nat): (scores: seq<Score>)
    requires kp > 0
    ensures |scores| == |keys| / kp
  {
    seq(|keys| / kp, n requires 0 <= n < |keys| / kp =>
      CompleteGroup(n, |keys|, kp);
      Fin(score(pool(keys[n * kp..n * kp + kp]))))
  }

  /** They are what the slab gives, whoever shares the request's pages. */
  lemma ScoresAreFresh<K, V>(g: Geometry, pool: seq<K> -> V, score: V -> real, slab: seq<V>, ring: seq<K>,
                             ctxs: map<nat, Ctx<K>>, id: nat)
    requires Inv(g, pool, slab, ring, ctxs) && id in ctxs && Sound(g)
    ensures SlabScores(g, pool, score, slab, ring, ctxs, id) == OwnScores(pool, score, ctxs[id].keys, g.kp)
  {
    hide Inv, PoolRow;
    forall n: nat | n < |ctxs[id].keys| / g.kp
      ensures n * g.kp + g.kp <= |ctxs[id].keys|
      ensures SlabScore(g, pool, score, slab, ring, ctxs, id, n) == Fin(score(pool(ctxs[id].keys[n * g.kp..n * g.kp + g.kp])))
    {
      OwnGroup(g, pool, slab, ring, ctxs, id, n);
    }
  }

  /** A prefill query of a request whose cache is kept attends to distinct token slots of its own past: those of the
      best complete groups by the scores of its own pooled keys, and of the tail behind them. */
  lemma PrefillReadsItsOwn<K, V>(g: Geometry, pool: seq<K> -> V, score: V -> real, slab: seq<V>, ring: seq<K>,
                                 ctxs: map<nat, Ctx<K>>, id: nat, topk: (seq<Score>, nat) -> seq<nat>,
                                 pos: nat, selectK: nat, sel: seq<int>, cnt: nat)
    requires Inv(g, pool, slab, ring, ctxs) && id in ctxs && Sound(g) && pos < |ctxs[id].keys|
    requires IsTopKFunction(topk)
    requires QueryResult(topk, SlabScores(g, pool, score, slab, ring, ctxs, id), OwnRows(g, pool, slab, ring, ctxs, id),
                         pos, g.kp, selectK, sel, cnt)
    ensures var rows := OwnRows(g, pool, slab, ring, ctxs, id);
      && AttendsBest(OwnScores(pool, score, ctxs[id].keys, g.kp), g.kp, pos, selectK, rows, sel)
      && (forall i, j :: 0 <= i < j < |sel| && sel[i] >= 0 ==> sel[i] != sel[j])
      && (forall i :: cnt <= i < |sel| ==> sel[i] == -1)
      && (forall i :: 0 <= i < |sel| && sel[i] >= 0 ==> sel[i] in rows[..pos + 1])
      && (Pools(pos, g.kp) <= selectK ==> forall p: nat :: p <= pos ==> rows[p] in sel)
  {
    hide Inv, Rows, QueryResult, Pools, IsTopKFunction, SlabScores, OwnScores, AllFinite, Covered, AttendsBest;
    var c := ctxs[id];
    var rows, scores := OwnRows(g, pool, slab, ring, ctxs, id), SlabScores(g, pool, score, slab, ring, ctxs, id);
    forall p: nat, q: nat | p < q < |rows| ensures rows[p] != rows[q] {
      OwnCovered(g, pool, slab, ring, ctxs, id);
      RowsDiffer(g, c, p, q);
    }
    ScoresAreFinite(g, pool, score, slab, ring, ctxs, id);
    ScoresAreFresh(g, pool, score, slab, ring, ctxs, id);
    PrefillAttends(topk, scores, rows, pos, g.kp, selectK, sel, cnt);
  }

  lemma ScoresAreFinite<K, V>(g: Geometry, pool: seq<K> -> V, score: V -> real, slab: seq<V>, ring: seq<K>,
                              ctxs: map<nat, Ctx<K>>, id: nat)
    requires Inv(g, pool, slab, ring, ctxs) && id in ctxs && Sound(g)
    ensures AllFinite(SlabScores(g, pool, score, slab, ring, ctxs, id))
  {
    hide Inv, SlabScore;
    forall n: nat | n < |ctxs[id].keys| / g.kp ensures SlabScore(g, pool, score, slab, ring, ctxs, id, n).Fin? {
      SlabScoreIsFinite(g, pool, score, slab, ring, ctxs, id, n);
    }
  }

  lemma SlabScoreIsFinite<K, V>(g: Geometry, pool: seq<K> -> V, score: V -> real, slab: seq<V>, ring: seq<K>,
                                ctxs: map<nat, Ctx<K>>, id: nat, n: nat)
    requires Inv(g, pool, slab, ring, ctxs) && id in ctxs && Sound(g) && n < |ctxs[id].keys| / g.kp
    ensures SlabScore(g, pool, score, slab, ring, ctxs, id, n).Fin?
  {
    hide Inv, PoolRow;
  }

  lemma OwnCovered<K, V>(g: Geometry, pool: seq<K> -> V, slab: seq<V>, ring: seq<K>, ctxs: map<nat, Ctx<K>>, id: nat)
    requires Inv(g, pool, slab, ring, ctxs) && id in ctxs
    ensures Sound(g) && Covered(g, ctxs[id])
  {
    assert Held(g, pool, slab, ring, ctxs[id]);
  }
}
