// Picking pools and turning them into token positions, at prefill, at decode, and in the QSA backend.
module PooledSelection {
  import opened Basics

  /** A block's score; blocks that are not live score minus infinity. */
  datatype Score = NegInf | Fin(value: real)

  predicate AtMost(a: Score, b: Score) {
    a.NegInf? || (b.Fin? && a.value <= b.value)
  }

  /** What torch.topk promises of the k indices it returns: distinct, best first, and none left out is
      better. Ties may fall either way. */
  ghost predicate IsTopK(scores: seq<Score>, k: nat, picks: seq<nat>) {
    && |picks| == k && (forall i :: 0 <= i < k ==> picks[i] < |scores|)
    && (forall i, j :: 0 <= i < j < k ==> picks[i] != picks[j])
    && (forall i, j :: 0 <= i < j < k ==> AtMost(scores[picks[j]], scores[picks[i]]))
    && (forall i: nat, x: nat :: i < k && x < |scores| && x !in picks ==> AtMost(scores[x], scores[picks[i]]))
  }

  /** Exactly the first `live` blocks have a score. */
  predicate LiveBelow(scores: seq<Score>, live: nat) {
    forall b :: 0 <= b < |scores| ==> (scores[b].Fin? <==> b < live)
  }

  /** The causal mask of indexer_select_prefill, and of _top_blocks. */
  function Masked(scores: seq<Score>, live: nat): (m: seq<Score>)
    ensures |m| == |scores|
  {
    seq(|scores|, b requires 0 <= b < |scores| => if b >= live then NegInf else scores[b])
  }

  /** Picks past the live count become -1. */
  function Sentinels(picks: seq<nat>, live: nat, offset: int): (s: seq<int>)
    ensures |s| == |picks|
  {
    seq(|picks|, i requires 0 <= i < |picks| => if picks[i] >= live then -1 else picks[i] + offset)
  }

  /** An offset moves the picks and leaves the empty ones. */
  lemma SentinelsMove(picks: seq<nat>, live: nat, offset: nat, i: nat)
    requires i < |picks|
    ensures Sentinels(picks, live, offset)[i] == if Sentinels(picks, live, 0)[i] < 0 then -1 else Sentinels(picks, live, 0)[i] + offset
  {
  }

  /** What a selection must be: the first Min(k, live) picks are distinct live blocks, best first, none left
      out better; all the others are -1. */
  ghost predicate Selects(scores: seq<Score>, live: nat, k: nat, picks: seq<int>) {
    var cut := Min(k, live);
    && |picks| == k && live <= |scores|
    && (forall i :: 0 <= i < cut ==> 0 <= picks[i] < live)
    && (forall i :: cut <= i < k ==> picks[i] == -1)
    && (forall i, j :: 0 <= i < j < cut ==> picks[i] != picks[j])
    && (forall i: nat, b: nat :: i < cut && b < live && b !in picks ==> AtMost(scores[b], scores[picks[i]]))
  }

  // ---- the top k of masked scores ----

  /** If a block that is not live is picked, all live ones are picked before it. */
  lemma LivePicked(scores: seq<Score>, live: nat, k: nat, picks: seq<nat>, i: nat, b: nat)
    requires LiveBelow(scores, live) && live <= |scores| && IsTopK(scores, k, picks)
    requires i < k && picks[i] >= live && b < live
    ensures b in picks[..i]
  {
    assert b in picks;
    var j: nat :| j < k && picks[j] == b;
    assert j != i;
    assert i < j ==> AtMost(scores[picks[j]], scores[picks[i]]);
    assert picks[..i][j] == b;
  }

  /** The live picks are the first ones. */
  lemma LiveFirst(scores: seq<Score>, live: nat, k: nat, picks: seq<nat>, i: nat)
    requires LiveBelow(scores, live) && live <= |scores| && IsTopK(scores, k, picks) && i < k
    ensures picks[i] < live <==> i < live
  {
    if picks[i] >= live {
      forall b: nat | b < live ensures b in picks[..i] { LivePicked(scores, live, k, picks, i, b); }
      Pigeons(picks[..i], live);
    }
    if picks[i] < live {
      forall j | 0 <= j <= i ensures picks[j] < live {
        assert j < i ==> AtMost(scores[picks[i]], scores[picks[j]]);
      }
      Holes(picks[..i + 1], live);
    }
  }

  /** A list with all numbers below n is no shorter than n. */
  lemma {:induction false} Pigeons(s: seq<nat>, n: nat)
    requires forall b: nat :: b < n ==> b in s
    ensures |s| >= n
  {
    if n > 0 {
      assert n - 1 in s;
      var i: nat :| i < |s| && s[i] == n - 1;
      var rest := s[..i] + s[i + 1..];
      forall b: nat | b < n - 1 ensures b in rest {
        assert b in s;
        var j: nat :| j < |s| && s[j] == b;
        assert rest[if j < i then j else j - 1] == b;
      }
      Pigeons(rest, n - 1);
    }
  }

  /** Distinct numbers below n are no more than n. */
  lemma {:induction false} Holes(s: seq<nat>, n: nat)
    requires forall i :: 0 <= i < |s| ==> s[i] < n
    requires forall i, j :: 0 <= i < j < |s| ==> s[i] != s[j]
    ensures |s| <= n
  {
    if s != [] {
      assert s[0] < n;
      if n - 1 in s {
        var i: nat :| i < |s| && s[i] == n - 1;
        Holes(s[..i] + s[i + 1..], n - 1);
      } else {
        Holes(s, n - 1);
      }
    }
  }

  /** Both select functions: prefill masks the scores itself, decode gets them masked by the kernel. */
  lemma TopKSelects(scores: seq<Score>, live: nat, k: nat, picks: seq<nat>)
    requires LiveBelow(scores, live) && live <= |scores| && IsTopK(scores, k, picks)
    ensures Selects(scores, live, k, Sentinels(picks, live, 0))
  {
    var s := Sentinels(picks, live, 0);
    var cut := Min(k, live);
    forall i | 0 <= i < k ensures i < cut <==> picks[i] < live { LiveFirst(scores, live, k, picks, i); }
    forall i: nat, b: nat | i < cut && b < live && b !in s ensures AtMost(scores[b], scores[s[i]]) {
      LivePickStays(picks, live, b);
    }
  }

  lemma LivePickStays(picks: seq<nat>, live: nat, b: nat)
    requires b < live
    ensures b in picks ==> b in Sentinels(picks, live, 0)
  {
    if b in picks {
      var j: nat :| j < |picks| && picks[j] == b;
      assert Sentinels(picks, live, 0)[j] == b;
    }
  }

  /** With room for all live blocks, all are picked. */
  lemma AllSelected(scores: seq<Score>, live: nat, k: nat, picks: seq<int>, b: nat)
    requires Selects(scores, live, k, picks) && live <= k && b < live
    ensures b in picks
  {
    var front := seq(live, i requires 0 <= i < live => picks[i] as nat);
    Onto(front, live, b);
    var i: nat :| i < |front| && front[i] == b;
    assert picks[i] == b;
  }

  lemma Onto(s: seq<nat>, n: nat, b: nat)
    requires |s| == n && b < n && forall i :: 0 <= i < n ==> s[i] < n
    requires forall i, j :: 0 <= i < j < n ==> s[i] != s[j]
    ensures b in s
  {
    if b !in s { Holes(s + [b], n); }
  }

  lemma MaskedIsLive(scores: seq<Score>, live: nat)
    requires forall b :: 0 <= b < |scores| ==> scores[b].Fin?
    ensures LiveBelow(Masked(scores, live), live)
  {
  }

  // ---- expansion: kpool ----

  /** Complete pools at a query position. */
  function Pools(qPos: nat, kp: nat): nat
    requires kp > 0
  {
    (qPos + 1) / kp
  }

  /** Tail slots first, kp - 1 of them, then kp positions per pick; -1 where there is none. */
  function PositionAt(kp: nat, picks: seq<int>, qPos: nat, i: nat): int
    requires kp > 0 && i < (kp - 1) + |picks| * kp
  {
    if i < kp - 1 then
      var p := Pools(qPos, kp) * kp + i;
      if p <= qPos then p else -1
    else
      var h := i - (kp - 1);
      InPick(h, |picks|, kp);
      if picks[h / kp] < 0 then -1 else picks[h / kp] * kp + h % kp
  }

  lemma InPick(h: nat, n: nat, kp: nat)
    requires kp > 0 && h < n * kp
    ensures h / kp < n && h == h / kp * kp + h % kp
  {
    assert h == h / kp * kp + h % kp;
    Mul(n, h / kp, kp);
  }

  function Positions(kp: nat, picks: seq<int>, qPos: nat): (s: seq<int>)
    requires kp > 0
    ensures |s| == (kp - 1) + |picks| * kp
  {
    assert |picks| * kp >= 0;
    seq((kp - 1) + |picks| * kp, i requires 0 <= i < (kp - 1) + |picks| * kp => PositionAt(kp, picks, qPos, i))
  }

  /** The count that bounds the sparse kernel. */
  function CountFor(kp: nat, k: nat, qPos: nat): nat
    requires kp > 0
  {
    (kp - 1) + Min(Pools(qPos, kp), k) * kp
  }

  /** A position is selected if it is of a picked pool or of the tail behind the complete pools. */
  predicate Wanted(kp: nat, picks: seq<int>, qPos: nat, p: nat)
    requires kp > 0
  {
    p <= qPos && (p / kp in picks || p >= Pools(qPos, kp) * kp)
  }

  lemma PoolBounds(qPos: nat, kp: nat)
    requires kp > 0
    ensures Pools(qPos, kp) * kp <= qPos + 1 < Pools(qPos, kp) * kp + kp
  {
    var n := Pools(qPos, kp);
    assert qPos + 1 == n * kp + (qPos + 1) % kp;
  }

  lemma Mul(a: int, b: int, kp: nat)
    ensures a <= b ==> a * kp <= b * kp
    ensures a < b ==> a * kp + kp <= b * kp
  {
    assert (b - a) * kp == b * kp - a * kp;
    Multiples(b - a, kp);
  }

  lemma Split(a: nat, x: nat, kp: nat)
    requires x < kp
    ensures (a * kp + x) / kp == a && (a * kp + x) % kp == x
  {
    DivMod(a * kp + x, kp, a, x);
  }

  /** The entry of a pick's o-th token. */
  lemma PickEntry(kp: nat, picks: seq<int>, qPos: nat, j: nat, o: nat)
    requires kp > 0 && j < |picks| && o < kp
    ensures (kp - 1) + (j * kp + o) < (kp - 1) + |picks| * kp
    ensures PositionAt(kp, picks, qPos, (kp - 1) + (j * kp + o)) == if picks[j] < 0 then -1 else picks[j] * kp + o
  {
    Mul(j, |picks|, kp);
    Split(j, o, kp);
  }

  /** Every entry is a tail slot or a token of a pick. */
  lemma EntryIs(kp: nat, picks: seq<int>, qPos: nat, i: nat) returns (j: nat, o: nat)
    requires kp > 0 && i < (kp - 1) + |picks| * kp
    ensures i >= kp - 1 ==> j < |picks| && o < kp && i == (kp - 1) + (j * kp + o)
    ensures i >= kp - 1 ==> PositionAt(kp, picks, qPos, i) == if picks[j] < 0 then -1 else picks[j] * kp + o
    ensures i < kp - 1 ==> var p := Pools(qPos, kp) * kp + i; PositionAt(kp, picks, qPos, i) == if p <= qPos then p else -1
  {
    hide Pools;
    j, o := 0, 0;
    if i >= kp - 1 {
      var h := i - (kp - 1);
      InPick(h, |picks|, kp);
      j, o := h / kp, h % kp;
      PickEntry(kp, picks, qPos, j, o);
    }
  }

  /** A picked pool's token lies before the tail. */
  lemma PickBelowTail(n: nat, kp: nat, pick: nat, o: nat)
    requires pick < n && o < kp
    ensures pick * kp + o < n * kp
  {
    Mul(pick, n, kp);
  }

  /** Whatever is selected is wanted; past the count there is nothing. */
  lemma EntryWanted(scores: seq<Score>, kp: nat, k: nat, picks: seq<int>, qPos: nat, i: nat)
    requires kp > 0 && Selects(scores, Pools(qPos, kp), k, picks) && i < (kp - 1) + |picks| * kp
    ensures var p := PositionAt(kp, picks, qPos, i); p >= 0 ==> Wanted(kp, picks, qPos, p)
    ensures i >= CountFor(kp, k, qPos) ==> PositionAt(kp, picks, qPos, i) == -1
  {
    hide Pools, PositionAt;
    var j, o := EntryIs(kp, picks, qPos, i);
    var n := Pools(qPos, kp);
    var cut := Min(k, n);
    PoolBounds(qPos, kp);
    Mul(0, cut, kp);
    if i >= kp - 1 {
      Mul(j, cut, kp);
      if j < cut {
        PickBelowTail(n, kp, picks[j], o);
        Split(picks[j], o, kp);
        assert picks[j] in picks;
      }
    }
  }

  lemma TailSelected(kp: nat, picks: seq<int>, qPos: nat, p: nat)
    requires kp > 0 && Pools(qPos, kp) * kp <= p <= qPos
    ensures p in Positions(kp, picks, qPos)
  {
    hide Pools, PositionAt;
    var t := Pools(qPos, kp) * kp;
    PoolBounds(qPos, kp);
    Mul(0, |picks|, kp);
    var _, _ := EntryIs(kp, picks, qPos, p - t);
    assert Positions(kp, picks, qPos)[p - t] == p;
  }

  lemma PickSelected(kp: nat, picks: seq<int>, qPos: nat, j: nat, o: nat)
    requires kp > 0 && j < |picks| && picks[j] >= 0 && o < kp
    ensures picks[j] * kp + o in Positions(kp, picks, qPos)
  {
    hide Pools, PositionAt;
    PickEntry(kp, picks, qPos, j, o);
    assert Positions(kp, picks, qPos)[(kp - 1) + (j * kp + o)] == picks[j] * kp + o;
  }

  /** Whatever is wanted is selected. */
  lemma WantedEntry(kp: nat, picks: seq<int>, qPos: nat, p: nat)
    requires kp > 0 && Wanted(kp, picks, qPos, p)
    ensures p in Positions(kp, picks, qPos)
  {
    hide Pools, PositionAt, Positions;
    if p / kp in picks {
      var j: nat :| j < |picks| && picks[j] == p / kp;
      Parts(p, kp);
      PickSelected(kp, picks, qPos, j, p % kp);
    } else {
      TailSelected(kp, picks, qPos, p);
    }
  }

  lemma EntriesDiffer(scores: seq<Score>, kp: nat, k: nat, picks: seq<int>, qPos: nat, i: nat, i2: nat)
    requires kp > 0 && Selects(scores, Pools(qPos, kp), k, picks) && i < i2 < (kp - 1) + |picks| * kp
    requires PositionAt(kp, picks, qPos, i) >= 0
    ensures PositionAt(kp, picks, qPos, i) != PositionAt(kp, picks, qPos, i2)
  {
    hide Pools, PositionAt;
    var j, o := EntryIs(kp, picks, qPos, i);
    var j2, o2 := EntryIs(kp, picks, qPos, i2);
    if i2 >= kp - 1 && picks[j2] >= 0 {
      PickBelowTail(Pools(qPos, kp), kp, picks[j2], o2);
      Split(picks[j2], o2, kp);
      if i >= kp - 1 { Split(picks[j], o, kp); }
    }
  }

  // ---- what a query attends to ----

  /** The positions of a selection: distinct, none after the query; wanted ones all and no others; none from
      the count on. With room for every complete pool they are all positions up to the query. */
  lemma SelectedPositions(scores: seq<Score>, kp: nat, k: nat, picks: seq<int>, qPos: nat)
    requires kp > 0 && Selects(scores, Pools(qPos, kp), k, picks)
    ensures var pos := Positions(kp, picks, qPos);
      && (forall i, j :: 0 <= i < j < |pos| && pos[i] >= 0 ==> pos[i] != pos[j])
      && (forall i :: CountFor(kp, k, qPos) <= i < |pos| ==> pos[i] == -1)
      && (forall p: nat :: p in pos <==> Wanted(kp, picks, qPos, p))
      && (forall i :: 0 <= i < |pos| ==> pos[i] <= qPos)
      && (Pools(qPos, kp) <= k ==> forall p: nat :: p in pos <==> p <= qPos)
  {
    hide Pools, PositionAt, CountFor, Selects, Wanted;
    var pos := Positions(kp, picks, qPos);
    forall i, j | 0 <= i < j < |pos| && pos[i] >= 0 ensures pos[i] != pos[j] {
      EntriesDiffer(scores, kp, k, picks, qPos, i, j);
    }
    forall i | CountFor(kp, k, qPos) <= i < |pos| ensures pos[i] == -1 {
      CountIsNat(kp, k, qPos);
      EntryWanted(scores, kp, k, picks, qPos, i);
    }
    forall p: nat ensures p in pos <==> Wanted(kp, picks, qPos, p) {
      if p in pos {
        var i: nat :| i < |pos| && pos[i] == p;
        EntryWanted(scores, kp, k, picks, qPos, i);
      }
      if Wanted(kp, picks, qPos, p) { WantedEntry(kp, picks, qPos, p); }
    }
    forall i | 0 <= i < |pos| ensures pos[i] <= qPos {
      EntryWanted(scores, kp, k, picks, qPos, i);
      WantedUpTo(kp, picks, qPos, pos[i]);
    }
    if Pools(qPos, kp) <= k {
      forall p: nat ensures Wanted(kp, picks, qPos, p) <==> p <= qPos {
        WantedAll(scores, kp, k, picks, qPos, p);
      }
    }
  }

  /** The count is the least such bound when a block is picked, and the tail's slots when none is. */
  lemma CountIsTight(scores: seq<Score>, kp: nat, k: nat, picks: seq<int>, qPos: nat)
    requires kp > 0 && Selects(scores, Pools(qPos, kp), k, picks)
    ensures var cnt := CountFor(kp, k, qPos);
      && kp - 1 <= cnt <= |Positions(kp, picks, qPos)|
      && (cnt == kp - 1 <==> k == 0 || (qPos + 1) / kp == 0)
      && (cnt > kp - 1 ==> Positions(kp, picks, qPos)[cnt - 1] >= 0)
  {
    hide PositionAt;
    var cut := Min(Pools(qPos, kp), k);
    CountBounds(kp, k, Pools(qPos, kp));
    if cut > 0 { PickEntry(kp, picks, qPos, cut - 1, kp - 1); }
  }

  lemma CountBounds(kp: nat, k: nat, pools: nat)
    requires kp > 0
    ensures 0 <= Min(pools, k) * kp <= k * kp
    ensures Min(pools, k) > 0 ==> Min(pools, k) * kp == (Min(pools, k) - 1) * kp + kp && (Min(pools, k) - 1) * kp >= 0
  {
    var cut := Min(pools, k);
    Mul(0, cut, kp);
    Mul(cut, k, kp);
    if cut > 0 {
      Mul(0, cut - 1, kp);
      assert cut * kp == (cut - 1) * kp + kp;
    }
  }

  lemma CountIsNat(kp: nat, k: nat, qPos: nat)
    requires kp > 0
    ensures CountFor(kp, k, qPos) >= 0
  {
  }

  lemma WantedUpTo(kp: nat, picks: seq<int>, qPos: nat, p: int)
    requires kp > 0 && (p >= 0 ==> Wanted(kp, picks, qPos, p))
    ensures p <= qPos
  {
  }

  lemma WantedAll(scores: seq<Score>, kp: nat, k: nat, picks: seq<int>, qPos: nat, p: nat)
    requires kp > 0 && Selects(scores, Pools(qPos, kp), k, picks) && Pools(qPos, kp) <= k
    ensures Wanted(kp, picks, qPos, p) <==> p <= qPos
  {
    hide Pools, Selects;
    var n := Pools(qPos, kp);
    if p < n * kp {
      InPick(p, n, kp);
      AllSelected(scores, n, k, picks, p / kp);
    }
  }

  // ---- the best blocks ----

  /** `best` are the best of the first `live` blocks, k of them or all: none left out scores above one of them. */
  ghost predicate BestBlocks(scores: seq<Score>, live: nat, k: nat, best: set<nat>) {
    && live <= |scores| && |best| == (if k < live then k else live) && (forall b <- best :: b < live)
    && (forall a: nat, b: nat :: a in best && b < live && b !in best ==> AtMost(scores[b], scores[a]))
  }

  /** A token up to the query is read if it is of one of these blocks or behind the complete blocks. */
  predicate Read(best: set<nat>, kp: nat, pos: nat, p: nat)
    requires kp > 0
  {
    p <= pos && (p / kp in best || p >= (pos + 1) / kp * kp)
  }

  /** The positions are those of the tokens of the best complete blocks, and of the tail. */
  ghost predicate ReadsBest(scores: seq<Score>, kp: nat, pos: nat, k: nat, where: seq<int>)
    requires kp > 0
  {
    exists best: set<nat> :: ReadsThese(scores, kp, pos, k, where, best)
  }

  ghost predicate ReadsThese(scores: seq<Score>, kp: nat, pos: nat, k: nat, where: seq<int>, best: set<nat>)
    requires kp > 0
  {
    BestBlocks(scores, (pos + 1) / kp, k, best) && forall p: nat :: p in where <==> Read(best, kp, pos, p)
  }

  function Front(picks: seq<int>, cut: nat): set<nat>
    requires cut <= |picks| && forall i :: 0 <= i < cut ==> picks[i] >= 0
  {
    if cut == 0 then {} else Front(picks, cut - 1) + {picks[cut - 1]}
  }

  lemma {:induction false} FrontHas(picks: seq<int>, cut: nat, b: nat)
    requires cut <= |picks| && forall i :: 0 <= i < cut ==> picks[i] >= 0
    ensures b in Front(picks, cut) <==> exists i :: 0 <= i < cut && picks[i] == b
  {
    if cut > 0 { FrontHas(picks, cut - 1, b); }
  }

  lemma {:induction false} FrontSize(picks: seq<int>, cut: nat)
    requires cut <= |picks| && forall i :: 0 <= i < cut ==> picks[i] >= 0
    requires forall i, j :: 0 <= i < j < cut ==> picks[i] != picks[j]
    ensures |Front(picks, cut)| == cut
  {
    if cut > 0 {
      FrontSize(picks, cut - 1);
      FrontHas(picks, cut - 1, picks[cut - 1]);
    }
  }

  /** The picks of a selection are the best blocks. */
  lemma PicksAreBest(scores: seq<Score>, live: nat, k: nat, picks: seq<int>) returns (best: set<nat>)
    requires Selects(scores, live, k, picks)
    ensures BestBlocks(scores, live, k, best) && forall b: nat :: b in best <==> b in picks
  {
    hide Front;
    var cut := Min(k, live);
    best := Front(picks, cut);
    FrontSize(picks, cut);
    forall b: nat ensures b in best <==> b in picks {
      FrontHas(picks, cut, b);
      PickedBefore(picks, cut, b);
    }
    forall a: nat, b: nat | a in best && b < live && b !in best ensures AtMost(scores[b], scores[a]) {
      FrontHas(picks, cut, a);
      var i: nat :| i < cut && picks[i] == a;
    }
  }

  lemma PickedBefore(picks: seq<int>, cut: nat, b: nat)
    requires cut <= |picks| && forall i :: cut <= i < |picks| ==> picks[i] == -1
    ensures b in picks <==> exists i :: 0 <= i < cut && picks[i] == b
  {
  }

  lemma SelectionReadsBest(scores: seq<Score>, kp: nat, k: nat, picks: seq<int>, pos: nat)
    requires kp > 0 && Selects(scores, Pools(pos, kp), k, picks)
    ensures ReadsBest(scores, kp, pos, k, Positions(kp, picks, pos))
  {
    hide Selects, BestBlocks, PositionAt, Positions, Read, Wanted;
    SelectedPositions(scores, kp, k, picks, pos);
    var best := PicksAreBest(scores, Pools(pos, kp), k, picks);
    forall p: nat ensures p in Positions(kp, picks, pos) <==> Read(best, kp, pos, p) {
      WantedIsRead(kp, picks, pos, best, p);
    }
    assert ReadsThese(scores, kp, pos, k, Positions(kp, picks, pos), best);
  }

  /** A width that holds all complete blocks is no limit. */
  lemma ReadsBestWithin(scores: seq<Score>, kp: nat, pos: nat, k: nat, width: nat, where: seq<int>)
    requires kp > 0 && ReadsBest(scores, kp, pos, width, where)
    requires Min(width, (pos + 1) / kp) == Min(k, (pos + 1) / kp)
    ensures ReadsBest(scores, kp, pos, k, where)
  {
    var best :| ReadsThese(scores, kp, pos, width, where, best);
    assert ReadsThese(scores, kp, pos, k, where, best);
  }

  /** The physical rows of a selection are those of the tokens of the best complete blocks, and of the tail. */
  ghost predicate AttendsBest(scores: seq<Score>, kp: nat, pos: nat, k: nat, rows: seq<int>, sel: seq<int>)
    requires kp > 0
  {
    exists best: set<nat> :: AttendsThese(scores, kp, pos, k, rows, sel, best)
  }

  ghost predicate AttendsThese(scores: seq<Score>, kp: nat, pos: nat, k: nat, rows: seq<int>, sel: seq<int>, best: set<nat>)
    requires kp > 0
  {
    && BestBlocks(scores, (pos + 1) / kp, k, best)
    && (forall p: nat :: Read(best, kp, pos, p) ==> p < |rows| && rows[p] in sel)
    && (forall x <- sel :: x == -1 || exists p: nat :: Read(best, kp, pos, p) && p < |rows| && rows[p] == x)
  }

  lemma RowsOfBest(scores: seq<Score>, kp: nat, pos: nat, k: nat, rows: seq<int>, where: seq<int>, sel: seq<int>)
    requires kp > 0 && pos < |rows| && ReadsBest(scores, kp, pos, k, where) && |sel| == |where|
    requires forall i :: 0 <= i < |sel| ==> where[i] < |rows| && sel[i] == if where[i] < 0 then -1 else rows[where[i]]
    ensures AttendsBest(scores, kp, pos, k, rows, sel)
  {
    hide BestBlocks, Read;
    var best :| ReadsThese(scores, kp, pos, k, where, best);
    forall p: nat | Read(best, kp, pos, p) ensures p < |rows| && rows[p] in sel {
      var i: nat :| i < |where| && where[i] == p;
      assert sel[i] == rows[p];
    }
    forall x | x in sel && x != -1 ensures exists p: nat :: Read(best, kp, pos, p) && p < |rows| && rows[p] == x {
      var i: nat :| i < |sel| && sel[i] == x;
      assert where[i] in where;
      var p: nat := where[i];
      assert Read(best, kp, pos, p) && rows[p] == x;
    }
    assert AttendsThese(scores, kp, pos, k, rows, sel, best);
  }

  lemma WantedIsRead(kp: nat, picks: seq<int>, pos: nat, best: set<nat>, p: nat)
    requires kp > 0 && forall b: nat :: b in best <==> b in picks
    ensures Wanted(kp, picks, pos, p) <==> Read(best, kp, pos, p)
  {
    var b: nat := p / kp;
    assert b in best <==> b in picks;
  }

  // ---- the kpool backend ----

  /** _expand_and_tail's last lines, for one query: physical rows for positions. */
  function RowsOf(pos: seq<int>, rows: seq<int>): (sel: seq<int>)
    requires forall i :: 0 <= i < |pos| ==> pos[i] < |rows|
    ensures |sel| == |pos|
  {
    seq(|pos|, i requires 0 <= i < |pos| => if pos[i] < 0 then -1 else rows[pos[i]])
  }

  /** torch.topk as the caller sees it: any function that keeps its promise. */
  ghost predicate IsTopKFunction(topk: (seq<Score>, nat) -> seq<nat>) {
    forall scores: seq<Score>, k: nat :: k <= |scores| ==> IsTopK(scores, k, topk(scores, k))
  }

  /** The first best index at or after i that is not taken yet. */
  function BestLeft(scores: seq<Score>, taken: seq<nat>, i: nat): (best: nat)
    requires i <= |scores| && exists x: nat :: i <= x < |scores| && x !in taken
    ensures best < |scores| && best !in taken
    ensures forall x: nat :: i <= x < |scores| && x !in taken ==> AtMost(scores[x], scores[best])
    decreases |scores| - i
  {
    if i in taken then BestLeft(scores, taken, i + 1)
    else if forall x :: i < x < |scores| ==> x in taken then i
    else
      var rest := BestLeft(scores, taken, i + 1);
      if AtMost(scores[rest], scores[i]) then i else rest
  }

  lemma SomeLeft(scores: seq<Score>, taken: seq<nat>)
    requires |taken| < |scores|
    ensures exists x: nat :: 0 <= x < |scores| && x !in taken
  {
    if forall x: nat :: x < |scores| ==> x in taken { Pigeons(taken, |scores|); }
  }

  /** Such a function exists: picking the best one left, k times. */
  function PickBest(scores: seq<Score>, k: nat): (picks: seq<nat>)
    ensures k <= |scores| ==> IsTopK(scores, k, picks)
  {
    if k == 0 || k > |scores| then []
    else
      var taken := PickBest(scores, k - 1);
      SomeLeft(scores, taken);
      taken + [BestLeft(scores, taken, 0)]
  }

  predicate AllFinite(scores: seq<Score>) {
    forall b :: 0 <= b < |scores| ==> scores[b].Fin?
  }

  /** indexer_select_prefill for one query. */
  function PrefillPicks(topk: (seq<Score>, nat) -> seq<nat>, scores: seq<Score>, pos: nat, ratio: nat, k: nat): seq<int>
    requires ratio > 0
  {
    Sentinels(topk(Masked(scores, Pools(pos, ratio)), Min(k, |scores|)), Pools(pos, ratio), 0)
  }

  lemma PrefillSelects(topk: (seq<Score>, nat) -> seq<nat>, scores: seq<Score>, pos: nat, ratio: nat, k: nat)
    requires IsTopKFunction(topk) && ratio > 0 && AllFinite(scores) && Pools(pos, ratio) <= |scores|
    ensures Selects(scores, Pools(pos, ratio), Min(k, |scores|), PrefillPicks(topk, scores, pos, ratio, k))
  {
    hide Selects, IsTopK, LiveBelow, Pools;
    var live := Pools(pos, ratio);
    MaskedIsLive(scores, live);
    TopKSelects(Masked(scores, live), live, Min(k, |scores|), topk(Masked(scores, live), Min(k, |scores|)));
    MaskDoesNotShow(scores, live, Min(k, |scores|), PrefillPicks(topk, scores, pos, ratio, k));
  }

  /** The mask changes no live score, so what is best under it is best. */
  lemma MaskDoesNotShow(scores: seq<Score>, live: nat, k: nat, picks: seq<int>)
    ensures Selects(Masked(scores, live), live, k, picks) <==> Selects(scores, live, k, picks)
  {
    var m := Masked(scores, live);
    assert live <= |scores| ==> forall b: nat :: b < live ==> m[b] == scores[b];
  }

  /** What one query of a request of |rows| tokens gets: the tail alone while there is no complete pool. */
  function PickWidth(selectK: nat, pools: nat): nat {
    Min(selectK, if pools == 0 then 1 else pools)
  }

  function QueryPicks(topk: (seq<Score>, nat) -> seq<nat>, scores: seq<Score>, pos: nat, kp: nat, selectK: nat): seq<int>
    requires kp > 0
  {
    if |scores| == 0 then seq(PickWidth(selectK, 0), _ => -1) else PrefillPicks(topk, scores, pos, kp, selectK)
  }

  lemma QuerySelects(topk: (seq<Score>, nat) -> seq<nat>, scores: seq<Score>, pos: nat, kp: nat, selectK: nat)
    requires IsTopKFunction(topk) && kp > 0 && AllFinite(scores) && Pools(pos, kp) <= |scores|
    ensures Selects(scores, Pools(pos, kp), PickWidth(selectK, |scores|), QueryPicks(topk, scores, pos, kp, selectK))
  {
    if |scores| > 0 { PrefillSelects(topk, scores, pos, kp, selectK); }
  }

  lemma PoolsMonotone(pos: nat, len: nat, kp: nat)
    requires kp > 0 && pos < len
    ensures Pools(pos, kp) <= len / kp
  {
    PoolBounds(pos, kp);
    var n, m := Pools(pos, kp), len / kp;
    assert len == m * kp + len % kp;
    Mul(m + 1, n, kp);
    assert (m + 1) * kp == m * kp + kp;
  }

  /** The rows and the count of one prefill query, in terms of its positions. */
  ghost predicate QueryResult(topk: (seq<Score>, nat) -> seq<nat>, scores: seq<Score>, rows: seq<int>, pos: nat,
                              kp: nat, selectK: nat, sel: seq<int>, cnt: nat)
    requires kp > 0
  {
    var where := Positions(kp, QueryPicks(topk, scores, pos, kp, selectK), pos);
    && |sel| == |where| && cnt == CountFor(kp, PickWidth(selectK, |scores|), pos)
    && forall i :: 0 <= i < |sel| ==> where[i] < |rows| && sel[i] == if where[i] < 0 then -1 else rows[where[i]]
  }

  const CHUNK: nat := 512

  /** _select_prefill: the queries of one request, scored and expanded a chunk at a time into two buffers.
      `scores` are the logits of each query against the |rows| / kp complete pools. */
  method SelectPrefill(topk: (seq<Score>, nat) -> seq<nat>, scores: seq<seq<Score>>, rows: seq<int>, startPos: nat,
                       kp: nat, selectK: nat) returns (sel: array<seq<int>>, cnt: array<nat>)
    requires IsTopKFunction(topk) && kp > 0 && startPos + |scores| <= |rows|
    requires forall q :: 0 <= q < |scores| ==> |scores[q]| == |rows| / kp && AllFinite(scores[q])
    ensures fresh(sel) && fresh(cnt) && sel.Length == cnt.Length == |scores|
    ensures forall q :: 0 <= q < |scores| ==>
              QueryResult(topk, scores[q], rows, startPos + q, kp, selectK, sel[q], cnt[q])
    ensures forall q :: 0 <= q < |scores| ==> AttendsBest(scores[q], kp, startPos + q, selectK, rows, sel[q])
    ensures forall q :: 0 <= q < |scores| ==>
              |sel[q]| == (kp - 1) + (if |rows| < kp then Min(selectK, 1) else Min(selectK, |rows| / kp)) * kp
  {
    hide IsTopKFunction, AllFinite, QueryResult, AttendsBest;
    var m := |scores|;
    sel, cnt := new seq<int>[m], new nat[m];
    var s0 := 0;
    while s0 < m
      invariant 0 <= s0 <= m
      invariant forall q :: 0 <= q < s0 ==> QueryResult(topk, scores[q], rows, startPos + q, kp, selectK, sel[q], cnt[q])
    {
      var s1 := Min(s0 + CHUNK, m);
      for q := s0 to s1
        invariant forall r :: 0 <= r < q ==> QueryResult(topk, scores[r], rows, startPos + r, kp, selectK, sel[r], cnt[r])
      {
        QueryFits(topk, scores[q], rows, startPos + q, kp, selectK);
        var picks := QueryPicks(topk, scores[q], startPos + q, kp, selectK);
        sel[q] := RowsOf(Positions(kp, picks, startPos + q), rows);
        cnt[q] := CountFor(kp, PickWidth(selectK, |scores[q]|), startPos + q);
      }
      s0 := s1;
    }
    forall q | 0 <= q < |scores| ensures AttendsBest(scores[q], kp, startPos + q, selectK, rows, sel[q]) {
      QueryAttendsBest(topk, scores[q], rows, startPos + q, kp, selectK, sel[q], cnt[q]);
    }
    forall q | 0 <= q < |scores|
      ensures |sel[q]| == (kp - 1) + (if |rows| < kp then Min(selectK, 1) else Min(selectK, |rows| / kp)) * kp
    {
      QueryWidth(topk, scores[q], rows, startPos + q, kp, selectK, sel[q], cnt[q]);
    }
  }

  /** Every query of a request gets the same number of entries: those of one pool while there is none. */
  lemma QueryWidth(topk: (seq<Score>, nat) -> seq<nat>, scores: seq<Score>, rows: seq<int>, pos: nat, kp: nat,
                   selectK: nat, sel: seq<int>, cnt: nat)
    requires IsTopKFunction(topk) && kp > 0 && pos < |rows| && |scores| == |rows| / kp && AllFinite(scores)
    requires QueryResult(topk, scores, rows, pos, kp, selectK, sel, cnt)
    ensures |sel| == (kp - 1) + (if |rows| < kp then Min(selectK, 1) else Min(selectK, |rows| / kp)) * kp
  {
    hide IsTopKFunction, AllFinite, Positions, QueryPicks, CountFor;
    PoolsMonotone(pos, |rows|, kp);
    QuerySelects(topk, scores, pos, kp, selectK);
    NoPools(|rows|, kp);
  }

  lemma NoPools(n: nat, kp: nat)
    requires kp > 0
    ensures n / kp == 0 <==> n < kp
  {
    Parts(n, kp);
    if n / kp > 0 { Multiples(n / kp, kp); }
  }

  /** What a query gets is rows of the best complete pools by its own scores, and of its tail. */
  lemma QueryAttendsBest(topk: (seq<Score>, nat) -> seq<nat>, scores: seq<Score>, rows: seq<int>, pos: nat, kp: nat,
                         selectK: nat, sel: seq<int>, cnt: nat)
    requires IsTopKFunction(topk) && kp > 0 && pos < |rows| && |scores| == |rows| / kp && AllFinite(scores)
    requires QueryResult(topk, scores, rows, pos, kp, selectK, sel, cnt)
    ensures AttendsBest(scores, kp, pos, selectK, rows, sel)
  {
    hide IsTopKFunction, AllFinite, Selects, Positions, QueryPicks, CountFor, ReadsBest, AttendsBest;
    PoolsMonotone(pos, |rows|, kp);
    QuerySelects(topk, scores, pos, kp, selectK);
    var picks := QueryPicks(topk, scores, pos, kp, selectK);
    SelectionReadsBest(scores, kp, PickWidth(selectK, |scores|), picks, pos);
    ReadsBestWithin(scores, kp, pos, selectK, PickWidth(selectK, |scores|), Positions(kp, picks, pos));
    RowsOfBest(scores, kp, pos, selectK, rows, Positions(kp, picks, pos), sel);
  }

  lemma QueryFits(topk: (seq<Score>, nat) -> seq<nat>, scores: seq<Score>, rows: seq<int>, pos: nat, kp: nat, selectK: nat)
    requires IsTopKFunction(topk) && kp > 0 && pos < |rows| && |scores| == |rows| / kp && AllFinite(scores)
    ensures var where := Positions(kp, QueryPicks(topk, scores, pos, kp, selectK), pos);
      && (forall i :: 0 <= i < |where| ==> where[i] < |rows|)
      && QueryResult(topk, scores, rows, pos, kp, selectK, RowsOf(where, rows),
                     CountFor(kp, PickWidth(selectK, |scores|), pos))
  {
    hide IsTopKFunction, AllFinite, Selects, Positions, QueryPicks, CountFor;
    PoolsMonotone(pos, |rows|, kp);
    QuerySelects(topk, scores, pos, kp, selectK);
    SelectedPositions(scores, kp, PickWidth(selectK, |scores|), QueryPicks(topk, scores, pos, kp, selectK), pos);
  }

  /** A prefill query attends to distinct rows of its own past, none from the count on; and when the complete
      pools at it are no more than the pick width, to every position up to its own: sparse is dense. */
  lemma PrefillAttends(topk: (seq<Score>, nat) -> seq<nat>, scores: seq<Score>, rows: seq<int>, pos: nat,
                       kp: nat, selectK: nat, sel: seq<int>, cnt: nat)
    requires IsTopKFunction(topk) && kp > 0 && pos < |rows| && |scores| == |rows| / kp && AllFinite(scores)
    requires QueryResult(topk, scores, rows, pos, kp, selectK, sel, cnt)
    requires (forall p :: 0 <= p < |rows| ==> rows[p] >= 0) && forall p, q :: 0 <= p < q < |rows| ==> rows[p] != rows[q]
    ensures forall i, j :: 0 <= i < j < |sel| && sel[i] >= 0 ==> sel[i] != sel[j]
    ensures forall i :: cnt <= i < |sel| ==> sel[i] == -1
    ensures kp - 1 <= cnt <= |sel| && (cnt == kp - 1 <==> selectK == 0 || (pos + 1) / kp == 0)
    ensures cnt > kp - 1 ==> sel[cnt - 1] >= 0
    ensures forall i :: 0 <= i < |sel| && sel[i] >= 0 ==> sel[i] in rows[..pos + 1]
    ensures AttendsBest(scores, kp, pos, selectK, rows, sel)
    ensures Pools(pos, kp) <= selectK ==> forall p: nat :: p <= pos ==> rows[p] in sel
  {
    hide IsTopKFunction, AllFinite, Selects, Positions, QueryPicks, CountFor, AttendsBest;
    QueryAttendsBest(topk, scores, rows, pos, kp, selectK, sel, cnt);
    PoolsMonotone(pos, |rows|, kp);
    QuerySelects(topk, scores, pos, kp, selectK);
    CountIsTight(scores, kp, PickWidth(selectK, |scores|), QueryPicks(topk, scores, pos, kp, selectK), pos);
    var where := Positions(kp, QueryPicks(topk, scores, pos, kp, selectK), pos);
    SelectedPositions(scores, kp, PickWidth(selectK, |scores|), QueryPicks(topk, scores, pos, kp, selectK), pos);
    forall i | 0 <= i < |sel| && sel[i] >= 0 ensures sel[i] in rows[..pos + 1] {
      assert rows[..pos + 1][where[i]] == sel[i];
    }
    if Pools(pos, kp) <= selectK {
      forall p: nat | p <= pos ensures rows[p] in sel {
        assert p in where;
        var i: nat :| i < |where| && where[i] == p;
        assert sel[i] == rows[p];
      }
    }
  }

  /** A decode step: one query, the last position, scores masked by the kernel over a staged width. */
  lemma DecodeSelects(topk: (seq<Score>, nat) -> seq<nat>, scores: seq<Score>, kvLen: nat, kp: nat, selectK: nat)
    requires IsTopKFunction(topk) && kp > 0 && kvLen > 0 && kvLen / kp <= |scores| && LiveBelow(scores, kvLen / kp)
    ensures Pools(kvLen - 1, kp) == kvLen / kp
    ensures Selects(scores, kvLen / kp, Min(selectK, |scores|),
                    Sentinels(topk(scores, Min(selectK, |scores|)), kvLen / kp, 0))
  {
    hide Selects, IsTopK, LiveBelow;
    TopKSelects(scores, kvLen / kp, Min(selectK, |scores|), topk(scores, Min(selectK, |scores|)));
  }

  /** A decode step attends to distinct positions of the request, none from the count on; with at most
      selectK complete pools, to all of them. */
  lemma DecodeAttends(topk: (seq<Score>, nat) -> seq<nat>, scores: seq<Score>, kvLen: nat, kp: nat, selectK: nat)
    requires IsTopKFunction(topk) && kp > 0 && kvLen > 0 && kvLen / kp <= |scores| && LiveBelow(scores, kvLen / kp)
    ensures var k := Min(selectK, |scores|);
            var pos := Positions(kp, Sentinels(topk(scores, k), kvLen / kp, 0), kvLen - 1);
      && (forall i, j :: 0 <= i < j < |pos| && pos[i] >= 0 ==> pos[i] != pos[j])
      && (forall i :: CountFor(kp, k, kvLen - 1) <= i < |pos| ==> pos[i] == -1)
      && (forall i :: 0 <= i < |pos| ==> pos[i] < kvLen)
      && ReadsBest(scores, kp, kvLen - 1, selectK, pos)
      && (kvLen / kp <= selectK ==> forall p: nat :: p in pos <==> p < kvLen)
  {
    hide Positions, CountFor, Selects, IsTopKFunction, LiveBelow, Sentinels, ReadsBest;
    var k := Min(selectK, |scores|);
    DecodeSelects(topk, scores, kvLen, kp, selectK);
    SelectedPositions(scores, kp, k, Sentinels(topk(scores, k), kvLen / kp, 0), kvLen - 1);
    SelectionReadsBest(scores, kp, k, Sentinels(topk(scores, k), kvLen / kp, 0), kvLen - 1);
    ReadsBestWithin(scores, kp, kvLen - 1, selectK, k, Positions(kp, Sentinels(topk(scores, k), kvLen / kp, 0), kvLen - 1));
  }

  // ---- the QSA backend ----

  /** masked_fill_ of the columns that are not visible. */
  method MaskInPlace(logits: array<Score>, visible: nat)
    modifies logits
    ensures logits[..] == Masked(old(logits[..]), visible)
    ensures forall b :: 0 <= b < logits.Length ==> logits[b] == if b >= visible then NegInf else old(logits[b])
  {
    for c := 0 to logits.Length
      invariant forall b :: 0 <= b < c ==> logits[b] == if b >= visible then NegInf else old(logits[b])
      invariant forall b :: c <= b < logits.Length ==> logits[b] == old(logits[b])
    {
      if c >= visible { logits[c] := NegInf; }
    }
  }

  /** The chosen columns that have a score, and -1 for the rest. */
  method FillBlocks(values: seq<Score>, chosen: seq<nat>, blocks: array<int>)
    requires |chosen| <= blocks.Length && forall i :: 0 <= i < |chosen| ==> chosen[i] < |values|
    modifies blocks
    ensures forall j :: 0 <= j < |chosen| ==> blocks[j] == if values[chosen[j]].Fin? then chosen[j] else -1
    ensures forall j :: |chosen| <= j < blocks.Length ==> blocks[j] == -1
  {
    for i := 0 to blocks.Length
      invariant forall j :: 0 <= j < i && j < |chosen| ==> blocks[j] == if values[chosen[j]].Fin? then chosen[j] else -1
      invariant forall j :: |chosen| <= j < i ==> blocks[j] == -1
    {
      blocks[i] := if i < |chosen| && values[chosen[i]].Fin? then chosen[i] else -1;
    }
  }

  /** _top_blocks without the Triton kernel. */
  method TopBlocks(topk: (seq<Score>, nat) -> seq<nat>, logits: array<Score>, visible: nat, blocks: array<int>)
    requires IsTopKFunction(topk) && visible <= logits.Length
    requires forall b :: 0 <= b < visible ==> logits[b].Fin?
    modifies logits, blocks
    ensures logits[..] == Masked(old(logits[..]), visible)
    ensures Selects(old(logits[..]), visible, blocks.Length, blocks[..])
  {
    ghost var raw := logits[..];
    MaskInPlace(logits, visible);
    var width := Min(blocks.Length, logits.Length);
    ghost var masked := logits[..];
    assert LiveBelow(masked, visible);
    var chosen := topk(logits[..], width);
    assert IsTopK(masked, width, chosen);
    FillBlocks(logits[..], chosen, blocks);
    assert logits[..] == masked;
    BlocksSelect(masked, visible, width, chosen, blocks[..]);
    MaskDoesNotShow(raw, visible, blocks.Length, blocks[..]);
  }

  lemma BlocksSelect(logits: seq<Score>, visible: nat, width: nat, chosen: seq<nat>, blocks: seq<int>)
    requires LiveBelow(logits, visible) && visible <= |logits| && width == Min(|blocks|, |logits|)
    requires IsTopK(logits, width, chosen)
    requires forall j :: 0 <= j < width ==> blocks[j] == if logits[chosen[j]].Fin? then chosen[j] else -1
    requires forall j :: width <= j < |blocks| ==> blocks[j] == -1
    ensures Selects(logits, visible, |blocks|, blocks)
  {
    TopKSelects(logits, visible, width, chosen);
    var s := Sentinels(chosen, visible, 0);
    assert forall j :: 0 <= j < width ==> blocks[j] == s[j];
    forall b | b in s ensures b in blocks {
      var j: nat :| j < |s| && s[j] == b;
      assert blocks[j] == b;
    }
  }

  /** expand_qsa_block_indices, column i of a row: the picked blocks' tokens, then the tail, packed. */
  function ExpandedAt(ratio: nat, blocks: seq<int>, pos: nat, seqLen: nat, i: nat): int
    requires ratio > 0 && i < |blocks| * ratio + (ratio - 1)
  {
    var complete := Min(Min(Pools(pos, ratio), seqLen / ratio), |blocks|);
    var tailStart := Pools(pos, ratio) * ratio;
    var token := if i < complete * ratio then
                   InPick(i, complete, ratio);
                   blocks[i / ratio] * ratio + i % ratio
                 else tailStart + (i - complete * ratio);
    var isTail := i >= complete * ratio && i - complete * ratio < pos + 1 - tailStart;
    if (i < complete * ratio || isTail) && 0 <= token < seqLen then token else -1
  }

  function Packed(ratio: nat, k: nat, pos: nat): nat
    requires ratio > 0
  {
    PoolBounds(pos, ratio);
    Min(Pools(pos, ratio), k) * ratio + (pos + 1 - Pools(pos, ratio) * ratio)
  }

  /** Which entry of the unpacked layout column i is. */
  function Unpacked(ratio: nat, k: nat, pos: nat, i: nat): int
    requires ratio > 0
  {
    var full := Min(Pools(pos, ratio), k) * ratio;
    if i < full then (ratio - 1) + i else i - full
  }

  lemma UnpackedInRange(ratio: nat, k: nat, pos: nat, i: nat)
    requires ratio > 0 && i < Packed(ratio, k, pos)
    ensures 0 <= Unpacked(ratio, k, pos, i) < (ratio - 1) + k * ratio
  {
    hide Pools;
    PoolBounds(pos, ratio);
    Mul(Min(Pools(pos, ratio), k), k, ratio);
    Mul(0, k, ratio);
  }

  /** Packing leaves out exactly the empty entries: below the packed length each column is its entry of the
      unpacked layout, and from there on all are -1. */
  lemma ExpandedIsPacked(scores: seq<Score>, ratio: nat, blocks: seq<int>, pos: nat, seqLen: nat, i: nat)
    requires ratio > 0 && pos < seqLen && Selects(scores, Pools(pos, ratio), |blocks|, blocks)
    requires i < |blocks| * ratio + (ratio - 1)
    ensures i >= Packed(ratio, |blocks|, pos) ==> ExpandedAt(ratio, blocks, pos, seqLen, i) == -1
    ensures i < Packed(ratio, |blocks|, pos) ==>
              && 0 <= Unpacked(ratio, |blocks|, pos, i) < (ratio - 1) + |blocks| * ratio
              && ExpandedAt(ratio, blocks, pos, seqLen, i) >= 0
              && ExpandedAt(ratio, blocks, pos, seqLen, i) ==
                 PositionAt(ratio, blocks, pos, Unpacked(ratio, |blocks|, pos, i))
  {
    hide Pools, PositionAt;
    var n := Pools(pos, ratio);
    var cut := Min(n, |blocks|);
    PoolBounds(pos, ratio);
    PoolsMonotone(pos, seqLen, ratio);
    Mul(0, cut, ratio);
    if i < Packed(ratio, |blocks|, pos) {
      UnpackedInRange(ratio, |blocks|, pos, i);
      var j, o := EntryIs(ratio, blocks, pos, Unpacked(ratio, |blocks|, pos, i));
      if i < cut * ratio {
        InPick(i, cut, ratio);
        Split(j, o, ratio);
        PickBelowTail(n, ratio, blocks[j], o);
      }
    }
  }

  /** The token indices of one QSA row. */
  function Expanded(ratio: nat, blocks: seq<int>, pos: nat, seqLen: nat): (out: seq<int>)
    requires ratio > 0
    ensures |out| == |blocks| * ratio + (ratio - 1)
  {
    assert |blocks| * ratio >= 0;
    seq(|blocks| * ratio + (ratio - 1),
        i requires 0 <= i < |blocks| * ratio + (ratio - 1) => ExpandedAt(ratio, blocks, pos, seqLen, i))
  }

  /** A QSA query attends to distinct tokens up to its own position, packed to the left, every wanted one and
      no other; when the budget covers the complete blocks they are all there are: sparse is dense. */
  lemma QsaAttends(scores: seq<Score>, ratio: nat, blocks: seq<int>, pos: nat, seqLen: nat)
    requires ratio > 0 && pos < seqLen && Selects(scores, Pools(pos, ratio), |blocks|, blocks)
    ensures var out := Expanded(ratio, blocks, pos, seqLen);
      && (forall i :: 0 <= i < |out| ==> (out[i] >= 0 <==> i < Packed(ratio, |blocks|, pos)) && -1 <= out[i] <= pos)
      && (forall i, j :: 0 <= i < j < |out| && out[i] >= 0 ==> out[i] != out[j])
      && (forall p: nat :: p in out <==> Wanted(ratio, blocks, pos, p))
      && ReadsBest(scores, ratio, pos, |blocks|, out)
      && (Pools(pos, ratio) <= |blocks| ==> forall p: nat :: p in out <==> p <= pos)
  {
    hide Pools, PositionAt, ExpandedAt, Selects, Wanted, Packed, Unpacked, ReadsBest;
    var out := Expanded(ratio, blocks, pos, seqLen);
    SelectedPositions(scores, ratio, |blocks|, blocks, pos);
    forall i | 0 <= i < |out|
      ensures (out[i] >= 0 <==> i < Packed(ratio, |blocks|, pos)) && -1 <= out[i] <= pos
    {
      ExpandedIsPacked(scores, ratio, blocks, pos, seqLen, i);
      if i < Packed(ratio, |blocks|, pos) {
        assert out[i] == Positions(ratio, blocks, pos)[Unpacked(ratio, |blocks|, pos, i)];
      }
    }
    forall i, j | 0 <= i < j < |out| && out[i] >= 0 ensures out[i] != out[j] {
      PackedDiffer(scores, ratio, blocks, pos, seqLen, i, j);
    }
    forall p: nat ensures p in out <==> Wanted(ratio, blocks, pos, p) {
      PackedHas(scores, ratio, blocks, pos, seqLen, p);
    }
    QsaReadsBest(scores, ratio, blocks, pos, out);
    if Pools(pos, ratio) <= |blocks| {
      forall p: nat ensures p in out <==> p <= pos { WantedAll(scores, ratio, |blocks|, blocks, pos, p); }
    }
  }

  lemma QsaReadsBest(scores: seq<Score>, ratio: nat, blocks: seq<int>, pos: nat, out: seq<int>)
    requires ratio > 0 && Selects(scores, Pools(pos, ratio), |blocks|, blocks)
    requires forall p: nat :: p in out <==> Wanted(ratio, blocks, pos, p)
    ensures ReadsBest(scores, ratio, pos, |blocks|, out)
  {
    hide Selects, BestBlocks, Read, Wanted;
    var best := PicksAreBest(scores, Pools(pos, ratio), |blocks|, blocks);
    forall p: nat ensures p in out <==> Read(best, ratio, pos, p) { WantedIsRead(ratio, blocks, pos, best, p); }
    assert ReadsThese(scores, ratio, pos, |blocks|, out, best);
  }

  lemma PackedDiffer(scores: seq<Score>, ratio: nat, blocks: seq<int>, pos: nat, seqLen: nat, i: nat, j: nat)
    requires ratio > 0 && pos < seqLen && Selects(scores, Pools(pos, ratio), |blocks|, blocks)
    requires i < j < |blocks| * ratio + (ratio - 1) && ExpandedAt(ratio, blocks, pos, seqLen, i) >= 0
    ensures ExpandedAt(ratio, blocks, pos, seqLen, i) != ExpandedAt(ratio, blocks, pos, seqLen, j)
  {
    hide Pools, PositionAt, ExpandedAt, Selects;
    ExpandedIsPacked(scores, ratio, blocks, pos, seqLen, i);
    ExpandedIsPacked(scores, ratio, blocks, pos, seqLen, j);
    if j < Packed(ratio, |blocks|, pos) {
      var x, y := Unpacked(ratio, |blocks|, pos, i), Unpacked(ratio, |blocks|, pos, j);
      PoolBounds(pos, ratio);
      if x < y { EntriesDiffer(scores, ratio, |blocks|, blocks, pos, x, y); }
      else { EntriesDiffer(scores, ratio, |blocks|, blocks, pos, y, x); }
    }
  }

  /** Each wanted token has its column: a picked block's at its rank, a tail token behind them. */
  lemma PackedHas(scores: seq<Score>, ratio: nat, blocks: seq<int>, pos: nat, seqLen: nat, p: nat)
    requires ratio > 0 && pos < seqLen && Selects(scores, Pools(pos, ratio), |blocks|, blocks)
    ensures p in Expanded(ratio, blocks, pos, seqLen) <==> Wanted(ratio, blocks, pos, p)
  {
    hide Pools, PositionAt, ExpandedAt, Wanted, Unpacked, Packed, Selects;
    var out, where := Expanded(ratio, blocks, pos, seqLen), Positions(ratio, blocks, pos);
    SelectedPositions(scores, ratio, |blocks|, blocks, pos);
    if p in out {
      var i: nat :| i < |out| && out[i] == p;
      ExpandedIsPacked(scores, ratio, blocks, pos, seqLen, i);
      assert where[Unpacked(ratio, |blocks|, pos, i)] == p;
    }
    if p in where {
      var x: nat :| x < |where| && where[x] == p;
      var i := Repacked(scores, ratio, blocks, pos, x);
      ExpandedIsPacked(scores, ratio, blocks, pos, seqLen, i);
      assert out[i] == p;
    }
  }

  /** The column of an entry that is not empty. */
  lemma Repacked(scores: seq<Score>, ratio: nat, blocks: seq<int>, pos: nat, x: nat) returns (i: nat)
    requires ratio > 0 && Selects(scores, Pools(pos, ratio), |blocks|, blocks)
    requires x < (ratio - 1) + |blocks| * ratio && PositionAt(ratio, blocks, pos, x) >= 0
    ensures i < Packed(ratio, |blocks|, pos) && i < |blocks| * ratio + (ratio - 1)
    ensures Unpacked(ratio, |blocks|, pos, i) == x
  {
    hide Pools, PositionAt;
    var cut := Min(Pools(pos, ratio), |blocks|);
    PoolBounds(pos, ratio);
    Mul(cut, |blocks|, ratio);
    Mul(0, cut, ratio);
    var j, o := EntryIs(ratio, blocks, pos, x);
    if x >= ratio - 1 {
      Mul(j, cut, ratio);
      i := x - (ratio - 1);
    } else {
      i := cut * ratio + x;
    }
  }
}
