// What compacting one shard means: every byte position of the region moves to
// NewOff(position), its rank among the bytes that stay.
module Compaction {
  import opened FtwFormat

  // ---- live bytes ----

  predicate Covers(e: Entry, p: nat) {
    e.globalOff <= p < e.BlockEnd()
  }

  /** Some entry's padded block owns byte p. */
  predicate Live(tensors: seq<Entry>, p: nat) {
    exists i :: 0 <= i < |tensors| && Covers(tensors[i], p)
  }

  function CountLive(tensors: seq<Entry>, lo: nat, hi: nat): (n: nat)
    ensures lo <= hi ==> n <= hi - lo
    decreases hi
  {
    if hi <= lo then 0
    else CountLive(tensors, lo, hi - 1) + (if Live(tensors, hi - 1) then 1 else 0)
  }

  lemma {:induction false} CountSplit(tensors: seq<Entry>, lo: nat, mid: nat, hi: nat)
    requires lo <= mid <= hi
    ensures CountLive(tensors, lo, hi) == CountLive(tensors, lo, mid) + CountLive(tensors, mid, hi)
    decreases hi
  {
    if mid < hi {
      CountSplit(tensors, lo, mid, hi - 1);
    }
  }

  lemma {:induction false} CountAll(tensors: seq<Entry>, lo: nat, hi: nat)
    requires lo <= hi && forall p :: lo <= p < hi ==> Live(tensors, p)
    ensures CountLive(tensors, lo, hi) == hi - lo
    decreases hi
  {
    if lo < hi {
      CountAll(tensors, lo, hi - 1);
    }
  }

  lemma {:induction false} CountNone(tensors: seq<Entry>, lo: nat, hi: nat)
    requires lo <= hi && forall p :: lo <= p < hi ==> !Live(tensors, p)
    ensures CountLive(tensors, lo, hi) == 0
    decreases hi
  {
    if lo < hi {
      CountNone(tensors, lo, hi - 1);
    }
  }

  /** A full count means no dead byte. */
  lemma {:induction false} FullCount(tensors: seq<Entry>, lo: nat, hi: nat)
    requires lo <= hi && CountLive(tensors, lo, hi) == hi - lo
    ensures forall p :: lo <= p < hi ==> Live(tensors, p)
    decreases hi
  {
    if lo < hi {
      FullCount(tensors, lo, hi - 1);
    }
  }

  // ---- the position map ----

  /** Where byte p of the region goes when shard [s0, s1) loses its dead bytes. */
  function NewOff(tensors: seq<Entry>, s0: nat, s1: nat, p: nat): nat
    requires s0 <= s1
  {
    if p < s0 then p
    else if p < s1 then s0 + CountLive(tensors, s0, p)
    else p - ((s1 - s0) - CountLive(tensors, s0, s1))
  }

  function Moved(tensors: seq<Entry>, s0: nat, s1: nat): (r: seq<Entry>)
    requires s0 <= s1
  {
    seq(|tensors|, i requires 0 <= i < |tensors| =>
      tensors[i].(globalOff := NewOff(tensors, s0, s1, tensors[i].globalOff)))
  }

  lemma NewOffOutside(tensors: seq<Entry>, s0: nat, s1: nat, p: nat)
    requires s0 <= s1
    ensures p <= s0 ==> NewOff(tensors, s0, s1, p) == p
    ensures s1 <= p ==> NewOff(tensors, s0, s1, p) == p - ((s1 - s0) - CountLive(tensors, s0, s1))
  {
  }

  lemma NewOffStep(tensors: seq<Entry>, s0: nat, s1: nat, p: nat)
    requires s0 <= s1
    ensures NewOff(tensors, s0, s1, p + 1) ==
            NewOff(tensors, s0, s1, p) + (if s0 <= p < s1 && !Live(tensors, p) then 0 else 1)
  {
  }

  lemma {:induction false} NewOffMonotone(tensors: seq<Entry>, s0: nat, s1: nat, p: nat, q: nat)
    requires s0 <= s1 && p <= q
    ensures NewOff(tensors, s0, s1, p) <= NewOff(tensors, s0, s1, q)
    decreases q
  {
    if p < q {
      NewOffMonotone(tensors, s0, s1, p, q - 1);
      NewOffStep(tensors, s0, s1, q - 1);
    }
  }

  /** No two bytes that stay share a new position. */
  lemma NewOffInjective(tensors: seq<Entry>, s0: nat, s1: nat, p: nat, q: nat)
    requires s0 <= s1 && p < q
    requires Live(tensors, p) || !(s0 <= p < s1)
    ensures NewOff(tensors, s0, s1, p) < NewOff(tensors, s0, s1, q)
  {
    NewOffStep(tensors, s0, s1, p);
    NewOffMonotone(tensors, s0, s1, p + 1, q);
  }

  /** An entry's block moves as one piece. */
  lemma {:induction false} BlockMoves(tensors: seq<Entry>, s0: nat, s1: nat, e: Entry, p: nat)
    requires s0 <= s1 && e in tensors && e.globalOff <= p <= e.BlockEnd()
    ensures NewOff(tensors, s0, s1, p) == NewOff(tensors, s0, s1, e.globalOff) + (p - e.globalOff)
    decreases p
  {
    if e.globalOff < p {
      BlockMoves(tensors, s0, s1, e, p - 1);
      assert Covers(e, p - 1);
      NewOffStep(tensors, s0, s1, p - 1);
    }
  }

  // ---- liveness after the move ----

  lemma LiveMoves(tensors: seq<Entry>, s0: nat, s1: nat, p: nat)
    requires s0 <= s1 && Live(tensors, p)
    ensures Live(Moved(tensors, s0, s1), NewOff(tensors, s0, s1, p))
  {
    var i :| 0 <= i < |tensors| && Covers(tensors[i], p);
    BlockMoves(tensors, s0, s1, tensors[i], p);
    assert Covers(Moved(tensors, s0, s1)[i], NewOff(tensors, s0, s1, p));
  }

  lemma LiveComesFrom(tensors: seq<Entry>, s0: nat, s1: nat, q: nat) returns (p: nat)
    requires s0 <= s1 && Live(Moved(tensors, s0, s1), q)
    ensures Live(tensors, p) && NewOff(tensors, s0, s1, p) == q
  {
    var i :| 0 <= i < |tensors| && Covers(Moved(tensors, s0, s1)[i], q);
    p := tensors[i].globalOff + (q - Moved(tensors, s0, s1)[i].globalOff);
    assert Covers(tensors[i], p);
    BlockMoves(tensors, s0, s1, tensors[i], p);
  }

  lemma LiveIffMoved(tensors: seq<Entry>, s0: nat, s1: nat, p: nat)
    requires s0 <= s1
    requires Live(tensors, p) || !(s0 <= p < s1)
    ensures Live(Moved(tensors, s0, s1), NewOff(tensors, s0, s1, p)) <==> Live(tensors, p)
  {
    if Live(tensors, p) {
      LiveMoves(tensors, s0, s1, p);
    }
    if Live(Moved(tensors, s0, s1), NewOff(tensors, s0, s1, p)) {
      var p' := LiveComesFrom(tensors, s0, s1, NewOff(tensors, s0, s1, p));
      if p' < p { NewOffInjective(tensors, s0, s1, p', p); }
      if p < p' { NewOffInjective(tensors, s0, s1, p, p'); }
    }
  }

  lemma CountNext(tensors: seq<Entry>, lo: nat, p: nat)
    requires lo <= p
    ensures CountLive(tensors, lo, p + 1) == CountLive(tensors, lo, p) + (if Live(tensors, p) then 1 else 0)
  {
  }

  /** Any stretch of the region keeps its number of live bytes. */
  lemma {:induction false} CountMoves(tensors: seq<Entry>, s0: nat, s1: nat, lo: nat, hi: nat)
    requires s0 <= s1 && lo <= hi
    ensures CountLive(Moved(tensors, s0, s1), NewOff(tensors, s0, s1, lo), NewOff(tensors, s0, s1, hi))
         == CountLive(tensors, lo, hi)
    decreases hi
  {
    if lo < hi {
      var p := hi - 1;
      CountMoves(tensors, s0, s1, lo, p);
      NewOffStep(tensors, s0, s1, p);
      CountNext(tensors, lo, p);
      NewOffMonotone(tensors, s0, s1, lo, p);
      if Live(tensors, p) || !(s0 <= p < s1) {
        LiveIffMoved(tensors, s0, s1, p);
        CountNext(Moved(tensors, s0, s1), NewOff(tensors, s0, s1, lo), NewOff(tensors, s0, s1, p));
      }
    }
  }

  // ---- alignment ----

  /** Blocks start and end on ALIGN boundaries, so liveness is constant between two of them. */
  lemma LiveByBlock(tensors: seq<Entry>, lo: nat, p: nat, q: nat)
    requires forall e <- tensors :: Aligned(e.globalOff)
    requires Aligned(lo) && lo <= p < lo + ALIGN && lo <= q < lo + ALIGN && Live(tensors, p)
    ensures Live(tensors, q)
  {
    var i :| 0 <= i < |tensors| && Covers(tensors[i], p);
    assert tensors[i] in tensors;
    CoversByBlock(tensors[i], lo, p, q);
  }

  lemma CoversByBlock(e: Entry, lo: nat, p: nat, q: nat)
    requires Aligned(e.globalOff) && Aligned(lo)
    requires lo <= p < lo + ALIGN && lo <= q < lo + ALIGN && Covers(e, p)
    ensures Covers(e, q)
  {
    AlignedSum(e.globalOff, AlignUp(e.nbytes));
    AlignedOrder(e.globalOff, lo);
    AlignedOrder(lo, e.BlockEnd());
  }

  lemma AlignedOrder(x: nat, y: nat)
    requires Aligned(x) && Aligned(y)
    ensures x < y + ALIGN ==> x <= y
  {
  }

  lemma {:induction false} CountAligned(tensors: seq<Entry>, lo: nat, hi: nat)
    requires forall e <- tensors :: Aligned(e.globalOff)
    requires lo <= hi && Aligned(lo) && Aligned(hi)
    ensures Aligned(CountLive(tensors, lo, hi))
    decreases hi
  {
    hide Live;
    if lo < hi {
      var mid := hi - ALIGN;
      AlignedOrder(hi, lo);
      AlignedSum(ALIGN, mid);
      CountAligned(tensors, lo, mid);
      CountBlock(tensors, mid);
      CountSplit(tensors, lo, mid, hi);
      AlignedSum(CountLive(tensors, mid, hi), CountLive(tensors, lo, mid));
    }
  }

  lemma CountBlock(tensors: seq<Entry>, lo: nat)
    requires forall e <- tensors :: Aligned(e.globalOff)
    requires Aligned(lo)
    ensures Aligned(CountLive(tensors, lo, lo + ALIGN))
  {
    hide Live, CountLive;
    if Live(tensors, lo) {
      forall p | lo <= p < lo + ALIGN ensures Live(tensors, p) { LiveByBlock(tensors, lo, lo, p); }
      CountAll(tensors, lo, lo + ALIGN);
    } else {
      forall p | lo <= p < lo + ALIGN ensures !Live(tensors, p) {
        if Live(tensors, p) { LiveByBlock(tensors, lo, p, lo); }
      }
      CountNone(tensors, lo, lo + ALIGN);
    }
  }

  lemma NewOffAligned(tensors: seq<Entry>, s0: nat, s1: nat, p: nat)
    requires forall e <- tensors :: Aligned(e.globalOff)
    requires s0 <= s1 && Aligned(s0) && Aligned(s1) && Aligned(p)
    ensures Aligned(NewOff(tensors, s0, s1, p))
  {
    hide CountLive;
    if s0 <= p < s1 { CountAligned(tensors, s0, p); }
    CountAligned(tensors, s0, s1);
  }

  // ---- the moved entries are well placed ----

  lemma MovedWellPlaced(tensors: seq<Entry>, s0: nat, s1: nat, total: nat)
    requires WellPlaced(tensors, total)
    requires s0 <= s1 <= total && Aligned(s0) && Aligned(s1)
    ensures WellPlaced(Moved(tensors, s0, s1), NewOff(tensors, s0, s1, total))
  {
    hide NewOff, DisjointBlocks, Aligned;
    var moved := Moved(tensors, s0, s1);
    forall e' | e' in moved
      ensures Aligned(e'.globalOff) && e'.globalOff + e'.nbytes <= NewOff(tensors, s0, s1, total)
    {
      var i :| 0 <= i < |moved| && moved[i] == e';
      MovedEntry(tensors, s0, s1, total, tensors[i]);
    }
    MovedDisjoint(tensors, s0, s1);
  }

  lemma MovedEntry(tensors: seq<Entry>, s0: nat, s1: nat, total: nat, e: Entry)
    requires forall x <- tensors :: Aligned(x.globalOff)
    requires s0 <= s1 <= total && Aligned(s0) && Aligned(s1)
    requires e in tensors && e.globalOff + e.nbytes <= total
    ensures Aligned(NewOff(tensors, s0, s1, e.globalOff))
    ensures NewOff(tensors, s0, s1, e.globalOff) + e.nbytes <= NewOff(tensors, s0, s1, total)
  {
    hide NewOff, Aligned;
    NewOffAligned(tensors, s0, s1, e.globalOff);
    BlockMoves(tensors, s0, s1, e, e.globalOff + e.nbytes);
    NewOffMonotone(tensors, s0, s1, e.globalOff + e.nbytes, total);
  }

  lemma MovedDisjoint(tensors: seq<Entry>, s0: nat, s1: nat)
    requires DisjointBlocks(tensors) && s0 <= s1
    ensures DisjointBlocks(Moved(tensors, s0, s1))
  {
    hide NewOff;
    forall i, j | 0 <= i < j < |tensors|
      ensures Moved(tensors, s0, s1)[i].BlockEnd() <= Moved(tensors, s0, s1)[j].globalOff
           || Moved(tensors, s0, s1)[j].BlockEnd() <= Moved(tensors, s0, s1)[i].globalOff
    {
      var a, b := tensors[i], tensors[j];
      BlockMoves(tensors, s0, s1, a, a.BlockEnd());
      BlockMoves(tensors, s0, s1, b, b.BlockEnd());
      if a.BlockEnd() <= b.globalOff {
        NewOffMonotone(tensors, s0, s1, a.BlockEnd(), b.globalOff);
      } else {
        NewOffMonotone(tensors, s0, s1, b.BlockEnd(), a.globalOff);
      }
    }
  }

  // ---- the bytes ----

  /** The live bytes of region[lo..hi], in order. */
  ghost function Kept(region: Bytes, tensors: seq<Entry>, lo: nat, hi: nat): (r: Bytes)
    requires hi <= |region|
    ensures |r| == CountLive(tensors, lo, hi)
    decreases hi
  {
    if hi <= lo then []
    else Kept(region, tensors, lo, hi - 1) + (if Live(tensors, hi - 1) then [region[hi - 1]] else [])
  }

  lemma {:induction false} KeptAt(region: Bytes, tensors: seq<Entry>, lo: nat, hi: nat, p: nat)
    requires lo <= p < hi <= |region| && Live(tensors, p)
    ensures CountLive(tensors, lo, p) < CountLive(tensors, lo, hi)
    ensures Kept(region, tensors, lo, hi)[CountLive(tensors, lo, p)] == region[p]
    decreases hi
  {
    if p < hi - 1 {
      KeptAt(region, tensors, lo, hi - 1, p);
    }
  }

  /** Copying an all-live stretch, or skipping an all-dead one, builds Kept. */
  lemma {:induction false} KeptLiveStretch(region: Bytes, tensors: seq<Entry>, lo: nat, a: nat, b: nat)
    requires lo <= a <= b <= |region| && forall p :: a <= p < b ==> Live(tensors, p)
    ensures Kept(region, tensors, lo, b) == Kept(region, tensors, lo, a) + region[a..b]
    decreases b
  {
    if a < b {
      KeptLiveStretch(region, tensors, lo, a, b - 1);
      assert region[a..b] == region[a..b - 1] + [region[b - 1]];
    }
  }

  lemma {:induction false} KeptDeadStretch(region: Bytes, tensors: seq<Entry>, lo: nat, a: nat, b: nat)
    requires lo <= a <= b <= |region| && forall p :: a <= p < b ==> !Live(tensors, p)
    ensures Kept(region, tensors, lo, b) == Kept(region, tensors, lo, a)
    decreases b
  {
    if a < b {
      KeptDeadStretch(region, tensors, lo, a, b - 1);
    }
  }

  ghost function NewRegion(region: Bytes, tensors: seq<Entry>, s0: nat, s1: nat): (r: Bytes)
    requires s0 <= s1 <= |region|
    ensures |r| == NewOff(tensors, s0, s1, |region|)
  {
    region[..s0] + Kept(region, tensors, s0, s1) + region[s1..]
  }

  lemma NewRegionAt(region: Bytes, tensors: seq<Entry>, s0: nat, s1: nat, p: nat)
    requires s0 <= s1 <= |region| && p < |region| && Live(tensors, p)
    ensures NewOff(tensors, s0, s1, p) < NewOff(tensors, s0, s1, |region|)
    ensures NewRegion(region, tensors, s0, s1)[NewOff(tensors, s0, s1, p)] == region[p]
  {
    NewOffInjective(tensors, s0, s1, p, |region|);
    if s0 <= p < s1 {
      KeptAt(region, tensors, s0, s1, p);
    }
  }

  lemma EntryByte(region: Bytes, tensors: seq<Entry>, s0: nat, s1: nat, e: Entry, k: nat)
    requires s0 <= s1 <= |region| && e in tensors && k < e.nbytes && e.globalOff + k < |region|
    ensures var go := NewOff(tensors, s0, s1, e.globalOff);
            && go + k < |NewRegion(region, tensors, s0, s1)|
            && NewRegion(region, tensors, s0, s1)[go + k] == region[e.globalOff + k]
  {
    hide NewOff, NewRegion;
    assert Covers(e, e.globalOff + k);
    BlockMoves(tensors, s0, s1, e, e.globalOff + k);
    NewRegionAt(region, tensors, s0, s1, e.globalOff + k);
  }

  /** Reading an entry's bytes at its new offset gives the old bytes. */
  lemma EntryKept(region: Bytes, tensors: seq<Entry>, s0: nat, s1: nat, e: Entry)
    requires s0 <= s1 <= |region| && e in tensors && e.globalOff + e.nbytes <= |region|
    ensures var go := NewOff(tensors, s0, s1, e.globalOff);
            && go + e.nbytes <= |NewRegion(region, tensors, s0, s1)|
            && NewRegion(region, tensors, s0, s1)[go..go + e.nbytes] == region[e.globalOff..e.globalOff + e.nbytes]
  {
    hide NewOff, NewRegion, Live;
    var go := NewOff(tensors, s0, s1, e.globalOff);
    BlockMoves(tensors, s0, s1, e, e.globalOff + e.nbytes);
    NewOffMonotone(tensors, s0, s1, e.globalOff + e.nbytes, |region|);
    var after, before := NewRegion(region, tensors, s0, s1)[go..go + e.nbytes], region[e.globalOff..e.globalOff + e.nbytes];
    forall k | 0 <= k < |before|
      ensures after[k] == before[k]
    {
      EntryByte(region, tensors, s0, s1, e, k);
    }
  }
}
