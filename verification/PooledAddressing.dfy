// Where the pooled keys live: pages of token slots, one slab row per group of kp tokens, scratch rows
// behind them, and a ring of cap raw keys per request slot. Pages hold `groups` whole groups each.
module PooledAddressing {
  import opened Basics

  datatype Geometry = Geometry(kp: nat, cap: nat, groups: nat, pages: nat, slots: nat)

  /** A ring holds at least a group (exactly one in the kpool cache), and a page whole groups. */
  predicate Sound(g: Geometry) {
    g.kp >= 1 && g.cap >= g.kp && g.groups >= 1
  }

  function PageSize(g: Geometry): nat { g.groups * g.kp }

  /** cmp_scratch_base: the number of slab rows that shadow pages. */
  function ScratchBase(g: Geometry): nat { g.pages * g.groups }

  function SlabRows(g: Geometry): nat { ScratchBase(g) + g.slots }

  function RingRows(g: Geometry): nat { g.slots * g.cap }

  // ---- division, once and for all ----

  lemma Nest(a: nat, c: nat, b: nat, d: nat)
    ensures (a * c + b) * d == a * (c * d) + b * d
  {
    assert (a * c + b) * d == (a * c) * d + b * d;
    Associate(a, c, d);
  }

  lemma Associate(a: nat, c: nat, d: nat)
    ensures (a * c) * d == a * (c * d)
  {
  }

  /** Place and offset determine the number. */
  lemma Unique(a: nat, x: nat, b: nat, y: nat, d: nat)
    requires x < d && y < d && a * d + x == b * d + y
    ensures a == b && x == y
  {
    DivMod(a * d + x, d, a, x);
    DivMod(b * d + y, d, b, y);
  }

  lemma Under(a: nat, x: nat, n: nat, d: nat)
    requires a < n && x < d
    ensures a * d + x < n * d
  {
    Multiples(n - a, d);
    assert n * d == (n - a) * d + a * d;
  }

  // ---- token slots and slab rows ----

  /** The page table: the token slot of position p. */
  function Loc(g: Geometry, pages: seq<nat>, p: nat): nat
    requires Sound(g) && p / PageSize(g) < |pages|
  {
    pages[p / PageSize(g)] * PageSize(g) + p % PageSize(g)
  }

  /** The slab row of a request's n-th group. */
  function GroupRow(g: Geometry, pages: seq<nat>, n: nat): nat
    requires Sound(g) && n / g.groups < |pages|
  {
    pages[n / g.groups] * g.groups + n % g.groups
  }

  lemma GroupOf(g: Geometry, p: nat)
    requires Sound(g)
    ensures PageSize(g) >= 1
    ensures p / PageSize(g) == (p / g.kp) / g.groups
    ensures p % PageSize(g) == (p / g.kp) % g.groups * g.kp + p % g.kp
  {
    Parts(p, g.kp);
    Parts(p / g.kp, g.groups);
    NestedDivision(p, p / g.kp, p % g.kp, p / g.kp / g.groups, p / g.kp % g.groups, g.kp, g.groups);
  }

  lemma NestedDivision(p: nat, n: nat, o: nat, a: nat, b: nat, kp: nat, groups: nat)
    requires p == n * kp + o && o < kp && n == a * groups + b && b < groups
    ensures groups * kp >= 1 && p / (groups * kp) == a && p % (groups * kp) == b * kp + o
  {
    Nest(a, groups, b, kp);
    Under(b, o, groups, kp);
    DivMod(p, groups * kp, a, b * kp + o);
  }

  /** A token's slot divided by kp is its group's row, and has the position's place in the group: no group
      straddles a page, and a group closes by slot exactly when it closes by position. */
  lemma SlotGroup(g: Geometry, pages: seq<nat>, p: nat)
    requires Sound(g) && (p / g.kp) / g.groups < |pages|
    ensures p / PageSize(g) < |pages|
    ensures Loc(g, pages, p) / g.kp == GroupRow(g, pages, p / g.kp)
    ensures Loc(g, pages, p) % g.kp == p % g.kp
  {
    GroupOf(g, p);
    var n, o := p / g.kp, p % g.kp;
    var page, b := pages[n / g.groups], n % g.groups;
    var row := page * g.groups + b;
    Nest(page, g.groups, b, g.kp);
    DivMod(Loc(g, pages, p), g.kp, row, o);
  }

  predicate InRange(g: Geometry, pages: seq<nat>) {
    forall i :: 0 <= i < |pages| ==> pages[i] < g.pages
  }

  lemma RowBelowScratch(g: Geometry, pages: seq<nat>, n: nat)
    requires Sound(g) && n / g.groups < |pages| && InRange(g, pages)
    ensures GroupRow(g, pages, n) < ScratchBase(g)
  {
    Under(pages[n / g.groups], n % g.groups, g.pages, g.groups);
  }

  /** Two groups with one row are at the same place of the same page. */
  lemma SameRow(g: Geometry, a: seq<nat>, n: nat, b: seq<nat>, m: nat)
    requires Sound(g) && n / g.groups < |a| && m / g.groups < |b|
    requires GroupRow(g, a, n) == GroupRow(g, b, m)
    ensures a[n / g.groups] == b[m / g.groups] && n % g.groups == m % g.groups
  {
    Unique(a[n / g.groups], n % g.groups, b[m / g.groups], m % g.groups, g.groups);
  }

  // ---- the rings ----

  function RingRow(g: Geometry, slot: nat, p: nat): nat
    requires Sound(g)
  {
    slot * g.cap + p % g.cap
  }

  lemma RingRowInRange(g: Geometry, slot: nat, p: nat)
    requires Sound(g) && slot < g.slots
    ensures RingRow(g, slot, p) < RingRows(g)
  {
    Under(slot, p % g.cap, g.slots, g.cap);
  }

  /** Positions less than a ring apart have different rows, and so have different requests. */
  lemma RingRowsApart(g: Geometry, s: nat, p: nat, t: nat, q: nat)
    requires Sound(g) && RingRow(g, s, p) == RingRow(g, t, q)
    ensures s == t && (p <= q < p + g.cap ==> p == q)
  {
    Unique(s, p % g.cap, t, q % g.cap, g.cap);
    if p <= q < p + g.cap {
      var a, b, x := p / g.cap, q / g.cap, p % g.cap;
      assert p == a * g.cap + x && q == b * g.cap + x;
      assert (b - a) * g.cap == b * g.cap - a * g.cap;
      Multiples(b - a, g.cap);
      Multiples(a - b, g.cap);
      assert (a - b) * g.cap == a * g.cap - b * g.cap;
    }
  }

  // ---- groups of positions ----

  lemma Groups(p: nat, kp: nat)
    requires kp > 0
    ensures p / kp * kp <= p < p / kp * kp + kp
    ensures p % kp == kp - 1 <==> (p + 1) / kp == p / kp + 1
    ensures p % kp != kp - 1 ==> (p + 1) / kp == p / kp
  {
    var n, o := p / kp, p % kp;
    assert p == n * kp + o;
    if o == kp - 1 {
      assert (n + 1) * kp == n * kp + kp;
      DivMod(p + 1, kp, n + 1, 0);
    } else {
      DivMod(p + 1, kp, n, o + 1);
    }
  }

  lemma GroupBetween(p: nat, n: nat, kp: nat)
    requires kp > 0 && n * kp <= p < n * kp + kp
    ensures p / kp == n && p % kp == p - n * kp
  {
    DivMod(p, kp, n, p - n * kp);
  }

  /** Group n is complete in a sequence of that length exactly when its last position is in it. */
  lemma CompleteGroup(n: nat, len: nat, kp: nat)
    requires kp > 0
    ensures n < len / kp <==> n * kp + kp <= len
  {
    var c := len / kp;
    assert len == c * kp + len % kp;
    assert (c - n) * kp == c * kp - n * kp && (n - c) * kp == n * kp - c * kp;
    Multiples(c - n, kp);
    Multiples(n - c, kp);
  }

  /** The page of a complete group is full up to that group. */
  lemma GroupPage(g: Geometry, n: nat)
    requires Sound(g)
    ensures n * g.kp + g.kp <= (n / g.groups + 1) * PageSize(g)
    ensures n * g.kp >= n / g.groups * PageSize(g)
  {
    var a, b := n / g.groups, n % g.groups;
    assert n == a * g.groups + b;
    Nest(a, g.groups, b, g.kp);
    assert (a + 1) * PageSize(g) == a * PageSize(g) + PageSize(g);
    Under(b, g.kp - 1, g.groups, g.kp);
    Multiples(b, g.kp);
  }
}
