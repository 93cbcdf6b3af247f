// The split of GPU memory between expert slots and KV pages.
module CacheBudget {
  import opened Basics

  datatype Refusal = NoExpertBytes | NoPageBytes | CapTooLow | TooSmall | NoKvPages

  datatype Outcome = Planned(slots: int, pages: int, overlap: bool) | Refused(why: Refusal)

  /** What plan_cache_budget is asked; the budget may be negative after the subtractions upstream. */
  datatype Request = Request(
    budget: int, perExpert: int, perPage: int, experts: nat, total: nat,
    prefillOverlap: bool, reserve: nat, maxSlots: int)

  function Cap(r: Request): int { Min(r.total, r.maxSlots) }

  predicate Overlap(r: Request) { r.prefillOverlap && Cap(r) >= 2 * r.experts }

  function Floor(r: Request): int { if Overlap(r) then 2 * r.experts else r.experts }

  /** Bytes a geometry occupies. */
  function Required(slots: int, pages: int, perExpert: int, perPage: int): int {
    slots * perExpert + pages * perPage
  }

  function Plan(r: Request): Outcome {
    if r.perExpert <= 0 then Refused(NoExpertBytes)
    else if r.perPage <= 0 then Refused(NoPageBytes)
    else if Cap(r) < Floor(r) then Refused(CapTooLow)
    else
      var raw := (r.budget - r.reserve * r.perPage) / r.perExpert;
      var slots := Max(Floor(r), Min(raw, Cap(r)));
      var overlap := Overlap(r) && slots >= 2 * r.experts;
      var pages := Max((r.budget - slots * r.perExpert) / r.perPage, r.reserve);
      if Required(slots, pages, r.perExpert, r.perPage) > r.budget then Refused(TooSmall)
      else if pages <= 1 then Refused(NoKvPages)
      else Planned(slots, pages, overlap)
  }

  // ---- what a plan must be, without reference to how it is found ----

  predicate Askable(r: Request) {
    r.perExpert > 0 && r.perPage > 0 && Cap(r) >= Floor(r)
  }

  /** A geometry within floor and cap that meets the reserve and the budget. */
  predicate Fits(r: Request, slots: int, pages: int) {
    && Floor(r) <= slots <= Cap(r) && pages >= r.reserve
    && Required(slots, pages, r.perExpert, r.perPage) <= r.budget
  }

  /** The fitting geometry with most slots, and with those most pages. */
  ghost predicate Best(r: Request, slots: int, pages: int) {
    && Fits(r, slots, pages)
    && (forall s, p :: Fits(r, s, p) ==> s <= slots)
    && (forall p :: Fits(r, slots, p) ==> p <= pages)
  }

  lemma FloorDivides(a: int, d: int, x: int)
    requires d > 0
    ensures x <= a / d <==> x * d <= a
  {
    var q := a / d;
    assert q * d <= a < q * d + d;
    if x <= q { Times(x, q, d); } else { Times(q + 1, x, d); }
  }

  lemma Times(a: int, b: int, d: int)
    requires a <= b && d >= 0
    ensures a * d <= b * d
  {
  }

  /** With x slots the reserve fits, and no more than (budget - x slots) / page bytes pages. */
  lemma FitsWith(r: Request, slots: int, pages: int)
    requires Askable(r) && Floor(r) <= slots <= Cap(r)
    ensures Fits(r, slots, pages) <==> r.reserve <= pages <= (r.budget - slots * r.perExpert) / r.perPage
  {
    FloorDivides(r.budget - slots * r.perExpert, r.perPage, pages);
  }

  lemma ReserveFits(r: Request, slots: int)
    requires Askable(r) && Floor(r) <= slots <= Cap(r)
    ensures Fits(r, slots, r.reserve) <==> slots <= (r.budget - r.reserve * r.perPage) / r.perExpert
  {
    FloorDivides(r.budget - r.reserve * r.perPage, r.perExpert, slots);
  }

  /** Fewer pages fit where more do, down to the reserve. */
  lemma FewerPages(r: Request, slots: int, pages: int)
    requires Askable(r) && Fits(r, slots, pages)
    ensures Fits(r, slots, r.reserve)
  {
    Times(r.reserve, pages, r.perPage);
  }

  /** The geometry the arithmetic comes to, before the two last checks. */
  function Slots(r: Request): int
    requires Askable(r)
  {
    Max(Floor(r), Min((r.budget - r.reserve * r.perPage) / r.perExpert, Cap(r)))
  }

  function Pages(r: Request): int
    requires Askable(r)
  {
    Max((r.budget - Slots(r) * r.perExpert) / r.perPage, r.reserve)
  }

  /** It fits exactly when something does, and is then the best. */
  lemma SlotsAndPages(r: Request)
    requires Askable(r)
    ensures Fits(r, Floor(r), r.reserve) <==> Fits(r, Slots(r), Pages(r))
    ensures (exists s, p :: Fits(r, s, p)) <==> Fits(r, Floor(r), r.reserve)
    ensures Fits(r, Slots(r), Pages(r)) ==> Best(r, Slots(r), Pages(r))
  {
    hide Fits;
    FitRange(r, Floor(r));
    FitRange(r, Slots(r));
    ReserveFits(r, Floor(r));
    ReserveFits(r, Slots(r));
    forall s, p | Fits(r, s, p) ensures Floor(r) <= s <= Cap(r) && s <= Slots(r) && Fits(r, Floor(r), r.reserve) {
      FitBounds(r, s, p);
      FewerPages(r, s, p);
      ReserveFits(r, s);
    }
    forall p ensures Fits(r, Slots(r), p) ==> p <= Pages(r) { FitsWith(r, Slots(r), p); }
  }

  lemma FitBounds(r: Request, slots: int, pages: int)
    requires Fits(r, slots, pages)
    ensures Floor(r) <= slots <= Cap(r)
  {
  }

  /** For given slots: if the reserve fits, so does the largest number of pages. */
  lemma FitRange(r: Request, slots: int)
    requires Askable(r) && Floor(r) <= slots <= Cap(r)
    ensures var most := (r.budget - slots * r.perExpert) / r.perPage;
            (Fits(r, slots, r.reserve) <==> Fits(r, slots, Max(most, r.reserve)))
  {
    hide Fits;
    var most := (r.budget - slots * r.perExpert) / r.perPage;
    FitsWith(r, slots, r.reserve);
    FitsWith(r, slots, Max(most, r.reserve));
  }

  /** A plan is the best geometry that fits the budget, has more than one page, and keeps the overlap on
      exactly when it was asked for and the cap allows two expert layers, which it then holds. */
  lemma PlanIsBest(r: Request)
    requires Plan(r).Planned?
    ensures Askable(r) && Best(r, Plan(r).slots, Plan(r).pages) && Plan(r).pages > 1
    ensures Plan(r).overlap <==> r.prefillOverlap && Cap(r) >= 2 * r.experts
    ensures Plan(r).overlap ==> Plan(r).slots >= 2 * r.experts
  {
    SlotsAndPages(r);
  }

  /** The budget check fails exactly when not even the floor and the reserve fit, that is when nothing
      does; the last check only when the best geometry that fits has at most one page. */
  lemma RefusedExactlyWhen(r: Request)
    ensures Plan(r).Planned? || Plan(r).Refused?
    ensures Askable(r) <==> Plan(r).Planned? || Plan(r) == Refused(TooSmall) || Plan(r) == Refused(NoKvPages)
    ensures Plan(r) == Refused(NoExpertBytes) <==> r.perExpert <= 0
    ensures Plan(r) == Refused(NoPageBytes) <==> r.perExpert > 0 && r.perPage <= 0
    ensures Plan(r) == Refused(CapTooLow) <==>
              r.perExpert > 0 && r.perPage > 0 && (r.total < r.experts || r.maxSlots < r.experts)
    ensures Askable(r) ==>
      && (Plan(r) == Refused(TooSmall) <==> !Fits(r, Floor(r), r.reserve))
      && (Plan(r) == Refused(TooSmall) <==> forall s, p :: !Fits(r, s, p))
      && (Plan(r) == Refused(NoKvPages) <==> exists s, p :: Best(r, s, p) && p <= 1)
  {
    if Askable(r) {
      SlotsAndPages(r);
      if Best(r, Slots(r), Pages(r)) {
        forall s, p | Best(r, s, p) ensures s == Slots(r) && p == Pages(r) {
          assert Fits(r, s, p) && Fits(r, Slots(r), Pages(r));
        }
      }
      PlanFits(r);
    }
  }

  lemma PlanFits(r: Request)
    requires Askable(r)
    ensures Fits(r, Slots(r), Pages(r)) <==> Plan(r) != Refused(TooSmall)
    ensures Plan(r) == Refused(NoKvPages) <==> Fits(r, Slots(r), Pages(r)) && Pages(r) <= 1
  {
  }

  /** A reserve of two pages or more is never refused for want of KV. */
  lemma ReserveProtectsKv(r: Request)
    requires r.reserve >= 2
    ensures Plan(r) != Refused(NoKvPages)
  {
  }

  /** Without one the greedy split can starve the KV cache where fewer slots, still at or above the floor, would
      have left it pages: exactly when the floor leaves it two and the slots the split takes do not. */
  lemma GreedyStarvesExactlyWhen(r: Request)
    requires Askable(r)
    ensures Plan(r) == Refused(NoKvPages) && (exists s, p :: Fits(r, s, p) && p > 1)
       <==> var slots := Max(Floor(r), Min((r.budget - r.reserve * r.perPage) / r.perExpert, Cap(r)));
            r.reserve < 2 && Fits(r, Floor(r), 2) && !Fits(r, slots, 2)
  {
    hide Fits, Plan;
    FloorSlotsInRange(r);
    PlanFits(r);
    SlotsAndPages(r);
    FitsWith(r, Slots(r), 2);
    FitsWith(r, Slots(r), Pages(r));
    FitsWith(r, Floor(r), 2);
    forall s, p | Fits(r, s, p) && p > 1 ensures r.reserve < 2 ==> Fits(r, Floor(r), 2) {
      FitBounds(r, s, p);
      FewerSlots(r, s, p);
    }
    if r.reserve < 2 && Fits(r, Floor(r), 2) { TwoMeansReserve(r); }
  }

  lemma FloorSlotsInRange(r: Request)
    requires Askable(r)
    ensures Floor(r) <= Slots(r) <= Cap(r)
  {
  }

  /** Two pages fit with the floor if any geometry of two pages or more fits. */
  lemma FewerSlots(r: Request, slots: int, pages: int)
    requires Askable(r) && Fits(r, slots, pages) && pages > 1
    ensures r.reserve < 2 ==> Fits(r, Floor(r), 2)
  {
    Times(2, pages, r.perPage);
    Times(Floor(r), slots, r.perExpert);
  }

  lemma TwoMeansReserve(r: Request)
    requires Askable(r) && r.reserve < 2 && Fits(r, Floor(r), 2)
    ensures Fits(r, Floor(r), r.reserve)
  {
    FewerPages(r, Floor(r), 2);
  }

  /** Ten slots fill this budget; nine would have left ten pages. */
  lemma GreedyMayStarveKv()
    ensures var r := Request(100, 10, 1, 1, 10, false, 0, 10);
            Plan(r) == Refused(NoKvPages) && Fits(r, 9, 10)
  {
  }

  /** The overlap is not given up for a small budget, only for a small cap: a plan is refused that would be made
      without it exactly when the budget lies between the two floors. */
  lemma OverlapIsNotTraded(r: Request)
    requires r.perExpert > 0 && r.perPage > 0 && Overlap(r)
    ensures Plan(r) == Refused(TooSmall) && Plan(r.(prefillOverlap := false)) != Refused(TooSmall)
       <==> Required(r.experts, r.reserve, r.perExpert, r.perPage) <= r.budget
              < Required(2 * r.experts, r.reserve, r.perExpert, r.perPage)
  {
    hide Plan;
    var off := r.(prefillOverlap := false);
    RefusedExactlyWhen(r);
    RefusedExactlyWhen(off);
  }

  /** Here two layers do not fit and one would. */
  lemma OverlapRefusal()
    ensures var r := Request(100, 10, 1, 8, 20, true, 5, 20);
            Plan(r) == Refused(TooSmall) && Plan(r.(prefillOverlap := false)) == Planned(9, 10, false)
  {
  }

  /** More memory never means fewer slots nor a plan that does not fit; a plan turns into a refusal exactly when
      the slots it now takes leave no two pages, which needs a reserve below two. */
  lemma MoreIsMore(r: Request, more: int)
    requires more >= r.budget && Plan(r).Planned?
    ensures var m := r.(budget := more);
      && Askable(m) && Plan(m) != Refused(TooSmall) && Slots(m) >= Plan(r).slots
      && (Plan(m).Planned? ==> Plan(m).slots == Slots(m))
      && (Plan(m).Refused? <==> r.reserve < 2 && !Fits(m, Slots(m), 2))
      && (Plan(m).Refused? ==> Plan(m) == Refused(NoKvPages) && Slots(m) > Plan(r).slots)
  {
    var m := r.(budget := more);
    PlanIsBest(r);
    assert Fits(m, Plan(r).slots, Plan(r).pages);
    SlotsAndPages(m);
    PlanFits(m);
    StillTwo(m, Plan(r).slots, Plan(r).pages);
    MoreRefused(m);
  }

  lemma StillTwo(m: Request, slots: int, pages: int)
    requires Askable(m) && Fits(m, slots, pages) && pages > 1
    ensures m.reserve < 2 ==> Fits(m, slots, 2)
  {
    Times(2, pages, m.perPage);
  }

  lemma MoreRefused(m: Request)
    requires Askable(m) && Fits(m, Slots(m), Pages(m))
    ensures Plan(m).Refused? <==> m.reserve < 2 && !Fits(m, Slots(m), 2)
    ensures Plan(m).Planned? ==> Plan(m).slots == Slots(m)
  {
    hide Fits;
    PlanFits(m);
    FloorSlotsInRange(m);
    FitsWith(m, Slots(m), 2);
    FitsWith(m, Slots(m), Pages(m));
    PlanSlots(m);
  }

  lemma PlanSlots(m: Request)
    requires Askable(m)
    ensures Plan(m).Planned? ==> Plan(m).slots == Slots(m)
    ensures Plan(m).Refused? ==> Plan(m) == Refused(TooSmall) || Plan(m) == Refused(NoKvPages)
  {
  }

  /** Nine slots and five pages at 95; at 100 ten slots and none. */
  lemma MoreMayRefuse()
    ensures var r := Request(95, 10, 1, 1, 10, false, 0, 10);
            Plan(r) == Planned(9, 5, false) && Plan(r.(budget := 100)) == Refused(NoKvPages)
  {
  }

  // ---- from the measurements ----

  /** int() of a non-negative or negative real: towards zero. */
  function Truncate(x: real): int {
    if x >= 0.0 then x.Floor else -((-x).Floor)
  }

  function NetBudget(ratio: real, baseline: nat, weights: int, fixedCache: int): int {
    Truncate(ratio * (baseline as real)) - weights - fixedCache
  }

  function Resolve(baseline: nat, weights: int, ratio: real, perPage: int, fixedCache: int, perExpert: int,
                   experts: nat, total: nat, prefillOverlap: bool, reserveTokens: nat, pageSize: nat,
                   maxSlots: Option<int>): Outcome
    requires pageSize > 0
  {
    DivCeilIsLeast(reserveTokens, pageSize, -1);
    var cap := if maxSlots.None? then total else Min(maxSlots.value, total);
    Plan(Request(NetBudget(ratio, baseline, weights, fixedCache), perExpert, perPage, experts, total,
                 prefillOverlap, DivCeil(reserveTokens, pageSize), cap))
  }

  /** The resolved geometry with the weights and the fixed cache stays within the ratio's share of the
      baseline, holds the reserved tokens, and never exceeds the kernel's slot limit or the experts there are. */
  lemma ResolvedIsSafe(baseline: nat, weights: int, ratio: real, perPage: int, fixedCache: int, perExpert: int,
                       experts: nat, total: nat, prefillOverlap: bool, reserveTokens: nat, pageSize: nat,
                       maxSlots: Option<int>)
    requires pageSize > 0 && ratio >= 0.0
    requires Resolve(baseline, weights, ratio, perPage, fixedCache, perExpert, experts, total, prefillOverlap,
                     reserveTokens, pageSize, maxSlots).Planned?
    ensures var p := Resolve(baseline, weights, ratio, perPage, fixedCache, perExpert, experts, total, prefillOverlap,
                             reserveTokens, pageSize, maxSlots);
      && (weights + fixedCache + Required(p.slots, p.pages, perExpert, perPage)) as real <= ratio * (baseline as real)
      && p.pages * pageSize >= reserveTokens
      && p.slots <= total && (maxSlots.Some? ==> p.slots <= maxSlots.value)
      && p.slots >= (if p.overlap then 2 * experts else experts)
  {
    DivCeilIsLeast(reserveTokens, pageSize, -1);
    var cap := if maxSlots.None? then total else Min(maxSlots.value, total);
    var r := Request(NetBudget(ratio, baseline, weights, fixedCache), perExpert, perPage, experts, total,
                     prefillOverlap, DivCeil(reserveTokens, pageSize), cap);
    PlanIsBest(r);
    DivCeilIsLeast(reserveTokens, pageSize, Plan(r).pages);
    ShareIsNonNegative(ratio, baseline);
  }

  /** A geometry that keeps everything within the ratio's share, holds the reserved tokens, and has slots enough and
      no more than there may be. */
  predicate Within(baseline: nat, weights: int, ratio: real, perPage: int, fixedCache: int, perExpert: int,
                   floor: nat, total: nat, reserveTokens: nat, pageSize: nat, maxSlots: Option<int>, slots: int, pages: int)
  {
    && (weights + fixedCache + (slots * perExpert + pages * perPage)) as real <= ratio * (baseline as real)
    && floor <= slots <= total && (maxSlots.Some? ==> slots <= maxSlots.value)
    && pages * pageSize >= reserveTokens
  }

  /** The resolved geometry has most slots, and with those most pages, of all that keep within the share; overlap is
      on exactly when it was asked for and two expert layers may be held. */
  lemma ResolvedIsBest(baseline: nat, weights: int, ratio: real, perPage: int, fixedCache: int, perExpert: int,
                       experts: nat, total: nat, prefillOverlap: bool, reserveTokens: nat, pageSize: nat,
                       maxSlots: Option<int>)
    requires pageSize > 0 && ratio >= 0.0
    requires Resolve(baseline, weights, ratio, perPage, fixedCache, perExpert, experts, total, prefillOverlap,
                     reserveTokens, pageSize, maxSlots).Planned?
    ensures var p := Resolve(baseline, weights, ratio, perPage, fixedCache, perExpert, experts, total, prefillOverlap,
                             reserveTokens, pageSize, maxSlots);
            var floor := if p.overlap then 2 * experts else experts;
      && (p.overlap <==> prefillOverlap && total >= 2 * experts && (maxSlots.Some? ==> maxSlots.value >= 2 * experts))
      && Within(baseline, weights, ratio, perPage, fixedCache, perExpert, floor, total, reserveTokens, pageSize, maxSlots, p.slots, p.pages)
      && p.pages > 1
      && forall s, q ::
           Within(baseline, weights, ratio, perPage, fixedCache, perExpert, floor, total, reserveTokens, pageSize, maxSlots, s, q) ==>
             s <= p.slots && (s == p.slots ==> q <= p.pages)
  {
    hide Plan;
    DivCeilIsLeast(reserveTokens, pageSize, -1);
    var cap := if maxSlots.None? then total else Min(maxSlots.value, total);
    var r := Request(NetBudget(ratio, baseline, weights, fixedCache), perExpert, perPage, experts, total,
                     prefillOverlap, DivCeil(reserveTokens, pageSize), cap);
    PlanIsBest(r);
    var p := Plan(r);
    ResolvedIsSafe(baseline, weights, ratio, perPage, fixedCache, perExpert, experts, total, prefillOverlap,
                   reserveTokens, pageSize, maxSlots);
    forall s, q |
      Within(baseline, weights, ratio, perPage, fixedCache, perExpert, Floor(r), total, reserveTokens, pageSize, maxSlots, s, q)
      ensures Fits(r, s, q)
    {
      DivCeilIsLeast(reserveTokens, pageSize, q);
      ShareHolds(ratio * (baseline as real), weights + fixedCache + (s * perExpert + q * perPage));
    }
  }

  lemma ShareHolds(x: real, n: int)
    requires x >= 0.0 && n as real <= x
    ensures n <= Truncate(x)
  {
  }

  lemma ShareIsNonNegative(ratio: real, baseline: nat)
    requires ratio >= 0.0
    ensures Truncate(ratio * (baseline as real)) as real <= ratio * (baseline as real)
  {
  }
}
