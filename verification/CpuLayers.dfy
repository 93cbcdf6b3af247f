// Which MoE layers decode on the CPU: a list, a count, a fraction, or the automatic pick.
module CpuLayers {
  import opened Basics

  /** The four forms of the option, already told apart and read. */
  datatype Spec = Empty | Ids(ids: seq<int>) | Fraction(f: real) | Count(k: int)

  datatype Result = Layers(ids: set<int>) | Invalid

  // ---- round half to even ----

  /** Python's round of a / b. */
  function RoundHalfEven(a: nat, b: nat): nat
    requires b > 0
  {
    var q, r := a / b, a % b;
    if 2 * r < b then q else if 2 * r > b then q + 1 else if q % 2 == 0 then q else q + 1
  }

  /** Python's round of a non-negative real. */
  function Round(x: real): int
    requires x >= 0.0
  {
    var q := x.Floor;
    var r := x - q as real;
    if r < 0.5 then q else if r > 0.5 then q + 1 else if q % 2 == 0 then q else q + 1
  }

  /** m is an integer nearest to a / b, and even when there are two. */
  predicate Nearest(a: nat, b: nat, m: int) {
    && 2 * (m * b) - b <= 2 * a <= 2 * (m * b) + b
    && (2 * a == 2 * (m * b) + b || 2 * a == 2 * (m * b) - b ==> m % 2 == 0)
  }

  lemma RoundIsNearest(a: nat, b: nat)
    requires b > 0
    ensures Nearest(a, b, RoundHalfEven(a, b))
  {
    var q, r := a / b, a % b;
    assert a == q * b + r && (q + 1) * b == q * b + b;
  }

  lemma OneNearest(a: nat, b: nat, m: int, n: int)
    requires b > 0 && Nearest(a, b, m) && Nearest(a, b, n)
    ensures m == n
  {
    assert (m - n) * b == m * b - n * b && (n - m) * b == n * b - m * b;
    Multiples(m - n, b);
    Multiples(n - m, b);
  }

  /** Rounding gives the nearest integer, the even one of two, and nothing else is that. */
  lemma RoundedExactly(a: nat, b: nat, m: int)
    requires b > 0
    ensures m == RoundHalfEven(a, b) <==> Nearest(a, b, m)
  {
    hide RoundHalfEven, Nearest;
    RoundIsNearest(a, b);
    if Nearest(a, b, m) { OneNearest(a, b, m, RoundHalfEven(a, b)); }
  }

  /** Points spread over a range no shorter than their number round apart. */
  lemma RoundsApart(i: nat, j: nat, n: nat, k: nat)
    requires 0 < k <= n && i < j
    ensures RoundHalfEven(i * n, k) < RoundHalfEven(j * n, k)
  {
    hide RoundHalfEven, Nearest;
    RoundIsNearest(i * n, k);
    RoundIsNearest(j * n, k);
    Spacing(i, j, n, k);
    NearestApart(i * n, j * n, n, k, RoundHalfEven(i * n, k), RoundHalfEven(j * n, k));
    RoundWhole(i, k);
    RoundWhole(j, k);
  }

  lemma NearestApart(x: nat, y: nat, n: nat, k: nat, p: int, q: int)
    requires 0 < k <= n && x + n <= y && Nearest(x, k, p) && Nearest(y, k, q)
    ensures p < q || n == k
  {
    Multiples(p - q, k);
    assert (p - q) * k == p * k - q * k;
  }

  lemma Spacing(i: nat, j: nat, n: nat, k: nat)
    requires i < j
    ensures j * n >= i * n + n
  {
    Multiples(j - i, n);
    assert j * n == (j - i) * n + i * n;
  }

  lemma RoundWhole(i: nat, k: nat)
    requires k > 0
    ensures RoundHalfEven(i * k, k) == i
  {
    hide RoundHalfEven;
    assert Nearest(i * k, k, i);
    RoundedExactly(i * k, k, i);
  }

  function Interval(lo: int, hi: int): (s: set<int>)
    ensures forall x :: x in s <==> lo <= x < hi
    ensures |s| == if lo <= hi then hi - lo else 0
    decreases hi - lo
  {
    if lo >= hi then {} else Interval(lo, hi - 1) + {hi - 1}
  }

  // ---- k layers spread across the depth ----

  /** The first m of them. */
  function SpreadUpTo(n: nat, k: nat, m: nat): set<int>
    requires m <= k <= n
  {
    set i | 0 <= i < m :: RoundHalfEven(i * n, k) as int
  }

  function Spread(n: nat, k: nat): set<int>
    requires k <= n
  {
    SpreadUpTo(n, k, k)
  }

  lemma {:induction false} SpreadCounts(n: nat, k: nat, m: nat)
    requires m <= k <= n
    ensures |SpreadUpTo(n, k, m)| == m
  {
    hide RoundHalfEven;
    if m > 0 {
      SpreadCounts(n, k, m - 1);
      SpreadMore(n, k, m - 1);
    }
  }

  lemma SpreadMore(n: nat, k: nat, m: nat)
    requires m < k <= n
    ensures SpreadUpTo(n, k, m + 1) == SpreadUpTo(n, k, m) + {RoundHalfEven(m * n, k)}
    ensures RoundHalfEven(m * n, k) !in SpreadUpTo(n, k, m)
  {
    hide RoundHalfEven;
    forall i | 0 <= i < m ensures RoundHalfEven(i * n, k) < RoundHalfEven(m * n, k) { RoundsApart(i, m, n, k); }
  }

  /** A count of k picks exactly k layers of those there are: the set never has to absorb a collision. */
  lemma SpreadHasK(n: nat, k: nat)
    requires k <= n
    ensures |Spread(n, k)| == k
    ensures forall id <- Spread(n, k) :: 0 <= id < n
    ensures k > 0 ==> 0 in Spread(n, k)
  {
    hide RoundHalfEven;
    SpreadCounts(n, k, k);
    forall i | 0 <= i < k ensures RoundHalfEven(i * n, k) < n { InRange(i, n, k); }
    if k > 0 { RoundWhole(0, k); assert RoundHalfEven(0 * n, k) == 0; }
  }

  /** Asking for all of them picks all of them. */
  lemma SpreadOfAll(n: nat)
    ensures Spread(n, n) == Interval(0, n)
  {
    hide RoundHalfEven;
    SpreadHasK(n, n);
    forall i: nat | i < n ensures i in Spread(n, n) {
      RoundWhole(i, n);
      assert RoundHalfEven(i * n, n) == i;
    }
  }

  lemma InRange(i: nat, n: nat, k: nat)
    requires i < k <= n
    ensures RoundHalfEven(i * n, k) < n
  {
    hide RoundHalfEven;
    RoundsApart(i, k, n, k);
    assert k * n == n * k;
    RoundWhole(n, k);
  }

  // ---- the option ----

  /** _parse_cpu_layers_spec for n MoE layers. */
  function Parse(spec: Spec, n: nat): Result {
    match spec
    case Empty => Layers({})
    case Ids(ids) =>
      if forall i <- ids :: 0 <= i < n then Layers(set i | i in ids) else Invalid
    case Fraction(f) =>
      if f < 0.0 || f > 1.0 then Invalid
      else
        FractionInRange(f, n);
        Layers(Spread(n, Round(Share(f, n))))
    case Count(k) => if 0 <= k <= n then Layers(Spread(n, k)) else Invalid
  }

  function Share(f: real, n: nat): real {
    f * (n as real)
  }

  lemma FractionInRange(f: real, n: nat)
    requires 0.0 <= f <= 1.0
    ensures Share(f, n) >= 0.0 && 0 <= Round(Share(f, n)) <= n
  {
    Scaled(f, n as real);
    RoundInRange(Share(f, n), n);
  }

  lemma RoundInRange(x: real, n: nat)
    requires 0.0 <= x <= n as real
    ensures 0 <= Round(x) <= n
  {
  }

  lemma Scaled(f: real, x: real)
    requires 0.0 <= f <= 1.0 && x >= 0.0
    ensures 0.0 <= f * x <= x
  {
    assert (1.0 - f) * x >= 0.0 && (1.0 - f) * x == x - f * x;
  }

  /** Every accepted option names layers that exist: those listed, or as many as asked for. */
  lemma ParsedLayersExist(spec: Spec, n: nat)
    requires Parse(spec, n).Layers?
    ensures forall id <- Parse(spec, n).ids :: 0 <= id < n
    ensures spec.Count? ==> |Parse(spec, n).ids| == spec.k
    ensures spec.Ids? ==> forall id :: id in Parse(spec, n).ids <==> id in spec.ids
  {
    hide Spread, Round;
    match spec
    case Fraction(f) => FractionPicks(f, n);
    case Count(k) => SpreadHasK(n, k);
    case _ =>
  }

  lemma RoundClose(x: real)
    requires x >= 0.0
    ensures -0.5 <= Round(x) as real - x <= 0.5
    ensures Round(x) as real - x == 0.5 || Round(x) as real - x == -0.5 ==> Round(x) % 2 == 0
  {
  }

  /** A fraction picks the nearest number of layers. */
  lemma FractionPicks(f: real, n: nat)
    requires 0.0 <= f <= 1.0
    ensures Parse(Fraction(f), n).Layers?
    ensures -0.5 <= |Parse(Fraction(f), n).ids| as real - f * (n as real) <= 0.5
    ensures forall id <- Parse(Fraction(f), n).ids :: 0 <= id < n
  {
    hide Spread, Round;
    FractionInRange(f, n);
    RoundClose(Share(f, n));
    SpreadHasK(n, Round(Share(f, n)));
  }

  /** The ids are the integers nearest to i * n / k, for i below k, the even ones of two. */
  ghost predicate Strided(ids: set<int>, n: nat, k: nat) {
    forall m: int :: m in ids <==> exists i :: 0 <= i < k && Nearest(i * n, k, m)
  }

  lemma SpreadHas(n: nat, k: nat, m: int)
    requires k <= n
    ensures m in Spread(n, k) <==> exists i :: 0 <= i < k && RoundHalfEven(i * n, k) == m
  {
    hide RoundHalfEven;
  }

  lemma SpreadIsStrided(n: nat, k: nat)
    requires k <= n
    ensures Strided(Spread(n, k), n, k)
  {
    hide RoundHalfEven, Nearest, Spread;
    forall m: int ensures m in Spread(n, k) <==> exists i :: 0 <= i < k && Nearest(i * n, k, m) {
      SpreadHas(n, k, m);
      forall i | 0 <= i < k ensures Nearest(i * n, k, m) <==> RoundHalfEven(i * n, k) == m { RoundedExactly(i * n, k, m); }
    }
  }

  /** A count picks that many layers, evenly strided; a fraction does with the number of layers nearest to it, the
      even one of two. */
  lemma ParsedIsStrided(spec: Spec, n: nat)
    requires Parse(spec, n).Layers? && (spec.Count? || spec.Fraction?)
    ensures spec.Count? ==> Strided(Parse(spec, n).ids, n, spec.k)
    ensures spec.Fraction? ==>
              var k, x := |Parse(spec, n).ids|, spec.f * (n as real);
              && Strided(Parse(spec, n).ids, n, k) && -0.5 <= k as real - x <= 0.5
              && (k as real - x == 0.5 || k as real - x == -0.5 ==> k % 2 == 0)
  {
    hide Spread, Round, Strided;
    match spec
    case Fraction(f) =>
      FractionInRange(f, n);
      RoundClose(Share(f, n));
      SpreadHasK(n, Round(Share(f, n)));
      SpreadIsStrided(n, Round(Share(f, n)));
    case Count(k) => SpreadIsStrided(n, k);
    case _ =>
  }

  lemma {:induction false} PartOf(s: set<int>, n: nat)
    requires s <= Interval(0, n)
    ensures |s| <= n
  {
    if n > 0 {
      PartOf(s - {n - 1}, n - 1);
      assert s <= (s - {n - 1}) + {n - 1};
    }
  }

  /** An option is accepted exactly when layers answer it: the ids listed all exist, or there are k of them to
      pick, or a share of them that is neither negative nor more than all. */
  lemma AcceptedExactlyWhen(spec: Spec, n: nat)
    ensures spec.Empty? ==> Parse(spec, n) == Layers({})
    ensures spec.Ids? ==> (Parse(spec, n).Layers? <==> (set i | i in spec.ids) <= Interval(0, n))
    ensures spec.Count? ==> (Parse(spec, n).Layers? <==> exists s: set<int> :: s <= Interval(0, n) && |s| == spec.k)
    ensures spec.Fraction? ==> (Parse(spec, n).Layers? <==> 0.0 <= spec.f <= 1.0)
    ensures spec.Fraction? && n > 0 ==> (Parse(spec, n).Layers? <==> 0.0 <= Share(spec.f, n) <= n as real)
  {
    hide Spread, Round;
    match spec
    case Ids(ids) => ListedAll(ids, n);
    case Count(k) => SomeOf(k, n);
    case Fraction(f) => if n > 0 { ShareInRange(f, n); }
    case Empty =>
  }

  lemma ListedAll(ids: seq<int>, n: nat)
    ensures (set i | i in ids) <= Interval(0, n) <==> forall i <- ids :: 0 <= i < n
  {
    var all := set i | i in ids;
    forall i | i in ids ensures i in all {}
  }

  lemma SomeOf(k: int, n: nat)
    ensures (exists s: set<int> :: s <= Interval(0, n) && |s| == k) <==> 0 <= k <= n
  {
    if 0 <= k <= n { assert Interval(0, k) <= Interval(0, n) && |Interval(0, k)| == k; }
    forall s: set<int> | s <= Interval(0, n) && |s| == k ensures 0 <= k <= n { PartOf(s, n); }
  }

  lemma ShareInRange(f: real, n: nat)
    requires n > 0
    ensures 0.0 <= f <= 1.0 <==> 0.0 <= Share(f, n) <= n as real
  {
    var x := n as real;
    if f < 0.0 { assert f * x < 0.0; }
    if f > 1.0 { assert (f - 1.0) * x > 0.0 && (f - 1.0) * x == f * x - x; }
    if 0.0 <= f <= 1.0 { Scaled(f, x); }
  }

  // ---- auto ----

  datatype Auto = Pick(head: nat, tail: nat) | NotViable

  /** How many layers to lock for banks of `bank` bytes in all and `budget` bytes that may be pinned. */
  function LockCount(n: nat, bank: nat, budget: int): int
    requires bank > 0
  {
    var want := DivCeil(n * (bank - budget), bank);
    if want < n then want else n
  }

  /** _auto_cpu_layers, the budget known: ids 0.. head and n - tail.. n. */
  function AutoPick(n: nat, bank: nat, budget: int, viable: bool): Auto {
    if bank == 0 || bank <= budget then Pick(0, 0)
    else if !viable then NotViable
    else
      LockCountInRange(n, bank, budget);
      var lock := LockCount(n, bank, budget);
      Pick((lock + 1) / 2, lock - (lock + 1) / 2)
  }

  lemma LockCountInRange(n: nat, bank: nat, budget: int)
    requires bank > 0 && budget < bank
    ensures 0 <= LockCount(n, bank, budget) <= n
  {
    assert n * (bank - budget) >= 0;
  }

  /** frozenset(range(head)) | frozenset(range(n - tail, n)) */
  function Locked(n: nat, p: Auto): set<int>
    requires p.Pick?
  {
    Interval(0, p.head) + Interval(n - p.tail, n)
  }

  /** With lock of n equal layers locked, the rest can be pinned: n - lock of bank / n bytes each. */
  predicate Enough(n: nat, bank: nat, budget: int, lock: int) {
    (n - lock) * bank <= budget * n
  }

  lemma LeastLock(n: nat, bank: nat, budget: int, lock: int)
    requires bank > 0
    ensures Enough(n, bank, budget, lock) <==> DivCeil(n * (bank - budget), bank) <= lock
  {
    var a := n * (bank - budget);
    assert (n - lock) * bank == n * bank - lock * bank && a == n * bank - n * budget;
    DivCeilIsLeast(a, bank, lock);
  }

  /** The automatic pick locks the least number of layers whose removal lets the rest be pinned, split
      evenly between the first and the last, which do not meet. */
  lemma AutoPicksLeast(n: nat, bank: nat, budget: int)
    requires 0 <= budget < bank
    ensures var p := AutoPick(n, bank, budget, true);
      && p.Pick? && 0 <= p.head - p.tail <= 1
      && Interval(0, p.head) !! Interval(n - p.tail, n)
      && |Locked(n, p)| == p.head + p.tail
      && (forall id <- Locked(n, p) :: 0 <= id < n)
      && Enough(n, bank, budget, p.head + p.tail)
      && forall fewer :: 0 <= fewer < p.head + p.tail ==> !Enough(n, bank, budget, fewer)
  {
    hide DivCeil, Enough, Interval, Locked;
    LockCountInRange(n, bank, budget);
    LeastLock(n, bank, budget, n);
    EnoughForAll(n, bank, budget);
    var lock := LockCount(n, bank, budget);
    LeastLock(n, bank, budget, lock);
    forall fewer | 0 <= fewer < lock ensures !Enough(n, bank, budget, fewer) {
      LeastLock(n, bank, budget, fewer);
    }
    var p := AutoPick(n, bank, budget, true);
    LockedCount(n, p.head, p.tail);
  }

  lemma LockedCount(n: nat, head: nat, tail: nat)
    requires head + tail <= n
    ensures Interval(0, head) !! Interval(n - tail, n)
    ensures |Locked(n, Pick(head, tail))| == head + tail
    ensures forall id <- Locked(n, Pick(head, tail)) :: 0 <= id < n
  {
  }

  lemma EnoughForAll(n: nat, bank: nat, budget: int)
    ensures budget >= 0 ==> Enough(n, bank, budget, n)
    ensures budget <= 0 < bank ==> forall fewer :: Enough(n, bank, budget, fewer) ==> fewer >= n
  {
    assert (n - n) * bank == 0;
    if budget >= 0 { assert budget * n >= 0; }
    if budget <= 0 < bank {
      assert budget * n <= 0;
      forall fewer | Enough(n, bank, budget, fewer) ensures fewer >= n { Multiples(n - fewer, bank); }
    }
  }

  /** With nothing to pin to, or less, every layer is locked; with room for all, none; and a pick that is
      needed is refused exactly when the CPU cannot serve the model. */
  lemma AutoAtTheEnds(n: nat, bank: nat, budget: int, viable: bool)
    ensures bank <= budget || bank == 0 ==> AutoPick(n, bank, budget, viable) == Pick(0, 0)
    ensures AutoPick(n, bank, budget, viable).NotViable? <==> bank > 0 && bank > budget && !viable
    ensures budget <= 0 < bank && viable ==> var p := AutoPick(n, bank, budget, viable); p.head + p.tail == n
  {
    hide DivCeil, Enough;
    if budget <= 0 < bank && viable {
      LockCountInRange(n, bank, budget);
      EnoughForAll(n, bank, budget);
      LeastLock(n, bank, budget, DivCeil(n * (bank - budget), bank));
    }
  }
}
