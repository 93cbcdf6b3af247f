// The ring of window slots a decode step attends to.
module DecodeWindow {
  import opened Basics

  /** The position ring slot j stands for at position pos; negative when there is none yet. */
  function PositionOf(pos: nat, j: nat, win: nat): int
    requires win > 0
  {
    pos - (pos - j) % win
  }

  /** torch.clamp(min=0). */
  function Clamp(p: int): nat { if p < 0 then 0 else p }

  /** window_slots_topk of one request: two masks over the translated snapshot. */
  function WindowSlots(snap: seq<int>, translate: int -> int, pos: nat, win: nat): (slots: seq<int>)
    requires win > 0 && pos < |snap|
  {
    seq(win, j requires 0 <= j < win => Slot(snap, translate, pos, win, j))
  }

  function Slot(snap: seq<int>, translate: int -> int, pos: nat, win: nat, j: nat): int
    requires j < win && pos < |snap|
  {
    var p := PositionOf(pos, j, win);
    SlotPosition(pos, j, win);
    var ring := if p >= 0 then translate(snap[Clamp(p)]) else -1;
    if j <= pos then ring else -1
  }

  /** p is one of the last win positions. */
  predicate InWindow(p: int, pos: nat, win: nat) {
    0 <= p <= pos && p > pos - win
  }

  lemma Residue(x: int, y: int, win: nat)
    requires win > 0 && x <= y < x + win && x % win == y % win
    ensures x == y
  {
    var a, b := x / win, y / win;
    assert x == a * win + x % win && y == b * win + y % win;
    assert (b - a) * win == b * win - a * win && (a - b) * win == a * win - b * win;
    Multiples(b - a, win);
    Multiples(a - b, win);
  }

  /** The two masks agree, and a slot stands for the latest position not after pos that falls on it. */
  lemma SlotPosition(pos: nat, j: nat, win: nat)
    requires j < win
    ensures PositionOf(pos, j, win) >= 0 <==> j <= pos
    ensures j <= pos ==> InWindow(PositionOf(pos, j, win), pos, win) && PositionOf(pos, j, win) % win == j
    ensures j > pos ==> PositionOf(pos, j, win) == j - win
  {
    var d := pos - j;
    if j <= pos {
      var q, r := d / win, d % win;
      assert d == q * win + r;
      Multiples(q, win);
      DivMod(j + q * win, win, q, j);
    } else {
      DivMod(d, win, -1, d + win);
    }
  }

  /** A position of the window is what its own residue stands for. */
  lemma PositionSlot(pos: nat, p: int, win: nat)
    requires win > 0 && InWindow(p, pos, win)
    ensures p % win <= pos && PositionOf(pos, p % win, win) == p
  {
    var j := p % win;
    assert p == p / win * win + j;
    Multiples(p / win, win);
    SlotPosition(pos, j, win);
    var x := PositionOf(pos, j, win);
    if x <= p { Residue(x, p, win); } else { Residue(p, x, win); }
  }

  /** Over all slots the window shows exactly the last min(win, pos + 1) positions, each once, in the slot
      of its residue; every other slot is -1. */
  lemma WindowIsBijective(snap: seq<int>, translate: int -> int, pos: nat, win: nat)
    requires win > 0 && pos < |snap|
    ensures var slots := WindowSlots(snap, translate, pos, win);
      && |slots| == win
      && (forall p: nat :: InWindow(p, pos, win) ==> p % win < win && slots[p % win] == translate(snap[p]))
      && (forall p: nat, q: nat :: InWindow(p, pos, win) && InWindow(q, pos, win) && p % win == q % win ==> p == q)
      && (forall j: nat :: j < win && slots[j] != -1 ==> j <= pos && InWindow(PositionOf(pos, j, win), pos, win))
      && (forall j: nat :: pos < j < win ==> slots[j] == -1)
  {
    var slots := WindowSlots(snap, translate, pos, win);
    forall p: nat | InWindow(p, pos, win) ensures p % win < win && slots[p % win] == translate(snap[p]) {
      PositionSlot(pos, p, win);
    }
    forall p: nat, q: nat | InWindow(p, pos, win) && InWindow(q, pos, win) && p % win == q % win ensures p == q {
      if p <= q { Residue(p, q, win); } else { Residue(q, p, win); }
    }
    forall j: nat | j < win ensures (slots[j] != -1 ==> j <= pos && InWindow(PositionOf(pos, j, win), pos, win)) {
      SlotPosition(pos, j, win);
    }
  }

  /** One step on, only the slot of the new position changes: the window is a ring. */
  lemma WindowStep(snap: seq<int>, translate: int -> int, pos: nat, win: nat, j: nat)
    requires win > 0 && pos + 1 < |snap| && j < win
    ensures WindowSlots(snap, translate, pos + 1, win)[j] ==
            if j == (pos + 1) % win then translate(snap[pos + 1]) else WindowSlots(snap, translate, pos, win)[j]
  {
    SlotPosition(pos, j, win);
    SlotPosition(pos + 1, j, win);
    if j == (pos + 1) % win {
      PositionSlot(pos + 1, pos + 1, win);
    } else if j <= pos {
      var p := PositionOf(pos + 1, j, win);
      assert p != pos + 1;
      if InWindow(p, pos, win) {
        PositionSlot(pos, p, win);
      } else {
        OldestLeaves(pos, p, win);
      }
    } else if j == pos + 1 {
      DivMod(pos + 1, win, 0, j);
    }
  }

  lemma OldestLeaves(pos: nat, p: int, win: nat)
    requires win > 0
    ensures !(InWindow(p, pos + 1, win) && p != pos + 1 && !InWindow(p, pos, win))
  {
  }
}
