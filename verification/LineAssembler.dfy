// LineAssembler: a terminal-style character stream becomes finalized lines and redrawn partials.
module LineAssembly {

  datatype Event = Line(text: string) | Partial(text: string)

  // ---- one character at a time ----

  datatype Assembler = Assembler(cur: string, cr: bool)

  const START := Assembler("", false)

  /** The body of feed's loop: the new state, */
  function Next(a: Assembler, ch: char): Assembler {
    if ch == '\r' then a.(cr := true)
    else if ch == '\n' then START
    else if a.cr then Assembler([ch], false)
    else Assembler(a.cur + [ch], false)
  }

  /** and what is emitted. */
  function Out(a: Assembler, ch: char): seq<Event> {
    if ch == '\r' then [] else if ch == '\n' then [Line(a.cur)] else if a.cr then [Partial(a.cur)] else []
  }

  function After(a: Assembler, text: string): Assembler
    decreases |text|
  {
    if text == "" then a else After(Next(a, text[0]), text[1..])
  }

  function Emitted(a: Assembler, text: string): seq<Event>
    decreases |text|
  {
    if text == "" then [] else Out(a, text[0]) + Emitted(Next(a, text[0]), text[1..])
  }

  /** What flush emits. */
  function Trailing(a: Assembler): seq<Event> {
    if a.cr then [Partial(a.cur)] else if a.cur != "" then [Line(a.cur)] else []
  }

  /** Everything a stream comes to from a on, fed in one piece and flushed. */
  function From(a: Assembler, text: string): seq<Event> {
    Emitted(a, text) + Trailing(After(a, text))
  }

  lemma FromNext(a: Assembler, text: string)
    requires text != ""
    ensures From(a, text) == Out(a, text[0]) + From(Next(a, text[0]), text[1..])
  {
  }

  // ---- the chunks do not matter ----

  lemma {:induction false} FeedTwice(a: Assembler, x: string, y: string)
    ensures After(a, x + y) == After(After(a, x), y)
    ensures Emitted(a, x + y) == Emitted(a, x) + Emitted(After(a, x), y)
    decreases |x|
  {
    if x == "" {
      assert x + y == y;
    } else {
      assert (x + y)[0] == x[0] && (x + y)[1..] == x[1..] + y;
      FeedTwice(Next(a, x[0]), x[1..], y);
    }
  }

  lemma FeedOne(a: Assembler, x: string, ch: char)
    ensures After(a, x + [ch]) == Next(After(a, x), ch)
    ensures Emitted(a, x + [ch]) == Emitted(a, x) + Out(After(a, x), ch)
  {
    FeedTwice(a, x, [ch]);
    assert Emitted(After(a, x), [ch]) == Out(After(a, x), ch) + [];
  }

  function Join(chunks: seq<string>): string {
    if chunks == [] then "" else Join(chunks[..|chunks| - 1]) + chunks[|chunks| - 1]
  }

  // ---- what the stream means ----

  /** Each CR run before a LF deleted, every other CR run collapsed to one CR. */
  function Normalised(text: string): string {
    if text == "" then ""
    else if text[0] == '\r' && |text| > 1 && (text[1] == '\r' || text[1] == '\n') then Normalised(text[1..])
    else [text[0]] + Normalised(text[1..])
  }

  /** A position is kept unless it is a CR with a CR or LF after it. */
  predicate Kept(text: string, i: nat)
    requires i < |text|
  {
    text[i] != '\r' || i + 1 == |text| || (text[i + 1] != '\r' && text[i + 1] != '\n')
  }

  predicate IsNormal(text: string) {
    forall i :: 0 <= i < |text| ==> Kept(text, i)
  }

  lemma {:induction false} NormalisedIsNormal(text: string)
    ensures IsNormal(Normalised(text)) && |Normalised(text)| <= |text|
    ensures text != "" ==> Normalised(text) != ""
    ensures text != "" && text[0] != '\r' ==> Normalised(text)[0] == text[0]
    ensures text != "" && text[0] == '\r' && Normalised(text)[0] != '\r' ==> Normalised(text)[0] == '\n'
  {
    if text != "" {
      NormalisedIsNormal(text[1..]);
      var n, rest := Normalised(text), Normalised(text[1..]);
      if n == [text[0]] + rest {
        forall i | 0 <= i < |n| ensures Kept(n, i) {
          if i > 0 { assert Kept(rest, i - 1); }
        }
      }
    }
  }

  /** Nothing to do on normal text, so normalising twice is normalising once. */
  lemma {:induction false} NormalStays(text: string)
    requires IsNormal(text)
    ensures Normalised(text) == text
  {
    if text != "" {
      assert Kept(text, 0);
      forall i | 0 <= i < |text[1..]| ensures Kept(text[1..], i) { assert Kept(text, i + 1); }
      NormalStays(text[1..]);
    }
  }

  /** The first CR or LF at or after i, or the end. */
  function NextBreak(text: string, i: nat): (k: nat)
    requires i <= |text|
    ensures i <= k <= |text| && forall j :: i <= j < k ==> text[j] != '\r' && text[j] != '\n'
    ensures k < |text| ==> text[k] == '\r' || text[k] == '\n'
    decreases |text| - i
  {
    if i == |text| || text[i] == '\r' || text[i] == '\n' then i else NextBreak(text, i + 1)
  }

  /** The plain reading of normal text: a LF ends a line, a CR a partial, the rest is a line. */
  function Split(text: string): seq<Event> {
    var k := NextBreak(text, 0);
    if k == |text| then (if text == "" then [] else [Line(text)])
    else [if text[k] == '\n' then Line(text[..k]) else Partial(text[..k])] + Split(text[k + 1..])
  }

  /** Normalising first changes no event. */
  lemma {:induction false} FromNormalised(a: Assembler, text: string)
    requires a.cr ==> text == "" || (text[0] != '\r' && text[0] != '\n')
    ensures From(a, text) == From(a, Normalised(text))
    decreases |text|
  {
    if text != "" {
      FromNext(a, text);
      var rest := text[1..];
      var b := Next(a, text[0]);
      if text[0] == '\r' && rest != "" && (rest[0] == '\r' || rest[0] == '\n') {
        FromNormalised(a, rest);
        FromNext(b, rest);
        FromNext(a, rest);
        assert Next(b, rest[0]) == Next(a, rest[0]);
      } else {
        var n := Normalised(text);
        assert n[0] == text[0] && n[1..] == Normalised(rest);
        FromNext(a, n);
        FromNormalised(b, rest);
      }
    }
  }

  lemma {:induction false} FromPlain(a: Assembler, plain: string, text: string)
    requires !a.cr && forall j :: 0 <= j < |plain| ==> plain[j] != '\r' && plain[j] != '\n'
    ensures From(a, plain + text) == From(Assembler(a.cur + plain, false), text)
    decreases |plain|
  {
    if plain == "" {
      assert plain + text == text && a.cur + plain == a.cur;
    } else {
      FromNext(a, plain + text);
      assert (plain + text)[1..] == plain[1..] + text;
      FromPlain(Assembler(a.cur + [plain[0]], false), plain[1..], text);
      assert a.cur + [plain[0]] + plain[1..] == a.cur + plain;
    }
  }

  /** After a lone CR the line shown is a partial, and the next starts afresh. */
  lemma FromReturn(cur: string, text: string)
    ensures (text != "" ==> text[0] != '\r' && text[0] != '\n') ==>
              From(Assembler(cur, true), text) == [Partial(cur)] + From(START, text)
  {
    if text != "" && text[0] != '\r' && text[0] != '\n' {
      FromNext(Assembler(cur, true), text);
      FromNext(START, text);
      assert START.cur + [text[0]] == [text[0]];
    }
  }

  /** On normal text the assembler is the plain reading. */
  lemma {:induction false} FromNormal(text: string)
    requires IsNormal(text)
    ensures From(START, text) == Split(text)
    decreases |text|
  {
    var k := NextBreak(text, 0);
    var head, tail := text[..k], text[k..];
    FromPlain(START, head, tail);
    assert text == head + tail && START.cur + head == head;
    if k < |text| {
      assert tail[0] == text[k] && tail[1..] == text[k + 1..];
      NormalTail(text, k);
      FromNormal(text[k + 1..]);
      FromNext(Assembler(head, false), tail);
      FromReturn(head, text[k + 1..]);
    } else {
      assert tail == "" && head == text;
      assert From(Assembler(head, false), "") == Trailing(Assembler(head, false));
    }
  }

  lemma NormalTail(text: string, k: nat)
    requires IsNormal(text) && k < |text|
    ensures IsNormal(text[k + 1..])
    ensures text[k] == '\r' && k + 1 < |text| ==> text[k + 1] != '\r' && text[k + 1] != '\n'
  {
    assert Kept(text, k);
    var rest := text[k + 1..];
    forall i | 0 <= i < |rest| ensures Kept(rest, i) { assert Kept(text, k + 1 + i); }
  }

  /** Whatever the stream, its events are those of the plain reading of its normalised text. */
  lemma WholeIsSplit(text: string)
    ensures From(START, text) == Split(Normalised(text))
  {
    FromNormalised(START, text);
    NormalisedIsNormal(text);
    FromNormal(Normalised(text));
  }

  // ---- nothing shown is lost ----

  function Shown(text: string): string {
    if text == "" then ""
    else if text[0] == '\r' || text[0] == '\n' then Shown(text[1..])
    else [text[0]] + Shown(text[1..])
  }

  function Texts(events: seq<Event>): string {
    if events == [] then "" else events[0].text + Texts(events[1..])
  }

  lemma {:induction false} TextsConcat(x: seq<Event>, y: seq<Event>)
    ensures Texts(x + y) == Texts(x) + Texts(y)
  {
    if x == [] {
      assert x + y == y;
    } else {
      assert (x + y)[0] == x[0] && (x + y)[1..] == x[1..] + y;
      TextsConcat(x[1..], y);
    }
  }

  lemma {:induction false} FromShows(a: Assembler, text: string)
    ensures Texts(From(a, text)) == a.cur + Shown(text)
    decreases |text|
  {
    if text == "" {
      assert Trailing(a) != [] ==> Trailing(a)[1..] == [];
    } else {
      var b := Next(a, text[0]);
      FromShows(b, text[1..]);
      FromNext(a, text);
      TextsConcat(Out(a, text[0]), From(b, text[1..]));
      OneShown(a, text[0], Shown(text[1..]));
    }
  }

  lemma OneShown(a: Assembler, ch: char, rest: string)
    ensures Texts(Out(a, ch)) + (Next(a, ch).cur + rest) ==
            a.cur + (if ch == '\r' || ch == '\n' then rest else [ch] + rest)
  {
    assert Out(a, ch) != [] ==> Out(a, ch)[1..] == [];
  }

  /** The texts emitted, in order, are the input without its CRs and LFs. */
  lemma NothingShownIsLost(text: string)
    ensures Texts(From(START, text)) == Shown(text)
  {
    FromShows(START, text);
  }

  // ---- the class ----

  class LineAssembler {
    var cur: string
    var cr: bool

    ghost function State(): Assembler
      reads this
    {
      Assembler(cur, cr)
    }

    constructor ()
      ensures State() == START
    {
      cur := "";
      cr := false;
    }

    method Feed(text: string) returns (out: seq<Event>)
      modifies this
      ensures State() == After(old(State()), text) && out == Emitted(old(State()), text)
    {
      out := [];
      for i := 0 to |text|
        invariant State() == After(old(State()), text[..i]) && out == Emitted(old(State()), text[..i])
      {
        var ch := text[i];
        FeedOne(old(State()), text[..i], ch);
        assert text[..i + 1] == text[..i] + [ch];
        if ch == '\r' {
          cr := true;
          continue;
        }
        if cr {
          cr := false;
          if ch == '\n' {
            out := out + [Line(cur)];
            cur := "";
            continue;
          }
          out := out + [Partial(cur)];
          cur := [ch];
          continue;
        }
        if ch == '\n' {
          out := out + [Line(cur)];
          cur := "";
        } else {
          cur := cur + [ch];
        }
      }
      assert text[..|text|] == text;
    }

    /** A second flush has nothing left to emit. */
    method Flush() returns (out: seq<Event>)
      modifies this
      ensures out == Trailing(old(State())) && Trailing(State()) == []
    {
      out := [];
      if cr {
        cr := false;
        out := [Partial(cur)];
        cur := "";
      } else if cur != "" {
        out := [Line(cur)];
        cur := "";
      }
    }
  }

  /** However the stream is cut into chunks, feeding them and flushing gives the plain reading of the
      normalised whole. */
  method Assemble(chunks: seq<string>) returns (out: seq<Event>)
    ensures out == Split(Normalised(Join(chunks)))
  {
    var assembler := new LineAssembler();
    out := [];
    for i := 0 to |chunks|
      invariant assembler.State() == After(START, Join(chunks[..i])) && out == Emitted(START, Join(chunks[..i]))
    {
      var more := assembler.Feed(chunks[i]);
      FeedTwice(START, Join(chunks[..i]), chunks[i]);
      assert chunks[..i + 1][..i] == chunks[..i];
      out := out + more;
    }
    assert chunks[..|chunks|] == chunks;
    WholeIsSplit(Join(chunks));
    var last := assembler.Flush();
    out := out + last;
  }
}
