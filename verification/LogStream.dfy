// _log_stream: replay, then the live tail through a bounded drop-oldest queue, with gap frames for
// what was lost. A record is its number in the ring's history. The tailer appends and schedules
// callbacks; the event loop runs the callbacks and the generator; every order of these steps is a run.
module LogStream {
  import opened Basics
  import LogRing

  const QUEUE_MAX: nat := 1000

  /** A data frame, or a gap frame. `records` is which records the gap stands for; clients do not see it. */
  datatype Frame = Line(seqNo: int) | Gap(dropped: int, fromSeq: int, toSeq: int, records: set<int>)

  /** Where the handler and its generator are. */
  datatype Phase =
    | Opening
    | Snapped(oldest: int)
    | Replaying(i: int)
    | Waiting(last: int)
    | Took(rec: int, prev: int)
    | Sending(rec: int)
    | Gone

  /** What drop[] holds, and which records it counts. */
  datatype Drop = Drop(n: nat, fromSeq: int, toSeq: int, records: set<int>)

  const NOTHING := Drop(0, -1, -1, {})

  datatype Stream = Stream(
    since: int, capacity: nat, next: nat, ready: seq<int>,
    boundary: nat, q: seq<int>, drop: Drop, phase: Phase, frames: seq<Frame>)

  ghost predicate Init(s: Stream) {
    s.ready == [] && s.q == [] && s.drop == NOTHING && s.phase == Opening && s.frames == [] && s.boundary == 0
  }

  function Range(lo: int, hi: int): (r: set<int>)
    ensures forall x :: x in r <==> lo <= x < hi
    ensures lo <= hi ==> |r| == hi - lo
    decreases hi - lo
  {
    if lo >= hi then {} else Range(lo, hi - 1) + {hi - 1}
  }

  // ---- steps ----

  /** The tailer appends a record; the subscriber's callback is scheduled on the loop. */
  function AppendStep(s: Stream): Stream {
    s.(next := s.next + 1, ready := s.ready + [s.next])
  }

  /** ring.since(since): the oldest record replayed, which is the cursor when there is none. */
  function FirstReplayed(s: Stream): int {
    var held := LogRing.Oldest(s.next, s.capacity);
    if s.since <= held then held else if s.since <= s.next then s.since else s.next
  }

  function SnapshotStep(s: Stream): Stream {
    s.(boundary := s.next, phase := Snapped(FirstReplayed(s)))
  }

  function Dropped(d: Drop, lost: int): (e: Drop)
    ensures e.records == d.records + {lost} && e.n > 0
  {
    Drop(d.n + 1, if d.n == 0 then lost else d.fromSeq, lost, d.records + {lost})
  }

  /** One scheduled _put. */
  function PutStep(s: Stream): Stream
    requires s.ready != []
  {
    var rec, t := s.ready[0], s.(ready := s.ready[1..]);
    if rec < s.boundary then t
    else if |s.q| < QUEUE_MAX then t.(q := s.q + [rec])
    else
      t.(q := s.q[1..] + [rec], drop := Dropped(s.drop, s.q[0]))
  }

  function StartStep(s: Stream): Stream
    requires s.phase.Snapped?
  {
    var t := s.(phase := Replaying(s.phase.oldest));
    if s.phase.oldest <= s.since then t
    else
      t.(frames := s.frames +
        [Gap(s.phase.oldest - s.since, s.since, s.phase.oldest - 1, Range(s.since, s.phase.oldest))])
  }

  function ReplayStep(s: Stream): Stream
    requires s.phase.Replaying?
  {
    if s.phase.i < s.boundary then s.(frames := s.frames + [Line(s.phase.i)], phase := Replaying(s.phase.i + 1))
    else s.(phase := Waiting(s.boundary - 1))
  }

  /** q.get() completes; before Python 3.12 wait_for returns to the generator only later. */
  function TakeStep(s: Stream): Stream
    requires s.phase.Waiting? && s.q != []
  {
    s.(q := s.q[1..], phase := Took(s.q[0], s.phase.last))
  }

  /** The generator goes on with the record: duplicates are skipped, losses announced. */
  function ResumeStep(s: Stream): Stream
    requires s.phase.Took?
  {
    if s.phase.rec <= s.phase.prev then s.(phase := Waiting(s.phase.prev))
    else if s.drop.n == 0 then s.(phase := Sending(s.phase.rec))
    else
      s.(frames := s.frames + [Gap(s.drop.n, s.drop.fromSeq, s.drop.toSeq, s.drop.records)],
         drop := NOTHING, phase := Sending(s.phase.rec))
  }

  function SendStep(s: Stream): Stream
    requires s.phase.Sending?
  {
    s.(frames := s.frames + [Line(s.phase.rec)], phase := Waiting(s.phase.rec))
  }

  datatype Step = Append | Snapshot | Put | Start | Replay | Take | Resume | Send | Leave

  /** No callback runs before the handler has set the boundary and yielded control. */
  predicate Enabled(s: Stream, step: Step) {
    match step
    case Append => !s.phase.Gone?
    case Snapshot => s.phase.Opening?
    case Put => !s.phase.Opening? && !s.phase.Gone? && s.ready != []
    case Start => s.phase.Snapped?
    case Replay => s.phase.Replaying?
    case Take => s.phase.Waiting? && s.q != []
    case Resume => s.phase.Took?
    case Send => s.phase.Sending?
    case Leave => !s.phase.Opening?
  }

  function Do(s: Stream, step: Step): Stream
    requires Enabled(s, step)
  {
    match step
    case Append => AppendStep(s)
    case Snapshot => SnapshotStep(s)
    case Put => PutStep(s)
    case Start => StartStep(s)
    case Replay => ReplayStep(s)
    case Take => TakeStep(s)
    case Resume => ResumeStep(s)
    case Send => SendStep(s)
    case Leave => s.(phase := Gone)
  }

  // ---- the account ----

  function One(f: Frame, x: int): nat {
    match f
    case Line(n) => if n == x then 1 else 0
    case Gap(_, _, _, records) => if x in records then 1 else 0
  }

  /** How often record x was sent or counted in a gap frame. */
  function Count(frames: seq<Frame>, x: int): nat {
    if frames == [] then 0 else Count(frames[..|frames| - 1], x) + One(frames[|frames| - 1], x)
  }

  lemma CountSnoc(frames: seq<Frame>, f: Frame, x: int)
    ensures Count(frames + [f], x) == Count(frames, x) + One(f, x)
  {
    assert (frames + [f])[..|frames|] == frames;
  }

  /** A gap frame says how many records it stands for, and the first and the last of them. */
  ghost predicate Honest(f: Frame) {
    f.Gap? ==>
      && f.dropped == |f.records| && f.fromSeq in f.records && f.toSeq in f.records
      && forall x <- f.records :: f.fromSeq <= x <= f.toSeq
  }

  /** The data frames carry rising numbers. */
  ghost predicate Rising(frames: seq<Frame>) {
    forall i, j :: 0 <= i < j < |frames| && frames[i].Line? && frames[j].Line? ==> frames[i].seqNo < frames[j].seqNo
  }

  ghost predicate Below(frames: seq<Frame>, bound: int) {
    forall f <- frames :: f.Line? ==> f.seqNo < bound
  }

  // ---- the invariant ----

  /** The next record to be queued. */
  function Queued(s: Stream): int {
    if s.next - |s.ready| < s.boundary then s.boundary else s.next - |s.ready|
  }

  /** Everything live below this has left the queue. */
  function Head(s: Stream): int {
    Queued(s) - |s.q|
  }

  /** The first record the stream answers for. */
  function Base(s: Stream): int {
    if s.since <= s.boundary then s.since else s.boundary
  }

  /** How far the replay has come. */
  function Replayed(s: Stream): int {
    match s.phase
    case Opening => Base(s)
    case Snapped(_) => Base(s)
    case Replaying(i) => i
    case _ => s.boundary
  }

  /** All data frames so far are below this, */
  function Bound(s: Stream): int {
    match s.phase
    case Opening => Base(s)
    case Snapped(_) => Base(s)
    case Replaying(i) => i
    case Waiting(last) => last + 1
    case Took(_, prev) => prev + 1
    case Sending(rec) => rec
    case Gone => s.next
  }

  /** and all dropped records that are not yet announced are at or above this. */
  function Floor(s: Stream): int {
    match s.phase
    case Waiting(last) => last + 1
    case Took(_, prev) => prev + 1
    case Sending(rec) => rec + 1
    case _ => s.boundary
  }

  predicate Holds(s: Stream, x: int) {
    (s.phase.Took? || s.phase.Sending?) && s.phase.rec == x
  }

  function Bit(b: bool): nat {
    if b then 1 else 0
  }

  /** The callbacks and the queue hold consecutive records. */
  ghost predicate Consecutive(s: Stream) {
    && |s.ready| <= s.next && s.boundary <= s.next && |s.q| <= QUEUE_MAX
    && (forall i :: 0 <= i < |s.ready| ==> s.ready[i] == s.next - |s.ready| + i)
    && (forall i :: 0 <= i < |s.q| ==> s.q[i] == Head(s) + i)
    && s.boundary <= Head(s)
    && (s.phase.Opening? ==> s.q == [] && s.drop == NOTHING && s.frames == [] && s.boundary == 0)
  }

  /** The phases follow one another. */
  ghost predicate Placed(s: Stream) {
    && (s.phase.Snapped? ==>
          && 0 <= s.phase.oldest <= s.boundary && s.frames == []
          && (if s.since <= s.boundary then s.since <= s.phase.oldest else s.phase.oldest == s.boundary))
    && (s.phase.Replaying? ==> Base(s) <= s.phase.i <= s.boundary)
    && s.boundary <= Floor(s) <= Head(s)
    && (s.phase.Took? || s.phase.Sending? ==>
          Bound(s) <= s.phase.rec < Head(s) && s.phase.rec >= s.boundary && s.phase.rec !in s.drop.records)
  }

  ghost predicate DropFits(s: Stream) {
    && Honest(Gap(s.drop.n, s.drop.fromSeq, s.drop.toSeq, s.drop.records)) == (s.drop.n > 0)
    && (s.drop.n == 0 ==> s.drop.records == {})
    && (forall x <- s.drop.records :: Floor(s) <= x < Head(s))
    && (s.drop.n > 0 ==> forall x: int :: x in s.drop.records <==> s.drop.fromSeq <= x < Head(s) && !Holds(s, x))
  }

  /** Whatever is behind the replay or has left the queue was sent once, counted in one gap frame,
      waits in drop[], or is in the generator's hands. */
  ghost predicate Tally(s: Stream) {
    !s.phase.Opening? ==>
      forall x: int ::
        Count(s.frames, x) + Bit(x in s.drop.records) + Bit(Holds(s, x)) ==
        Bit(Base(s) <= x < Replayed(s) || s.boundary <= x < Head(s))
  }

  /** The range a gap frame names holds just what was lost, */
  ghost predicate Exact(f: Frame)
    requires f.Gap?
  {
    forall x: int :: x in f.records <==> f.fromSeq <= x <= f.toSeq
  }

  /** or that and one record which is sent right after it. */
  ghost predicate ExactBut(f: Frame, next: int)
    requires f.Gap?
  {
    forall x: int :: x in f.records <==> f.fromSeq <= x <= f.toSeq && x != next
  }

  ghost predicate TightAt(frames: seq<Frame>, phase: Phase, k: nat)
    requires k < |frames|
  {
    frames[k].Gap? ==>
      || Exact(frames[k])
      || (k + 1 < |frames| && frames[k + 1].Line? && ExactBut(frames[k], frames[k + 1].seqNo))
      || (k + 1 == |frames| && phase.Sending? && ExactBut(frames[k], phase.rec))
  }

  ghost predicate Tight(s: Stream) {
    forall k :: 0 <= k < |s.frames| ==> TightAt(s.frames, s.phase, k)
  }

  ghost predicate Framed(s: Stream) {
    Rising(s.frames) && Below(s.frames, Bound(s)) && Tight(s) && forall f <- s.frames :: Honest(f)
  }

  ghost predicate Inv(s: Stream) {
    s.phase.Gone? || (Consecutive(s) && Placed(s) && DropFits(s) && Tally(s) && Framed(s))
  }

  lemma InitInv(s: Stream)
    requires Init(s)
    ensures Inv(s)
  {
  }

  // ---- every step keeps it ----

  lemma RisingSnoc(frames: seq<Frame>, f: Frame, bound: int)
    requires Rising(frames) && Below(frames, bound) && (f.Line? ==> f.seqNo >= bound)
    ensures Rising(frames + [f])
    ensures forall b: int :: b >= bound && (f.Line? ==> f.seqNo < b) ==> Below(frames + [f], b)
  {
    forall j | 0 <= j < |frames| && frames[j].Line? ensures frames[j].seqNo < bound {
      assert frames[j] in frames;
    }
  }

  lemma BelowMore(frames: seq<Frame>, bound: int, more: int)
    requires Below(frames, bound) && bound <= more
    ensures Below(frames, more)
  {
  }

  lemma FramedSame(s: Stream, t: Stream)
    requires Framed(s) && t.frames == s.frames && Bound(s) <= Bound(t)
    requires s.phase.Sending? ==> t.phase.Sending? && t.phase.rec == s.phase.rec
    ensures Framed(t)
  {
    hide Rising, Honest, Exact, ExactBut, Bound, Below;
    BelowMore(s.frames, Bound(s), Bound(t));
    forall k | 0 <= k < |t.frames| ensures TightAt(t.frames, t.phase, k) { assert TightAt(s.frames, s.phase, k); }
  }

  lemma FramedSnoc(s: Stream, t: Stream, f: Frame)
    requires Framed(s) && t.frames == s.frames + [f] && Bound(s) <= Bound(t)
    requires s.phase.Sending? ==> f == Line(s.phase.rec)
    requires f.Line? ==> Bound(s) <= f.seqNo < Bound(t)
    requires Honest(f) && (f.Gap? ==> Exact(f) || (t.phase.Sending? && ExactBut(f, t.phase.rec)))
    ensures Framed(t)
  {
    hide Rising, Honest, Exact, ExactBut, Bound, Below;
    RisingSnoc(s.frames, f, Bound(s));
    forall k | 0 <= k < |t.frames| ensures TightAt(t.frames, t.phase, k) {
      if k < |s.frames| { assert TightAt(s.frames, s.phase, k); }
    }
  }

  lemma KeepAppend(s: Stream)
    requires Inv(s) && !s.phase.Gone?
    ensures Inv(AppendStep(s))
  {
    hide Count, Framed;
    FramedSame(s, AppendStep(s));
    assert Head(AppendStep(s)) == Head(s);
  }

  lemma KeepSnapshot(s: Stream)
    requires Inv(s) && s.phase.Opening?
    ensures Inv(SnapshotStep(s))
  {
    hide Honest, Exact, ExactBut;
  }

  /** The queue takes the record, at the cost of its oldest when it is full. */
  lemma PutQueue(s: Stream)
    requires Consecutive(s) && s.ready != [] && !s.phase.Opening?
    ensures Consecutive(PutStep(s))
    ensures s.ready[0] == s.next - |s.ready|
    ensures Head(PutStep(s)) == Head(s) + (if s.ready[0] >= s.boundary && |s.q| == QUEUE_MAX then 1 else 0)
    ensures |s.q| > 0 ==> s.q[0] == Head(s)
  {
    var t := PutStep(s);
    assert forall i :: 0 <= i < |t.ready| ==> t.ready[i] == s.ready[i + 1];
  }

  lemma DropMore(d: Drop, head: int)
    requires Honest(Gap(d.n, d.fromSeq, d.toSeq, d.records)) == (d.n > 0) && (d.n == 0 ==> d.records == {})
    requires forall x <- d.records :: x < head
    ensures var e := Dropped(d, head); Honest(Gap(e.n, e.fromSeq, e.toSeq, e.records)) && e.n > 0
  {
  }

  lemma KeepPut(s: Stream)
    requires Inv(s) && !s.phase.Gone? && !s.phase.Opening? && s.ready != []
    ensures Inv(PutStep(s))
  {
    hide Placed, DropFits, Tally, Framed, Consecutive;
    PutQueue(s);
    PutBounds(s);
    FramedSame(s, PutStep(s));
    if s.ready[0] >= s.boundary && |s.q| == QUEUE_MAX {
      OverflowFits(s, PutStep(s));
      OverflowTally(s, PutStep(s));
    } else {
      PutRoom(s, PutStep(s));
    }
  }

  /** The record that falls out of a full queue extends the range of the next gap frame. */
  lemma PutDrop(s: Stream)
    requires Placed(s) && DropFits(s)
    ensures forall x: int :: x in Dropped(s.drop, Head(s)).records <==>
              Dropped(s.drop, Head(s)).fromSeq <= x < Head(s) + 1 && !Holds(s, x)
  {
  }

  lemma PutRoom(s: Stream, t: Stream)
    requires Placed(s) && DropFits(s) && Tally(s) && t == s.(ready := t.ready, q := t.q) && Head(t) == Head(s)
    ensures Placed(t) && DropFits(t) && Tally(t)
  {
    hide Count, Honest;
  }

  /** s, its queue one further on and the head in drop[]. */
  predicate Overflown(s: Stream, t: Stream) {
    t == s.(ready := t.ready, q := t.q, drop := Dropped(s.drop, Head(s))) && Head(t) == Head(s) + 1
  }

  lemma OverflowFits(s: Stream, t: Stream)
    requires Placed(s) && DropFits(s) && Overflown(s, t)
    ensures Placed(t) && DropFits(t)
  {
    hide Honest, Dropped;
    DropMore(s.drop, Head(s));
    PutDrop(s);
  }

  lemma OverflowTally(s: Stream, t: Stream)
    requires Placed(s) && DropFits(s) && Tally(s) && Overflown(s, t)
    ensures Tally(t)
  {
    hide Count, Honest, Dropped;
  }

  lemma PutBounds(s: Stream)
    requires Consecutive(s) && s.ready != [] && !s.phase.Opening?
    ensures |s.q| <= QUEUE_MAX
  {
  }

  lemma KeepStart(s: Stream)
    requires Inv(s) && s.phase.Snapped?
    ensures Inv(StartStep(s))
  {
    hide Framed;
    var t := StartStep(s);
    if s.phase.oldest > s.since {
      var gap := t.frames[0];
      HonestSpan(s.since, s.phase.oldest);
      assert t.frames == s.frames + [gap];
      FramedSnoc(s, t, gap);
      forall x: int ensures Count(t.frames, x) == Bit(s.since <= x < s.phase.oldest) {
        CountSnoc(s.frames, gap, x);
      }
    } else {
      FramedSame(s, t);
    }
  }

  lemma HonestSpan(lo: int, hi: int)
    requires lo < hi
    ensures Honest(Gap(hi - lo, lo, hi - 1, Range(lo, hi))) && Exact(Gap(hi - lo, lo, hi - 1, Range(lo, hi)))
  {
  }

  lemma KeepReplay(s: Stream)
    requires Inv(s) && s.phase.Replaying?
    ensures Inv(ReplayStep(s))
  {
    hide Count, Framed;
    var t := ReplayStep(s);
    if s.phase.i < s.boundary {
      HonestLine(s.phase.i);
      FramedSnoc(s, t, Line(s.phase.i));
      forall x: int ensures Count(t.frames, x) == Count(s.frames, x) + Bit(x == s.phase.i) {
        CountSnoc(s.frames, Line(s.phase.i), x);
      }
    } else {
      FramedSame(s, t);
    }
  }

  lemma HonestLine(n: int)
    ensures Honest(Line(n))
  {
  }

  lemma KeepTake(s: Stream)
    requires Inv(s) && s.phase.Waiting? && s.q != []
    ensures Inv(TakeStep(s))
  {
    hide Count, Framed;
    var t := TakeStep(s);
    FramedSame(s, t);
    assert s.q[0] == Head(s) && Head(t) == Head(s) + 1;
    forall i | 0 <= i < |t.q| ensures t.q[i] == Head(t) + i { assert t.q[i] == s.q[i + 1]; }
  }

  /** The check for duplicates never fires; what was dropped is announced now. */
  lemma KeepResume(s: Stream)
    requires Inv(s) && s.phase.Took?
    ensures s.phase.rec > s.phase.prev && Inv(ResumeStep(s))
  {
    hide Count, Framed, Honest;
    var t := ResumeStep(s);
    var gap := Gap(s.drop.n, s.drop.fromSeq, s.drop.toSeq, s.drop.records);
    if s.drop.n > 0 {
      GapFits(s);
      FramedSnoc(s, t, gap);
      forall x: int ensures Count(t.frames, x) == Count(s.frames, x) + Bit(x in s.drop.records) {
        CountSnoc(s.frames, gap, x);
      }
      EmptyIsNoGap();
    } else {
      FramedSame(s, t);
    }
  }

  lemma GapFits(s: Stream)
    requires DropFits(s) && s.phase.Took? && s.drop.n > 0
    ensures ExactBut(Gap(s.drop.n, s.drop.fromSeq, s.drop.toSeq, s.drop.records), s.phase.rec)
  {
  }

  lemma EmptyIsNoGap()
    ensures !Honest(Gap(0, -1, -1, {}))
  {
  }

  lemma KeepSend(s: Stream)
    requires Inv(s) && s.phase.Sending?
    ensures Inv(SendStep(s))
  {
    hide Count, Framed;
    var t := SendStep(s);
    HonestLine(s.phase.rec);
    FramedSnoc(s, t, Line(s.phase.rec));
    forall x: int ensures Count(t.frames, x) == Count(s.frames, x) + Bit(x == s.phase.rec) {
      CountSnoc(s.frames, Line(s.phase.rec), x);
    }
  }

  lemma KeepStep(s: Stream, step: Step)
    requires Inv(s) && Enabled(s, step)
    ensures Inv(Do(s, step))
  {
    hide Consecutive, Placed, DropFits, Tally, Framed, AppendStep, SnapshotStep, PutStep, StartStep,
      ReplayStep, TakeStep, ResumeStep, SendStep;
    if !s.phase.Gone? {
      match step
      case Append => KeepAppend(s);
      case Snapshot => KeepSnapshot(s);
      case Put => KeepPut(s);
      case Start => KeepStart(s);
      case Replay => KeepReplay(s);
      case Take => KeepTake(s);
      case Resume => KeepResume(s);
      case Send => KeepSend(s);
      case Leave =>
    }
  }

  // ---- over whole runs ----

  ghost predicate Run(states: seq<Stream>, steps: seq<Step>) {
    && |states| == |steps| + 1 && Init(states[0])
    && forall i :: 0 <= i < |steps| ==> Enabled(states[i], steps[i]) && states[i + 1] == Do(states[i], steps[i])
  }

  lemma {:induction false} RunInv(states: seq<Stream>, steps: seq<Step>, i: nat)
    requires Run(states, steps) && i < |states|
    ensures Inv(states[i])
  {
    hide Inv, Init, Do, Enabled;
    if i == 0 {
      InitInv(states[0]);
    } else {
      RunInv(states, steps, i - 1);
      KeepStep(states[i - 1], steps[i - 1]);
    }
  }

  /** Numbers only ever rise: no record is sent twice, or late. */
  lemma SentInOrder(states: seq<Stream>, steps: seq<Step>, i: nat)
    requires Run(states, steps) && i < |states| && !states[i].phase.Gone?
    ensures Rising(states[i].frames)
  {
    hide Run;
    RunInv(states, steps, i);
  }

  /** From the first record asked for, or the first live one when that is earlier, up to the last one
      sent, each record was sent exactly once or is counted in exactly one gap frame, never both; a
      record further on was at most once either, and none from before was. */
  lemma EveryRecordAccountedFor(states: seq<Stream>, steps: seq<Step>, i: nat, last: int, x: int)
    requires Run(states, steps) && i < |states| && !states[i].phase.Gone?
    requires Line(last) in states[i].frames
    ensures Base(states[i]) <= x <= last ==> Count(states[i].frames, x) == 1
    ensures Count(states[i].frames, x) <= 1
    ensures Count(states[i].frames, x) == 1 ==> Base(states[i]) <= x < states[i].next
  {
    hide Run, Count;
    RunInv(states, steps, i);
    var s := states[i];
    assert Tally(s) && Below(s.frames, Bound(s));
  }

  /** The cursor a connection starts from: Last-Event-ID, when it is a number, wins over `since`. */
  function Cursor(lastEventId: Option<nat>, since: int): int {
    if lastEventId.Some? then lastEventId.value + 1 else since
  }

  /** A client that reconnects with the last id it got misses no number between the two connections: a number up
      to that id comes again exactly when it is past the ring's count, as a ring that started over may have it. */
  lemma ResumeContinues(states: seq<Stream>, steps: seq<Step>, i: nat, last: nat,
                        states2: seq<Stream>, steps2: seq<Step>, j: nat, last2: int, x: int)
    requires Run(states, steps) && i < |states| && !states[i].phase.Gone? && Line(last) in states[i].frames
    requires Run(states2, steps2) && j < |states2| && !states2[j].phase.Gone? && Line(last2) in states2[j].frames
    requires states2[j].since == Cursor(Some(last), states[i].since)
    ensures Base(states[i]) <= x <= last2 ==> Count(states[i].frames, x) + Count(states2[j].frames, x) >= 1
    ensures x <= last && x <= last2 ==> Count(states2[j].frames, x) == Bit(x >= states2[j].boundary)
  {
    hide Run, Count;
    EveryRecordAccountedFor(states, steps, i, last, x);
    EveryRecordAccountedFor(states2, steps2, j, last2, x);
  }

  /** Neither connection sent or announced record x of the ring the second one reads. When that is not the ring
      the first one read, but one that started over at 0, what the first one got are other records. */
  ghost predicate Lost(same: bool, s: Stream, t: Stream, x: int) {
    (same ==> Count(s.frames, x) == 0) && Count(t.frames, x) == 0
  }

  /** A resumed stream loses a record without a word exactly when the ring has started over since, the record is
      in the backlog, and its number is not above the last id the client got from the old ring. */
  lemma ResumeLosesExactlyWhen(same: bool, states: seq<Stream>, steps: seq<Step>, i: nat, last: nat,
                               states2: seq<Stream>, steps2: seq<Step>, j: nat, last2: int, x: nat)
    requires Run(states, steps) && i < |states| && !states[i].phase.Gone? && Line(last) in states[i].frames
    requires Run(states2, steps2) && j < |states2| && !states2[j].phase.Gone? && Line(last2) in states2[j].frames
    requires states2[j].since == Cursor(Some(last), states[i].since)
    requires same ==> states[i].next <= states2[j].boundary && Base(states[i]) <= x
    requires x <= last2
    ensures Lost(same, states[i], states2[j], x) <==> !same && x <= last && x < states2[j].boundary
  {
    hide Run, Count;
    EveryRecordAccountedFor(states, steps, i, last, x);
    EveryRecordAccountedFor(states, steps, i, last, last);
    LineCounts(states[i].frames, last);
    EveryRecordAccountedFor(states2, steps2, j, last2, x);
  }

  /** So some record is lost exactly when the ring has started over and is not empty. The case the handler could
      tell, a last id at or past the ring's count, only arises then, and the whole backlog is lost. */
  lemma SomeLostExactlyWhen(same: bool, states: seq<Stream>, steps: seq<Step>, i: nat, last: nat,
                            states2: seq<Stream>, steps2: seq<Step>, j: nat, last2: int)
    requires Run(states, steps) && i < |states| && !states[i].phase.Gone? && Line(last) in states[i].frames
    requires Run(states2, steps2) && j < |states2| && !states2[j].phase.Gone? && Line(last2) in states2[j].frames
    requires states2[j].since == Cursor(Some(last), states[i].since)
    requires same ==> states[i].next <= states2[j].boundary
    ensures (exists x: nat :: x <= last2 && (same ==> Base(states[i]) <= x) && Lost(same, states[i], states2[j], x))
       <==> !same && states2[j].boundary > 0
    ensures last >= states2[j].boundary ==> !same && forall x: nat :: x < states2[j].boundary ==> Lost(same, states[i], states2[j], x)
  {
    hide Run, Count, Lost;
    EveryRecordAccountedFor(states, steps, i, last, last);
    EveryRecordAccountedFor(states2, steps2, j, last2, last2);
    LineCounts(states[i].frames, last);
    LineCounts(states2[j].frames, last2);
    forall x: nat | x <= last2 && (same ==> Base(states[i]) <= x)
      ensures Lost(same, states[i], states2[j], x) <==> !same && x <= last && x < states2[j].boundary
    {
      ResumeLosesExactlyWhen(same, states, steps, i, last, states2, steps2, j, last2, x);
    }
    if !same && states2[j].boundary > 0 { assert Lost(same, states[i], states2[j], 0); }
  }

  // ---- the backlog ----

  /** Asked for, and still in the ring when the backlog was read. */
  predicate Held(s: Stream, x: int) {
    s.since <= x && LogRing.Oldest(s.boundary, s.capacity) <= x < s.boundary
  }

  /** Asked for, and gone by then. */
  predicate Evicted(s: Stream, x: int) {
    s.since <= x < LogRing.Oldest(s.boundary, s.capacity)
  }

  predicate InGap(frames: seq<Frame>, x: int) {
    exists f <- frames :: f.Gap? && x in f.records
  }

  /** What was held and is behind the replay was sent, and of what was there before the live records the gap
      frames count exactly what was evicted. */
  ghost predicate Backlog(s: Stream) {
    match s.phase
    case Opening => s.frames == []
    case Snapped(oldest) => s.frames == [] && StartsRight(s, oldest)
    case Gone => true
    case _ => SentBefore(s, Replayed(s)) && GapsFit(s)
  }

  ghost predicate StartsRight(s: Stream, oldest: int) {
    && (forall x: int :: Held(s, x) ==> oldest <= x)
    && (forall x: int :: Evicted(s, x) <==> s.since <= x < oldest)
  }

  ghost predicate SentBefore(s: Stream, upTo: int) {
    forall x: int :: Held(s, x) && x < upTo ==> Line(x) in s.frames
  }

  ghost predicate GapsFit(s: Stream) {
    forall x: int :: x < s.boundary ==> (InGap(s.frames, x) <==> Evicted(s, x))
  }

  lemma InGapSnoc(frames: seq<Frame>, f: Frame, x: int)
    ensures InGap(frames + [f], x) <==> InGap(frames, x) || (f.Gap? && x in f.records)
  {
  }

  lemma StartKeepsBacklog(s: Stream)
    requires s.phase.Snapped? && Backlog(s)
    ensures Backlog(StartStep(s))
  {
    hide Held, Evicted;
    var t := StartStep(s);
    forall x: int | x < s.boundary ensures InGap(t.frames, x) <==> Evicted(t, x) {
      SameAsked(s, t, x);
      if s.phase.oldest > s.since {
        InGapSnoc([], t.frames[0], x);
        assert t.frames == [] + [t.frames[0]];
      }
    }
    forall x: int ensures Held(t, x) ==> x >= Replayed(t) { SameAsked(s, t, x); }
  }

  lemma SameAsked(s: Stream, t: Stream, x: int)
    requires t.since == s.since && t.capacity == s.capacity && t.boundary == s.boundary
    ensures (Held(t, x) <==> Held(s, x)) && (Evicted(t, x) <==> Evicted(s, x))
  {
  }

  /** One frame more, of a record not counted before the boundary. */
  lemma MoreKeepsBacklog(s: Stream, t: Stream, more: seq<Frame>)
    requires SentBefore(s, Replayed(s)) && GapsFit(s) && t.frames == s.frames + more && |more| <= 1
    requires t.since == s.since && t.capacity == s.capacity && t.boundary == s.boundary
    requires forall f <- more :: f.Gap? ==> forall x <- f.records :: x >= s.boundary
    requires Replayed(t) <= Replayed(s) || (Replayed(t) == Replayed(s) + 1 && more == [Line(Replayed(s))])
    ensures SentBefore(t, Replayed(t)) && GapsFit(t)
  {
    hide Held, Evicted, Replayed;
    forall x: int | x < t.boundary ensures InGap(t.frames, x) <==> Evicted(t, x) {
      SameAsked(s, t, x);
      if more != [] {
        assert more == [more[0]];
        InGapSnoc(s.frames, more[0], x);
      } else {
        assert t.frames == s.frames;
      }
    }
    forall x: int | Held(t, x) && x < Replayed(t) ensures Line(x) in t.frames { SameAsked(s, t, x); }
  }

  lemma KeepBacklog(s: Stream, step: Step)
    requires Inv(s) && Backlog(s) && Enabled(s, step)
    ensures Backlog(Do(s, step))
  {
    hide Inv, GapsFit, SentBefore, Held, Evicted, StartsRight;
    var t := Do(s, step);
    BacklogBounds(s);
    match step
    case Append =>
      if s.phase.Snapped? { SameStart(s, t); }
      else if !s.phase.Opening? { MoreKeepsBacklog(s, t, []); }
    case Snapshot => SnapshotStartsRight(s);
    case Start => StartKeepsBacklog(s);
    case Put =>
      if s.phase.Snapped? { SameStart(s, t); }
      else { MoreKeepsBacklog(s, t, []); }
    case Replay => MoreKeepsBacklog(s, t, if s.phase.i < s.boundary then [Line(s.phase.i)] else []);
    case Take => MoreKeepsBacklog(s, t, []);
    case Resume => MoreKeepsBacklog(s, t, t.frames[|s.frames|..]);
    case Send => MoreKeepsBacklog(s, t, [Line(s.phase.rec)]);
    case Leave =>
  }

  lemma SameStart(s: Stream, t: Stream)
    requires s.phase.Snapped? && t.phase == s.phase && t.frames == s.frames && Backlog(s)
    requires t.since == s.since && t.capacity == s.capacity && t.boundary == s.boundary
    ensures Backlog(t)
  {
    hide Held, Evicted;
    forall x: int ensures (Held(t, x) <==> Held(s, x)) && (Evicted(t, x) <==> Evicted(s, x)) { SameAsked(s, t, x); }
  }

  lemma SnapshotStartsRight(s: Stream)
    requires s.phase.Opening? && Backlog(s)
    ensures Backlog(SnapshotStep(s))
  {
  }

  lemma BacklogBounds(s: Stream)
    requires Inv(s)
    ensures forall x <- s.drop.records :: !s.phase.Gone? && !s.phase.Opening? ==> x >= s.boundary
    ensures s.phase.Opening? ==> s.frames == []
  {
    hide Framed, Tally;
  }

  lemma {:induction false} RunBacklog(states: seq<Stream>, steps: seq<Step>, i: nat)
    requires Run(states, steps) && i < |states|
    ensures Backlog(states[i])
  {
    hide Inv, Do, Enabled;
    if i > 0 {
      RunBacklog(states, steps, i - 1);
      RunInv(states, steps, i - 1);
      KeepBacklog(states[i - 1], steps[i - 1]);
    }
  }

  /** A client that is past the backlog was sent every record it asked for that the ring held when it was read, and
      of the records before that its gap frames count exactly those it asked for that were gone. */
  lemma BacklogIsSent(states: seq<Stream>, steps: seq<Step>, i: nat, x: int)
    requires Run(states, steps) && i < |states|
    requires states[i].phase.Waiting? || states[i].phase.Took? || states[i].phase.Sending?
    ensures var s := states[i];
      && (s.since <= x && LogRing.Oldest(s.boundary, s.capacity) <= x < s.boundary ==> Line(x) in s.frames)
      && (x < s.boundary ==> (InGap(s.frames, x) <==> s.since <= x < LogRing.Oldest(s.boundary, s.capacity)))
  {
    hide Run;
    RunBacklog(states, steps, i);
  }

  /** These are the records LogRing.since gives. */
  lemma HeldIsSince(all: seq<LogRing.Record>, capacity: nat, since: int, s: Stream, x: int)
    requires LogRing.Numbered(all) && s.since == since && s.capacity == capacity && s.boundary == |all|
    ensures Held(s, x) <==> exists r <- LogRing.Since(all, capacity, since) :: r.seqNo == x
  {
    var out := LogRing.Since(all, capacity, since);
    var lo := LogRing.Oldest(|all|, capacity);
    if Held(s, x) {
      var from := if since <= lo then lo else since;
      assert out == all[from..] && out[x - from] == all[x];
    }
    if r :| r in out && r.seqNo == x {
      var from := if since <= lo then lo else since;
      var k :| 0 <= k < |out| && out[k] == r;
      assert out == all[from..] && out[k] == all[from + k];
    }
  }

  /** Every gap frame states how many records it stands for and the first and the last of them. */
  lemma GapsAreHonest(states: seq<Stream>, steps: seq<Step>, i: nat, f: Frame)
    requires Run(states, steps) && i < |states| && !states[i].phase.Gone? && f in states[i].frames
    ensures Honest(f)
  {
    hide Run;
    RunInv(states, steps, i);
  }

  /** A stream counts records that never were exactly when it was asked to start before record 0: the
      opening gap then begins at the negative cursor. */
  lemma PhantomsExactlyWhenNegative(s: Stream)
    requires Inv(s) && s.phase.Snapped?
    ensures (exists x: int :: x < 0 && Count(StartStep(s).frames, x) > 0) <==> s.since < 0
  {
    hide Framed;
    var t := StartStep(s);
    KeepStart(s);
    if s.since < 0 {
      assert Tally(t) && Count(t.frames, -1) == 1;
    }
  }

  /** The range of a gap frame that another frame follows is exact, but for the record sent next: it had
      left the queue before the later ones were dropped. */
  lemma GapRangesAreTight(states: seq<Stream>, steps: seq<Step>, i: nat, k: nat)
    requires Run(states, steps) && i < |states| && !states[i].phase.Gone?
    requires k + 1 < |states[i].frames| && states[i].frames[k].Gap?
    ensures var f, next := states[i].frames[k], states[i].frames[k + 1];
            Exact(f) || (next.Line? && ExactBut(f, next.seqNo))
  {
    hide Run, Exact, ExactBut;
    RunInv(states, steps, i);
    assert TightAt(states[i].frames, states[i].phase, k);
  }

  lemma {:induction false} LineCounts(frames: seq<Frame>, x: int)
    requires Line(x) in frames
    ensures Count(frames, x) >= 1
  {
    var n := |frames| - 1;
    if frames[n] != Line(x) {
      assert frames == frames[..n] + [frames[n]];
      LineCounts(frames[..n], x);
    }
  }

  lemma {:induction false} CountTwice(frames: seq<Frame>, k: nat, x: int)
    requires k + 1 < |frames| && frames[k].Gap? && x in frames[k].records && frames[k + 1] == Line(x)
    ensures Count(frames, x) >= 2
    decreases |frames|
  {
    var n := |frames| - 1;
    if k + 1 < n {
      CountTwice(frames[..n], k, x);
    } else {
      CountSnoc(frames[..k], frames[k], x);
      assert frames[..n] == frames[..k] + [frames[k]];
    }
  }

  lemma CountAtMostOne(s: Stream, x: int)
    requires Inv(s) && !s.phase.Gone?
    ensures Count(s.frames, x) <= 1
  {
    hide Framed, Placed, DropFits;
    assert s.phase.Opening? ==> s.frames == [];
  }

  /** The range of a gap frame that is followed by another frame is exact unless the record sent next lies inside
      it. */
  lemma GapRangeExactlyWhen(states: seq<Stream>, steps: seq<Step>, i: nat, k: nat)
    requires Run(states, steps) && i < |states| && !states[i].phase.Gone?
    requires k + 1 < |states[i].frames| && states[i].frames[k].Gap?
    ensures var f, next := states[i].frames[k], states[i].frames[k + 1];
            Exact(f) <==> !(next.Line? && f.fromSeq < next.seqNo < f.toSeq)
  {
    hide Run, Count, Tight;
    GapRangesAreTight(states, steps, i, k);
    GapsAreHonest(states, steps, i, states[i].frames[k]);
    RunInv(states, steps, i);
    var f, next := states[i].frames[k], states[i].frames[k + 1];
    if next.Line? && next.seqNo in f.records {
      CountTwice(states[i].frames, k, next.seqNo);
      CountAtMostOne(states[i], next.seqNo);
    }
  }

  /** Its cause: records were dropped before the take of the record that comes next, and others after it. */
  lemma GapIsExactlyWhen(s: Stream)
    requires Inv(s) && s.phase.Took? && s.drop.n > 0
    ensures var f := ResumeStep(s).frames[|s.frames|];
      && f == Gap(s.drop.n, s.drop.fromSeq, s.drop.toSeq, s.drop.records)
      && (Exact(f) <==> !(exists x <- f.records, y <- f.records :: x < s.phase.rec < y))
  {
    hide Count, Tally, Framed;
    KeepResume(s);
    var f := ResumeStep(s).frames[|s.frames|];
    assert Honest(f);
  }

  // ---- the handler ----

  /** The cells and the queue that push, _put and the generator share. Its methods are the stretches of
      code between two points where the loop can run something else. */
  class Handler {
    const since: int
    const capacity: nat
    var next: nat
    var ready: seq<int>
    var boundary: nat
    var q: seq<int>
    var dropped: nat
    var dropFrom: int
    var dropTo: int
    ghost var lost: set<int>
    var phase: Phase
    ghost var frames: seq<Frame>

    ghost function View(): Stream
      reads this
    {
      Stream(since, capacity, next, ready, boundary, q, Drop(dropped, dropFrom, dropTo, lost), phase, frames)
    }

    ghost predicate Valid()
      reads this
    {
      Inv(View()) && !phase.Gone?
    }

    /** Subscribed to a ring of `next` records. */
    constructor (since: int, capacity: nat, next: nat)
      ensures Valid() && Init(View()) && this.since == since && this.capacity == capacity && this.next == next
    {
      this.since, this.capacity, this.next := since, capacity, next;
      ready, boundary, q, phase, frames := [], 0, [], Opening, [];
      dropped, dropFrom, dropTo, lost := 0, -1, -1, {};
    }

    /** A record is appended; nothing it does shows yet. */
    method Push()
      requires Valid()
      modifies this
      ensures Valid() && View() == AppendStep(old(View()))
      ensures next == old(next) + 1 && frames == old(frames) && q == old(q) && phase == old(phase)
      ensures boundary == old(boundary) && lost == old(lost) && ready == old(ready) + [old(next)]
    {
      hide Inv;
      KeepAppend(View());
      ready := ready + [next];
      next := next + 1;
    }

    /** Whatever has been appended so far is replayed or evicted, and whatever comes is live. */
    method Snapshot()
      requires Valid() && phase.Opening?
      modifies this
      ensures Valid() && View() == SnapshotStep(old(View()))
      ensures boundary == next && phase.Snapped? && 0 <= phase.oldest <= boundary
      ensures StartsRight(View(), phase.oldest)
      ensures next == old(next) && ready == old(ready) && q == [] && frames == [] && lost == {}
    {
      hide Inv;
      OpeningEmpty(View());
      KeepSnapshot(View());
      var held := LogRing.Oldest(next, capacity);
      var oldest := if since <= held then held else since;
      if oldest > next { oldest := next; }
      boundary := next;
      phase := Snapped(oldest);
    }

    /** A live record is queued behind all others; a full queue gives up its oldest, which is counted once. */
    method Put()
      requires Valid() && !phase.Opening? && ready != []
      modifies this
      ensures Valid() && View() == PutStep(old(View()))
      ensures frames == old(frames) && phase == old(phase) && next == old(next) && boundary == old(boundary)
      ensures ready == old(ready)[1..] && |q| <= QUEUE_MAX
      ensures if old(ready)[0] < boundary then q == old(q) else q != [] && q[|q| - 1] == old(ready)[0] && |q| <= |old(q)| + 1
      ensures dropped == |lost| && old(dropped) == |old(lost)|
      ensures if old(ready)[0] >= boundary && |old(q)| == QUEUE_MAX
              then lost == old(lost) + {old(q)[0]} && old(q)[0] !in old(lost) else lost == old(lost)
    {
      hide Inv;
      KeepPut(View());
      ValidQueue(View());
      ValidQueue(PutStep(View()));
      var rec := ready[0];
      ready := ready[1..];
      if rec < boundary { return; }
      if |q| >= QUEUE_MAX {
        var head := q[0];
        q := q[1..];
        if dropped == 0 { dropFrom := head; }
        dropped := dropped + 1;
        dropTo := head;
        lost := lost + {head};
      }
      q := q + [rec];
    }

    /** Exactly what was asked for and is gone is announced. */
    method Start() returns (frame: seq<Frame>)
      requires Valid() && phase.Snapped?
      modifies this
      ensures Valid() && View() == StartStep(old(View())) && frames == old(frames) + frame
      ensures phase == Replaying(old(phase).oldest) && next == old(next) && boundary == old(boundary)
      ensures ready == old(ready) && q == old(q) && lost == old(lost) && |frame| <= 1 && frames == frame
      ensures forall x :: Count(frames, x) == Bit(since <= x < old(phase).oldest)
    {
      hide Inv;
      KeepStart(View());
      Opened(View());
      var oldest := phase.oldest;
      frame := [];
      if oldest > since { frame := [Gap(oldest - since, since, oldest - 1, Range(since, oldest))]; }
      assert old(frames) + [] == old(frames);
      frames := frames + frame;
      phase := Replaying(oldest);
    }

    /** The next record of the backlog, its number above all sent before; or the backlog is done. */
    method Replay() returns (frame: seq<Frame>)
      requires Valid() && phase.Replaying?
      modifies this
      ensures Valid() && View() == ReplayStep(old(View())) && frames == old(frames) + frame
      ensures next == old(next) && boundary == old(boundary) && ready == old(ready) && q == old(q) && lost == old(lost)
      ensures if old(phase).i < boundary then frame == [Line(old(phase).i)] && phase == Replaying(old(phase).i + 1)
              else frame == [] && phase.Waiting?
      ensures forall f <- frame :: Below(old(frames), f.seqNo)
    {
      hide Inv;
      KeepReplay(View());
      AllBelow(View());
      frame := [];
      if phase.i < boundary {
        frame := [Line(phase.i)];
        phase := Replaying(phase.i + 1);
      } else {
        phase := Waiting(boundary - 1);
      }
      assert old(frames) + [] == old(frames);
      frames := frames + frame;
    }

    method Take()
      requires Valid() && phase.Waiting? && q != []
      modifies this
      ensures Valid() && View() == TakeStep(old(View()))
      ensures phase.Took? && phase.rec == old(q)[0] && q == old(q)[1..]
      ensures frames == old(frames) && next == old(next) && boundary == old(boundary) && ready == old(ready) && lost == old(lost)
    {
      hide Inv;
      KeepTake(View());
      phase := Took(q[0], phase.last);
      q := q[1..];
    }

    /** The record is never skipped; what was dropped is announced before it, and no longer counted. */
    method Resume() returns (ghost frame: seq<Frame>)
      requires Valid() && phase.Took?
      modifies this
      ensures Valid() && View() == ResumeStep(old(View())) && frames == old(frames) + frame
      ensures phase == Sending(old(phase).rec) && dropped == 0 && lost == {}
      ensures next == old(next) && boundary == old(boundary) && ready == old(ready) && q == old(q)
      ensures frame == [] <==> old(lost) == {}
      ensures forall x <- old(lost) :: Count(old(frames), x) == 0 && Count(frames, x) == 1
    {
      hide Inv;
      ghost var s := View();
      KeepResume(s);
      LostUncounted(s);
      frame := [];
      assert old(frames) + [] == old(frames);
      if phase.rec <= phase.prev {
        // the duplicate check, which skips the record
        assert false;
      }
      if dropped > 0 {
        frame := [Gap(dropped, dropFrom, dropTo, lost)];
        dropped, dropFrom, dropTo, lost := 0, -1, -1, {};
      }
      phase := Sending(phase.rec);
      frames := frames + frame;
      ResumeDrop(s);
    }

    /** The record's number is above all sent before, and all records up to it are accounted for, once each. */
    method Send() returns (frame: Frame)
      requires Valid() && phase.Sending?
      modifies this
      ensures Valid() && View() == SendStep(old(View())) && frames == old(frames) + [frame]
      ensures frame == Line(old(phase).rec) && Below(old(frames), frame.seqNo) && phase == Waiting(frame.seqNo)
      ensures next == old(next) && boundary == old(boundary) && ready == old(ready) && q == old(q) && lost == old(lost)
      ensures forall x :: Base(View()) <= x <= frame.seqNo ==> Count(frames, x) == 1
    {
      hide Inv;
      KeepSend(View());
      AllBelow(View());
      frame := Line(phase.rec);
      phase := Waiting(phase.rec);
      frames := frames + [frame];
      UpToLast(View());
    }
  }

  lemma OpeningEmpty(s: Stream)
    requires Inv(s) && s.phase.Opening?
    ensures s.q == [] && s.drop == NOTHING && s.frames == []
  {
    hide Framed, Tally, Placed, DropFits;
  }

  lemma ValidQueue(s: Stream)
    requires Inv(s) && !s.phase.Gone?
    ensures |s.q| <= QUEUE_MAX && s.drop.n == |s.drop.records|
    ensures s.q != [] ==> s.q[0] !in s.drop.records
  {
    hide Framed, Tally, Placed;
  }

  lemma Opened(s: Stream)
    requires Inv(s) && s.phase.Snapped?
    ensures s.frames == []
    ensures forall x :: Count(StartStep(s).frames, x) == Bit(s.since <= x < s.phase.oldest)
  {
    hide Framed, Tally, DropFits;
    if s.phase.oldest > s.since {
      var gap := Gap(s.phase.oldest - s.since, s.since, s.phase.oldest - 1, Range(s.since, s.phase.oldest));
      forall x ensures Count(StartStep(s).frames, x) == Bit(s.since <= x < s.phase.oldest) { CountSnoc([], gap, x); }
    }
  }

  lemma AllBelow(s: Stream)
    requires Inv(s) && (s.phase.Replaying? || s.phase.Sending?)
    ensures Below(s.frames, if s.phase.Replaying? then s.phase.i else s.phase.rec)
  {
    hide Tally, Tight, Rising, Honest;
  }

  lemma LostUncounted(s: Stream)
    requires Inv(s) && s.phase.Took?
    ensures forall x <- s.drop.records :: Count(s.frames, x) == 0 && Count(ResumeStep(s).frames, x) == 1
    ensures s.drop.n == 0 <==> s.drop.records == {}
  {
    hide Framed, Count;
    var gap := Gap(s.drop.n, s.drop.fromSeq, s.drop.toSeq, s.drop.records);
    EmptyIsNoGap();
    forall x <- s.drop.records ensures Count(s.frames, x) == 0 && Count(ResumeStep(s).frames, x) == 1 {
      CountSnoc(s.frames, gap, x);
    }
  }

  lemma ResumeDrop(s: Stream)
    requires Inv(s) && s.phase.Took?
    ensures ResumeStep(s).drop.n == 0 && ResumeStep(s).drop.records == {} && ResumeStep(s).phase == Sending(s.phase.rec)
  {
    hide Framed, Tally;
    KeepResume(s);
    EmptyIsNoGap();
  }

  lemma UpToLast(s: Stream)
    requires Inv(s) && s.phase.Waiting?
    ensures forall x :: Base(s) <= x <= s.phase.last ==> Count(s.frames, x) == 1
    ensures s.q == [] && s.ready == [] && s.drop.n == 0 ==>
              forall x :: Base(s) <= x < s.next ==> Count(s.frames, x) == 1
    ensures Rising(s.frames)
  {
    hide Count, Tight, Honest;
  }

  /** A client that is served until nothing is left, while up to `more` records are appended and callbacks run at
      any point: in order, every record from the one asked for to the newest was sent once or is counted in one gap
      frame. What the ring held when the backlog was read was sent; counted were of those before exactly the ones
      it no longer held. */
  method ServeAll(h: Handler, more: nat)
    requires h.Valid() && h.phase.Opening?
    modifies h
    ensures h.Valid() && Rising(h.frames) && h.next >= old(h.next)
    ensures forall x :: Base(h.View()) <= x < h.next ==> Count(h.frames, x) == 1
    ensures forall x: int :: h.since <= x && LogRing.Oldest(h.boundary, h.capacity) <= x < h.boundary ==> Line(x) in h.frames
    ensures forall x: int :: x < h.boundary ==> (InGap(h.frames, x) <==> h.since <= x < LogRing.Oldest(h.boundary, h.capacity))
    ensures old(h.next) == h.boundary
  {
    hide Inv, Rising, Count, Base, Backlog, Held, Evicted;
    OpeningEmpty(h.View());
    OpensBacklog(h.View());
    KeepBacklog(h.View(), Snapshot);
    h.Snapshot();
    KeepBacklog(h.View(), Start);
    var _ := h.Start();
    var left := more;
    while !Idle(h.phase, h.q, h.ready)
      invariant h.Valid() && h.next >= old(h.next) && Serving(h.phase)
      invariant Backlog(h.View()) && h.boundary == old(h.next)
      invariant h.lost != {} ==> h.q != [] || h.phase.Took?
      decreases left, ToDo(h.phase, h.boundary, |h.q|, |h.ready|)
    {
      ReplayBounds(h.View());
      var push: bool, put: bool := *, *;
      if push && left > 0 {
        KeepBacklog(h.View(), Append);
        h.Push();
        left := left - 1;
      } else if h.ready != [] && (put || (h.phase.Waiting? && h.q == [])) {
        KeepBacklog(h.View(), Put);
        h.Put();
      } else {
        OneTurn(h);
      }
    }
    ValidQueue(h.View());
    UpToLast(h.View());
    BacklogDone(h.View());
  }

  lemma OpensBacklog(s: Stream)
    requires Inv(s) && s.phase.Opening?
    ensures Backlog(s)
  {
    hide Framed, Tally;
  }

  lemma BacklogDone(s: Stream)
    requires Backlog(s) && s.phase.Waiting?
    ensures forall x: int :: s.since <= x && LogRing.Oldest(s.boundary, s.capacity) <= x < s.boundary ==> Line(x) in s.frames
    ensures forall x: int :: x < s.boundary ==> (InGap(s.frames, x) <==> s.since <= x < LogRing.Oldest(s.boundary, s.capacity))
  {
    forall x: int | s.since <= x && LogRing.Oldest(s.boundary, s.capacity) <= x < s.boundary ensures Line(x) in s.frames {
      assert Held(s, x);
    }
    forall x: int | x < s.boundary ensures InGap(s.frames, x) <==> s.since <= x < LogRing.Oldest(s.boundary, s.capacity) {
      assert InGap(s.frames, x) <==> Evicted(s, x);
    }
  }

  predicate Serving(phase: Phase) {
    phase.Replaying? || phase.Waiting? || phase.Took? || phase.Sending?
  }

  /** The generator waits, and there is nothing to come. */
  predicate Idle(phase: Phase, q: seq<int>, ready: seq<int>) {
    phase.Waiting? && q == [] && ready == []
  }

  function ToDo(phase: Phase, boundary: nat, queued: nat, ready: nat): nat {
    4 * ready + 3 * queued + match phase
      case Replaying(i) => if i <= boundary then boundary - i + 1 else 0
      case Took(_, _) => 2
      case Sending(_) => 1
      case _ => 0
  }

  /** The generator goes on to its next suspension point. */
  method OneTurn(h: Handler)
    requires h.Valid() && Serving(h.phase) && (h.phase.Waiting? ==> h.q != []) && Backlog(h.View())
    requires h.phase.Replaying? ==> h.phase.i <= h.boundary
    requires h.lost != {} ==> h.q != [] || h.phase.Took?
    modifies h
    ensures h.Valid() && Serving(h.phase) && h.next == old(h.next) && h.boundary == old(h.boundary)
    ensures Backlog(h.View()) && (h.lost != {} ==> h.q != [] || h.phase.Took?)
    ensures ToDo(h.phase, h.boundary, |h.q|, |h.ready|) < old(ToDo(h.phase, h.boundary, |h.q|, |h.ready|))
  {
    hide Inv, Count, Base, Backlog;
    match h.phase
    case Replaying(_) =>
      KeepBacklog(h.View(), Replay);
      var _ := h.Replay();
    case Waiting(_) =>
      KeepBacklog(h.View(), Take);
      h.Take();
    case Took(_, _) =>
      KeepBacklog(h.View(), Resume);
      var _ := h.Resume();
    case Sending(_) =>
      KeepBacklog(h.View(), Send);
      var _ := h.Send();
    case _ =>
  }

  lemma ReplayBounds(s: Stream)
    requires Inv(s)
    ensures s.phase.Replaying? ==> s.phase.i <= s.boundary
  {
    if s.phase.Replaying? { InReplay(s); }
  }

  lemma InReplay(s: Stream)
    requires Inv(s) && s.phase.Replaying?
    ensures s.phase.i <= s.boundary
  {
    hide Framed, Tally, DropFits;
  }
}
