// FTWReader: a byte range of the region is split at shard boundaries, cut into aligned chunk
// jobs, and read by jobs that run in any order with any pattern of short reads.
module FtwReading {
  import opened Basics
  import opened FtwFormat
  import opened CompactionStep

  datatype Result<+T> = Ok(value: T) | Err(message: string)

  /** `length` bytes of a shard file, and where they go in the destination. */
  datatype Piece = Piece(file: nat, fileOff: nat, destOff: nat, length: nat) {
    function DestEnd(): nat { destOff + length }
  }

  /** Destinations follow one another without gap or overlap. */
  predicate Chain(ps: seq<Piece>, from: nat, to: nat) {
    if ps == [] then from == to else ps[0].destOff == from && Chain(ps[1..], ps[0].DestEnd(), to)
  }

  lemma {:induction false} ChainSnoc(ps: seq<Piece>, p: Piece, from: nat)
    requires Chain(ps, from, p.destOff)
    ensures Chain(ps + [p], from, p.DestEnd())
  {
    if ps == [] {
      assert [p][1..] == [];
    } else {
      ChainSnoc(ps[1..], p, ps[0].DestEnd());
      assert (ps + [p])[1..] == ps[1..] + [p];
    }
  }

  lemma {:induction false} ChainAppend(ps: seq<Piece>, qs: seq<Piece>, from: nat, mid: nat, to: nat)
    requires Chain(ps, from, mid) && Chain(qs, mid, to)
    ensures Chain(ps + qs, from, to)
  {
    if ps == [] {
      assert ps + qs == qs;
    } else {
      ChainAppend(ps[1..], qs, ps[0].DestEnd(), mid, to);
      assert (ps + qs)[1..] == ps[1..] + qs;
    }
  }

  lemma {:induction false} ChainBounds(ps: seq<Piece>, from: nat, to: nat, i: nat)
    requires Chain(ps, from, to)
    ensures from <= to
    ensures i < |ps| ==> from <= ps[i].destOff && ps[i].DestEnd() <= to
  {
    if ps != [] {
      ChainBounds(ps[1..], ps[0].DestEnd(), to, if i > 0 then i - 1 else 0);
    }
  }

  /** No two destinations overlap. */
  lemma {:induction false} ChainDisjoint(ps: seq<Piece>, from: nat, to: nat, i: nat, j: nat)
    requires Chain(ps, from, to) && i < j < |ps|
    ensures ps[i].DestEnd() <= ps[j].destOff
  {
    if i == 0 {
      ChainBounds(ps[1..], ps[0].DestEnd(), to, j - 1);
    } else {
      ChainDisjoint(ps[1..], ps[0].DestEnd(), to, i - 1, j - 1);
    }
  }

  /** Every destination byte belongs to some piece. */
  lemma {:induction false} ChainCovers(ps: seq<Piece>, from: nat, to: nat, x: nat) returns (i: nat)
    requires Chain(ps, from, to) && from <= x < to
    ensures i < |ps| && ps[i].destOff <= x < ps[i].DestEnd()
  {
    if x < ps[0].DestEnd() {
      i := 0;
    } else {
      var k := ChainCovers(ps[1..], ps[0].DestEnd(), to, x);
      i := k + 1;
    }
  }

  /** The piece lies inside the shard, and its destination stands for the region bytes it reads. */
  predicate Within(p: Piece, s: Shard, go: nat) {
    && p.file == s.file && go + p.destOff == s.globalOff + p.fileOff
    && p.fileOff + p.length <= s.nbytes
  }

  predicate WithinSome(p: Piece, shards: seq<Shard>, go: nat) {
    exists s <- shards :: Within(p, s, go)
  }

  // ---- _pieces ----

  /** Some shard holds the position, as the index has it. */
  predicate Covered(shards: seq<Shard>, x: nat) {
    exists s <- shards :: s.globalOff <= x < s.End()
  }

  lemma ChainEmpty()
    ensures Chain([], 0, 0)
  {
  }

  /** Before the loop comes to shard i, all earlier ones end at or before `pos`; a later start is a gap. */
  lemma Uncovered(shards: seq<Shard>, i: nat, pos: nat)
    requires Ascending(shards) && i <= |shards|
    requires forall k :: 0 <= k < i ==> shards[k].End() <= pos
    requires i == |shards| || pos < shards[i].globalOff
    ensures !Covered(shards, pos)
  {
    forall s | s in shards ensures !(s.globalOff <= pos < s.End()) {
      var k :| 0 <= k < |shards| && shards[k] == s;
      assert k > i ==> shards[i].globalOff <= shards[k].globalOff;
    }
  }

  /** Split [globalOff, globalOff + nbytes) at shard boundaries; an error exactly when some byte of it
      lies in no shard, be it past the last one or in a gap of a corrupt index. */
  method Pieces(shards: seq<Shard>, globalOff: nat, nbytes: nat) returns (r: Result<seq<Piece>>)
    requires Ascending(shards)
    ensures r.Ok? <==> forall x :: globalOff <= x < globalOff + nbytes ==> Covered(shards, x)
    ensures r.Ok? ==> Chain(r.value, 0, nbytes)
    ensures r.Ok? ==> forall p <- r.value :: exists s <- shards :: FromShard(p, s, globalOff, nbytes)
  {
    hide Chain, Ascending;
    ChainEmpty();
    var out: seq<Piece>, destOff: nat, remaining: nat, pos: nat := [], 0, nbytes, globalOff;
    for i := 0 to |shards|
      invariant destOff + remaining == nbytes && pos == globalOff + destOff
      invariant remaining > 0 ==> forall k :: 0 <= k < i ==> shards[k].End() <= pos
      invariant forall x :: globalOff <= x < pos ==> Covered(shards, x)
      invariant Chain(out, 0, destOff)
      invariant forall p <- out :: exists s <- shards :: FromShard(p, s, globalOff, nbytes)
    {
      var sh := shards[i];
      var s0, s1 := sh.globalOff, sh.End();
      if pos >= s1 || remaining == 0 {
        continue;
      }
      if pos < s0 {
        Uncovered(shards, i, pos);
        return Err("FTW gap / misordered shards");
      }
      var take := Min(remaining, s1 - pos);
      var p := Piece(sh.file, pos - s0, destOff, take);
      assert FromShard(p, sh, globalOff, nbytes);
      forall x | pos <= x < pos + take ensures Covered(shards, x) {
        assert sh.globalOff <= x < sh.End();
      }
      ChainSnoc(out, p, 0);
      out := out + [p];
      pos, destOff, remaining := pos + take, destOff + take, remaining - take;
    }
    if remaining > 0 {
      Uncovered(shards, |shards|, pos);
      return Err("tensor range exceeds FTW shards");
    }
    r := Ok(out);
  }

  /** The piece stops at the shard's end or at the end of the range. */
  predicate FromShard(p: Piece, s: Shard, globalOff: nat, nbytes: nat) {
    && Within(p, s, globalOff) && p.length > 0
    && (p.fileOff + p.length == s.nbytes || p.DestEnd() == nbytes)
  }

  /** In a well-formed index exactly the bytes of the region are covered. */
  lemma {:induction false} TilesCovered(shards: seq<Shard>, start: nat, x: nat)
    requires Tiles(shards, start)
    ensures Covered(shards, x) <==> start <= x < RegionEnd(shards, start)
  {
    if shards != [] {
      var end := shards[0].End();
      TilesAscending(shards[1..], end);
      TilesCovered(shards[1..], end, x);
      assert shards == [shards[0]] + shards[1..];
      assert Covered(shards, x) <==> start <= x < end || Covered(shards[1..], x);
    }
  }

  // ---- chunk jobs ----

  /** Length and place of the read that serves a piece: the tail is rounded up to ALIGN. */
  function Rounded(p: Piece): Piece {
    p.(length := AlignUp(p.length))
  }

  predicate AlignedJob(p: Piece) {
    Aligned(p.fileOff) && Aligned(p.destOff) && Aligned(p.length) && p.length > 0
  }

  /** Cut one rounded piece into jobs of at most `chunk` bytes. */
  method CutPiece(p: Piece, chunk: nat, ghost s: Shard, ghost go: nat) returns (jobs: seq<Piece>)
    requires chunk > 0 && Aligned(chunk) && AlignedJob(p) && Within(p, s, go)
    ensures Chain(jobs, p.destOff, p.DestEnd())
    ensures forall j <- jobs :: AlignedJob(j) && j.length <= chunk && Within(j, s, go)
    ensures forall j <- jobs :: p.fileOff <= j.fileOff && j.fileOff + j.length <= p.fileOff + p.length
  {
    hide Chain;
    jobs := [];
    var c := 0;
    ChainStart(p.destOff);
    while c < p.length
      invariant 0 <= c <= p.length && Aligned(c)
      invariant Chain(jobs, p.destOff, p.destOff + c)
      invariant forall j <- jobs :: AlignedJob(j) && j.length <= chunk && Within(j, s, go)
      invariant forall j <- jobs :: p.fileOff <= j.fileOff && j.fileOff + j.length <= p.fileOff + p.length
    {
      var len := Min(chunk, p.length - c);
      var j := Piece(p.file, p.fileOff + c, p.destOff + c, len);
      JobOf(p, c, len);
      ChainSnoc(jobs, j, p.destOff);
      jobs := jobs + [j];
      c := c + len;
    }
  }

  lemma {:induction false} ChainEnds(ps: seq<Piece>, from: nat, to: nat)
    requires Chain(ps, from, to)
    ensures if ps == [] then from == to else ps[0].destOff == from && ps[|ps| - 1].DestEnd() == to
    ensures forall i :: 0 <= i < |ps| - 1 ==> ps[i + 1].destOff == ps[i].DestEnd()
  {
    if ps != [] {
      ChainEnds(ps[1..], ps[0].DestEnd(), to);
      forall i | 0 <= i < |ps| - 1 ensures ps[i + 1].destOff == ps[i].DestEnd() {
        assert i > 0 ==> ps[1..][i - 1] == ps[i] && ps[1..][i] == ps[i + 1];
      }
    }
  }

  lemma ChainStart(at: nat)
    ensures Chain([], at, at)
  {
  }

  lemma JobOf(p: Piece, c: nat, len: nat)
    requires AlignedJob(p) && c + len <= p.length && Aligned(c) && Aligned(len) && len > 0
    ensures AlignedJob(Piece(p.file, p.fileOff + c, p.destOff + c, len)) && Aligned(c + len)
  {
    AlignedSum(c, len);
    AlignedSum(p.fileOff, c);
    AlignedSum(p.destOff, c);
  }

  /** All jobs that read one tensor: aligned, each inside its shard, destinations disjoint and
      covering the rounded-up tensor. */
  method MakeJobs(shards: seq<Shard>, globalOff: nat, nbytes: nat, chunk: nat) returns (r: Result<seq<Piece>>)
    requires Tiles(shards, 0) && AlignedShards(shards)
    requires chunk > 0 && Aligned(chunk) && Aligned(globalOff)
    ensures r.Ok? <==> nbytes == 0 || globalOff + nbytes <= RegionEnd(shards, 0)
    ensures r.Ok? ==> Chain(r.value, 0, AlignUp(nbytes))
    ensures r.Ok? ==> forall j <- r.value :: AlignedJob(j) && j.length <= chunk && WithinSome(j, shards, globalOff)
  {
    hide Chain, Tiles, RegionEnd, AlignedShards, Covered, FromShard, Within;
    InRange(shards, globalOff, nbytes);
    var ps := Pieces(shards, globalOff, nbytes);
    if ps.Err? {
      return ps;
    }
    var jobs := [];
    ChainStart(0);
    ChainEnds(ps.value, 0, nbytes);
    for i := 0 to |ps.value|
      invariant Chain(jobs, 0, if i < |ps.value| then ps.value[i].destOff else AlignUp(nbytes))
      invariant forall j <- jobs :: AlignedJob(j) && j.length <= chunk && WithinSome(j, shards, globalOff)
    {
      ghost var s := RoundedPiece(shards, ps.value, globalOff, nbytes, i);
      var more := CutPiece(Rounded(ps.value[i]), chunk, s, globalOff);
      ChainAppend(jobs, more, 0, ps.value[i].destOff, Rounded(ps.value[i]).DestEnd());
      jobs := jobs + more;
    }
    r := Ok(jobs);
  }

  lemma InRange(shards: seq<Shard>, globalOff: nat, nbytes: nat)
    requires Tiles(shards, 0)
    ensures Ascending(shards)
    ensures (forall x :: globalOff <= x < globalOff + nbytes ==> Covered(shards, x))
       <==> nbytes == 0 || globalOff + nbytes <= RegionEnd(shards, 0)
  {
    hide Tiles, RegionEnd, Covered;
    TilesAscending(shards, 0);
    forall x: nat ensures Covered(shards, x) <==> x < RegionEnd(shards, 0) { TilesCovered(shards, 0, x); }
    assert nbytes > 0 && globalOff + nbytes > RegionEnd(shards, 0) ==> !Covered(shards, globalOff + nbytes - 1);
  }

  /** A piece but the last ends on an ALIGN boundary already; rounding the last one stays in its shard. */
  lemma RoundedPiece(shards: seq<Shard>, ps: seq<Piece>, go: nat, nbytes: nat, i: nat) returns (s: Shard)
    requires Tiles(shards, 0) && AlignedShards(shards)
    requires Aligned(go) && Chain(ps, 0, nbytes) && i < |ps|
    requires forall p <- ps :: exists s <- shards :: FromShard(p, s, go, nbytes)
    ensures var p := ps[i];
            && AlignedJob(Rounded(p)) && s in shards && Within(Rounded(p), s, go)
            && Rounded(p).DestEnd() == (if i + 1 < |ps| then ps[i + 1].destOff else AlignUp(nbytes))
  {
    hide Tiles, AlignedShards, Chain, Aligned, AlignUp;
    PieceStart(shards, ps, go, nbytes, i);
    var p := ps[i];
    assert p in ps;
    s :| s in shards && FromShard(p, s, go, nbytes);
    ShardAligned(shards, s);
    ChainEnds(ps, 0, nbytes);
    ChainBounds(ps, 0, nbytes, i);
    RoundInside(p, s, go, nbytes);
    if i + 1 < |ps| {
      assert ps[i + 1] in ps;
      ChainBounds(ps, 0, nbytes, i + 1);
    }
  }

  lemma ShardAligned(shards: seq<Shard>, s: Shard)
    requires Tiles(shards, 0) && AlignedShards(shards) && s in shards
    ensures Aligned(s.globalOff) && Aligned(s.nbytes)
  {
    hide Aligned, RegionEnd;
    var k :| 0 <= k < |shards| && shards[k] == s;
    var a, b := shards[..k], shards[k + 1..];
    assert shards == a + ([s] + b);
    SplitFacts(a, s, b);
    PartsAligned(a, s, b);
    AlignedZero();
    AlignedEnd(a, 0);
  }

  lemma AlignedZero()
    ensures Aligned(0)
  {
  }

  /** Every piece starts on an ALIGN boundary of the destination. */
  lemma PieceStart(shards: seq<Shard>, ps: seq<Piece>, go: nat, nbytes: nat, i: nat)
    requires Tiles(shards, 0) && AlignedShards(shards)
    requires Aligned(go) && Chain(ps, 0, nbytes) && i < |ps|
    requires forall p <- ps :: exists s <- shards :: FromShard(p, s, go, nbytes)
    ensures Aligned(ps[i].destOff)
  {
    hide Tiles, AlignedShards, Chain, Aligned;
    AlignedZero();
    ChainEnds(ps, 0, nbytes);
    if i > 0 {
      assert ps[i] in ps && ps[i - 1] in ps;
      var s :| s in shards && FromShard(ps[i - 1], s, go, nbytes);
      ShardAligned(shards, s);
      ChainBounds(ps, 0, nbytes, i);
      assert ps[i].destOff == ps[i - 1 + 1].destOff == ps[i - 1].DestEnd();
      AlignedSum(s.globalOff, s.nbytes);
      AlignedSum(go, ps[i].destOff);
    }
  }

  lemma RoundInside(p: Piece, s: Shard, go: nat, nbytes: nat)
    requires FromShard(p, s, go, nbytes) && Aligned(p.destOff) && Aligned(go)
    requires Aligned(s.globalOff) && Aligned(s.nbytes)
    ensures AlignedJob(Rounded(p)) && p.fileOff + AlignUp(p.length) <= s.nbytes
    ensures p.DestEnd() == nbytes ==> Rounded(p).DestEnd() == AlignUp(nbytes)
    ensures p.fileOff + p.length == s.nbytes ==> Rounded(p) == p
  {
    AlignedSum(go, p.destOff);
    AlignedSum(s.globalOff, p.fileOff);
    AlignUpSum(p.destOff, p.length);
  }

  // ---- running the jobs ----

  /** The shard file is there and long enough. */
  predicate CanRead(p: Piece, files: map<nat, Bytes>) {
    p.file in files && p.fileOff + p.length <= |files[p.file]|
  }

  predicate Disjoint(jobs: seq<Piece>) {
    forall i, j :: 0 <= i < j < |jobs| ==> jobs[i].DestEnd() <= jobs[j].destOff
  }

  /** The first n bytes of the job have arrived. */
  ghost predicate Arrived(dest: Bytes, p: Piece, files: map<nat, Bytes>, n: nat) {
    && n <= p.length && p.DestEnd() <= |dest| && p.file in files
    && (n > 0 ==> p.fileOff + n <= |files[p.file]|)
    && forall x :: p.destOff <= x < p.destOff + n ==> dest[x] == files[p.file][p.fileOff + (x - p.destOff)]
  }

  /** Bytes [at, at + n) of the job were stored, nothing else changed. */
  ghost predicate Stored(before: Bytes, after: Bytes, p: Piece, at: nat, n: nat, files: map<nat, Bytes>) {
    && |after| == |before| && at + n <= p.length && p.DestEnd() <= |before|
    && p.file in files && (n > 0 ==> p.fileOff + at + n <= |files[p.file]|)
    && forall x :: 0 <= x < |before| ==>
         after[x] == if p.destOff + at <= x < p.destOff + at + n
                     then files[p.file][p.fileOff + (x - p.destOff)] else before[x]
  }

  /** One positional read of a job that has `at` bytes and wants more: some bytes, or none exactly at
      the end of the file. */
  method ReadSome(dest: array<byte>, p: Piece, at: nat, files: map<nat, Bytes>) returns (n: nat)
    requires p.file in files && p.DestEnd() <= dest.Length && at < p.length
    modifies dest
    ensures n == 0 <==> |files[p.file]| <= p.fileOff + at
    ensures at + n <= p.length && Stored(old(dest[..]), dest[..], p, at, n, files)
  {
    var size := |files[p.file]|;
    if size <= p.fileOff + at {
      return 0;
    }
    n :| 0 < n <= p.length - at && p.fileOff + at + n <= size;
    forall i | 0 <= i < n {
      dest[p.destOff + at + i] := files[p.file][p.fileOff + at + i];
    }
  }

  predicate Opened(jobs: seq<Piece>, files: map<nat, Bytes>, room: nat) {
    forall j <- jobs :: j.file in files && j.DestEnd() <= room
  }

  /** What each job has so far is in place. */
  ghost predicate InFlight(dest: Bytes, jobs: seq<Piece>, files: map<nat, Bytes>, done: seq<nat>) {
    |done| == |jobs| && forall k :: 0 <= k < |jobs| ==> Arrived(dest, jobs[k], files, done[k])
  }

  lemma NoneArrived(dest: Bytes, jobs: seq<Piece>, files: map<nat, Bytes>)
    requires Opened(jobs, files, |dest|)
    ensures InFlight(dest, jobs, files, seq(|jobs|, _ => 0))
  {
  }

  function Remaining(jobs: seq<Piece>, done: seq<nat>): nat
    requires |done| == |jobs| && forall k :: 0 <= k < |jobs| ==> done[k] <= jobs[k].length
  {
    if jobs == [] then 0 else jobs[0].length - done[0] + Remaining(jobs[1..], done[1..])
  }

  lemma {:induction false} RemainingDrops(jobs: seq<Piece>, done: seq<nat>, k: nat, n: nat)
    requires |done| == |jobs| && forall i :: 0 <= i < |jobs| ==> done[i] <= jobs[i].length
    requires k < |jobs| && done[k] + n <= jobs[k].length
    ensures Remaining(jobs, done[k := done[k] + n]) + n == Remaining(jobs, done)
  {
    var done' := done[k := done[k] + n];
    if k == 0 {
      assert done'[1..] == done[1..];
    } else {
      RemainingDrops(jobs[1..], done[1..], k - 1, n);
      assert done'[1..] == done[1..][k - 1 := done[1..][k - 1] + n];
    }
  }

  lemma StoredArrives(before: Bytes, after: Bytes, q: Piece, files: map<nat, Bytes>, had: nat, p: Piece, at: nat, n: nat)
    requires Stored(before, after, p, at, n, files)
    requires Arrived(before, q, files, had)
    requires (q == p && had == at) || q.DestEnd() <= p.destOff || p.DestEnd() <= q.destOff
    ensures Arrived(after, q, files, had)
    ensures q == p && had == at ==> Arrived(after, q, files, at + n)
  {
  }

  /** One read of job k extends what it has and touches no other job. */
  lemma ReadArrived(before: Bytes, after: Bytes, jobs: seq<Piece>, files: map<nat, Bytes>, done: seq<nat>, k: nat, n: nat)
    requires Disjoint(jobs) && InFlight(before, jobs, files, done)
    requires k < |jobs| && Stored(before, after, jobs[k], done[k], n, files)
    ensures InFlight(after, jobs, files, done[k := done[k] + n])
  {
    hide Arrived, Stored;
    forall i | 0 <= i < |jobs| ensures Arrived(after, jobs[i], files, done[k := done[k] + n][i]) {
      assert i < k ==> jobs[i].DestEnd() <= jobs[k].destOff;
      assert k < i ==> jobs[k].DestEnd() <= jobs[i].destOff;
      StoredArrives(before, after, jobs[i], files, done[i], jobs[k], done[k], n);
    }
  }

  lemma ArrivedBounds(dest: Bytes, jobs: seq<Piece>, files: map<nat, Bytes>, done: seq<nat>)
    requires InFlight(dest, jobs, files, done)
    ensures |done| == |jobs|
    ensures forall k :: 0 <= k < |jobs| ==> done[k] <= jobs[k].length && jobs[k].file in files && jobs[k].DestEnd() <= |dest|
  {
  }

  /** One read for job k; it brings nothing exactly when the file has ended. */
  method ReadOnce(dest: array<byte>, jobs: seq<Piece>, files: map<nat, Bytes>, done: seq<nat>, k: nat)
    returns (n: nat)
    requires Disjoint(jobs) && InFlight(dest[..], jobs, files, done)
    requires k < |jobs| && done[k] < jobs[k].length
    modifies dest
    ensures n == 0 ==> !CanRead(jobs[k], files) && InFlight(dest[..], jobs, files, done)
    ensures done[k] + n <= jobs[k].length && InFlight(dest[..], jobs, files, done[k := done[k] + n])
  {
    hide InFlight, Disjoint, Stored;
    ArrivedBounds(dest[..], jobs, files, done);
    ghost var before := dest[..];
    n := ReadSome(dest, jobs[k], done[k], files);
    ReadArrived(before, dest[..], jobs, files, done, k, n);
    assert done[k := done[k]] == done;
  }

  function Below(n: nat): (s: set<int>)
    ensures forall k :: k in s <==> 0 <= k < n
  {
    if n == 0 then {} else Below(n - 1) + {n - 1}
  }

  predicate AllReadable(jobs: seq<Piece>, files: map<nat, Bytes>) {
    forall j <- jobs :: CanRead(j, files)
  }

  /** The worker pool: at every step any unfinished job makes one read of any positive size, so this
      covers every order of the jobs, every interleaving and every pattern of short reads. A missing
      file fails before the first read, a file that ends early fails its job (a mapped one at once);
      the jobs not done by then may run on or be cancelled. Either an error, or all bytes are there. */
  method RunJobs(dest: array<byte>, jobs: seq<Piece>, files: map<nat, Bytes>) returns (ok: bool)
    requires Disjoint(jobs) && forall j <- jobs :: j.length > 0 && j.DestEnd() <= dest.Length
    modifies dest
    ensures ok <==> AllReadable(jobs, files)
    ensures ok ==> forall j <- jobs :: Arrived(dest[..], j, files, j.length)
  {
    hide Disjoint, Arrived, InFlight;
    if !Opened(jobs, files, dest.Length) {
      NotOpened(jobs, files, dest.Length);
      return false;
    }
    ok := true;
    var done: seq<nat> := seq(|jobs|, _ => 0);
    var todo := Below(|jobs|);
    NoneArrived(dest[..], jobs, files);
    ArrivedBounds(dest[..], jobs, files, done);
    while todo != {}
      invariant InFlight(dest[..], jobs, files, done)
      invariant |done| == |jobs| && forall k :: 0 <= k < |jobs| ==> done[k] <= jobs[k].length
      invariant forall k <- todo :: 0 <= k < |jobs|
      invariant ok ==> forall k :: 0 <= k < |jobs| && k !in todo ==> done[k] == jobs[k].length
      invariant !ok ==> !AllReadable(jobs, files)
      decreases |todo|, Remaining(jobs, done)
    {
      var k :| k in todo;
      var mapped: bool := *;
      if done[k] == jobs[k].length {
        todo := todo - {k};
      } else if mapped && !CanRead(jobs[k], files) {
        ok, todo := false, todo - {k};
      } else {
        var n := ReadOnce(dest, jobs, files, done, k);
        if n == 0 {
          ok, todo := false, todo - {k};
          var cancelled: bool := *;
          if cancelled {
            todo := {};
          }
        } else {
          RemainingDrops(jobs, done, k, n);
          done := done[k := done[k] + n];
        }
      }
    }
    if ok {
      AllThere(dest[..], jobs, files, done);
    }
  }

  lemma NotOpened(jobs: seq<Piece>, files: map<nat, Bytes>, room: nat)
    requires !Opened(jobs, files, room) && forall j <- jobs :: j.DestEnd() <= room
    ensures !AllReadable(jobs, files)
  {
  }

  lemma AllThere(dest: Bytes, jobs: seq<Piece>, files: map<nat, Bytes>, done: seq<nat>)
    requires InFlight(dest, jobs, files, done)
    requires forall k :: 0 <= k < |jobs| ==> done[k] == jobs[k].length > 0
    ensures AllReadable(jobs, files) && forall j <- jobs :: Arrived(dest, j, files, j.length)
  {
    forall j | j in jobs ensures CanRead(j, files) && Arrived(dest, j, files, j.length) {
      var k :| 0 <= k < |jobs| && jobs[k] == j;
      assert Arrived(dest, jobs[k], files, done[k]);
    }
  }

  // ---- read_into ----

  /** The shard s holds position x of the region, and its file reaches that far. */
  predicate Holds(files: map<nat, Bytes>, s: Shard, x: nat) {
    s.globalOff <= x < s.End() && s.file in files && x - s.globalOff < |files[s.file]|
  }

  /** Position x of the region is in some shard's file, whatever the length of the file. */
  predicate Present(files: map<nat, Bytes>, shards: seq<Shard>, x: nat) {
    exists s <- shards :: Holds(files, s, x)
  }

  predicate AllPresent(files: map<nat, Bytes>, shards: seq<Shard>, off: nat, n: nat) {
    forall x :: off <= x < off + n ==> Present(files, shards, x)
  }

  lemma NothingPresent(files: map<nat, Bytes>, shards: seq<Shard>, off: nat)
    ensures AllPresent(files, shards, off, AlignUp(0))
  {
  }

  predicate IsByte(files: map<nat, Bytes>, shards: seq<Shard>, x: nat, v: byte) {
    exists s <- shards :: Holds(files, s, x) && files[s.file][x - s.globalOff] == v
  }

  /** Reading one range out of files that may be missing or cut short: an error exactly when the range
      runs past the shards or some byte of it is not in its file, and otherwise the right bytes, for
      every schedule of the jobs. */
  method ReadInto(dest: array<byte>, shards: seq<Shard>, globalOff: nat, nbytes: nat, chunk: nat, files: map<nat, Bytes>)
    returns (ok: bool)
    requires Tiles(shards, 0) && AlignedShards(shards)
    requires chunk > 0 && Aligned(chunk) && Aligned(globalOff) && AlignUp(nbytes) <= dest.Length
    modifies dest
    ensures ok <==> nbytes == 0 || (globalOff + nbytes <= RegionEnd(shards, 0) && AllPresent(files, shards, globalOff, AlignUp(nbytes)))
    ensures ok ==> forall x :: 0 <= x < AlignUp(nbytes) ==> IsByte(files, shards, globalOff + x, dest[x])
  {
    hide Tiles, AlignedShards, RegionEnd, AllPresent, IsByte, Chain, AllReadable, Arrived, WithinSome;
    NothingPresent(files, shards, globalOff);
    var jobs := MakeJobs(shards, globalOff, nbytes, chunk);
    if jobs.Err? {
      return false;
    }
    JobsFit(jobs.value, AlignUp(nbytes), dest.Length);
    ok := RunJobs(dest, jobs.value, files);
    JobsPresent(jobs.value, files, shards, globalOff, AlignUp(nbytes));
    if ok {
      AllArrived(dest[..], jobs.value, files, shards, globalOff, AlignUp(nbytes));
    }
  }

  lemma JobsFit(jobs: seq<Piece>, total: nat, room: nat)
    requires Chain(jobs, 0, total) && total <= room
    ensures forall j <- jobs :: j.DestEnd() <= room
    ensures Disjoint(jobs)
  {
    hide Chain;
    forall j | j in jobs ensures j.DestEnd() <= room {
      var i :| 0 <= i < |jobs| && jobs[i] == j;
      ChainBounds(jobs, 0, total, i);
    }
    forall i, j | 0 <= i < j < |jobs| ensures jobs[i].DestEnd() <= jobs[j].destOff {
      ChainDisjoint(jobs, 0, total, i, j);
    }
  }

  /** Tiling shards share no position. */
  lemma {:induction false} OneShardHolds(shards: seq<Shard>, start: nat, s: Shard, t: Shard, x: nat)
    requires Tiles(shards, start) && s in shards && t in shards
    requires s.globalOff <= x < s.End() && t.globalOff <= x < t.End()
    ensures s == t
  {
    TilesAscending(shards[1..], shards[0].End());
    assert shards == [shards[0]] + shards[1..];
    if s != shards[0] && t != shards[0] {
      OneShardHolds(shards[1..], shards[0].End(), s, t, x);
    }
  }

  lemma JobPresent(j: Piece, files: map<nat, Bytes>, shards: seq<Shard>, go: nat)
    requires Tiles(shards, 0) && WithinSome(j, shards, go) && j.length > 0
    ensures CanRead(j, files) <==> AllPresent(files, shards, go + j.destOff, j.length)
  {
    hide Tiles;
    var s :| s in shards && Within(j, s, go);
    if CanRead(j, files) {
      forall x | go + j.destOff <= x < go + j.DestEnd() ensures Present(files, shards, x) {
        assert Holds(files, s, x);
      }
    }
    if AllPresent(files, shards, go + j.destOff, j.length) {
      var x := go + j.DestEnd() - 1;
      assert Present(files, shards, x);
      var t :| t in shards && Holds(files, t, x);
      OneShardHolds(shards, 0, s, t, x);
    }
  }

  lemma JobsPresent(jobs: seq<Piece>, files: map<nat, Bytes>, shards: seq<Shard>, go: nat, total: nat)
    requires Tiles(shards, 0) && Chain(jobs, 0, total)
    requires forall j <- jobs :: j.length > 0 && WithinSome(j, shards, go)
    ensures AllReadable(jobs, files) <==> AllPresent(files, shards, go, total)
  {
    hide Tiles, Chain, CanRead, Present, WithinSome;
    forall j | j in jobs
      ensures CanRead(j, files) <==> AllPresent(files, shards, go + j.destOff, j.length)
      ensures j.DestEnd() <= total
    {
      var i :| 0 <= i < |jobs| && jobs[i] == j;
      ChainBounds(jobs, 0, total, i);
      JobPresent(j, files, shards, go);
    }
    if AllReadable(jobs, files) {
      forall x: nat | go <= x < go + total ensures Present(files, shards, x) {
        var i := ChainCovers(jobs, 0, total, x - go);
        assert jobs[i] in jobs;
      }
    }
  }

  lemma AllArrived(dest: Bytes, jobs: seq<Piece>, files: map<nat, Bytes>, shards: seq<Shard>, go: nat, total: nat)
    requires Chain(jobs, 0, total) && total <= |dest|
    requires forall j <- jobs :: WithinSome(j, shards, go) && Arrived(dest, j, files, j.length)
    ensures forall x :: 0 <= x < total ==> IsByte(files, shards, go + x, dest[x])
  {
    hide Chain, WithinSome, Arrived, IsByte;
    forall x | 0 <= x < total ensures IsByte(files, shards, go + x, dest[x]) {
      var i := ChainCovers(jobs, 0, total, x);
      JobByte(dest, jobs[i], files, shards, go, x);
    }
  }

  lemma JobByte(dest: Bytes, j: Piece, files: map<nat, Bytes>, shards: seq<Shard>, go: nat, x: nat)
    requires WithinSome(j, shards, go) && Arrived(dest, j, files, j.length)
    requires j.destOff <= x < j.DestEnd()
    ensures IsByte(files, shards, go + x, dest[x])
  {
    var s :| s in shards && Within(j, s, go);
    assert Holds(files, s, go + x) && files[s.file][go + x - s.globalOff] == dest[x];
  }

  // ---- complete files ----

  /** When every file has the recorded size, what is read at a position is the region's byte there. */
  lemma {:induction false} RegionByte(files: map<nat, Bytes>, shards: seq<Shard>, start: nat, x: nat)
    requires Tiles(shards, start) && HasShards(files, shards) && start <= x < RegionEnd(shards, start)
    ensures x - start < |Region(files, shards)|
    ensures IsByte(files, shards, x, Region(files, shards)[x - start])
  {
    RegionLength(files, shards, start);
    var s, rest := shards[0], shards[1..];
    assert shards == [s] + rest;
    if x < s.End() {
      assert Holds(files, s, x);
    } else {
      RegionByte(files, rest, s.End(), x);
      var t :| t in rest && Holds(files, t, x) && files[t.file][x - t.globalOff] == Region(files, rest)[x - s.End()];
      assert t in shards;
    }
  }

  lemma WholeFiles(files: map<nat, Bytes>, shards: seq<Shard>, x: nat, v: byte)
    requires Tiles(shards, 0) && HasShards(files, shards) && x < RegionEnd(shards, 0)
    ensures x < |Region(files, shards)| && Present(files, shards, x)
    ensures IsByte(files, shards, x, v) <==> v == Region(files, shards)[x]
  {
    hide Tiles, Region;
    RegionByte(files, shards, 0, x);
    var s :| s in shards && Holds(files, s, x) && files[s.file][x - s.globalOff] == Region(files, shards)[x];
    if IsByte(files, shards, x, v) {
      var t :| t in shards && Holds(files, t, x) && files[t.file][x - t.globalOff] == v;
      OneShardHolds(shards, 0, s, t, x);
    }
  }

  /** A range of complete files can always be read, and what arrives is that range of the region. */
  lemma WholeRange(files: map<nat, Bytes>, shards: seq<Shard>, off: nat, n: nat)
    requires Tiles(shards, 0) && HasShards(files, shards) && off + n <= RegionEnd(shards, 0)
    ensures off + n <= |Region(files, shards)|
    ensures AllPresent(files, shards, off, n)
    ensures forall dest: Bytes | n <= |dest| && (forall x :: 0 <= x < n ==> IsByte(files, shards, off + x, dest[x])) ::
              dest[..n] == Region(files, shards)[off..off + n]
  {
    hide Tiles, HasShards, Region, RegionEnd, Present, IsByte;
    RegionLength(files, shards, 0);
    forall x | off <= x < off + n ensures Present(files, shards, x) { WholeFiles(files, shards, x, 0); }
    forall dest: Bytes | n <= |dest| && forall x :: 0 <= x < n ==> IsByte(files, shards, off + x, dest[x])
      ensures dest[..n] == Region(files, shards)[off..off + n]
    {
      forall x | 0 <= x < n ensures dest[x] == Region(files, shards)[off + x] {
        WholeFiles(files, shards, off + x, dest[x]);
      }
    }
  }
}
