// A directory of shard files and one index, as the hotfix tool changes it: one file
// operation at a time, with every state in between recorded.
module HotfixStore {
  import opened Basics
  import opened FtwFormat

  /** `synced`: the bytes have reached the disk. */
  datatype File = File(data: Bytes, synced: bool)

  /** What a crash can find: `rollback` is the index a power loss may bring back, because the
      rename that replaced it has not been followed by a directory sync yet. */
  datatype Disk = Disk(files: map<nat, File>, index: Index, rollback: Option<Index>)

  /** What a reader finds, synced or not. */
  function Contents(files: map<nat, File>): map<nat, Bytes> {
    map f | f in files :: files[f].data
  }

  function Durable(files: map<nat, File>): map<nat, Bytes> {
    map f | f in files && files[f].synced :: files[f].data
  }

  /** The index is readable from synced bytes alone and yields `content`. */
  ghost predicate LoadsAs(files: map<nat, Bytes>, index: Index, content: seq<(string, Bytes)>) {
    Loads(files, index) && Decode(files, index) == content
  }

  ghost predicate Sound(d: Disk, content: seq<(string, Bytes)>) {
    && LoadsAs(Durable(d.files), d.index, content)
    && (d.rollback.Some? ==> LoadsAs(Durable(d.files), d.rollback.value, content))
  }

  /** A crash of the process or a loss of power: synced files keep their bytes, any other file may
      be gone, torn or back again, and an unsynced rename may be undone. */
  ghost predicate Crash(d: Disk, d': Disk) {
    && d'.rollback.None?
    && (d'.index == d.index || d.rollback == Some(d'.index))
    && (forall f <- d'.files :: d'.files[f].synced)
    && (forall f <- d.files :: d.files[f].synced ==> f in d'.files && d'.files[f].data == d.files[f].data)
  }

  /** What a crash can do: leave any bytes under the name of a file that was not synced, or no such file, and
      bring back an index whose replacement was not synced. */
  lemma CrashCan(d: Disk, f: nat, data: Bytes, undone: bool)
    requires f in d.files ==> !d.files[f].synced
    requires undone ==> d.rollback.Some?
    ensures var kept := map x | x in d.files && d.files[x].synced :: d.files[x];
            var index := if undone then d.rollback.value else d.index;
            Crash(d, Disk(kept, index, None)) && Crash(d, Disk(kept[f := File(data, true)], index, None))
  {
  }

  /** Loading needs only the files the index names. */
  lemma LoadsFrame(f: map<nat, Bytes>, g: map<nat, Bytes>, index: Index)
    requires Loads(f, index)
    requires forall s <- index.shards :: s.file in f ==> s.file in g && g[s.file] == f[s.file]
    ensures Loads(g, index) && Decode(g, index) == Decode(f, index)
  {
    var s := SortShards(index.shards);
    assert HasShards(g, s);
    RegionFrame(f, g, s, s);
  }

  /** An interrupted run always leaves a loadable FTW with the same contents. */
  lemma CrashKeepsContent(d: Disk, d': Disk, content: seq<(string, Bytes)>)
    requires Sound(d, content) && Crash(d, d')
    ensures Sound(d', content)
  {
    LoadsFrame(Durable(d.files), Durable(d'.files), d'.index);
  }

  /** A file neither index names can be written, torn or removed freely. */
  lemma ScratchFile(d: Disk, d': Disk, num: nat, content: seq<(string, Bytes)>)
    requires Sound(d, content) && d'.index == d.index && d'.rollback == d.rollback
    requires d'.files - {num} == d.files - {num}
    requires forall s <- d.index.shards :: s.file != num
    requires d.rollback.Some? ==> forall s <- d.rollback.value.shards :: s.file != num
    ensures Sound(d', content)
  {
    var f, g := Durable(d.files), Durable(d'.files);
    forall x | x in f && x != num ensures x in g && g[x] == f[x] {
      assert x in d.files - {num} && x in d'.files - {num};
    }
    LoadsFrame(f, g, d.index);
    if d.rollback.Some? { LoadsFrame(f, g, d.rollback.value); }
  }

  class Store {
    var files: map<nat, File>
    var index: Index
    ghost var rollback: Option<Index>
    ghost var history: seq<Disk>

    constructor (files: map<nat, File>, index: Index)
      ensures this.files == files && this.index == index && rollback == None
      ensures history == [Disk(files, index, None)]
    {
      this.files, this.index, rollback := files, index, None;
      history := [Disk(files, index, None)];
    }

    ghost function Now(): Disk
      reads this
    {
      Disk(files, index, rollback)
    }

    /** open(path, "wb"): an existing file of that name is emptied. */
    method Create(num: nat)
      modifies this
      ensures files == old(files)[num := File([], false)]
      ensures index == old(index) && rollback == old(rollback)
      ensures history == old(history) + [Now()]
    {
      files := files[num := File([], false)];
      history := history + [Now()];
    }

    method Append(num: nat, data: Bytes)
      requires num in files
      modifies this
      ensures files == old(files)[num := File(old(files)[num].data + data, false)]
      ensures index == old(index) && rollback == old(rollback)
      ensures history == old(history) + [Now()]
    {
      files := files[num := File(files[num].data + data, false)];
      history := history + [Now()];
    }

    /** flush and fsync of a shard file, which also makes its name durable. */
    method Sync(num: nat)
      requires num in files
      modifies this
      ensures files == old(files)[num := File(old(files)[num].data, true)]
      ensures index == old(index) && rollback == old(rollback)
      ensures history == old(history) + [Now()]
    {
      files := files[num := File(files[num].data, true)];
      history := history + [Now()];
    }

    method Remove(num: nat)
      requires num in files
      modifies this
      ensures files == old(files) - {num}
      ensures index == old(index) && rollback == old(rollback)
      ensures history == old(history) + [Now()]
    {
      files := files - {num};
      history := history + [Now()];
    }

    /** write_index: the synced temporary file replaces the index in one rename, then the
        directory is synced. The temporary file is never read back, so it is not kept. */
    method WriteIndex(newIndex: Index)
      modifies this
      ensures files == old(files) && index == newIndex && rollback == None
      ensures history == old(history) + [Disk(files, newIndex, Some(old(index))), Now()]
    {
      rollback := Some(index);
      index := newIndex;
      history := history + [Now()];
      rollback := None;
      history := history + [Now()];
    }

    /** A buffered read: between one byte and n bytes, none only at the end of the file. */
    method Read(num: nat, off: nat, n: nat) returns (buf: Bytes)
      requires num in files && 0 < n
      ensures |buf| <= n && (off < |files[num].data| ==> |buf| > 0)
      ensures off + |buf| <= |files[num].data| || buf == []
      ensures off + |buf| <= |files[num].data| ==> buf == files[num].data[off..off + |buf|]
    {
      var data := files[num].data;
      if off >= |data| {
        buf := [];
      } else {
        var k: nat :| 0 < k <= n && off + k <= |data|;
        buf := data[off..off + k];
      }
    }
  }

  // ---- shard_numbers ----

  /** The name pattern freetoken-NNNNN.ftw has exactly five digits. */
  const FIVE_DIGITS: nat := 100000

  function Numbers(onDisk: set<nat>, index: Index): set<nat> {
    onDisk + set s | s in index.shards :: s.file
  }

  function Recognized(nums: set<nat>): set<nat> {
    set n | n in nums && n < FIVE_DIGITS
  }

  predicate IsMax(m: nat, s: set<nat>) {
    m in s && forall n <- s :: n <= m
  }

  lemma MaxExists(s: set<nat>) returns (m: nat)
    requires s != {}
    ensures IsMax(m, s)
    decreases |s|
  {
    var x: nat :| x in s;
    if s == {x} {
      m := x;
    } else {
      var rest := s - {x};
      assert s == rest + {x};
      var y := MaxExists(rest);
      m := if x < y then y else x;
    }
  }

  /** One more than the greatest recognised number. */
  predicate IsNext(next: nat, nums: set<nat>) {
    var seen := Recognized(nums);
    (seen == {} ==> next == 0) && (seen != {} ==> next > 0 && IsMax(next - 1, seen))
  }

  /** The next shard number, and the shard files the index does not reference. */
  method ShardNumbers(onDisk: set<nat>, index: Index) returns (next: nat, orphans: set<nat>)
    ensures IsNext(next, Numbers(onDisk, index))
    ensures orphans == set n | n in onDisk && n < FIVE_DIGITS && forall s <- index.shards :: s.file != n
  {
    var used := set s | s in index.shards :: s.file;
    var found := set n | n in onDisk && n < FIVE_DIGITS;
    var nums := set n | n in found + used && n < FIVE_DIGITS;
    orphans := found - used;
    assert nums == Recognized(Numbers(onDisk, index));
    if nums == {} {
      next := 0;
    } else {
      ghost var top := MaxExists(nums);
      var m: nat :| IsMax(m, nums);
      next := m + 1;
    }
  }

  /** The number handed out is free unless 99999 and 100000 are both taken: a six-digit name is
      not recognized, so number 100000 is then handed out again. */
  lemma NextIsFree(nums: set<nat>, next: nat)
    requires IsNext(next, nums)
    ensures next !in nums <==> !(FIVE_DIGITS - 1 in nums && FIVE_DIGITS in nums)
  {
    assert forall n :: n in Recognized(nums) <==> n in nums && n < FIVE_DIGITS;
    assert next in nums ==> next !in Recognized(nums);
    assert FIVE_DIGITS - 1 in nums ==> FIVE_DIGITS - 1 in Recognized(nums);
  }

  /** Whatever else is on disk and in the index, every later number is free of the five-digit names. */
  lemma LaterAreFree(nums: set<nat>, next: nat)
    requires IsNext(next, nums)
    ensures forall n <- nums :: n < FIVE_DIGITS ==> n < next
  {
    forall n | n in nums && n < FIVE_DIGITS ensures n < next { assert n in Recognized(nums); }
  }

  /** Once 99999 is taken the number is 100000, be it taken or not. */
  lemma SixDigitCollision(nums: set<nat>, next: nat)
    requires FIVE_DIGITS - 1 in nums && IsNext(next, nums)
    ensures next == FIVE_DIGITS
  {
    assert FIVE_DIGITS - 1 in Recognized(nums);
  }
}
