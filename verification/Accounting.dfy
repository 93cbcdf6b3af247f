// AccountingOutbox: one JSON file per receipt, written beside its name and renamed into place.
module Accounting {

  datatype Doc = Doc(receiptId: string, createdAt: int, body: nat)

  /** A file either holds a JSON object with these fields, or cannot be read as one. */
  datatype File = Json(doc: Doc) | Unreadable

  type Dir = map<string, File>

  /** InvalidId is the ValueError of a bad receiptId, OutboxError the AccountingOutboxError, and
      DirError the bare OSError of creating the directory, which is raised outside the try. */
  datatype Result<+T> = Ok(value: T) | InvalidId | OutboxError | DirError

  /** Where the file system lets a persist down, if at all. */
  datatype Trouble = Nowhere | AtMakedirs | AtOpen | AtWrite | AtReplace

  // ---- names ----

  predicate SafeChar(c: char) {
    'A' <= c <= 'Z' || 'a' <= c <= 'z' || '0' <= c <= '9' || c == '.' || c == '_' || c == '-'
  }

  predicate SafeId(id: string) {
    1 <= |id| <= 200 && forall i :: 0 <= i < |id| ==> SafeChar(id[i])
  }

  /** The code of a letter, a digit, a dot, an underscore or a dash. */
  predicate SafeCode(n: int) {
    48 <= n <= 57 || 65 <= n <= 90 || 97 <= n <= 122 || n == 45 || n == 46 || n == 95
  }

  /** A receipt id has 1 to 200 such characters. */
  lemma SafeIdExactlyWhen(id: string)
    ensures SafeId(id) <==> 1 <= |id| <= 200 && forall i :: 0 <= i < |id| ==> SafeCode(id[i] as int)
  {
    forall c: char ensures SafeChar(c) <==> SafeCode(c as int) {}
  }

  function Path(id: string): string {
    id + ".json"
  }

  predicate IsReceipt(name: string) {
    |name| >= 5 && name[|name| - 5..] == ".json"
  }

  function TmpPath(id: string, unique: string): string {
    "." + id + "." + unique + ".tmp"
  }

  lemma Names(id: string, other: string, unique: string)
    ensures IsReceipt(Path(id)) && !IsReceipt(TmpPath(id, unique))
    ensures Path(id) == Path(other) ==> id == other
  {
    var t := TmpPath(id, unique);
    assert Path(id)[..|id|] == id && Path(other)[..|other|] == other;
    assert t[|t| - 5..][4] == t[|t| - 1] == 'p';
  }

  // ---- the directory as readers see it ----

  /** _read_one of a file that is there: the document, unless it cannot be read, its id is not a valid
      one, or it is not under its own name. */
  predicate Good(dir: Dir, name: string)
    requires name in dir
  {
    dir[name].Json? && SafeId(dir[name].doc.receiptId) && name == Path(dir[name].doc.receiptId)
  }

  /** The receipts: what a reader of *.json files can see. */
  function Receipts(dir: Dir): Dir {
    map name | name in dir && IsReceipt(name) :: dir[name]
  }

  ghost predicate Clean(dir: Dir) {
    forall name <- dir :: IsReceipt(name) ==> Good(dir, name)
  }

  ghost function Docs(dir: Dir): set<Doc> {
    set name | name in dir && IsReceipt(name) && dir[name].Json? :: dir[name].doc
  }

  // ---- the order of pending ----

  /** Python's order on strings. */
  predicate Less(a: string, b: string) {
    if b == [] then false
    else if a == [] then true
    else a[0] < b[0] || (a[0] == b[0] && Less(a[1..], b[1..]))
  }

  lemma {:induction false} LessIsTotal(a: string, b: string)
    ensures !Less(a, a) && (Less(a, b) || a == b || Less(b, a)) && !(Less(a, b) && Less(b, a))
  {
    if a != [] && b != [] {
      LessIsTotal(a[1..], b[1..]);
      if a[0] == b[0] && a[1..] == b[1..] {
        assert a == [a[0]] + a[1..] && b == [b[0]] + b[1..];
      }
    } else if a != [] {
      LessIsTotal(a[1..], []);
    }
  }

  /** It is the dictionary order: a proper prefix comes first, else the first character that differs decides. */
  lemma {:induction false} LessExactlyWhen(a: string, b: string)
    ensures Less(a, b) <==> exists k :: 0 <= k <= |a| && k <= |b| && Splits(a, b, k)
  {
    if b == [] {
    } else if a == [] {
      assert Splits(a, b, 0);
    } else if a[0] < b[0] {
      assert Splits(a, b, 0);
    } else {
      LessExactlyWhen(a[1..], b[1..]);
      if k: nat :| k <= |a[1..]| && k <= |b[1..]| && Splits(a[1..], b[1..], k) && a[0] == b[0] {
        assert a[..k + 1] == [a[0]] + a[1..][..k] && b[..k + 1] == [b[0]] + b[1..][..k];
        assert Splits(a, b, k + 1);
      }
      if k: nat :| k <= |a| && k <= |b| && Splits(a, b, k) {
        SplitsBehind(a, b, k);
      }
    }
  }

  /** a and b agree up to k, where a ends or has the smaller character. */
  predicate Splits(a: string, b: string, k: nat)
    requires k <= |a| && k <= |b|
  {
    a[..k] == b[..k] && (if k == |a| then k < |b| else k < |b| && a[k] < b[k])
  }

  lemma SplitsBehind(a: string, b: string, k: nat)
    requires a != [] && b != [] && !(a[0] < b[0]) && k <= |a| && k <= |b| && Splits(a, b, k)
    ensures a[0] == b[0] && k > 0 && Splits(a[1..], b[1..], k - 1)
  {
    if k > 0 {
      assert a[0] == a[..k][0] && b[0] == b[..k][0];
      assert a[1..][..k - 1] == a[..k][1..] && b[1..][..k - 1] == b[..k][1..];
    }
  }

  lemma {:induction false} LessTransitive(a: string, b: string, c: string)
    requires Less(a, b) && Less(b, c)
    ensures Less(a, c)
  {
    if a != [] && a[0] == b[0] && b[0] == c[0] {
      LessTransitive(a[1..], b[1..], c[1..]);
    }
  }

  /** Older first, ties by id. */
  predicate Before(a: Doc, b: Doc) {
    a.createdAt < b.createdAt || (a.createdAt == b.createdAt && Less(a.receiptId, b.receiptId))
  }

  lemma BeforeTransitive(a: Doc, b: Doc, c: Doc)
    requires Before(a, b) && Before(b, c)
    ensures Before(a, c)
  {
    if a.createdAt == b.createdAt == c.createdAt { LessTransitive(a.receiptId, b.receiptId, c.receiptId); }
  }

  lemma BeforeIsStrict(a: Doc, b: Doc)
    ensures Before(a, b) ==> a != b && !Before(b, a)
    ensures a.receiptId != b.receiptId ==> Before(a, b) || Before(b, a)
  {
    LessIsTotal(a.receiptId, b.receiptId);
  }

  ghost predicate InOrder(docs: seq<Doc>) {
    forall i, j :: 0 <= i < j < |docs| ==> Before(docs[i], docs[j])
  }

  function Insert(doc: Doc, docs: seq<Doc>): seq<Doc> {
    if docs == [] || Before(doc, docs[0]) then [doc] + docs else [docs[0]] + Insert(doc, docs[1..])
  }

  lemma {:induction false} InsertKeepsOrder(doc: Doc, docs: seq<Doc>)
    requires InOrder(docs) && forall d <- docs :: d.receiptId != doc.receiptId
    ensures InOrder(Insert(doc, docs)) && |Insert(doc, docs)| == |docs| + 1
    ensures forall d :: d in Insert(doc, docs) <==> d == doc || d in docs
  {
    if docs == [] {
    } else if Before(doc, docs[0]) {
      forall j | 0 <= j < |docs| ensures Before(doc, docs[j]) {
        if j > 0 { BeforeTransitive(doc, docs[0], docs[j]); }
      }
    } else {
      InsertKeepsOrder(doc, docs[1..]);
      var rest := Insert(doc, docs[1..]);
      assert docs == [docs[0]] + docs[1..];
      BeforeIsStrict(docs[0], doc);
      assert docs[0] in docs;
      forall j | 0 <= j < |rest| ensures Before(docs[0], rest[j]) {
        assert rest[j] in rest;
      }
    }
  }

  /** There is only one list of given documents in the order of pending: the directory's own order
      cannot show. */
  lemma {:induction false} OneOrder(a: seq<Doc>, b: seq<Doc>)
    requires InOrder(a) && InOrder(b) && forall d :: d in a <==> d in b
    ensures a == b
  {
    assert (a != [] ==> a[0] in a) && (b != [] ==> b[0] in b);
    if a != [] && b != [] {
      assert a[0] in b && b[0] in a;
      BeforeIsStrict(a[0], b[0]);
      assert a[0] == b[0];
      forall d ensures d in a[1..] <==> d in b[1..] {
        TailMembers(a, d);
        TailMembers(b, d);
      }
      OneOrder(a[1..], b[1..]);
      assert a == [a[0]] + a[1..] && b == [b[0]] + b[1..];
    }
  }

  lemma TailMembers(a: seq<Doc>, d: Doc)
    requires InOrder(a) && a != []
    ensures d in a[1..] <==> d in a && d != a[0]
  {
    if d in a[1..] {
      var j: nat :| j < |a| - 1 && a[1..][j] == d;
      BeforeIsStrict(a[0], a[j + 1]);
    }
  }

  // ---- the outbox ----

  /** Every state the directory was in, one per file operation: a crash leaves one of them. */
  class Outbox {
    var files: Dir
    ghost var history: seq<Dir>

    constructor (dir: Dir)
      ensures files == dir && history == [dir]
    {
      files := dir;
      history := [dir];
    }

    method Put(name: string, file: File)
      modifies this
      ensures files == old(files)[name := file] && history == old(history) + [files]
    {
      files := files[name := file];
      history := history + [files];
    }

    method Remove(name: string)
      modifies this
      ensures files == old(files) - {name} && history == old(history) + [files]
    {
      files := files - {name};
      history := history + [files];
    }

    method Rename(from: string, to: string)
      requires from in files
      modifies this
      ensures files == (old(files) - {from})[to := old(files)[from]] && history == old(history) + [files]
    {
      files := (files - {from})[to := files[from]];
      history := history + [files];
    }

    /** A receipt reported as stored is there, alone changed, and a retry gets the first document back;
        an error stores nothing; and no crash in between shows anything but before or after. */
    method Persist(receipt: Doc, unique: string, trouble: Trouble, cleaned: bool) returns (r: Result<Doc>)
      modifies this
      ensures r.InvalidId? <==> !SafeId(receipt.receiptId)
      ensures r.Ok? ==>
        && r.value.receiptId == receipt.receiptId
        && Path(receipt.receiptId) in files && files[Path(receipt.receiptId)] == Json(r.value)
        && Receipts(files) == Receipts(old(files))[Path(receipt.receiptId) := Json(r.value)]
        && (Path(receipt.receiptId) in old(files) ==> files == old(files))
        && (Path(receipt.receiptId) !in old(files) ==> r.value == receipt)
      ensures !r.Ok? ==> Receipts(files) == Receipts(old(files))
      ensures SafeId(receipt.receiptId) && Path(receipt.receiptId) in old(files) ==>
                (r.Ok? <==> Good(old(files), Path(receipt.receiptId)))
      ensures SafeId(receipt.receiptId) && Path(receipt.receiptId) !in old(files) ==>
                (r.Ok? <==> trouble == Nowhere && TmpPath(receipt.receiptId, unique) !in old(files))
                && (r.DirError? <==> trouble == AtMakedirs)
      ensures |old(history)| <= |history| && old(history) == history[..|old(history)|]
      ensures forall i :: |old(history)| <= i < |history| ==>
                Receipts(history[i]) == Receipts(old(files)) || Receipts(history[i]) == Receipts(files)
    {
      hide SafeId, Receipts, IsReceipt, Path, TmpPath;
      var id := receipt.receiptId;
      if !SafeId(id) { return InvalidId; }
      var final := Path(id);
      Names(id, id, unique);
      if final in files {
        if Good(files, final) {
          AlreadyThere(files, final);
          Names(id, files[final].doc.receiptId, unique);
          return Ok(files[final].doc);
        }
        return OutboxError;
      }
      if trouble == AtMakedirs { return DirError; }
      var written := WriteTmp(TmpPath(id, unique), receipt, trouble, cleaned);
      if !written { return OutboxError; }
      Renamed(files, TmpPath(id, unique), final);
      Rename(TmpPath(id, unique), final);
      return Ok(receipt);
    }

    /** The document, complete, in a file no reader looks at; or a failure, perhaps with that file left. */
    method WriteTmp(tmp: string, receipt: Doc, trouble: Trouble, cleaned: bool) returns (ok: bool)
      requires !IsReceipt(tmp)
      modifies this
      ensures ok <==> trouble !in {AtOpen, AtWrite, AtReplace} && tmp !in old(files)
      ensures ok ==> tmp in files && files[tmp] == Json(receipt)
      ensures Receipts(files) == Receipts(old(files))
      ensures |old(history)| <= |history| && old(history) == history[..|old(history)|]
      ensures forall i :: |old(history)| <= i < |history| ==> Receipts(history[i]) == Receipts(old(files))
    {
      TmpInvisible(files, tmp, Unreadable);
      TmpInvisible(files, tmp, Json(receipt));
      ok := trouble != AtOpen && tmp !in files;
      if ok {
        Put(tmp, Unreadable);
        if trouble == AtWrite {
          ok := false;
        } else {
          Put(tmp, Json(receipt));
          ok := trouble != AtReplace;
        }
      }
      if !ok && cleaned {
        TmpInvisible(files, tmp, Unreadable);
        Remove(tmp);
      }
    }

    /** An error when the directory cannot be listed or some receipt cannot be read; otherwise every
        receipt, oldest first. A missing directory holds none. */
    method Pending(trouble: bool) returns (r: Result<seq<Doc>>)
      ensures r.OutboxError? <==> trouble || !Clean(files)
      ensures r.OutboxError? || r.Ok?
      ensures r.Ok? ==> InOrder(r.value) && forall d :: d in r.value <==> d in Docs(files)
      ensures r.Ok? ==> forall i, j :: 0 <= i < j < |r.value| ==>
                r.value[i].createdAt < r.value[j].createdAt ||
                (r.value[i].createdAt == r.value[j].createdAt && Less(r.value[i].receiptId, r.value[j].receiptId))
    {
      if trouble { return OutboxError; }
      var names := Receipts(files).Keys;
      var docs: seq<Doc> := [];
      while names != {}
        invariant names <= Receipts(files).Keys
        invariant forall name <- Receipts(files).Keys - names :: Good(files, name)
        invariant Listed(docs, files, Receipts(files).Keys - names)
        decreases names
      {
        var name :| name in names;
        if !Good(files, name) { return OutboxError; }
        InsertListed(docs, files, Receipts(files).Keys - names, name);
        docs := Insert(files[name].doc, docs);
        assert Receipts(files).Keys - (names - {name}) == (Receipts(files).Keys - names) + {name};
        names := names - {name};
      }
      assert Receipts(files).Keys - names == Receipts(files).Keys;
      AllListed(docs, files);
      return Ok(docs);
    }

    /** Acknowledging removes that receipt and no other, once. */
    method Ack(id: string, trouble: bool) returns (r: Result<bool>)
      modifies this
      ensures r.InvalidId? <==> !SafeId(id)
      ensures r.OutboxError? <==> SafeId(id) && trouble && Path(id) in old(files)
      ensures r.Ok? ==> (r.value <==> Path(id) !in old(files)) && files == old(files) - {Path(id)}
      ensures r.Ok? || r.InvalidId? || r.OutboxError?
      ensures !r.Ok? ==> files == old(files)
    {
      if !SafeId(id) { return InvalidId; }
      if Path(id) !in files { return Ok(true); }
      if trouble { return OutboxError; }
      Remove(Path(id));
      return Ok(false);
    }
  }

  lemma TmpInvisible(dir: Dir, tmp: string, file: File)
    requires !IsReceipt(tmp)
    ensures Receipts(dir[tmp := file]) == Receipts(dir) == Receipts(dir - {tmp})
  {
  }

  lemma AlreadyThere(dir: Dir, name: string)
    requires name in dir && IsReceipt(name)
    ensures Receipts(dir)[name := dir[name]] == Receipts(dir)
  {
  }

  lemma Renamed(dir: Dir, tmp: string, name: string)
    requires tmp in dir && !IsReceipt(tmp) && IsReceipt(name)
    ensures Receipts((dir - {tmp})[name := dir[tmp]]) == Receipts(dir)[name := dir[tmp]]
  {
  }

  /** docs are, in order, the documents of the named files. */
  ghost predicate Listed(docs: seq<Doc>, dir: Dir, names: set<string>) {
    && (forall name <- names :: name in dir && Good(dir, name))
    && InOrder(docs)
    && (forall d :: d in docs <==> exists name <- names :: dir[name].Json? && dir[name].doc == d)
  }

  lemma InsertListed(docs: seq<Doc>, dir: Dir, names: set<string>, name: string)
    requires Listed(docs, dir, names) && name in dir && name !in names && Good(dir, name)
    ensures Listed(Insert(dir[name].doc, docs), dir, names + {name})
  {
    hide InOrder, IsReceipt, SafeId;
    var doc, more := dir[name].doc, Insert(dir[name].doc, docs);
    forall d <- docs ensures d.receiptId != doc.receiptId {
      var other :| other in names && dir[other].Json? && dir[other].doc == d;
    }
    InsertKeepsOrder(doc, docs);
    forall d ensures d in more <==> exists n <- names + {name} :: dir[n].Json? && dir[n].doc == d {
      if d in docs {
        var other :| other in names && dir[other].Json? && dir[other].doc == d;
        assert other in names + {name};
      } else if d == doc {
        assert name in names + {name};
      }
    }
  }

  lemma AllListed(docs: seq<Doc>, dir: Dir)
    requires Listed(docs, dir, Receipts(dir).Keys)
    ensures Clean(dir) && InOrder(docs) && forall d :: d in docs <==> d in Docs(dir)
  {
    forall d ensures d in docs <==> d in Docs(dir) {
      if d in docs {
        var name :| name in Receipts(dir).Keys && dir[name].Json? && dir[name].doc == d;
      }
      if d in Docs(dir) {
        var name :| name in dir && IsReceipt(name) && dir[name].Json? && dir[name].doc == d;
        assert name in Receipts(dir).Keys;
      }
    }
  }

  lemma Unstored(before: Dir, after: Dir, name: string, file: File)
    requires name !in before && IsReceipt(name) && Receipts(after) == Receipts(before)[name := file]
    ensures Receipts(after - {name}) == Receipts(before)
  {
    forall n <- after ensures n in Receipts(after) <==> IsReceipt(n) {}
    assert forall n <- Receipts(after - {name}) :: n in Receipts(after) && Receipts(after)[n] == after[n];
    assert forall n <- Receipts(before) :: n in Receipts(after) && Receipts(after)[n] == before[n];
  }

  /** A receipt stored and then acknowledged leaves the outbox as it was, and a second
      acknowledgement changes nothing. */
  method StoreThenAck(box: Outbox, receipt: Doc, unique: string)
    requires SafeId(receipt.receiptId) && Path(receipt.receiptId) !in box.files
    modifies box
    ensures Receipts(box.files) == Receipts(old(box.files))
  {
    Names(receipt.receiptId, receipt.receiptId, unique);
    var stored := box.Persist(receipt, unique, Nowhere, true);
    if stored.Ok? {
      var again := box.Persist(receipt.(body := receipt.body + 1), unique, Nowhere, true);
      assert again == stored;
      ghost var held := box.files;
      var first := box.Ack(receipt.receiptId, false);
      Unstored(old(box.files), held, Path(receipt.receiptId), Json(stored.value));
      var second := box.Ack(receipt.receiptId, true);
      assert second == Ok(true);
    }
  }
}
