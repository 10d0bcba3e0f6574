/**
 Writing a generation back as plain files: the online `Materialize` and the
 offline restore tool. Both produce exactly the tree of their entries, and fail
 exactly if the destination or a path is refused, a blob is missing, or one file
 would be a directory of another.
 */
module Restore {
  import opened Strings
  import opened Tables
  import opened Catalog
  import opened CatalogRuns
  import opened CatalogStore
  import opened Paths

  type Files = map<string, Bytes>

  // ---------- where entries go ----------

  /** `dir` is a proper ancestor of `p`. */
  predicate Above(dir: string, p: string) {
    dir + "/" <= p
  }

  /** The file of an entry; only asked for entries that the guard accepts. */
  function FileOf(dest: string, e: Entry): string {
    var r := EnsureSubpath(dest, e.path);
    if r.Ok? then r.value else ""
  }

  /** The guard accepts the path, it is not the destination itself, and the blob is there. */
  predicate Writable(e: Entry, blobs: map<Hash, Bytes>, dest: string) {
    e.hash in blobs && EnsureSubpath(dest, e.path).Ok? && FileOf(dest, e) != Clean(dest)
  }

  ghost predicate NoneNested(entries: seq<Entry>, dest: string) {
    forall d, e :: d in entries && e in entries ==> !Above(FileOf(dest, d), FileOf(dest, e))
  }

  /** Every entry can be written, whatever the order. */
  ghost predicate Restores(entries: seq<Entry>, blobs: map<Hash, Bytes>, dest: string) {
    (forall e <- entries :: Writable(e, blobs, dest)) && NoneNested(entries, dest)
  }

  /** Making the parents fails under a file; writing fails on a directory. */
  predicate CanWrite(files: Files, dest: string, p: string) {
    p != Clean(dest) && forall f <- files :: !Above(f, p) && !Above(p, f)
  }

  /** No later entry goes to the same file. */
  predicate IsLast(entries: seq<Entry>, dest: string, i: nat)
    requires i < |entries|
  {
    forall j :: i < j < |entries| ==> FileOf(dest, entries[j]) != FileOf(dest, entries[i])
  }

  ghost predicate HasFile(entries: seq<Entry>, dest: string, f: string) {
    exists e <- entries :: f == FileOf(dest, e)
  }

  /** `files` is the tree of `entries`: their files, each with the content of its last entry. */
  ghost predicate IsTree(files: Files, entries: seq<Entry>, blobs: map<Hash, Bytes>, dest: string) {
    && (forall f :: f in files <==> HasFile(entries, dest, f))
    && (forall i :: 0 <= i < |entries| && IsLast(entries, dest, i) ==>
          && entries[i].hash in blobs && FileOf(dest, entries[i]) in files
          && files[FileOf(dest, entries[i])] == blobs[entries[i].hash])
  }

  lemma HasFileGrows(done: seq<Entry>, e: Entry, dest: string, f: string)
    ensures HasFile(done + [e], dest, f) <==> HasFile(done, dest, f) || f == FileOf(dest, e)
  {
    hide FileOf;
    assert forall d :: d in done + [e] <==> d in done || d == e;
  }

  lemma TreeGrows(files: Files, done: seq<Entry>, e: Entry, blobs: map<Hash, Bytes>, dest: string)
    requires IsTree(files, done, blobs, dest) && e.hash in blobs
    ensures IsTree(files[FileOf(dest, e) := blobs[e.hash]], done + [e], blobs, dest)
  {
    hide FileOf;
    var all, after := done + [e], files[FileOf(dest, e) := blobs[e.hash]];
    forall f ensures f in after <==> HasFile(all, dest, f) {
      HasFileGrows(done, e, dest, f);
    }
    hide HasFile;
    forall i | 0 <= i < |all| && IsLast(all, dest, i)
      ensures all[i].hash in blobs && FileOf(dest, all[i]) in after && after[FileOf(dest, all[i])] == blobs[all[i].hash]
    {
      if i < |done| {
        assert all[|done|] == e;
        assert forall j :: i < j < |done| ==> all[j] == done[j];
        assert IsLast(done, dest, i);
      }
    }
  }

  /** What stands in the way of a file is an entry above or below it. */
  lemma BlockedMeansNested(files: Files, done: seq<Entry>, e: Entry, blobs: map<Hash, Bytes>, dest: string)
    requires IsTree(files, done, blobs, dest) && NoneNested(done, dest) && FileOf(dest, e) != Clean(dest)
    ensures CanWrite(files, dest, FileOf(dest, e)) <==> NoneNested(done + [e], dest)
  {
    hide FileOf;
    forall d | d in done ensures FileOf(dest, d) in files {
      assert HasFile(done, dest, FileOf(dest, d));
    }
    var all, p := done + [e], FileOf(dest, e);
    assert e in all && forall d <- done :: d in all;
    if NoneNested(all, dest) {
      forall f | f in files ensures !Above(f, p) && !Above(p, f) {
        assert HasFile(done, dest, f);
      }
    }
    assert !Above(p, p);
  }

  /** One file of a restore: it is written exactly if it is writable and nests with no other. */
  method WriteEntry(files: Files, e: Entry, blobs: map<Hash, Bytes>, dest: string, ghost done: seq<Entry>)
    returns (r: Result<Files>)
    requires IsTree(files, done, blobs, dest) && NoneNested(done, dest)
    ensures r.Ok? <==> Writable(e, blobs, dest) && NoneNested(done + [e], dest)
    ensures r.Ok? ==> IsTree(r.value, done + [e], blobs, dest)
  {
    hide IsTree;
    hide NoneNested;
    if e.hash !in blobs {
      return Err;
    }
    var file := EnsureSubpath(dest, e.path);
    if FileOf(dest, e) != Clean(dest) {
      BlockedMeansNested(files, done, e, blobs, dest);
    }
    if file.Err? || !CanWrite(files, dest, file.value) {
      return Err;
    }
    TreeGrows(files, done, e, blobs, dest);
    r := Ok(files[file.value := blobs[e.hash]]);
  }

  // ---------- the loops ----------

  /** The entries a loop does not skip. */
  function Chosen(wanted: Entry -> bool, entries: seq<Entry>): seq<Entry> {
    if entries == [] then []
    else
      var e := entries[|entries| - 1];
      Chosen(wanted, entries[..|entries| - 1]) + if wanted(e) then [e] else []
  }

  lemma ChosenNext(wanted: Entry -> bool, entries: seq<Entry>, i: nat)
    requires i < |entries|
    ensures Chosen(wanted, entries[..i + 1]) ==
            if wanted(entries[i]) then Chosen(wanted, entries[..i]) + [entries[i]] else Chosen(wanted, entries[..i])
  {
    assert entries[..i + 1][..i] == entries[..i];
  }

  lemma {:induction false} ChosenPrefix(wanted: Entry -> bool, entries: seq<Entry>, i: nat)
    requires i <= |entries|
    ensures Chosen(wanted, entries[..i]) <= Chosen(wanted, entries)
    decreases |entries| - i
  {
    if i == |entries| {
      assert entries[..i] == entries;
    } else {
      ChosenNext(wanted, entries, i);
      ChosenPrefix(wanted, entries, i + 1);
    }
  }

  lemma {:induction false} ChosenMember(wanted: Entry -> bool, entries: seq<Entry>, e: Entry)
    ensures e in Chosen(wanted, entries) <==> e in entries && wanted(e)
  {
    if entries != [] {
      var n := |entries| - 1;
      ChosenMember(wanted, entries[..n], e);
      assert entries == entries[..n] + [entries[n]];
    }
  }

  /** Which entries the two loops leave out. */
  lemma ChosenIff(entries: seq<Entry>, e: Entry)
    ensures e in Chosen(HasSafePath, entries) <==> e in entries && e.path != "" && forall i :: !OccursAt(e.path, "..", i)
    ensures e in Chosen(HasContent, entries) <==> e in entries && e.path != "" && e.hash != NoHash
  {
    ChosenMember(HasSafePath, entries, e);
    ChosenMember(HasContent, entries, e);
    DotDotAsText(e.path);
  }

  ghost predicate Written(files: Files, done: seq<Entry>, blobs: map<Hash, Bytes>, dest: string) {
    IsTree(files, done, blobs, dest) && Restores(done, blobs, dest)
  }

  lemma NothingWritten(blobs: map<Hash, Bytes>, dest: string)
    ensures Written(map[], [], blobs, dest)
  {
  }

  lemma RestoresPrefix(done: seq<Entry>, all: seq<Entry>, blobs: map<Hash, Bytes>, dest: string)
    requires done <= all && Restores(all, blobs, dest)
    ensures Restores(done, blobs, dest)
  {
    hide Writable;
    hide FileOf;
    assert forall e <- done :: e in all;
  }

  lemma RestoresOneMore(done: seq<Entry>, e: Entry, blobs: map<Hash, Bytes>, dest: string)
    requires Restores(done, blobs, dest)
    ensures Restores(done + [e], blobs, dest) <==> Writable(e, blobs, dest) && NoneNested(done + [e], dest)
  {
    hide Writable;
    hide NoneNested;
    assert e in done + [e] && forall d <- done :: d in done + [e];
  }

  /** The next file of a restore of `all`. */
  method WriteNext(files: Files, e: Entry, blobs: map<Hash, Bytes>, dest: string, ghost done: seq<Entry>, ghost all: seq<Entry>)
    returns (r: Result<Files>)
    requires done + [e] <= all && Written(files, done, blobs, dest)
    ensures r.Ok? ==> Written(r.value, done + [e], blobs, dest)
    ensures r.Err? ==> !Restores(all, blobs, dest)
  {
    r := WriteEntry(files, e, blobs, dest, done);
    RestoresOneMore(done, e, blobs, dest);
    if Restores(all, blobs, dest) {
      RestoresPrefix(done + [e], all, blobs, dest);
    }
    hide IsTree;
    hide Restores;
    hide NoneNested;
  }

  predicate HasSafePath(e: Entry) {
    e.path != "" && !HasDotDot(e.path)
  }

  /** `Materialize`: entries without a path or with ".." are left out. */
  method Materialize(entries: seq<Entry>, blobs: map<Hash, Bytes>, dest: string) returns (r: Result<Files>)
    ensures r.Ok? <==> GuardPath(dest) && Restores(Chosen(HasSafePath, entries), blobs, dest)
    ensures r.Ok? ==> IsTree(r.value, Chosen(HasSafePath, entries), blobs, dest)
  {
    hide IsTree;
    hide Restores;
    if !GuardPath(dest) {
      return Err;
    }
    NothingWritten(blobs, dest);
    var files: Files := map[];
    for i := 0 to |entries|
      invariant Written(files, Chosen(HasSafePath, entries[..i]), blobs, dest)
    {
      ChosenNext(HasSafePath, entries, i);
      ChosenPrefix(HasSafePath, entries, i + 1);
      if HasSafePath(entries[i]) {
        r := WriteNext(files, entries[i], blobs, dest, Chosen(HasSafePath, entries[..i]), Chosen(HasSafePath, entries));
        if r.Err? {
          return Err;
        }
        files := r.value;
      }
    }
    assert entries[..|entries|] == entries;
    r := Ok(files);
  }

  predicate HasContent(e: Entry) {
    e.path != "" && e.hash != NoHash
  }

  /** The restore tool: entries without a path or hash are left out; the rest is counted. */
  method OfflineRestore(entries: seq<Entry>, blobs: map<Hash, Bytes>, dest: string) returns (r: Result<Files>, n: nat)
    ensures r.Ok? <==> Restores(Chosen(HasContent, entries), blobs, dest)
    ensures r.Ok? ==> IsTree(r.value, Chosen(HasContent, entries), blobs, dest) && n == |Chosen(HasContent, entries)|
  {
    hide IsTree;
    hide Restores;
    NothingWritten(blobs, dest);
    var files: Files := map[];
    n := 0;
    for i := 0 to |entries|
      invariant Written(files, Chosen(HasContent, entries[..i]), blobs, dest)
      invariant n == |Chosen(HasContent, entries[..i])|
    {
      ChosenNext(HasContent, entries, i);
      ChosenPrefix(HasContent, entries, i + 1);
      if HasContent(entries[i]) {
        r := WriteNext(files, entries[i], blobs, dest, Chosen(HasContent, entries[..i]), Chosen(HasContent, entries));
        if r.Err? {
          return Err, n;
        }
        files := r.value;
        n := n + 1;
      }
    }
    assert entries[..|entries|] == entries;
    r := Ok(files);
  }

  // ---------- sanitized paths ----------

  /** Every segment passes the path guards. */
  predicate SafePath(p: string) {
    forall seg <- Split(p) :: SafeSeg(seg)
  }

  predicate GoodDest(dest: string) {
    GuardPath(dest) && Clean(dest) != "/" && Clean(dest) != "."
  }

  function Target(dest: string, p: string): string {
    Clean(dest) + "/" + p
  }

  /** The guard's verdict on safe paths: accepted below every good destination, and nowhere else. */
  lemma SafePathAccepted(dest: string, p: string)
    requires SafePath(p)
    ensures EnsureSubpath(dest, p) == if GoodDest(dest) then Ok(Target(dest, p)) else Err
    ensures p != "" && !HasDotDot(p)
  {
    JoinSplit(p);
    JoinIsSafe(Split(p));
    JoinEnds(Split(p));
    if GuardPath(dest) {
      EnsureSubpathExact(dest, Split(p));
    }
  }

  lemma TargetsCompare(dest: string, a: string, b: string)
    ensures Above(Target(dest, a), Target(dest, b)) <==> Above(a, b)
    ensures Target(dest, a) == Target(dest, b) <==> a == b
    ensures Target(dest, a) != Clean(dest)
  {
    var root := Clean(dest) + "/";
    assert Target(dest, a) + "/" == root + (a + "/") && Target(dest, b) == root + b;
    PrefixAfter(root, a + "/", b);
    PrefixAfter(root, a, b);
  }

  /** The live rows have sanitized paths, no two the same. */
  ghost predicate PathsGood(db: Tables, service: string) {
    && (forall k <- LiveKeys(db, service) :: SafePath(db.items[k].RelPath()))
    && (forall k, l :: k in LiveKeys(db, service) && l in LiveKeys(db, service) && k != l ==>
          db.items[k].RelPath() != db.items[l].RelPath())
  }

  /** No live file is used as a directory. */
  ghost predicate PathsFlat(db: Tables, service: string) {
    forall k, l :: k in LiveKeys(db, service) && l in LiveKeys(db, service) ==>
      !Above(db.items[k].RelPath(), db.items[l].RelPath())
  }

  // ---------- a fresh manifest ----------

  /** `m` lists the live rows of the service in the order of `rows`. */
  ghost predicate Fresh(m: seq<Entry>, db: Tables, service: string, rows: seq<Key>) {
    && Enumerates(rows, LiveKeys(db, service)) && |m| == |rows|
    && forall i :: 0 <= i < |rows| ==> rows[i] in db.items && m[i] == EntryOf(db.items[rows[i]])
  }

  /** Path, hash and size of every live row, one entry each and no other. */
  ghost predicate ListsExactly(m: seq<Entry>, db: Tables, service: string) {
    && |m| == |LiveKeys(db, service)|
    && (forall k <- LiveKeys(db, service) :: Entry(db.items[k].RelPath(), db.items[k].hash, db.items[k].size) in m)
    && (forall e <- m :: exists k <- LiveKeys(db, service) ::
          e.path == db.items[k].RelPath() && e.hash == db.items[k].hash && e.size == db.items[k].size)
  }

  lemma FreshLists(m: seq<Entry>, db: Tables, service: string, rows: seq<Key>)
    requires Fresh(m, db, service, rows)
    ensures ListsExactly(m, db, service)
  {
    EnumeratedCount(rows, LiveKeys(db, service));
    forall k | k in LiveKeys(db, service) ensures EntryOf(db.items[k]) in m {
      var i := RowOfEntry(m, db, service, rows, k);
      assert m[i] in m;
    }
    forall e | e in m ensures exists k <- LiveKeys(db, service) :: e == EntryOf(db.items[k]) {
      EntryOfRow(m, db, service, rows, e);
    }
    hide Fresh;
    hide Item.RelPath;
  }

  lemma EntryOfRow(m: seq<Entry>, db: Tables, service: string, rows: seq<Key>, e: Entry)
    requires Fresh(m, db, service, rows) && e in m
    ensures exists k <- LiveKeys(db, service) :: e == EntryOf(db.items[k])
  {
    hide EntryOf;
    var i :| 0 <= i < |m| && m[i] == e;
    assert rows[i] in rows;
  }

  lemma RowOfEntry(m: seq<Entry>, db: Tables, service: string, rows: seq<Key>, k: Key) returns (i: nat)
    requires Fresh(m, db, service, rows) && k in LiveKeys(db, service)
    ensures i < |m| && rows[i] == k && m[i] == EntryOf(db.items[k])
  {
    hide EntryOf;
    assert k in rows;
    i :| 0 <= i < |rows| && rows[i] == k;
  }

  lemma FreshEntryWritable(db: Tables, service: string, k: Key, dest: string)
    requires Restorable(db) && GoodDest(dest) && PathsGood(db, service) && k in LiveKeys(db, service)
    ensures var e := EntryOf(db.items[k]);
            && Writable(e, db.blobs, dest) && FileOf(dest, e) == Target(dest, db.items[k].RelPath())
            && HasSafePath(e) && HasContent(e)
  {
    var p := db.items[k].RelPath();
    assert SafePath(p) && Backed(db.blobs, db.items[k]);
    assert db.items[k].hash == Sha256(db.blobs[db.items[k].hash]);
    SafePathAccepted(dest, p);
    TargetsCompare(dest, p, p);
    hide GoodDest;
    hide SafePath;
  }

  lemma {:induction false} AllChosen(wanted: Entry -> bool, entries: seq<Entry>)
    requires forall e <- entries :: wanted(e)
    ensures Chosen(wanted, entries) == entries
  {
    if entries != [] {
      AllChosen(wanted, entries[..|entries| - 1]);
      assert entries == entries[..|entries| - 1] + [entries[|entries| - 1]];
    }
  }

  lemma FreshIsChosen(m: seq<Entry>, db: Tables, service: string, rows: seq<Key>, dest: string)
    requires Fresh(m, db, service, rows) && Restorable(db) && GoodDest(dest) && PathsGood(db, service)
    ensures Chosen(HasSafePath, m) == m && Chosen(HasContent, m) == m && forall e <- m :: Writable(e, db.blobs, dest)
  {
    forall e | e in m ensures HasSafePath(e) && HasContent(e) && Writable(e, db.blobs, dest) {
      EntryOfRow(m, db, service, rows, e);
      var k :| k in LiveKeys(db, service) && e == EntryOf(db.items[k]);
      FreshEntryWritable(db, service, k, dest);
    }
    AllChosen(HasSafePath, m);
    AllChosen(HasContent, m);
  }

  lemma FreshNests(m: seq<Entry>, db: Tables, service: string, rows: seq<Key>, dest: string)
    requires Fresh(m, db, service, rows) && Restorable(db) && GoodDest(dest) && PathsGood(db, service)
    ensures NoneNested(m, dest) <==> PathsFlat(db, service)
  {
    hide PathsGood;
    hide GoodDest;
    hide EntryOf;
    hide FileOf;
    hide Above;
    if NoneNested(m, dest) {
      forall k, l | k in LiveKeys(db, service) && l in LiveKeys(db, service)
        ensures !Above(db.items[k].RelPath(), db.items[l].RelPath())
      {
        var i := RowOfEntry(m, db, service, rows, k);
        var j := RowOfEntry(m, db, service, rows, l);
        assert m[i] in m && m[j] in m;
        RowsCompare(db, service, k, l, dest);
      }
    }
    if PathsFlat(db, service) {
      forall d, e | d in m && e in m ensures !Above(FileOf(dest, d), FileOf(dest, e)) {
        EntryOfRow(m, db, service, rows, d);
        EntryOfRow(m, db, service, rows, e);
        var k :| k in LiveKeys(db, service) && d == EntryOf(db.items[k]);
        var l :| l in LiveKeys(db, service) && e == EntryOf(db.items[l]);
        RowsCompare(db, service, k, l, dest);
      }
    }
  }

  lemma RowsCompare(db: Tables, service: string, k: Key, l: Key, dest: string)
    requires Restorable(db) && GoodDest(dest) && PathsGood(db, service)
    requires k in LiveKeys(db, service) && l in LiveKeys(db, service)
    ensures var a, b := FileOf(dest, EntryOf(db.items[k])), FileOf(dest, EntryOf(db.items[l]));
            && (Above(a, b) <==> Above(db.items[k].RelPath(), db.items[l].RelPath()))
            && (a == b <==> k == l)
  {
    FreshEntryWritable(db, service, k, dest);
    FreshEntryWritable(db, service, l, dest);
    TargetsCompare(dest, db.items[k].RelPath(), db.items[l].RelPath());
    hide GoodDest;
    hide FileOf;
    hide Target;
    hide Above;
  }

  /** `files` holds at the path of every live row the bytes last put under its id, and nothing else. */
  ghost predicate HoldsLastPuts(files: Files, db: Tables, es: seq<Event>, service: string, dest: string) {
    && (forall k <- LiveKeys(db, service) ::
          && Target(dest, db.items[k].RelPath()) in files
          && LastPut(es, k) == Some(files[Target(dest, db.items[k].RelPath())]))
    && (forall f <- files :: exists k <- LiveKeys(db, service) :: f == Target(dest, db.items[k].RelPath()))
  }

  lemma RowRestored(m: seq<Entry>, db: Tables, service: string, rows: seq<Key>, dest: string, files: Files, k: Key)
    requires Fresh(m, db, service, rows) && Restorable(db) && GoodDest(dest) && PathsGood(db, service)
    requires IsTree(files, m, db.blobs, dest) && k in LiveKeys(db, service)
    ensures var f := Target(dest, db.items[k].RelPath());
            db.items[k].hash in db.blobs && f in files && files[f] == db.blobs[db.items[k].hash]
  {
    var i := RowOfEntry(m, db, service, rows, k);
    FreshEntryWritable(db, service, k, dest);
    forall j | i < j < |m| ensures FileOf(dest, m[j]) != FileOf(dest, m[i]) {
      assert rows[j] in rows && rows[i] != rows[j];
      RowsCompare(db, service, k, rows[j], dest);
    }
    assert IsLast(m, dest, i);
    hide FileOf;
    hide GoodDest;
    hide PathsGood;
  }

  lemma FileIsRow(m: seq<Entry>, db: Tables, service: string, rows: seq<Key>, dest: string, files: Files, f: string)
    requires Fresh(m, db, service, rows) && Restorable(db) && GoodDest(dest) && PathsGood(db, service)
    requires IsTree(files, m, db.blobs, dest) && f in files
    ensures exists k <- LiveKeys(db, service) :: f == Target(dest, db.items[k].RelPath())
  {
    hide GoodDest;
    hide PathsGood;
    hide FileOf;
    assert HasFile(m, dest, f);
    var e :| e in m && f == FileOf(dest, e);
    EntryOfRow(m, db, service, rows, e);
    var k :| k in LiveKeys(db, service) && e == EntryOf(db.items[k]);
    FreshEntryWritable(db, service, k, dest);
  }

  lemma RowHoldsLastPut(sid: ShortId, es: seq<Event>, m: seq<Entry>, service: string, rows: seq<Key>, dest: string, files: Files, k: Key)
    requires Legal(sid, es) && Fresh(m, After(sid, es).db, service, rows) && k in LiveKeys(After(sid, es).db, service)
    requires GoodDest(dest) && PathsGood(After(sid, es).db, service) && IsTree(files, m, After(sid, es).db.blobs, dest)
    ensures var f := Target(dest, After(sid, es).db.items[k].RelPath()); f in files && LastPut(es, k) == Some(files[f])
  {
    AlwaysRestorable(sid, es);
    RowRestored(m, After(sid, es).db, service, rows, dest, files, k);
    LiveContentIsLastPut(sid, es, k);
    hide *;
  }

  /** The tree of a fresh manifest holds exactly the bytes last put at the live paths. */
  lemma FreshTreeHoldsLastPuts(sid: ShortId, es: seq<Event>, m: seq<Entry>, service: string, rows: seq<Key>, dest: string, files: Files)
    requires Legal(sid, es) && Fresh(m, After(sid, es).db, service, rows)
    requires GoodDest(dest) && PathsGood(After(sid, es).db, service) && IsTree(files, m, After(sid, es).db.blobs, dest)
    ensures HoldsLastPuts(files, After(sid, es).db, es, service, dest)
  {
    var db := After(sid, es).db;
    AlwaysRestorable(sid, es);
    hide Fresh;
    hide PathsGood;
    hide GoodDest;
    hide IsTree;
    hide After;
    hide LastPut;
    hide Restorable;
    hide Target;
    hide Legal;
    forall k | k in LiveKeys(db, service)
      ensures Target(dest, db.items[k].RelPath()) in files
      ensures LastPut(es, k) == Some(files[Target(dest, db.items[k].RelPath())])
    {
      RowHoldsLastPut(sid, es, m, service, rows, dest, files, k);
    }
    forall f | f in files ensures exists k <- LiveKeys(db, service) :: f == Target(dest, db.items[k].RelPath()) {
      FileIsRow(m, db, service, rows, dest, files, f);
    }
  }

  // ---------- commit, then restore ----------

  lemma CommitIsFresh(st: State, service: string, uuid: string, now: int, rows: seq<Key>)
    requires Enumerates(rows, LiveKeys(st.db, service)) && !Skips(st.session, service)
    ensures var db, gen := Commit(st, service, uuid, now, rows).db, NextGeneration(st.db, service);
            && db.items == st.db.items && gen in db.manifests && gen in db.snapshots
            && db.manifests[gen] == ManifestOf(Live(st.db, service), rows)
            && db.snapshots[gen] == Snapshot(uuid, now, |rows|, SizeSum(Live(st.db, service), rows))
  {
    hide NextGeneration;
    hide EntryOf;
  }

  lemma ManifestIsFresh(db: Tables, service: string, rows: seq<Key>)
    requires Enumerates(rows, LiveKeys(db, service))
    ensures Fresh(ManifestOf(Live(db, service), rows), db, service, rows) && |rows| == |LiveKeys(db, service)|
  {
    hide EntryOf;
    EnumeratedCount(rows, LiveKeys(db, service));
    forall i | 0 <= i < |rows| ensures rows[i] in db.items && ManifestOf(Live(db, service), rows)[i] == EntryOf(db.items[rows[i]]) {
      assert rows[i] in rows;
    }
  }

  lemma CommitExtends(sid: ShortId, es: seq<Event>, e: Event)
    requires Legal(sid, es) && e.CommitGen? && Allowed(After(sid, es), e)
    requires !Skips(After(sid, es).sessions[e.service], e.service)
    ensures Legal(sid, es + [e])
    ensures After(sid, es + [e]).db == Commit(StateOf(After(sid, es), e.service), e.service, e.uuid, e.now, e.rows).db
  {
    Extended(sid, es, e);
    hide After;
    hide Commit;
  }

  lemma LastPutIgnoresCommit(es: seq<Event>, e: Event, key: Key)
    requires e.CommitGen?
    ensures LastPut(es + [e], key) == LastPut(es, key)
  {
    assert (es + [e])[..|es|] == es;
  }

  /** What a restore of a freshly committed manifest comes to. */
  ghost predicate RestoredRight(r: Result<Files>, db: Tables, es: seq<Event>, service: string, dest: string) {
    && (r.Ok? <==> PathsFlat(db, service))
    && (r.Ok? ==> HoldsLastPuts(r.value, db, es, service, dest))
  }

  lemma FreshRestore(sid: ShortId, es: seq<Event>, e: Event, dest: string, m: seq<Entry>, r: Result<Files>)
    requires Legal(sid, es + [e]) && e.CommitGen? && Fresh(m, After(sid, es + [e]).db, e.service, e.rows)
    requires GoodDest(dest) && PathsGood(After(sid, es + [e]).db, e.service)
    requires r.Ok? <==> Restores(m, After(sid, es + [e]).db.blobs, dest)
    requires r.Ok? ==> IsTree(r.value, m, After(sid, es + [e]).db.blobs, dest)
    ensures RestoredRight(r, After(sid, es + [e]).db, es, e.service, dest)
  {
    var all := es + [e];
    var db := After(sid, all).db;
    AlwaysRestorable(sid, all);
    FreshIsChosen(m, db, e.service, e.rows, dest);
    FreshNests(m, db, e.service, e.rows, dest);
    if r.Ok? {
      FreshTreeHoldsLastPuts(sid, all, m, e.service, e.rows, dest, r.value);
      SameLastPuts(r.value, db, es, e, dest);
    }
    hide *;
  }

  lemma SameLastPuts(files: Files, db: Tables, es: seq<Event>, e: Event, dest: string)
    requires e.CommitGen? && HoldsLastPuts(files, db, es + [e], e.service, dest)
    ensures HoldsLastPuts(files, db, es, e.service, dest)
  {
    forall k | k in LiveKeys(db, e.service) ensures LastPut(es, k) == LastPut(es + [e], k) {
      LastPutIgnoresCommit(es, e, k);
    }
    hide LastPut;
  }

  /**
   Round trip: a job whose store is in the state of run `es` commits, and its new manifest
   is restored both ways. The snapshot counts and sums the live rows; both restores succeed
   exactly if no live file is used as a directory, and then hold at every live path the
   bytes last put there and nothing else.
   */
  method CommitAndRestore(store: Store, service: string, uuid: string, now: int, dest: string, ghost es: seq<Event>)
    returns (online: Result<Files>, offline: Result<Files>, n: nat, gen: GenKey)
    requires store.Valid() && service != "" && forall g <- store.db.snapshots :: store.db.snapshots[g].id != uuid
    requires Legal(store.sid, es) && service in After(store.sid, es).sessions
    requires store.Now() == StateOf(After(store.sid, es), service) && !Skips(store.Now().session, service)
    requires GoodDest(dest) && PathsGood(store.db, service)
    modifies store
    ensures store.Valid() && store.db.items == old(store.db.items)
    ensures gen in store.db.manifests && ListsExactly(store.db.manifests[gen], store.db, service)
    ensures gen in store.db.snapshots && store.db.snapshots[gen].itemsLive == |LiveKeys(store.db, service)|
    ensures forall rows :: Enumerates(rows, LiveKeys(store.db, service)) ==>
              store.db.snapshots[gen].bytesLive == SizeSum(Live(store.db, service), rows)
    ensures RestoredRight(online, store.db, es, service, dest)
    ensures RestoredRight(offline, store.db, es, service, dest)
    ensures offline.Ok? ==> n == store.db.snapshots[gen].itemsLive
  {
    ghost var rows;
    gen, rows := CommitNow(store, service, uuid, now, es);
    ghost var e := CommitGen(service, uuid, now, rows);
    hide *;
    SamePathsGood(old(store.db), store.db, service);
    FreshLists(store.db.manifests[gen], store.db, service, rows);
    FreshIsChosen(store.db.manifests[gen], store.db, service, rows, dest);
    online := Materialize(store.db.manifests[gen], store.db.blobs, dest);
    offline, n := OfflineRestore(store.db.manifests[gen], store.db.blobs, dest);
    GoodIsGuarded(dest);
    FreshRestore(store.sid, es, e, dest, store.db.manifests[gen], online);
    FreshRestore(store.sid, es, e, dest, store.db.manifests[gen], offline);
    TotalsAnyOrder(store.db, service, rows);
  }

  lemma GoodIsGuarded(dest: string)
    requires GoodDest(dest)
    ensures GuardPath(dest)
  {
  }

  /** The commit, as the next event of the run. */
  method CommitNow(store: Store, service: string, uuid: string, now: int, ghost es: seq<Event>)
    returns (gen: GenKey, ghost rows: seq<Key>)
    requires store.Valid() && service != "" && forall g <- store.db.snapshots :: store.db.snapshots[g].id != uuid
    requires Legal(store.sid, es) && service in After(store.sid, es).sessions
    requires store.Now() == StateOf(After(store.sid, es), service) && !Skips(store.Now().session, service)
    modifies store
    ensures store.Valid() && store.db.items == old(store.db.items) && Enumerates(rows, LiveKeys(store.db, service))
    ensures var all := es + [CommitGen(service, uuid, now, rows)];
            Legal(store.sid, all) && store.db == After(store.sid, all).db && Restorable(store.db)
    ensures gen in store.db.manifests && Fresh(store.db.manifests[gen], store.db, service, rows)
    ensures |store.db.manifests[gen]| == |LiveKeys(store.db, service)|
    ensures gen in store.db.snapshots && store.db.snapshots[gen].itemsLive == |LiveKeys(store.db, service)|
    ensures forall k <- rows :: k in Live(store.db, service)
    ensures store.db.snapshots[gen].bytesLive == SizeSum(Live(store.db, service), rows)
  {
    hide After;
    hide Commit;
    hide NextGeneration;
    ghost var start := store.Now();
    var r;
    r, rows := store.CommitSnapshot(service, uuid, now);
    gen := r.gen;
    ghost var e := CommitGen(service, uuid, now, rows);
    CommitExtends(store.sid, es, e);
    CommitIsFresh(start, service, uuid, now, rows);
    SameLive(start.db, store.db, service);
    ManifestIsFresh(store.db, service, rows);
    AlwaysRestorable(store.sid, es + [e]);
    hide *;
  }

  lemma SameLive(a: Tables, b: Tables, service: string)
    requires a.items == b.items
    ensures LiveKeys(a, service) == LiveKeys(b, service) && Live(a, service) == Live(b, service)
  {
    assert LiveKeys(a, service) == LiveKeys(b, service);
  }

  lemma SamePathsGood(a: Tables, b: Tables, service: string)
    requires a.items == b.items && PathsGood(a, service)
    ensures PathsGood(b, service) && Live(a, service) == Live(b, service)
  {
    assert LiveKeys(a, service) == LiveKeys(b, service);
  }

  lemma TotalsAnyOrder(db: Tables, service: string, rows: seq<Key>)
    requires Enumerates(rows, LiveKeys(db, service))
    ensures forall any :: Enumerates(any, LiveKeys(db, service)) ==>
      SizeSum(Live(db, service), any) == SizeSum(Live(db, service), rows)
  {
    forall any | Enumerates(any, LiveKeys(db, service)) ensures SizeSum(Live(db, service), any) == SizeSum(Live(db, service), rows) {
      SizeSumAnyOrder(Live(db, service), any, rows, LiveKeys(db, service));
    }
  }
}
