/**
 The catalog store as the object the jobs use: every method changes the tables or
 the session in place and is proved to do what the state function of the same
 name says.
 */
module CatalogStore {
  import opened Strings
  import opened SmartRecycle
  import opened Tables
  import T = Tables
  import opened CatalogNumbers
  import Paths

  // ---------- result sets ----------

  /** The rows of a query, in some order. */
  method Select<T(==, !new)>(keys: set<T>) returns (rows: seq<T>)
    ensures Enumerates(rows, keys)
  {
    rows := [];
    var todo := keys;
    while todo != {}
      invariant todo <= keys
      invariant Enumerates(rows, keys - todo)
      decreases todo
    {
      var k :| k in todo;
      rows := rows + [k];
      todo := todo - {k};
    }
    assert keys - todo == keys;
  }

  lemma {:induction false} EnumeratedCount<T(!new)>(rows: seq<T>, keys: set<T>)
    requires Enumerates(rows, keys)
    ensures |rows| == |keys|
    decreases |rows|
  {
    if rows == [] {
      assert keys == {};
    } else {
      var n := |rows| - 1;
      var last := rows[n];
      assert last in rows;
      assert rows == rows[..n] + [last];
      assert Enumerates(rows[..n], keys - {last}) by {
        forall k ensures k in rows[..n] <==> k in keys - {last} {
          assert k in rows <==> k in rows[..n] || k == last;
        }
      }
      EnumeratedCount(rows[..n], keys - {last});
    }
  }

  ghost function Elements<T(!new)>(rows: seq<T>): set<T> {
    set k | k in rows
  }

  lemma ElementsGrow<T(!new)>(rows: seq<T>, i: nat)
    requires i < |rows|
    ensures Elements(rows[..i + 1]) == Elements(rows[..i]) + {rows[i]}
  {
    assert rows[..i + 1] == rows[..i] + [rows[i]];
  }

  // ---------- sizes in any order ----------

  lemma SizeSumLast(view: map<Key, Item>, rows: seq<Key>, k: Key)
    requires k in view && forall r <- rows :: r in view
    ensures SizeSum(view, rows + [k]) == SizeSum(view, rows) + view[k].size
  {
    assert (rows + [k])[..|rows|] == rows;
  }

  lemma {:induction false} SizeSumWithout(view: map<Key, Item>, rows: seq<Key>, i: nat)
    requires i < |rows| && forall k <- rows :: k in view
    ensures SizeSum(view, rows) == SizeSum(view, rows[..i] + rows[i + 1..]) + view[rows[i]].size
    decreases |rows|
  {
    var n := |rows| - 1;
    var rest := rows[..i] + rows[i + 1..];
    if i == n {
      assert rest == rows[..n];
    } else {
      var front := rows[..n];
      SizeSumWithout(view, front, i);
      var less := front[..i] + front[i + 1..];
      assert rest == less + [rows[n]];
      SizeSumLast(view, less, rows[n]);
    }
  }

  lemma {:induction false} SizeSumAnyOrder(view: map<Key, Item>, a: seq<Key>, b: seq<Key>, keys: set<Key>)
    requires Enumerates(a, keys) && Enumerates(b, keys) && keys <= view.Keys
    ensures SizeSum(view, a) == SizeSum(view, b)
    decreases |a|
  {
    EnumeratedCount(a, keys);
    EnumeratedCount(b, keys);
    if a != [] {
      var n := |a| - 1;
      var k := a[n];
      assert k in a && k in b;
      var i: nat :| i < |b| && b[i] == k;
      SizeSumWithout(view, b, i);
      DropLast(a, keys);
      DropAt(b, keys, i);
      SizeSumAnyOrder(view, a[..n], b[..i] + b[i + 1..], keys - {k});
    }
  }

  lemma DropLast(rows: seq<Key>, keys: set<Key>)
    requires Enumerates(rows, keys) && rows != []
    ensures Enumerates(rows[..|rows| - 1], keys - {rows[|rows| - 1]})
  {
    var n := |rows| - 1;
    assert rows == rows[..n] + [rows[n]];
  }

  lemma DropAt(rows: seq<Key>, keys: set<Key>, i: nat)
    requires Enumerates(rows, keys) && i < |rows|
    ensures Enumerates(rows[..i] + rows[i + 1..], keys - {rows[i]})
  {
    assert rows == rows[..i] + [rows[i]] + rows[i + 1..];
    assert forall k :: k in rows <==> k in rows[..i] || k == rows[i] || k in rows[i + 1..];
  }

  // ---------- deleting row by row ----------

  lemma DeleteOneMore(sid: Paths.ShortId, st: State, done: set<Key>, k: Key)
    requires k in st.db.items && ValidKey(k) && k !in done && done <= st.db.items.Keys
    ensures Delete(sid, DeleteAll(st, done), k) == DeleteAll(st, done + {k})
  {
    var mid := DeleteAll(st, done);
    assert AliasOf(sid, mid, k, BLANK) == None;
    hide AliasOf;
    DeadRowsGrow(st.db.items, done, k);
    DeadChangesGrow(st.db.items, st.session.pending, done, k);
    var row := Dead(st.db.items[k]);
    assert mid.db.items[k].(deleted := true) == row;
    assert Delete(sid, mid, k) == State(mid.db.(items := mid.db.items[k := row]), NotePending(mid.session, Remove, k, row));
  }

  lemma DeadRowsGrow(items: map<Key, Item>, done: set<Key>, k: Key)
    requires k in items && k !in done
    ensures (map x | x in items :: if x in done then Dead(items[x]) else items[x])[k := Dead(items[k])] ==
            map x | x in items :: if x in done + {k} then Dead(items[x]) else items[x]
  {
  }

  lemma DeadChangesGrow(items: map<Key, Item>, pending: map<Key, Change>, done: set<Key>, k: Key)
    requires k in items && k !in done
    ensures (pending + map x | x in done && x in items :: Change(Remove, Dead(items[x])))[k := Change(Remove, Dead(items[k]))] ==
            pending + map x | x in done + {k} && x in items :: Change(Remove, Dead(items[x]))
  {
  }

  lemma DeleteNone(st: State)
    ensures DeleteAll(st, {}) == st
  {
    var end := DeleteAll(st, {});
    assert end.db.items == st.db.items;
    assert end.session.pending == st.session.pending;
  }

  /** The blobs a collection has not removed yet. */
  ghost function LeftOver(blobs: map<Hash, Bytes>, keep: set<Hash>, todo: seq<Hash>): map<Hash, Bytes> {
    map h | h in blobs && (h in keep || h in todo) :: blobs[h]
  }

  lemma SweepOne(blobs: map<Hash, Bytes>, keep: set<Hash>, h: Hash, todo: seq<Hash>)
    requires h !in todo
    ensures var left := LeftOver(blobs, keep, [h] + todo);
            LeftOver(blobs, keep, todo) == if h in keep then left else left - {h}
  {
    var left := LeftOver(blobs, keep, [h] + todo);
    assert forall g :: g in [h] + todo <==> g == h || g in todo;
    if h in keep {
      assert LeftOver(blobs, keep, todo) == left;
    } else {
      assert LeftOver(blobs, keep, todo) == left - {h};
    }
  }

  lemma SweepStart(blobs: map<Hash, Bytes>, keep: set<Hash>, hashes: seq<Hash>)
    requires forall h <- blobs :: h in hashes
    ensures LeftOver(blobs, keep, hashes) == blobs
    ensures LeftOver(blobs, keep, []) == map h | h in blobs && h in keep :: blobs[h]
  {
  }

  /** Snapshot ids are unique, so deleting by id deletes one generation. */
  lemma PruneSnapshot(db: Tables, gone: set<GenKey>, g: GenKey)
    requires UniqueIds(db) && g in db.snapshots && g !in gone
    ensures var mid := db.snapshots - gone;
            db.snapshots - (gone + {g}) == map h | h in mid && mid[h].id != db.snapshots[g].id :: mid[h]
  {
    assert forall h <- db.snapshots :: db.snapshots[h].id == db.snapshots[g].id <==> h == g;
    hide UniqueIds;
  }

  lemma PruneOneMore(db: Tables, gone: set<GenKey>, g: GenKey)
    requires UniqueIds(db) && g in db.snapshots && g !in gone
    ensures var mid := Prune(db, gone);
            Prune(db, gone + {g}) ==
              mid.(changes := (set c | c in mid.changes && c.gen != g),
                   snapshots := (map h | h in mid.snapshots && mid.snapshots[h].id != db.snapshots[g].id :: mid.snapshots[h]),
                   manifests := mid.manifests - {g})
  {
    var mid, end := Prune(db, gone), Prune(db, gone + {g});
    PruneSnapshot(db, gone, g);
    hide UniqueIds;
    assert end.changes == (set c | c in mid.changes && c.gen != g);
    assert end.snapshots == (map h | h in mid.snapshots && mid.snapshots[h].id != db.snapshots[g].id :: mid.snapshots[h]);
    assert end.manifests == mid.manifests - {g};
  }

  /** The listed rows that the path test covers. */
  method CoveredRows(items: map<Key, Item>, live: seq<Key>, mailbox: string, trimmed: string) returns (doomed: seq<Key>)
    requires Enumerates(live, Elements(live)) && forall k <- live :: k in items
    ensures forall k :: k in doomed <==> k in live && Covers(mailbox, trimmed, items[k])
    ensures Enumerates(doomed, Elements(doomed))
  {
    hide Covers;
    doomed := [];
    for i := 0 to |live|
      invariant forall k :: k in doomed <==> k in live[..i] && k in items && Covers(mailbox, trimmed, items[k])
      invariant forall a, b :: 0 <= a < b < |doomed| ==> doomed[a] != doomed[b]
    {
      assert live[i] in live && live[i] !in live[..i];
      assert live[..i + 1] == live[..i] + [live[i]];
      if Covers(mailbox, trimmed, items[live[i]]) {
        doomed := doomed + [live[i]];
      }
    }
    assert live[..|live|] == live;
  }

  lemma ListedOnce<T(!new)>(rows: seq<T>, keys: set<T>)
    requires Enumerates(rows, keys)
    ensures Elements(rows) == keys
  {
  }

  /** The rows of the mailbox are deleted, all others as before. */
  ghost predicate MailboxGone(before: Tables, after: Tables, service: string, mailbox: string) {
    forall k <- before.items ::
      && k in after.items
      && after.items[k] == if k.service == service && before.items[k].mailbox == mailbox
                           then before.items[k].(deleted := true) else before.items[k]
  }

  lemma WholeMailbox(st: State, service: string, mailbox: string, rel: string)
    requires TrimSlashes(rel) == ""
    ensures MailboxGone(st.db, T.DeletePrefix(st, service, mailbox, rel).db, service, mailbox)
  {
  }

  lemma CoveredArePrefixKeys(db: Tables, service: string, live: seq<Key>, doomed: seq<Key>, mailbox: string, rel: string)
    requires Enumerates(live, LiveKeys(db, service)) && forall k <- live :: k in db.items
    requires forall k :: k in doomed <==> k in live && Covers(mailbox, TrimSlashes(rel), db.items[k])
    ensures Elements(doomed) == PrefixKeys(db, service, mailbox, rel) && forall k <- doomed :: k in db.items
  {
    hide Covers;
  }

  /** One blob after the other is deleted unless it is kept. */
  method Sweep(blobs: map<Hash, Bytes>, keep: set<Hash>) returns (left: map<Hash, Bytes>)
    ensures left == map h | h in blobs && h in keep :: blobs[h]
  {
    left := blobs;
    var hashes := Select(blobs.Keys);
    SweepStart(blobs, keep, hashes);
    hide LeftOver;
    assert hashes[0..] == hashes && hashes[|hashes|..] == [];
    for i := 0 to |hashes|
      invariant left == LeftOver(blobs, keep, hashes[i..])
    {
      var h := hashes[i];
      assert hashes[i..] == [h] + hashes[i + 1..];
      assert h !in hashes[i + 1..];
      SweepOne(blobs, keep, h, hashes[i + 1..]);
      if h !in keep {
        left := left - {h};
      }
    }
  }

  // ---------- the store ----------

  /** Snapshot ids are unique and every row has a service and an id. */
  ghost predicate SoundTables(db: Tables) {
    UniqueIds(db) && forall k <- db.items :: ValidKey(k)
  }

  /** Refused, skipped with the latest generation, or a new generation. */
  datatype CommitResult = NoService | Unchanged(latest: Option<GenKey>) | Created(gen: GenKey)

  class Store {
    const sid: Paths.ShortId
    var db: Tables
    var pending: map<Key, Change>
    var seen: map<string, set<string>>
    var skipRematch: bool
    var trackChanges: bool

    ghost function Now(): State
      reads this
    {
      State(db, Session(pending, seen, skipRematch, trackChanges))
    }

    ghost predicate Valid()
      reads this
    {
      SoundTables(db)
    }

    constructor (sid: Paths.ShortId, db: Tables, full: bool)
      requires SoundTables(db)
      ensures Valid() && this.sid == sid && Now() == State(db, Opened(full))
      ensures pending == map[] && seen == map[] && skipRematch == full && trackChanges == !full
    {
      this.sid, this.db := sid, db;
      pending, seen := map[], map[];
      skipRematch, trackChanges := full, !full;
    }

    method NotePending(op: Op, key: Key, it: Item)
      modifies this`pending, this`seen
      ensures Now() == old(Now()).(session := T.NotePending(old(Now()).session, op, key, it))
    {
      if !trackChanges {
        return;
      }
      pending := pending[key := Change(op, it)];
      if key.service in seen && op == Upsert {
        seen := seen[key.service := seen[key.service] + {key.id}];
      }
    }

    method RematchId(key: Key, it: Item) returns (row: Item)
      modifies this`db
      ensures var alias := AliasOf(sid, old(Now()), key, it);
              && db == old(db).(items := Renamed(old(db.items), alias, key))
              && row == Filled(it, old(db.items), alias, key.service)
    {
      row := it;
      if skipRematch || key in db.items {
        return;
      }
      var alts := Aliases(sid, key, it.mailbox, it.parent, it.name);
      for i := 0 to |alts|
        invariant row == it && db == old(db)
        invariant FirstPresent(db.items, key.service, alts) == FirstPresent(db.items, key.service, alts[i..])
      {
        var alias := Key(key.service, alts[i]);
        if alias in db.items {
          var prior := db.items[alias];
          row := it.(mailbox := Or(it.mailbox, prior.mailbox), parent := Or(it.parent, prior.parent),
                     name := Or(it.name, prior.name));
          db := db.(items := (db.items - {alias})[key := prior]);
          return;
        }
      }
    }

    method Put(key: Key, it: Item, data: Bytes) returns (ok: bool)
      requires Valid()
      modifies this
      ensures Valid() && ok == (key.service != "" && key.id != "")
      ensures !ok ==> Now() == old(Now())
      ensures Now() == T.Put(sid, old(Now()), key, it, data)
    {
      if key.service == "" || key.id == "" {
        return false;
      }
      db := db.(blobs := PutBlob(db.blobs, data));
      var row := RematchId(key, it.(hash := Sha256(data), size := |data|, deleted := false));
      db := db.(items := db.items[key := row]);
      NotePending(Upsert, key, row);
      ok := true;
    }

    method Keep(key: Key, it: Item) returns (ok: bool)
      requires Valid()
      modifies this
      ensures Valid() && ok == (key.service != "" && key.id != "" && it.hash != NoHash)
      ensures !ok ==> Now() == old(Now())
      ensures Now() == T.Keep(old(Now()), key, it)
    {
      if key.service == "" || key.id == "" || it.hash == NoHash {
        return false;
      }
      var row := it.(deleted := false);
      db := db.(items := db.items[key := row]);
      NotePending(Upsert, key, row);
      ok := true;
    }

    /** Reads the row by `LiveBlob`; true if there was one to keep. */
    method Refresh(key: Key, mailbox: string, parent: string, name: string, subject: string) returns (found: bool)
      requires Valid()
      modifies this
      ensures Valid() && found == LiveBlob(old(db), key).Some?
      ensures Now() == T.Refresh(old(Now()), key, mailbox, parent, name, subject)
    {
      match LiveBlob(db, key)
      case None => found := false;
      case Some(row) =>
        found := true;
        if row.mailbox != mailbox || row.parent != parent || row.name != name || row.subject != subject {
          var _ := Keep(key, row.(mailbox := mailbox, parent := parent, name := name, subject := subject));
        }
    }

    method Delete(key: Key) returns (ok: bool)
      requires Valid()
      modifies this
      ensures Valid() && ok == (key.service != "" && key.id != "")
      ensures !ok ==> Now() == old(Now())
      ensures Now() == T.Delete(sid, old(Now()), key)
    {
      if key.service == "" || key.id == "" {
        return false;
      }
      var row := RematchId(key, BLANK);
      if key in db.items {
        row := db.items[key].(deleted := true);
        db := db.(items := db.items[key := row]);
      } else {
        row := BLANK;
      }
      NotePending(Remove, key, row);
      ok := true;
    }

    method DeleteRows(rows: seq<Key>)
      requires Valid() && Enumerates(rows, Elements(rows)) && forall k <- rows :: k in db.items
      modifies this
      ensures Valid() && Now() == DeleteAll(old(Now()), Elements(rows))
    {
      ghost var start := Now();
      DeleteNone(start);
      for i := 0 to |rows|
        invariant Valid()
        invariant Now() == DeleteAll(start, Elements(rows[..i]))
      {
        assert rows[i] in rows && rows[i] !in rows[..i];
        DeleteOneMore(sid, start, Elements(rows[..i]), rows[i]);
        var _ := Delete(rows[i]);
        ElementsGrow(rows, i);
      }
      assert rows[..|rows|] == rows;
    }

    method DeletePrefix(service: string, mailbox: string, rel: string)
      requires Valid()
      modifies this
      ensures Valid() && Now() == T.DeletePrefix(old(Now()), service, mailbox, rel)
      ensures TrimSlashes(rel) == "" ==> MailboxGone(old(db), db, service, mailbox)
    {
      ghost var start := Now();
      if TrimSlashes(rel) == "" {
        WholeMailbox(start, service, mailbox, rel);
      }
      hide MailboxGone;
      hide SoundTables;
      hide Covers;
      var live := Select(LiveKeys(db, service));
      ListedOnce(live, LiveKeys(db, service));
      var doomed := CoveredRows(db.items, live, mailbox, TrimSlashes(rel));
      CoveredArePrefixKeys(db, service, live, doomed, mailbox, rel);
      DeleteRows(doomed);
    }

    method StartReconcile(service: string)
      requires Valid()
      modifies this
      ensures Valid() && Now() == T.StartReconcile(old(Now()), service)
    {
      seen := seen[service := {}];
    }

    /** Returns how many rows it deleted. */
    method FinishReconcile(service: string) returns (n: nat)
      requires Valid()
      modifies this
      ensures Valid() && Now() == T.FinishReconcile(old(Now()), service)
      ensures n == |GoneKeys(old(Now()), service)|
      ensures service !in old(seen) ==> n == 0 && Now() == old(Now())
    {
      if service !in seen {
        DeleteNone(Now());
        return 0;
      }
      var live := Select(LiveKeys(db, service));
      var gone: seq<Key> := [];
      for i := 0 to |live|
        invariant forall k :: k in gone <==> k in live[..i] && k.id !in seen[service]
        invariant forall a, b :: 0 <= a < b < |gone| ==> gone[a] != gone[b]
      {
        assert live[i] in live && live[i] !in live[..i];
        assert live[..i + 1] == live[..i] + [live[i]];
        if live[i].id !in seen[service] {
          gone := gone + [live[i]];
        }
      }
      assert live[..|live|] == live;
      assert Elements(gone) == GoneKeys(Now(), service);
      EnumeratedCount(gone, GoneKeys(Now(), service));
      DeleteRows(gone);
      n := |gone|;
    }

    /** The largest generation number of a service, if it has any. */
    method LatestGen(service: string) returns (gen: Option<GenKey>)
      ensures gen == Latest(db, service)
    {
      var rows := Select(Generations(db, service));
      var top := 0;
      for i := 0 to |rows|
        invariant forall j :: 0 <= j < i ==> rows[j].number <= top
        invariant top == 0 || exists j :: 0 <= j < i && rows[j].number == top
      {
        if rows[i].number > top {
          top := rows[i].number;
        }
      }
      assert forall g <- Generations(db, service) :: g in rows;
      assert top == 0 || exists g <- Generations(db, service) :: g.number == top;
      assert rows != [] ==> rows[0] in Generations(db, service);
      gen := if rows == [] then None else Some(GenKey(service, top));
    }

    method NextGen(service: string) returns (gen: GenKey)
      ensures gen == NextGeneration(db, service)
    {
      var last := LatestGen(service);
      gen := GenKey(service, if last.None? then 1 else last.value.number + 1);
    }

    method LiveStats(service: string) returns (n: nat, bytes: nat)
      ensures n == |LiveKeys(db, service)|
      ensures forall rows :: Enumerates(rows, LiveKeys(db, service)) ==> bytes == SizeSum(Live(db, service), rows)
    {
      var cursor := Select(LiveKeys(db, service));
      n, bytes := 0, 0;
      for i := 0 to |cursor|
        invariant n == i && bytes == SizeSum(Live(db, service), cursor[..i])
      {
        assert cursor[i] in cursor;
        assert cursor[..i + 1][..i] == cursor[..i];
        n, bytes := n + 1, bytes + db.items[cursor[i]].size;
      }
      assert cursor[..|cursor|] == cursor;
      EnumeratedCount(cursor, LiveKeys(db, service));
      forall rows | Enumerates(rows, LiveKeys(db, service)) ensures bytes == SizeSum(Live(db, service), rows) {
        SizeSumAnyOrder(Live(db, service), cursor, rows, LiveKeys(db, service));
      }
    }

    method StreamManifest(service: string) returns (entries: seq<Entry>, ghost rows: seq<Key>)
      ensures Enumerates(rows, LiveKeys(db, service))
      ensures entries == ManifestOf(Live(db, service), rows)
      ensures |entries| == |LiveKeys(db, service)|
      ensures forall k <- LiveKeys(db, service) :: EntryOf(db.items[k]) in entries
    {
      hide EntryOf;
      var cursor := Select(LiveKeys(db, service));
      entries := [];
      for i := 0 to |cursor|
        invariant entries == ManifestOf(Live(db, service), cursor[..i])
      {
        assert cursor[i] in cursor;
        assert cursor[..i + 1][..i] == cursor[..i];
        entries := entries + [EntryOf(db.items[cursor[i]])];
      }
      assert cursor[..|cursor|] == cursor;
      rows := cursor;
      EnumeratedCount(cursor, LiveKeys(db, service));
      forall k | k in LiveKeys(db, service) ensures EntryOf(db.items[k]) in entries {
        assert k in cursor;
        var i :| 0 <= i < |cursor| && cursor[i] == k;
        assert entries[i] == EntryOf(db.items[k]);
      }
    }

    /** Writes a new generation unless an incremental job has nothing pending. */
    method CommitSnapshot(service: string, uuid: string, now: int) returns (r: CommitResult, ghost rows: seq<Key>)
      requires Valid() && forall g <- db.snapshots :: db.snapshots[g].id != uuid
      modifies this
      ensures Valid() && Enumerates(rows, LiveKeys(old(db), service))
      ensures Now() == if service == "" then old(Now()) else Commit(old(Now()), service, uuid, now, rows)
      ensures r == if service == "" then NoService
                   else if Skips(old(Now()).session, service) then Unchanged(Latest(old(db), service))
                   else Created(NextGeneration(old(db), service))
    {
      ghost var start := Now();
      if service == "" {
        rows := Select(LiveKeys(db, service));
        return NoService, rows;
      }
      var changes := map k | k in pending && k.service == service :: pending[k];
      assert changes == PendingOf(start.session, service);
      if trackChanges && changes == map[] {
        rows := Select(LiveKeys(db, service));
        var last := LatestGen(service);
        return Unchanged(last), rows;
      }
      var g := NextGen(service);
      var n, bytes := LiveStats(service);
      var entries;
      entries, rows := StreamManifest(service);
      pending := pending - changes.Keys;
      db := db.(snapshots := db.snapshots[g := Snapshot(uuid, now, n, bytes)],
                changes := db.changes + (set k | k in changes :: ChangeRow(g, k.id, changes[k])),
                manifests := db.manifests[g := entries]);
      r := Created(g);
    }

    // ---------- retention ----------

    method GCBlobs()
      requires Valid()
      modifies this
      ensures Valid() && Now() == old(Now()).(db := Collect(old(db)))
    {
      var keep: set<Hash> := (set k | k in db.items && db.items[k].hash != NoHash :: db.items[k].hash);
      keep := keep + (set c | c in db.changes && c.change.item.hash != NoHash :: c.change.item.hash);
      assert keep == Named(db);
      hide Named;
      hide UniqueIds;
      var left := Sweep(db.blobs, keep);
      db := db.(blobs := left);
    }

    method DeleteSnapshot(gen: GenKey)
      requires gen in db.snapshots
      modifies this`db
      ensures db == old(db).(
        changes := (set c | c in old(db).changes && c.gen != gen),
        snapshots := (map h | h in old(db).snapshots && old(db).snapshots[h].id != old(db).snapshots[gen].id :: old(db).snapshots[h]),
        manifests := old(db).manifests - {gen})
    {
      var id := db.snapshots[gen].id;
      db := db.(changes := (set c | c in db.changes && c.gen != gen));
      db := db.(snapshots := (map h | h in db.snapshots && db.snapshots[h].id != id :: db.snapshots[h]));
      db := db.(manifests := db.manifests - {gen});
    }
  }

  // ---------- newest-first lists ----------

  ghost predicate ByAge(db: Tables, order: seq<GenKey>)
    requires forall g <- order :: g in db.snapshots
  {
    forall i, j :: 0 <= i < j < |order| ==>
      db.snapshots[order[i]].createdAt >= db.snapshots[order[j]].createdAt
  }

  lemma ByAgeIsNewestFirst(db: Tables, order: seq<GenKey>)
    requires (forall g <- order :: g in db.snapshots) && ByAge(db, order)
    ensures NewestFirst(Infos(db, order))
  {
  }

  method InsertByAge(db: Tables, order: seq<GenKey>, g: GenKey) returns (r: seq<GenKey>)
    requires (forall h <- order :: h in db.snapshots) && g in db.snapshots && ByAge(db, order)
    requires g !in order && Enumerates(order, Elements(order))
    ensures Enumerates(r, Elements(order) + {g})
    ensures (forall h <- r :: h in db.snapshots) && ByAge(db, r)
  {
    var p := 0;
    while p < |order| && db.snapshots[order[p]].createdAt > db.snapshots[g].createdAt
      invariant 0 <= p <= |order|
      invariant forall i :: 0 <= i < p ==> db.snapshots[order[i]].createdAt > db.snapshots[g].createdAt
    {
      p := p + 1;
    }
    r := order[..p] + [g] + order[p..];
    Inserted(order, g, p);
    InsertedByAge(db, order, g, p);
    hide ByAge;
    hide Enumerates;
    hide Elements;
  }

  lemma InsertedByAge(db: Tables, order: seq<GenKey>, g: GenKey, p: nat)
    requires (forall h <- order :: h in db.snapshots) && g in db.snapshots && ByAge(db, order) && p <= |order|
    requires forall i :: 0 <= i < p ==> db.snapshots[order[i]].createdAt > db.snapshots[g].createdAt
    requires p < |order| ==> db.snapshots[order[p]].createdAt <= db.snapshots[g].createdAt
    ensures var r := order[..p] + [g] + order[p..];
            (forall h <- r :: h in db.snapshots) && ByAge(db, r)
  {
    var r := order[..p] + [g] + order[p..];
    assert forall i :: 0 <= i < |r| && i != p ==> r[i] == order[Source(i, p)];
    forall i, j | 0 <= i < j < |r|
      ensures r[i] in db.snapshots && r[j] in db.snapshots
      ensures db.snapshots[r[i]].createdAt >= db.snapshots[r[j]].createdAt
    {
      if j == p {
        assert Source(i, p) == i;
      } else if i == p {
        assert p <= Source(j, p) && order[p] in order && order[Source(j, p)] in order;
      } else {
        assert order[Source(i, p)] in order && order[Source(j, p)] in order;
      }
    }
    assert forall h <- order[..p] + order[p..] :: h in order;
  }

  /** Where an element stood before `p` was inserted. */
  function Source(i: int, p: int): int {
    if i > p then i - 1 else i
  }

  lemma Inserted(order: seq<GenKey>, g: GenKey, p: nat)
    requires p <= |order| && g !in order && Enumerates(order, Elements(order))
    ensures Enumerates(order[..p] + [g] + order[p..], Elements(order) + {g})
  {
    var r := order[..p] + [g] + order[p..];
    assert order == order[..p] + order[p..];
    assert forall i :: 0 <= i < |r| ==> r[i] == if i < p then order[i] else if i == p then g else order[i - 1];
  }

  /** The sort before the scan. */
  method SortNewestFirst(db: Tables, gens: seq<GenKey>) returns (order: seq<GenKey>)
    requires (forall g <- gens :: g in db.snapshots) && Enumerates(gens, Elements(gens))
    ensures Enumerates(order, Elements(gens))
    ensures (forall g <- order :: g in db.snapshots) && NewestFirst(Infos(db, order))
  {
    order := [];
    for i := 0 to |gens|
      invariant Enumerates(order, Elements(gens[..i]))
      invariant (forall g <- order :: g in db.snapshots) && ByAge(db, order)
    {
      assert gens[i] in gens && gens[i] !in gens[..i];
      assert Elements(order) == Elements(gens[..i]);
      ElementsGrow(gens, i);
      order := InsertByAge(db, order, gens[i]);
    }
    assert gens[..|gens|] == gens;
    ByAgeIsNewestFirst(db, order);
  }

  /** The generations of one listed service that the scan does not keep. */
  ghost function RetiredIn(db: Tables, order: seq<GenKey>, policy: Policy, now: int): set<GenKey>
    requires forall g <- order :: g in db.snapshots
  {
    set g | g in order && db.snapshots[g].id !in ScanKept(Infos(db, order), Normalize(policy), now)
  }

  method PickRetired(db: Tables, service: string, policy: Policy, now: int)
    returns (gone: seq<GenKey>, order: seq<GenKey>)
    ensures Enumerates(order, Generations(db, service)) && NewestFirst(Infos(db, order))
    ensures Enumerates(gone, RetiredIn(db, order, policy, now))
  {
    var gens := Select(Generations(db, service));
    assert Elements(gens) == Generations(db, service);
    order := SortNewestFirst(db, gens);
    var keep := SelectSmartKeepIDs(Infos(db, order), policy, now);
    gone := UnkeptRows(db, order, keep);
  }

  method UnkeptRows(db: Tables, order: seq<GenKey>, keep: set<string>) returns (gone: seq<GenKey>)
    requires (forall g <- order :: g in db.snapshots) && Enumerates(order, Elements(order))
    ensures forall g :: g in gone <==> g in order && db.snapshots[g].id !in keep
    ensures Enumerates(gone, Elements(gone))
  {
    gone := [];
    for i := 0 to |order|
      invariant forall g :: g in gone <==> g in order[..i] && g in db.snapshots && db.snapshots[g].id !in keep
      invariant forall a, b :: 0 <= a < b < |gone| ==> gone[a] != gone[b]
    {
      assert order[i] in order && order[i] !in order[..i];
      assert order[..i + 1] == order[..i] + [order[i]];
      if db.snapshots[order[i]].id !in keep {
        gone := gone + [order[i]];
      }
    }
    assert order[..|order|] == order;
  }

  ghost predicate Keyed(services: seq<string>, orders: map<string, seq<GenKey>>) {
    forall s :: s in orders <==> s in services
  }

  ghost predicate EachSorted(db: Tables, orders: map<string, seq<GenKey>>) {
    forall s <- orders :: Enumerates(orders[s], Generations(db, s)) && NewestFirst(Infos(db, orders[s]))
  }

  ghost predicate AllRetired(db: Tables, orders: map<string, seq<GenKey>>, gone: seq<GenKey>, policy: Policy, now: int)
    requires EachSorted(db, orders)
  {
    forall g :: g in gone <==> g.service in orders && g in RetiredIn(db, orders[g.service], policy, now)
  }

  ghost predicate Distinct(gone: seq<GenKey>) {
    forall a, b :: 0 <= a < b < |gone| ==> gone[a] != gone[b]
  }

  /** Every service handled so far has its order, and `gone` is what those orders retire. */
  ghost predicate Gathered(db: Tables, services: seq<string>, orders: map<string, seq<GenKey>>, gone: seq<GenKey>, policy: Policy, now: int) {
    Keyed(services, orders) && EachSorted(db, orders) && AllRetired(db, orders, gone, policy, now) && Distinct(gone)
  }

  lemma GatherOneMore(db: Tables, services: seq<string>, orders: map<string, seq<GenKey>>, gone: seq<GenKey>,
                      policy: Policy, now: int, s: string, more: seq<GenKey>, order: seq<GenKey>)
    requires Gathered(db, services, orders, gone, policy, now) && s !in services
    requires Enumerates(order, Generations(db, s)) && NewestFirst(Infos(db, order))
    requires Enumerates(more, RetiredIn(db, order, policy, now))
    ensures Gathered(db, services + [s], orders[s := order], gone + more, policy, now)
  {
    OneMoreOrder(db, services, orders, s, order);
    OneMoreRetired(db, services, orders, gone, policy, now, s, more, order);
    ConcatDistinct(gone, more);
  }

  lemma OneMoreOrder(db: Tables, services: seq<string>, orders: map<string, seq<GenKey>>, s: string, order: seq<GenKey>)
    requires Keyed(services, orders) && EachSorted(db, orders)
    requires Enumerates(order, Generations(db, s)) && NewestFirst(Infos(db, order))
    ensures Keyed(services + [s], orders[s := order]) && EachSorted(db, orders[s := order])
  {
    hide Enumerates;
    hide NewestFirst;
    hide Infos;
    hide Generations;
  }

  lemma OnlyItsOwn(db: Tables, s: string, order: seq<GenKey>, policy: Policy, now: int, g: GenKey)
    requires Enumerates(order, Generations(db, s))
    ensures g in RetiredIn(db, order, policy, now) ==> g.service == s
  {
    assert g in order ==> g in Generations(db, s);
  }

  lemma ConcatDistinct(a: seq<GenKey>, b: seq<GenKey>)
    requires Distinct(a) && Distinct(b) && forall g <- a :: g !in b
    ensures Distinct(a + b)
  {
    forall i, j | 0 <= i < j < |a + b| ensures (a + b)[i] != (a + b)[j] {
      if i < |a| && j >= |a| {
        assert (a + b)[i] in a && (a + b)[j] in b;
      }
    }
  }

  lemma OneMoreRetired(db: Tables, services: seq<string>, orders: map<string, seq<GenKey>>, gone: seq<GenKey>,
                       policy: Policy, now: int, s: string, more: seq<GenKey>, order: seq<GenKey>)
    requires Keyed(services, orders) && s !in services && EachSorted(db, orders) && EachSorted(db, orders[s := order])
    requires Enumerates(order, Generations(db, s)) && Enumerates(more, RetiredIn(db, order, policy, now))
    requires AllRetired(db, orders, gone, policy, now)
    ensures AllRetired(db, orders[s := order], gone + more, policy, now)
    ensures forall g <- gone :: g !in more
  {
    forall g: GenKey
      ensures g in RetiredIn(db, order, policy, now) ==> g.service == s
    {
      OnlyItsOwn(db, s, order, policy, now, g);
    }
    hide RetiredIn;
    hide EachSorted;
    hide Generations;
  }

  method GatherRetired(db: Tables, policy: Policy, now: int) returns (gone: seq<GenKey>, ghost orders: map<string, seq<GenKey>>)
    ensures Ordered(db, orders) && Enumerates(gone, Retired(db, policy, now, orders))
  {
    var services := Select(set g | g in db.snapshots :: g.service);
    gone, orders := [], map[];
    for i := 0 to |services|
      invariant Gathered(db, services[..i], orders, gone, policy, now)
    {
      var more, order := PickRetired(db, services[i], policy, now);
      assert services[i] !in services[..i];
      GatherOneMore(db, services[..i], orders, gone, policy, now, services[i], more, order);
      assert services[..i + 1] == services[..i] + [services[i]];
      gone, orders := gone + more, orders[services[i] := order];
    }
    assert services[..|services|] == services;
    AllGathered(db, services, orders, gone, policy, now);
  }

  lemma AllGathered(db: Tables, services: seq<string>, orders: map<string, seq<GenKey>>, gone: seq<GenKey>, policy: Policy, now: int)
    requires Gathered(db, services, orders, gone, policy, now)
    requires forall g <- db.snapshots :: g.service in services
    ensures Ordered(db, orders) && Enumerates(gone, Retired(db, policy, now, orders))
  {
    forall g ensures g in gone <==> g in Retired(db, policy, now, orders) {
      if g in db.snapshots {
        assert g in Generations(db, g.service);
      }
    }
  }

  /** Prunes every service by its own list, then collects blobs. */
  method ApplySmartRetention(store: Store, policy: Policy, now: int) returns (deleted: nat, ghost orders: map<string, seq<GenKey>>)
    requires store.Valid()
    modifies store
    ensures store.Valid() && Ordered(old(store.db), orders)
    ensures store.Now() == old(store.Now()).(db := Retain(old(store.db), policy, now, orders))
    ensures deleted == |Retired(old(store.db), policy, now, orders)|
  {
    ghost var db := store.db;
    ghost var session := store.Now().session;
    var gone;
    gone, orders := GatherRetired(store.db, policy, now);
    deleted := 0;
    PruneNothing(db);
    for i := 0 to |gone|
      invariant deleted == i && store.Now() == State(Prune(db, Elements(gone[..i])), session)
    {
      assert gone[i] in gone && gone[i] !in gone[..i];
      PruneOneMore(db, Elements(gone[..i]), gone[i]);
      store.DeleteSnapshot(gone[i]);
      ElementsGrow(gone, i);
      deleted := deleted + 1;
    }
    assert gone[..|gone|] == gone;
    assert Elements(gone) == Retired(db, policy, now, orders);
    EnumeratedCount(gone, Retired(db, policy, now, orders));
    store.GCBlobs();
  }

  lemma PruneNothing(db: Tables)
    ensures Prune(db, Elements<GenKey>([])) == db
  {
    var end := Prune(db, Elements<GenKey>([]));
    assert end.changes == db.changes && end.snapshots == db.snapshots && end.manifests == db.manifests;
  }
}
