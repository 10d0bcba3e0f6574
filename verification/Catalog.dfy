/**
 Facts about single catalog operations: what they leave alone, what reconcile
 deletes, when a put adds a row, and exactly which generations survive a blob
 collection.
 */
module Catalog {
  import opened Strings
  import opened Tables
  import Paths

  // ---------- blobs and rows ----------

  /** Every blob is stored under the hash of its content. */
  ghost predicate BlobsHonest(db: Tables) {
    forall h <- db.blobs :: h == Sha256(db.blobs[h])
  }

  /** Every row, deleted or not, has its content and records its size. */
  ghost predicate RowsBacked(db: Tables) {
    forall k <- db.items :: Backed(db.blobs, db.items[k])
  }

  predicate Backed(blobs: map<Hash, Bytes>, it: Item) {
    it.hash in blobs && it.size == |blobs[it.hash]|
  }

  ghost predicate Restorable(db: Tables) {
    BlobsHonest(db) && RowsBacked(db)
  }

  lemma PutRestorable(sid: Paths.ShortId, st: State, key: Key, it: Item, data: Bytes)
    requires Restorable(st.db)
    ensures Restorable(Put(sid, st, key, it, data).db)
  {
    if ValidKey(key) {
      var db := Put(sid, st, key, it, data).db;
      var alias := AliasOf(sid, st, key, it);
      forall k | k in db.items ensures Backed(db.blobs, db.items[k]) {
        if k != key {
          assert k in st.db.items && db.items[k] == st.db.items[k];
        }
      }
    }
  }

  lemma KeepRestorable(st: State, key: Key, it: Item)
    requires Restorable(st.db) && Backed(st.db.blobs, it)
    ensures Restorable(Keep(st, key, it).db)
  {
  }

  lemma RefreshRestorable(st: State, key: Key, mailbox: string, parent: string, name: string, subject: string)
    requires Restorable(st.db)
    ensures Restorable(Refresh(st, key, mailbox, parent, name, subject).db)
  {
    if key in st.db.items {
      var row := st.db.items[key];
      KeepRestorable(st, key, row.(mailbox := mailbox, parent := parent, name := name, subject := subject));
    }
  }

  lemma DeleteRestorable(sid: Paths.ShortId, st: State, key: Key)
    requires Restorable(st.db)
    ensures Restorable(Delete(sid, st, key).db)
  {
    if ValidKey(key) {
      var items := Renamed(st.db.items, AliasOf(sid, st, key, BLANK), key);
      forall k | k in items ensures Backed(st.db.blobs, items[k]) {
        match AliasOf(sid, st, key, BLANK)
        case None => assert k in st.db.items;
        case Some(id) =>
          var prior := if k == key then Key(key.service, id) else k;
          assert prior in st.db.items && items[k] == st.db.items[prior];
      }
    }
  }

  lemma DeleteAllRestorable(st: State, doomed: set<Key>)
    requires Restorable(st.db)
    ensures Restorable(DeleteAll(st, doomed).db)
  {
    var db := DeleteAll(st, doomed).db;
    forall k | k in db.items ensures Backed(db.blobs, db.items[k]) {
      assert Backed(st.db.blobs, st.db.items[k]);
    }
  }

  lemma CollectRestorable(db: Tables)
    requires Restorable(db)
    ensures Restorable(Collect(db))
  {
    forall k | k in db.items ensures Backed(Collect(db).blobs, db.items[k]) {
      assert Backed(db.blobs, db.items[k]);
      assert db.items[k].hash == Sha256(db.blobs[db.items[k].hash]);
      assert db.items[k].hash in Named(db);
    }
  }

  // ---------- garbage collection, exactly ----------

  /** A retained generation restores in full: its manifest is there and so is every blob. */
  ghost predicate RestoresInFull(db: Tables, gen: GenKey) {
    gen in db.manifests && forall e <- db.manifests[gen] :: e.hash in db.blobs
  }

  /** Exactly which generations a collection leaves restorable. */
  lemma SurvivalIsExact(db: Tables, gen: GenKey)
    ensures RestoresInFull(Collect(db), gen) <==>
            RestoresInFull(db, gen) && forall e <- db.manifests[gen] :: e.hash in Named(db)
  {
  }

  // ---------- one service at a time ----------

  /** Two item tables agree outside one service. */
  ghost predicate SameOutside(a: map<Key, Item>, b: map<Key, Item>, service: string) {
    forall k: Key :: k.service != service ==> (k in a <==> k in b) && (k in a ==> a[k] == b[k])
  }

  lemma PutStaysInService(sid: Paths.ShortId, st: State, key: Key, it: Item, data: Bytes)
    ensures SameOutside(st.db.items, Put(sid, st, key, it, data).db.items, key.service)
  {
  }

  lemma DeleteStaysInService(sid: Paths.ShortId, st: State, key: Key)
    ensures SameOutside(st.db.items, Delete(sid, st, key).db.items, key.service)
  {
  }

  lemma DeleteAllStaysInService(st: State, doomed: set<Key>, service: string)
    requires forall k <- doomed :: k.service == service
    ensures SameOutside(st.db.items, DeleteAll(st, doomed).db.items, service)
  {
  }

  lemma SameOutsideSameLive(a: Tables, b: Tables, service: string, other: string)
    requires SameOutside(a.items, b.items, service) && other != service
    ensures Live(a, other) == Live(b, other) && LiveKeys(a, other) == LiveKeys(b, other)
  {
    assert LiveKeys(a, other) == LiveKeys(b, other);
  }

  // ---------- reconcile ----------

  /** A run of puts to one service, as a full fetch does between start and finish. */
  datatype PutCall = PutCall(id: string, it: Item, data: Bytes)

  function PutAll(sid: Paths.ShortId, st: State, service: string, calls: seq<PutCall>): State {
    if calls == [] then st
    else
      var last := calls[|calls| - 1];
      Put(sid, PutAll(sid, st, service, calls[..|calls| - 1]), Key(service, last.id), last.it, last.data)
  }

  function PutIds(calls: seq<PutCall>): set<string> {
    set i | 0 <= i < |calls| && calls[i].id != "" :: calls[i].id
  }

  function LiveIds(db: Tables, service: string): set<string> {
    set k | k in LiveKeys(db, service) :: k.id
  }

  lemma {:induction false} PutAllSeen(sid: Paths.ShortId, st: State, service: string, calls: seq<PutCall>)
    requires service != "" && service in st.session.seen && st.session.seen[service] == {}
    requires forall c <- calls :: !ImportId(c.id)
    ensures var end := PutAll(sid, st, service, calls);
            && end.session.trackChanges == st.session.trackChanges
            && service in end.session.seen
            && end.session.seen[service] == (if st.session.trackChanges then PutIds(calls) else {})
            && (forall id <- PutIds(calls) :: IsLive(end.db, Key(service, id)))
            && SameOutside(st.db.items, end.db.items, service)
  {
    if calls == [] {
      assert PutIds(calls) == {};
    } else {
      var n := |calls| - 1;
      var last := calls[n];
      PutAllSeen(sid, st, service, calls[..n]);
      PutSeenStep(sid, PutAll(sid, st, service, calls[..n]), Key(service, last.id), last.it, last.data);
      PutIdsGrow(calls);
    }
  }

  lemma PutIdsGrow(calls: seq<PutCall>)
    requires calls != []
    ensures var n := |calls| - 1;
            PutIds(calls) == PutIds(calls[..n]) + if calls[n].id != "" then {calls[n].id} else {}
  {
    assert forall i :: 0 <= i < |calls| - 1 ==> calls[..|calls| - 1][i] == calls[i];
  }

  lemma PutSeenStep(sid: Paths.ShortId, st: State, key: Key, it: Item, data: Bytes)
    requires key.service != "" && key.service in st.session.seen
    ensures var end := Put(sid, st, key, it, data);
            && end.session.trackChanges == st.session.trackChanges
            && key.service in end.session.seen
            && end.session.seen[key.service] == st.session.seen[key.service] +
                 (if st.session.trackChanges && key.id != "" then {key.id} else {})
            && (key.id != "" ==> IsLive(end.db, key))
            && (forall k: Key :: IsLive(st.db, k) && !ImportId(k.id) ==> IsLive(end.db, k))
            && SameOutside(st.db.items, end.db.items, key.service)
  {
    PutStaysInService(sid, st, key, it, data);
    AliasIsImportId(sid, st, key, it);
    hide AliasOf;
    hide SameOutside;
  }

  lemma AliasIsImportId(sid: Paths.ShortId, st: State, key: Key, it: Item)
    ensures AliasOf(sid, st, key, it).Some? ==> ImportId(AliasOf(sid, st, key, it).value)
  {
    if AliasOf(sid, st, key, it).Some? {
      assert AliasOf(sid, st, key, it).value in Aliases(sid, key, it.mailbox, it.parent, it.name);
    }
  }

  /**
   A tracked reconcile leaves exactly the ids put since its start live and counts
   the rows it deletes; without tracking it deletes every live row. Other services
   are untouched either way.
   */
  lemma ReconcileIsExact(sid: Paths.ShortId, st: State, service: string, calls: seq<PutCall>)
    requires service != "" && forall c <- calls :: !ImportId(c.id)
    ensures var before := PutAll(sid, StartReconcile(st, service), service, calls);
            var after := FinishReconcile(before, service);
            && LiveIds(after.db, service) == (if st.session.trackChanges then PutIds(calls) else {})
            && GoneKeys(before, service) == LiveKeys(before.db, service) - LiveKeys(after.db, service)
            && SameOutside(st.db.items, after.db.items, service)
  {
    var start := StartReconcile(st, service);
    var before := PutAll(sid, start, service, calls);
    PutAllSeen(sid, start, service, calls);
    DeleteAllStaysInService(before, GoneKeys(before, service), service);
    FinishLeavesSeen(before, service);
    var after := FinishReconcile(before, service);
    forall id | id in before.session.seen[service] ensures id in LiveIds(after.db, service) {
      assert IsLive(before.db, Key(service, id));
      assert Key(service, id) in LiveKeys(after.db, service);
    }
  }

  lemma FinishLeavesSeen(st: State, service: string)
    requires service in st.session.seen
    ensures LiveKeys(FinishReconcile(st, service).db, service) == LiveKeys(st.db, service) - GoneKeys(st, service)
    ensures forall k <- LiveKeys(FinishReconcile(st, service).db, service) :: k.id in st.session.seen[service]
  {
  }

  // ---------- import rematch ----------

  /** A put adds a row exactly when neither the id nor an import of the item is stored. */
  lemma PutRowCount(sid: Paths.ShortId, st: State, key: Key, it: Item, data: Bytes)
    requires ValidKey(key) && !st.session.skipRematch
    ensures |Put(sid, st, key, it, data).db.items| == |st.db.items| +
            if key !in st.db.items && (forall id <- Aliases(sid, key, it.mailbox, it.parent, it.name) ::
                                         Key(key.service, id) !in st.db.items) then 1 else 0
  {
    var before, after := st.db.items, Put(sid, st, key, it, data).db.items;
    match AliasOf(sid, st, key, it)
    case None =>
      assert after.Keys == before.Keys + {key};
    case Some(id) =>
      assert after.Keys == before.Keys - {Key(key.service, id)} + {key};
  }

  /** The row under which an import stored an Exchange message file. */
  function ImportedKey(name: string): Option<Key> {
    match Paths.EmlShortFromName(name)
    case Ok(short) => Some(Key("exchange", EML_PREFIX + short))
    case Err => None
  }

  /**
   The first put of a real Exchange message renames the row an import made from
   its file name, instead of adding a second one.
   */
  lemma ImportedMessageIsRematched(sid: Paths.ShortId, st: State, id: string, subject: string, it: Item, data: Bytes)
    requires id != "" && !ImportId(id) && Paths.IsShort(sid(id)) && !st.session.skipRematch
    requires var name := Paths.EmlFileName(subject, sid(id));
             ImportedKey(name).Some? && ImportedKey(name).value in st.db.items
    requires Key("exchange", id) !in st.db.items
    ensures var imported := ImportedKey(Paths.EmlFileName(subject, sid(id)));
            var after := Put(sid, st, Key("exchange", id), it, data).db.items;
            && imported == Some(Key("exchange", "eml:" + sid(id)))
            && after.Keys == st.db.items.Keys - {imported.value} + {Key("exchange", id)}
            && |after| == |st.db.items|
  {
    Paths.EmlShortRoundTrip(subject, sid(id));
    hide Paths.EmlFileName;
    hide Paths.EmlShortFromName;
    FirstAlias(sid, st, id, it);
    RenamedByPut(sid, st, Key("exchange", id), it, data, EML_PREFIX + sid(id));
  }

  /**
   The first put of a file of any other service renames the row an import made from its
   path in the sync tree, instead of adding a second one.
   */
  lemma ImportedFileIsRematched(sid: Paths.ShortId, st: State, key: Key, it: Item, folders: seq<string>, data: Bytes)
    requires ValidKey(key) && key.service != "exchange" && !ImportId(key.id) && !st.session.skipRematch && key !in st.db.items
    requires Paths.CleanSeg(it.mailbox) && Paths.CleanSeg(it.name) && it.parent == Join(folders)
    requires forall seg <- folders :: Paths.CleanSeg(seg)
    requires Key(key.service, "path:" + Join([it.mailbox] + folders + [it.name])) in st.db.items
    ensures var imported := Key(key.service, "path:" + Join([it.mailbox] + folders + [it.name]));
            var after := Put(sid, st, key, it, data).db.items;
            && after.Keys == st.db.items.Keys - {imported} + {key} && |after| == |st.db.items|
            && after[key] == it.(hash := Sha256(data), size := |data|, deleted := false,
                                 parent := if it.parent == "" then st.db.items[imported].parent else it.parent)
  {
    hide Aliases;
    hide Join;
    hide AliasOf;
    hide TrimSlashes;
    PathAlias(it.mailbox, folders, it.name);
    var alias := "path:" + Join([it.mailbox] + folders + [it.name]);
    OnlyPathAlias(sid, st, key, it, alias);
    RenamedByPut(sid, st, key, it, data, alias);
  }

  lemma PathAlias(mailbox: string, folders: seq<string>, name: string)
    requires Paths.CleanSeg(name) && forall seg <- folders :: Paths.CleanSeg(seg)
    ensures var rel := TrimSlashes(Join(folders) + "/" + name);
            rel != "" && mailbox + "/" + rel == Join([mailbox] + folders + [name])
  {
    var segs := folders + [name];
    Paths.JoinEnds(segs);
    assert [mailbox] + folders + [name] == [mailbox] + segs;
    JoinConcat([mailbox], segs);
    if folders == [] {
      assert segs == [name] && Join(folders) + "/" + name == "/" + name;
      TrimLeadingSlash(name);
    } else {
      JoinConcat(folders, [name]);
      TrimSlashesIdentity(Join(segs));
    }
  }

  lemma OnlyPathAlias(sid: Paths.ShortId, st: State, key: Key, it: Item, alias: string)
    requires key.service != "exchange" && !ImportId(key.id) && !st.session.skipRematch && key !in st.db.items
    requires it.mailbox != "" && TrimSlashes(it.parent + "/" + it.name) != ""
    requires alias == "path:" + (it.mailbox + "/" + TrimSlashes(it.parent + "/" + it.name)) && Key(key.service, alias) in st.db.items
    ensures AliasOf(sid, st, key, it) == Some(alias)
  {
    hide TrimSlashes;
    hide ImportId;
    var rel := TrimSlashes(it.parent + "/" + it.name);
    assert PATH_PREFIX + it.mailbox + "/" + rel == alias;
    assert Aliases(sid, key, it.mailbox, it.parent, it.name) == [alias];
    hide Aliases;
    assert FirstPresent(st.db.items, key.service, [alias]) == Some(alias);
  }

  /** The alias by file name comes first, so it is the one renamed. */
  lemma FirstAlias(sid: Paths.ShortId, st: State, id: string, it: Item)
    requires !ImportId(id) && !st.session.skipRematch && Key("exchange", id) !in st.db.items
    requires Key("exchange", EML_PREFIX + sid(id)) in st.db.items
    ensures AliasOf(sid, st, Key("exchange", id), it) == Some(EML_PREFIX + sid(id))
  {
    var alts := Aliases(sid, Key("exchange", id), it.mailbox, it.parent, it.name);
    assert alts[0] == EML_PREFIX + sid(id);
  }

  lemma RenamedByPut(sid: Paths.ShortId, st: State, key: Key, it: Item, data: Bytes, alias: string)
    requires ValidKey(key) && AliasOf(sid, st, key, it) == Some(alias)
    ensures key !in st.db.items && Key(key.service, alias) in st.db.items
    ensures var after := Put(sid, st, key, it, data).db.items;
            after.Keys == st.db.items.Keys - {Key(key.service, alias)} + {key} && |after| == |st.db.items|
  {
    hide Aliases;
    var after, imported := Put(sid, st, key, it, data).db.items, Key(key.service, alias);
    assert after.Keys == st.db.items.Keys - {imported} + {key};
    assert |after.Keys| == |st.db.items.Keys - {imported}| + 1;
  }
}
