/**
 The tables and blobs of one tenant's store, the in-memory session of a running
 job, and every catalog operation as a function from state to state.
 */
module Tables {
  import opened Strings
  import opened SmartRecycle
  import Paths

  type Bytes = seq<bv8>

  /** SHA-256 as an ideal digest: the hash determines the content. */
  datatype Hash = NoHash | Sha256(plain: Bytes)

  datatype Option<+T> = None | Some(value: T)

  datatype Key = Key(service: string, id: string)

  /** A row of catalog_items. */
  datatype Item = Item(
    mailbox: string, parent: string, name: string, hash: Hash, size: nat, subject: string, deleted: bool)
  {
    function RelPath(): string {
      Paths.RelPath(mailbox, parent, name)
    }
  }

  /** Rows by key, as a query sees them. */
  type View = map<Key, Item>

  datatype Op = Upsert | Remove

  datatype Change = Change(op: Op, item: Item)

  datatype GenKey = GenKey(service: string, number: nat)

  /** A row of catalog_changes. */
  datatype ChangeRow = ChangeRow(gen: GenKey, id: string, change: Change)

  /** A row of catalog_snapshots. */
  datatype Snapshot = Snapshot(id: string, createdAt: int, itemsLive: nat, bytesLive: nat)

  datatype Entry = Entry(path: string, hash: Hash, size: nat)

  datatype Tables = Tables(
    items: map<Key, Item>,
    changes: set<ChangeRow>,
    snapshots: map<GenKey, Snapshot>,
    manifests: map<GenKey, seq<Entry>>,
    blobs: map<Hash, Bytes>)

  datatype Session = Session(
    pending: map<Key, Change>,
    seen: map<string, set<string>>,
    skipRematch: bool,
    trackChanges: bool)

  datatype State = State(db: Tables, session: Session)

  const EMPTY := Tables(map[], {}, map[], map[], map[])

  /** The session a job opens: full jobs neither rematch import ids nor track changes. */
  function Opened(full: bool): Session {
    Session(map[], map[], full, !full)
  }

  // ---------- import aliases ----------

  const EML_PREFIX := "eml:"
  const PATH_PREFIX := "path:"

  predicate ImportId(id: string) {
    EML_PREFIX <= id || PATH_PREFIX <= id
  }

  /** `importAliases`: the ids under which an earlier import may have stored the item. */
  function Aliases(sid: Paths.ShortId, key: Key, mailbox: string, parent: string, name: string): seq<string> {
    if ImportId(key.id) then []
    else
      var rel := TrimSlashes(parent + "/" + name);
      (if key.service == "exchange" then [EML_PREFIX + sid(key.id)] else []) +
      if mailbox != "" && rel != "" then [PATH_PREFIX + mailbox + "/" + rel]
      else if mailbox != "" && name != "" then [PATH_PREFIX + mailbox + "/" + name]
      else []
  }

  function FirstPresent(items: map<Key, Item>, service: string, ids: seq<string>): (r: Option<string>)
    ensures r.Some? ==> r.value in ids && Key(service, r.value) in items
    ensures r.None? <==> forall id <- ids :: Key(service, id) !in items
  {
    if ids == [] then None
    else if Key(service, ids[0]) in items then Some(ids[0])
    else FirstPresent(items, service, ids[1..])
  }

  /** The imported row that `rematchID` renames to `key`, if any. */
  function AliasOf(sid: Paths.ShortId, st: State, key: Key, it: Item): Option<string> {
    if st.session.skipRematch || key in st.db.items then None
    else FirstPresent(st.db.items, key.service, Aliases(sid, key, it.mailbox, it.parent, it.name))
  }

  function Renamed(items: map<Key, Item>, alias: Option<string>, key: Key): map<Key, Item>
    requires alias.Some? ==> Key(key.service, alias.value) in items
  {
    match alias
    case None => items
    case Some(id) => (items - {Key(key.service, id)})[key := items[Key(key.service, id)]]
  }

  function Or(s: string, t: string): string {
    if s == "" then t else s
  }

  /** Empty path fields are taken over from the renamed row. */
  function Filled(it: Item, items: map<Key, Item>, alias: Option<string>, service: string): Item
    requires alias.Some? ==> Key(service, alias.value) in items
  {
    match alias
    case None => it
    case Some(id) =>
      var prior := items[Key(service, id)];
      it.(mailbox := Or(it.mailbox, prior.mailbox), parent := Or(it.parent, prior.parent), name := Or(it.name, prior.name))
  }

  // ---------- single-item operations ----------

  predicate ValidKey(k: Key) {
    k.service != "" && k.id != ""
  }

  function NotePending(s: Session, op: Op, key: Key, it: Item): Session {
    if !s.trackChanges then s
    else s.(pending := s.pending[key := Change(op, it)],
            seen := if op == Upsert && key.service in s.seen
                    then s.seen[key.service := s.seen[key.service] + {key.id}] else s.seen)
  }

  /** The row `Put` writes for metadata `it` and content `data`. */
  function PutRow(sid: Paths.ShortId, st: State, key: Key, it: Item, data: Bytes): Item {
    Filled(it.(hash := Sha256(data), size := |data|, deleted := false),
           st.db.items, AliasOf(sid, st, key, it), key.service)
  }

  function PutBlob(blobs: map<Hash, Bytes>, data: Bytes): map<Hash, Bytes> {
    if Sha256(data) in blobs then blobs else blobs[Sha256(data) := data]
  }

  function Put(sid: Paths.ShortId, st: State, key: Key, it: Item, data: Bytes): State {
    if !ValidKey(key) then st
    else
      var row := PutRow(sid, st, key, it, data);
      State(
        st.db.(blobs := PutBlob(st.db.blobs, data),
               items := Renamed(st.db.items, AliasOf(sid, st, key, it), key)[key := row]),
        NotePending(st.session, Upsert, key, row))
  }

  /** `LiveBlob`: the row, if it is live and has content. */
  function LiveBlob(db: Tables, key: Key): Option<Item> {
    if key in db.items && !db.items[key].deleted && db.items[key].hash != NoHash then Some(db.items[key]) else None
  }

  function Keep(st: State, key: Key, it: Item): State {
    if !ValidKey(key) || it.hash == NoHash then st
    else
      var row := it.(deleted := false);
      State(st.db.(items := st.db.items[key := row]), NotePending(st.session, Upsert, key, row))
  }

  /** `refreshCatalogMeta` on a row read by `LiveBlob`: keep the content, update the place. */
  function Refresh(st: State, key: Key, mailbox: string, parent: string, name: string, subject: string): State {
    match LiveBlob(st.db, key)
    case None => st
    case Some(row) =>
      var moved := row.(mailbox := mailbox, parent := parent, name := name, subject := subject);
      if moved == row then st else Keep(st, key, moved)
  }

  const BLANK := Item("", "", "", NoHash, 0, "", true)

  function Delete(sid: Paths.ShortId, st: State, key: Key): State {
    if !ValidKey(key) then st
    else
      var items := Renamed(st.db.items, AliasOf(sid, st, key, BLANK), key);
      var row := if key in items then items[key].(deleted := true) else BLANK;
      State(st.db.(items := if key in items then items[key := row] else items),
            NotePending(st.session, Remove, key, row))
  }

  // ---------- deleting many rows ----------

  function Dead(it: Item): Item {
    it.(deleted := true)
  }

  /** All of `doomed` deleted, each noted as a pending removal. */
  function DeleteAll(st: State, doomed: set<Key>): State {
    State(
      st.db.(items := (map k | k in st.db.items :: if k in doomed then Dead(st.db.items[k]) else st.db.items[k])),
      if !st.session.trackChanges then st.session
      else st.session.(pending := st.session.pending +
                         map k | k in doomed && k in st.db.items :: Change(Remove, Dead(st.db.items[k]))))
  }

  predicate IsLive(db: Tables, k: Key) {
    k in db.items && !db.items[k].deleted
  }

  function LiveKeys(db: Tables, service: string): set<Key> {
    set k | k in db.items && k.service == service && !db.items[k].deleted
  }

  /** The live rows of a service. */
  function Live(db: Tables, service: string): map<Key, Item> {
    map k | k in LiveKeys(db, service) :: db.items[k]
  }

  /** The path test of `DeletePrefix`. */
  predicate Covers(mailbox: string, rel: string, it: Item) {
    && it.mailbox == mailbox
    && (rel == "" || it.RelPath() == mailbox + "/" + rel || mailbox + "/" + rel + "/" <= it.RelPath())
  }

  function PrefixKeys(db: Tables, service: string, mailbox: string, rel: string): set<Key> {
    set k | k in LiveKeys(db, service) && Covers(mailbox, TrimSlashes(rel), db.items[k])
  }

  function DeletePrefix(st: State, service: string, mailbox: string, rel: string): State {
    DeleteAll(st, PrefixKeys(st.db, service, mailbox, rel))
  }

  function StartReconcile(st: State, service: string): State {
    st.(session := st.session.(seen := st.session.seen[service := {}]))
  }

  /** The live rows a reconcile run has not seen. */
  function GoneKeys(st: State, service: string): set<Key> {
    if service !in st.session.seen then {}
    else set k | k in LiveKeys(st.db, service) && k.id !in st.session.seen[service]
  }

  function FinishReconcile(st: State, service: string): State {
    DeleteAll(st, GoneKeys(st, service))
  }

  // ---------- commit ----------

  /** `rows` is a result set that lists every key of `keys` once. */
  ghost predicate Enumerates<T(!new)>(rows: seq<T>, keys: set<T>) {
    && (forall k :: k in rows <==> k in keys)
    && (forall i, j :: 0 <= i < j < |rows| ==> rows[i] != rows[j])
  }

  function EntryOf(it: Item): Entry {
    Entry(it.RelPath(), it.hash, it.size)
  }

  /** The manifest streamed from a result set. */
  function ManifestOf(view: map<Key, Item>, rows: seq<Key>): (m: seq<Entry>)
    requires forall k <- rows :: k in view
    ensures |m| == |rows| && forall i :: 0 <= i < |rows| ==> m[i] == EntryOf(view[rows[i]])
  {
    seq(|rows|, i requires 0 <= i < |rows| => assert rows[i] in rows; EntryOf(view[rows[i]]))
  }

  function SizeSum(view: map<Key, Item>, rows: seq<Key>): nat
    requires forall k <- rows :: k in view
  {
    if rows == [] then 0 else SizeSum(view, rows[..|rows| - 1]) + view[rows[|rows| - 1]].size
  }

  function Generations(db: Tables, service: string): set<GenKey> {
    set g | g in db.snapshots && g.service == service
  }

  /** The largest generation number of a set, or 0. */
  ghost function MaxNumber(gens: set<GenKey>): (m: nat)
    ensures forall g <- gens :: g.number <= m
    ensures m == 0 || exists g <- gens :: g.number == m
  {
    if gens == {} then 0
    else
      var g := Pick(gens);
      var rest := MaxNumber(gens - {g});
      if g.number > rest then g.number else rest
  }

  ghost function NextGeneration(db: Tables, service: string): GenKey {
    GenKey(service, MaxNumber(Generations(db, service)) + 1)
  }

  /** The stored generation with the largest number, if any. */
  ghost function Latest(db: Tables, service: string): Option<GenKey> {
    var gens := Generations(db, service);
    if gens == {} then None else Some(GenKey(service, MaxNumber(gens)))
  }

  function PendingOf(s: Session, service: string): map<Key, Change> {
    map k | k in s.pending && k.service == service :: s.pending[k]
  }

  /** An incremental commit without pending changes writes nothing. */
  predicate Skips(s: Session, service: string) {
    s.trackChanges && PendingOf(s, service) == map[]
  }

  ghost function Commit(st: State, service: string, uuid: string, now: int, rows: seq<Key>): State
    requires Enumerates(rows, LiveKeys(st.db, service))
  {
    if Skips(st.session, service) then st
    else
      var gen := NextGeneration(st.db, service);
      var changes := PendingOf(st.session, service);
      var view := Live(st.db, service);
      State(
        st.db.(snapshots := st.db.snapshots[gen := Snapshot(uuid, now, |rows|, SizeSum(view, rows))],
               changes := st.db.changes + (set k | k in changes :: ChangeRow(gen, k.id, changes[k])),
               manifests := st.db.manifests[gen := ManifestOf(view, rows)]),
        st.session.(pending := st.session.pending - changes.Keys))
  }

  // ---------- retention and garbage collection ----------

  function Infos(db: Tables, gens: seq<GenKey>): (r: seq<SnapshotInfo>)
    requires forall g <- gens :: g in db.snapshots
    ensures |r| == |gens|
    ensures forall i :: 0 <= i < |gens| ==>
      r[i] == SnapshotInfo(db.snapshots[gens[i]].id, db.snapshots[gens[i]].createdAt)
  {
    if gens == [] then []
    else
      var g := gens[|gens| - 1];
      Infos(db, gens[..|gens| - 1]) + [SnapshotInfo(db.snapshots[g].id, db.snapshots[g].createdAt)]
  }

  /** For every service with snapshots, its generations newest first. */
  ghost predicate Ordered(db: Tables, orders: map<string, seq<GenKey>>) {
    && (forall g <- db.snapshots :: g.service in orders)
    && (forall s <- orders :: Enumerates(orders[s], Generations(db, s)) && NewestFirst(Infos(db, orders[s])))
  }

  ghost function Retired(db: Tables, policy: Policy, now: int, orders: map<string, seq<GenKey>>): set<GenKey>
    requires Ordered(db, orders)
  {
    set g | g in db.snapshots &&
            db.snapshots[g].id !in ScanKept(Infos(db, orders[g.service]), Normalize(policy), now)
  }

  /** The snapshots, their change rows and their manifests removed. */
  function Prune(db: Tables, gone: set<GenKey>): Tables {
    db.(changes := (set c | c in db.changes && c.gen !in gone),
        snapshots := db.snapshots - gone,
        manifests := db.manifests - gone)
  }

  /** The hashes a collection keeps: those named by an item row or a change row. */
  function Named(db: Tables): set<Hash> {
    (set k | k in db.items && db.items[k].hash != NoHash :: db.items[k].hash) +
    (set c | c in db.changes && c.change.item.hash != NoHash :: c.change.item.hash)
  }

  function Collect(db: Tables): Tables {
    db.(blobs := map h | h in db.blobs && h in Named(db) :: db.blobs[h])
  }

  ghost function Retain(db: Tables, policy: Policy, now: int, orders: map<string, seq<GenKey>>): Tables
    requires Ordered(db, orders)
  {
    Collect(Prune(db, Retired(db, policy, now, orders)))
  }
}
