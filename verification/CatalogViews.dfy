/**
 What a skipped commit is worth. Over every run the live view of a service is its
 last committed view, overlaid with the uncommitted changes of earlier sessions and
 then with those of the open one; so a skipped commit names the live view exactly if
 the first two have the entries of the latest generation still stored.
 */
module CatalogViews {
  import opened SmartRecycle
  import opened Tables
  import opened Catalog
  import opened CatalogRuns
  import opened CatalogNumbers
  import Paths

  // ---------- pending changes follow the live view ----------

  /** A view with the pending changes on top. */
  function Overlay(base: View, pending: Changes): View {
    map k | k in base.Keys + pending.Keys && (k in pending ==> pending[k].op == Upsert) ::
      if k in pending then pending[k].item else base[k]
  }

  lemma OverlayNothing(base: View)
    ensures Overlay(base, map[]) == base
  {
  }

  /** Two layers of changes are one. */
  lemma OverlayMerge(base: View, a: Changes, b: Changes)
    ensures Overlay(Overlay(base, a), b) == Overlay(base, a + b)
  {
  }

  lemma OverlayUpsert(base: View, pending: Changes, key: Key, row: Item)
    ensures Overlay(base, pending[key := Change(Upsert, row)]) == Overlay(base, pending)[key := row]
  {
  }

  lemma OverlayRemove(base: View, pending: Changes, removed: Changes)
    requires forall k <- removed :: removed[k].op == Remove
    ensures Overlay(base, pending + removed) == Overlay(base, pending) - removed.Keys
  {
  }

  lemma LiveUpsert(db: Tables, after: Tables, key: Key, row: Item)
    requires after.items == db.items[key := row] && !row.deleted
    ensures Live(after, key.service) == Live(db, key.service)[key := row]
  {
  }

  lemma LiveRemove(db: Tables, after: Tables, service: string, doomed: set<Key>)
    requires after.items.Keys == db.items.Keys
    requires forall k <- db.items :: after.items[k] == if k in doomed then Dead(db.items[k]) else db.items[k]
    ensures Live(after, service) == Live(db, service) - doomed
  {
    assert LiveKeys(after, service) == LiveKeys(db, service) - doomed;
  }

  ghost predicate OwnKeys(changes: Changes, service: string) {
    forall k <- changes :: k.service == service
  }

  /** In a tracked session, the live view is the view it started from plus the pending changes. */
  ghost predicate Follows(st: State, service: string, start: View) {
    && st.session.trackChanges && OwnKeys(st.session.pending, service)
    && Live(st.db, service) == Overlay(start, st.session.pending)
  }

  ghost predicate NoImports(db: Tables) {
    forall k <- db.items :: !ImportId(k.id)
  }

  lemma NoAlias(sid: Paths.ShortId, st: State, key: Key, it: Item)
    requires NoImports(st.db)
    ensures AliasOf(sid, st, key, it) == None
  {
    AliasIsImportId(sid, st, key, it);
  }

  lemma UpsertFollows(st: State, key: Key, row: Item, blobs: map<Hash, Bytes>, start: View)
    requires Follows(st, key.service, start) && !row.deleted
    ensures Follows(State(st.db.(items := st.db.items[key := row], blobs := blobs),
                          NotePending(st.session, Upsert, key, row)), key.service, start)
  {
    var db := st.db.(items := st.db.items[key := row], blobs := blobs);
    LiveUpsert(st.db, db, key, row);
    OverlayUpsert(start, st.session.pending, key, row);
  }

  lemma PutFollows(sid: Paths.ShortId, st: State, key: Key, it: Item, data: Bytes, start: View)
    requires NoImports(st.db) && !ImportId(key.id) && Follows(st, key.service, start)
    ensures var end := Put(sid, st, key, it, data);
            Follows(end, key.service, start) && NoImports(end.db)
  {
    NoAlias(sid, st, key, it);
    if ValidKey(key) {
      UpsertFollows(st, key, PutRow(sid, st, key, it, data), PutBlob(st.db.blobs, data), start);
    }
  }

  lemma RefreshFollows(st: State, key: Key, mailbox: string, parent: string, name: string, subject: string, start: View)
    requires NoImports(st.db) && Follows(st, key.service, start)
    ensures var end := Refresh(st, key, mailbox, parent, name, subject);
            Follows(end, key.service, start) && NoImports(end.db)
  {
    if key in st.db.items {
      var row := st.db.items[key].(mailbox := mailbox, parent := parent, name := name, subject := subject);
      UpsertFollows(st, key, row.(deleted := false), st.db.blobs, start);
    }
  }

  lemma DeleteFollows(sid: Paths.ShortId, st: State, key: Key, start: View)
    requires NoImports(st.db) && Follows(st, key.service, start)
    ensures var end := Delete(sid, st, key);
            Follows(end, key.service, start) && NoImports(end.db)
  {
    NoAlias(sid, st, key, BLANK);
    if ValidKey(key) {
      var end := Delete(sid, st, key);
      LiveRemove(st.db, end.db, key.service, {key});
      var removed := map[key := end.session.pending[key]];
      assert end.session.pending == st.session.pending + removed && removed.Keys == {key};
      OverlayRemove(start, st.session.pending, removed);
    }
  }

  lemma DeleteAllFollows(st: State, doomed: set<Key>, service: string, start: View)
    requires NoImports(st.db) && Follows(st, service, start)
    requires forall k <- doomed :: k in st.db.items && k.service == service
    ensures Follows(DeleteAll(st, doomed), service, start) && NoImports(DeleteAll(st, doomed).db)
  {
    var end := DeleteAll(st, doomed);
    LiveRemove(st.db, end.db, service, doomed);
    var removed := map k | k in doomed && k in st.db.items :: Change(Remove, Dead(st.db.items[k]));
    assert end.session.pending == st.session.pending + removed && removed.Keys == doomed;
    OverlayRemove(start, st.session.pending, removed);
  }

  // ---------- every run ----------

  /** Graph ids do not use the import prefixes. */
  predicate GraphPuts(es: seq<Event>) {
    forall i :: 0 <= i < |es| && es[i].PutItem? ==> !ImportId(es[i].key.id)
  }

  /** Where the open session started from. */
  function Start(w: World, service: string): View {
    Overlay(Base(w, service), Dropped(w, service))
  }

  ghost predicate ViewOk(w: World, service: string) {
    && OwnKeys(Log(w, service), service)
    && Live(w.db, service) == Overlay(Start(w, service), Log(w, service))
    && (service in w.sessions ==>
          w.sessions[service].pending == if w.sessions[service].trackChanges then Log(w, service) else map[])
  }

  ghost predicate Coherent(w: World) {
    NoImports(w.db) && forall s :: ViewOk(w, s)
  }

  lemma ActFollows(sid: Paths.ShortId, st: State, e: Event, start: View)
    requires IsOp(e) && (e.PutItem? ==> !ImportId(e.key.id)) && NoImports(st.db) && Follows(st, Actor(e).value, start)
    ensures Follows(Act(sid, st, e), Actor(e).value, start) && NoImports(Act(sid, st, e).db)
  {
    var s := Actor(e).value;
    hide Follows;
    match e
    case PutItem(key, it, data) => PutFollows(sid, st, key, it, data, start);
    case RefreshItem(key, mailbox, parent, name, subject) =>
      RefreshFollows(st, key, mailbox, parent, name, subject, start);
    case DeleteItem(key) => DeleteFollows(sid, st, key, start);
    case DeleteUnder(_, mailbox, rel) => DeleteAllFollows(st, PrefixKeys(st.db, s, mailbox, rel), s, start);
    case BeginReconcile(_) => ReconcileFollows(st, s, start);
    case EndReconcile(_) => DeleteAllFollows(st, GoneKeys(st, s), s, start);
  }

  lemma ReconcileFollows(st: State, service: string, start: View)
    requires Follows(st, service, start)
    ensures Follows(StartReconcile(st, service), service, start)
  {
  }

  /** Tracking changes the session, never the store. */
  lemma ActIgnoresTracking(sid: Paths.ShortId, st: State, shadow: State, e: Event)
    requires IsOp(e) && shadow == State(st.db, st.session.(pending := shadow.session.pending, trackChanges := true))
    ensures Act(sid, shadow, e).db == Act(sid, st, e).db
    ensures !st.session.trackChanges ==> Act(sid, st, e).session.pending == st.session.pending
  {
    assert forall key: Key, it: Item :: AliasOf(sid, shadow, key, it) == AliasOf(sid, st, key, it);
    hide AliasOf;
  }

  lemma ActStaysInService(sid: Paths.ShortId, st: State, e: Event)
    requires IsOp(e)
    ensures SameOutside(st.db.items, Act(sid, st, e).db.items, Actor(e).value)
  {
    var s := Actor(e).value;
    match e
    case PutItem(key, it, data) => PutStaysInService(sid, st, key, it, data);
    case RefreshItem(key, mailbox, parent, name, subject) =>
    case DeleteItem(key) => DeleteStaysInService(sid, st, key);
    case DeleteUnder(_, mailbox, rel) => DeleteAllStaysInService(st, PrefixKeys(st.db, s, mailbox, rel), s);
    case BeginReconcile(_) =>
    case EndReconcile(_) => DeleteAllStaysInService(st, GoneKeys(st, s), s);
  }

  lemma ActorView(sid: Paths.ShortId, w: World, e: Event)
    requires IsOp(e) && Allowed(w, e) && (e.PutItem? ==> !ImportId(e.key.id)) && NoImports(w.db) && ViewOk(w, Actor(e).value)
    ensures ViewOk(Operate(sid, w, e), Actor(e).value) && NoImports(Operate(sid, w, e).db)
  {
    var s := Actor(e).value;
    var st, shadow := StateOf(w, s), Shadow(w, s);
    assert Follows(shadow, s, Start(w, s)) && (st.session.trackChanges ==> shadow == st);
    hide Act;
    hide Overlay;
    hide Live;
    hide NoImports;
    ActIgnoresTracking(sid, st, shadow, e);
    ActFollows(sid, shadow, e, Start(w, s));
    ActKeepsGenerations(sid, st, e);
    OperatedView(w, Operate(sid, w, e), s, Act(sid, st, e), Act(sid, shadow, e));
  }

  lemma OperatedView(w: World, v: World, s: string, end: State, noted: State)
    requires s in w.sessions && v == w.(db := end.db, sessions := w.sessions[s := end.session], log := w.log[s := noted.session.pending])
    requires noted.db == end.db && Follows(noted, s, Start(w, s))
    requires if end.session.trackChanges then end == noted else end.session.pending == map[]
    ensures ViewOk(v, s)
  {
    hide Overlay;
    hide Live;
    assert Start(v, s) == Start(w, s) && Log(v, s) == noted.session.pending;
  }

  lemma OtherView(sid: Paths.ShortId, w: World, e: Event, s: string)
    requires IsOp(e) && Allowed(w, e) && s != Actor(e).value && ViewOk(w, s)
    ensures ViewOk(Operate(sid, w, e), s)
  {
    ActStaysInService(sid, StateOf(w, Actor(e).value), e);
    SameOutsideSameLive(w.db, Operate(sid, w, e).db, Actor(e).value, s);
    hide Act;
  }

  lemma OpenView(w: World, service: string, full: bool, s: string)
    requires ViewOk(w, s)
    ensures ViewOk(Opening(w, service, full), s)
  {
    if s == service {
      OverlayMerge(Base(w, s), Dropped(w, s), Log(w, s));
      OverlayNothing(Live(w.db, s));
    }
  }

  /** Right after a commit the live view is the committed one, with nothing on top. */
  lemma CommitView(w: World, e: Event)
    requires e.CommitGen? && Allowed(w, e) && !Skips(w.sessions[e.service], e.service) && ViewOk(w, e.service)
    ensures ViewOk(Committing(w, e), e.service)
  {
    var v, s := Committing(w, e), e.service;
    CommitEmpties(w, e);
    NextIsPositive(w.db, s);
    assert v.db.items == w.db.items && Base(v, s) == Live(w.db, s) && Log(v, s) == map[] && Dropped(v, s) == map[];
    hide Committing;
    assert Live(v.db, s) == Live(w.db, s);
    OverlayNothing(Live(w.db, s));
  }

  lemma NextIsPositive(db: Tables, service: string)
    ensures NextGeneration(db, service).number > 0
  {
  }

  lemma CommitEmpties(w: World, e: Event)
    requires e.CommitGen? && Allowed(w, e) && !Skips(w.sessions[e.service], e.service) && ViewOk(w, e.service)
    ensures e.service in Committing(w, e).sessions && Committing(w, e).sessions[e.service].pending == map[]
  {
    var s := e.service;
    assert forall k <- w.sessions[s].pending :: k in PendingOf(w.sessions[s], s);
    hide NextGeneration;
    hide Live;
    hide Overlay;
  }

  lemma CommitElsewhere(w: World, e: Event, s: string)
    requires e.CommitGen? && Allowed(w, e) && !Skips(w.sessions[e.service], e.service) && ViewOk(w, s) && s != e.service
    ensures ViewOk(Committing(w, e), s)
  {
    var v := Committing(w, e);
    CommitLeavesOthers(w, e, s);
    hide Committing;
    hide Overlay;
    assert Live(v.db, s) == Live(w.db, s);
  }

  lemma CommitLeavesOthers(w: World, e: Event, s: string)
    requires e.CommitGen? && Allowed(w, e) && !Skips(w.sessions[e.service], e.service) && s != e.service
    ensures var v := Committing(w, e);
            && v.db.items == w.db.items && Base(v, s) == Base(w, s) && Log(v, s) == Log(w, s) && Dropped(v, s) == Dropped(w, s)
            && (s in v.sessions <==> s in w.sessions) && (s in w.sessions ==> v.sessions[s] == w.sessions[s])
  {
    hide Committing;
    hide NextGeneration;
    hide Live;
    CommitAdds(w, e);
    CommitMaps(w, e);
  }

  lemma CommitMaps(w: World, e: Event)
    requires e.CommitGen? && Allowed(w, e) && !Skips(w.sessions[e.service], e.service)
    ensures var v, gen := Committing(w, e), NextGeneration(w.db, e.service);
            && gen.service == e.service && e.service in v.sessions
            && v.views == w.views[gen := Live(w.db, e.service)]
            && v.log == w.log[e.service := map[]] && v.dropped == w.dropped[e.service := map[]]
            && v.sessions == w.sessions[e.service := v.sessions[e.service]]
  {
    hide Live;
    hide MaxNumber;
  }

  lemma SameItemsView(w: World, db: Tables, s: string)
    requires ViewOk(w, s) && db.items == w.db.items
    ensures ViewOk(w.(db := db), s)
  {
    assert Live(db, s) == Live(w.db, s);
  }

  lemma ApplyView(sid: Paths.ShortId, w: World, e: Event, s: string)
    requires Allowed(w, e) && (e.PutItem? ==> !ImportId(e.key.id)) && Coherent(w)
    ensures ViewOk(Apply(sid, w, e), s)
  {
    assert ViewOk(w, s);
    hide ViewOk;
    match e
    case Open(service, full) => OpenView(w, service, full, s);
    case CommitGen(service, _, _, _) =>
      if !Skips(w.sessions[service], service) {
        if s == service {
          CommitView(w, e);
        } else {
          CommitElsewhere(w, e, s);
        }
      }
    case RetainAll(policy, now, orders) => SameItemsView(w, Retain(w.db, policy, now, orders), s);
    case CollectBlobs => SameItemsView(w, Collect(w.db), s);
    case _ =>
      if s == Actor(e).value {
        ActorView(sid, w, e);
      } else {
        OtherView(sid, w, e, s);
      }
  }

  lemma ApplyNoImports(sid: Paths.ShortId, w: World, e: Event)
    requires Allowed(w, e) && (e.PutItem? ==> !ImportId(e.key.id)) && Coherent(w)
    ensures NoImports(Apply(sid, w, e).db)
  {
    if IsOp(e) {
      assert ViewOk(w, Actor(e).value);
      hide ViewOk;
      ActorView(sid, w, e);
    }
  }

  /**
   In every reachable state the live view of every service is its last committed view
   with the changes of aborted sessions and then those of the open session on top, and
   a tracked session has exactly the latter pending.
   */
  lemma {:induction false} AlwaysCoherent(sid: Paths.ShortId, es: seq<Event>)
    requires Legal(sid, es) && GraphPuts(es)
    ensures Coherent(After(sid, es))
  {
    if es == [] {
      assert forall s :: Live(EMPTY, s) == map[];
    } else {
      var w, e := After(sid, es[..|es| - 1]), es[|es| - 1];
      AlwaysCoherent(sid, es[..|es| - 1]);
      ApplyNoImports(sid, w, e);
      hide ViewOk;
      hide Apply;
      forall s ensures ViewOk(Apply(sid, w, e), s) {
        ApplyView(sid, w, e, s);
      }
    }
  }

  // ---------- manifests ----------

  /** A manifest lists path, hash and size of every row of a view once. */
  ghost predicate IsManifest(m: seq<Entry>, view: View) {
    exists rows: seq<Key> :: Enumerates(rows, view.Keys) && m == ManifestOf(view, rows)
  }

  /** Every stored manifest is of the view its generation was committed with. */
  ghost predicate ManifestsOk(w: World) {
    forall g <- w.db.manifests :: g in w.views && IsManifest(w.db.manifests[g], w.views[g])
  }

  lemma CommitManifest(w: World, e: Event)
    requires e.CommitGen? && Allowed(w, e) && !Skips(w.sessions[e.service], e.service) && ManifestsOk(w)
    ensures ManifestsOk(Committing(w, e))
  {
    var v, gen, view := Committing(w, e), NextGeneration(w.db, e.service), Live(w.db, e.service);
    assert v.db.manifests == w.db.manifests[gen := ManifestOf(view, e.rows)] && v.views == w.views[gen := view];
    assert Enumerates(e.rows, view.Keys);
    hide Committing;
    hide NextGeneration;
    hide Enumerates;
    assert IsManifest(v.db.manifests[gen], v.views[gen]);
    hide IsManifest;
  }

  lemma ApplyManifests(sid: Paths.ShortId, w: World, e: Event)
    requires Allowed(w, e) && ManifestsOk(w)
    ensures ManifestsOk(Apply(sid, w, e))
  {
    hide IsManifest;
    match e
    case CommitGen(service, _, _, _) =>
      if !Skips(w.sessions[service], service) {
        CommitManifest(w, e);
      }
    case Open(_, _) =>
    case RetainAll(_, _, _) =>
    case CollectBlobs =>
    case _ => ActKeepsGenerations(sid, StateOf(w, Actor(e).value), e);
  }

  lemma {:induction false} AlwaysManifests(sid: Paths.ShortId, es: seq<Event>)
    requires Legal(sid, es)
    ensures ManifestsOk(After(sid, es))
  {
    if es != [] {
      AlwaysManifests(sid, es[..|es| - 1]);
      ApplyManifests(sid, After(sid, es[..|es| - 1]), es[|es| - 1]);
      hide Apply;
      hide ManifestsOk;
    }
  }

  // ---------- the entries of a view ----------

  /** Path, hash and size of every row. */
  ghost function EntriesOf(view: View): multiset<Entry>
    decreases |view|
  {
    if view == map[] then multiset{}
    else
      var k := Pick(view.Keys);
      multiset{EntryOf(view[k])} + EntriesOf(view - {k})
  }

  lemma {:induction false} EntriesWithout(view: View, k: Key)
    requires k in view
    ensures EntriesOf(view) == multiset{EntryOf(view[k])} + EntriesOf(view - {k})
    decreases |view|
  {
    var p := Pick(view.Keys);
    EntriesFirst(view);
    if p != k {
      WithoutBoth(view, p, k);
      EntriesWithout(view - {p}, k);
      EntriesWithout(view - {k}, p);
      Swap(EntryOf(view[p]), EntryOf(view[k]), EntriesOf(view - {p} - {k}));
    }
    hide *;
  }

  lemma WithoutBoth(view: View, p: Key, k: Key)
    requires p in view && k in view && p != k
    ensures |view - {p}| < |view| && |view - {k}| < |view|
    ensures view - {p} - {k} == view - {k} - {p}
    ensures k in view - {p} && (view - {p})[k] == view[k] && p in view - {k} && (view - {k})[p] == view[p]
  {
  }

  lemma Swap(a: Entry, b: Entry, rest: multiset<Entry>)
    ensures multiset{a} + (multiset{b} + rest) == multiset{b} + (multiset{a} + rest)
  {
  }

  lemma EntriesFirst(view: View)
    requires view != map[]
    ensures EntriesOf(view) == multiset{EntryOf(view[Pick(view.Keys)])} + EntriesOf(view - {Pick(view.Keys)})
  {
  }

  lemma {:induction false} EntryHasRow(view: View, x: Entry)
    requires x in EntriesOf(view)
    ensures exists k <- view :: EntryOf(view[k]) == x
    decreases |view|
  {
    hide EntryOf;
    var p := Pick(view.Keys);
    if x != EntryOf(view[p]) {
      EntryHasRow(view - {p}, x);
      var k :| k in view - {p} && EntryOf((view - {p})[k]) == x;
      assert k in view && EntryOf(view[k]) == x;
    }
  }

  lemma ManifestGrows(view: View, rows: seq<Key>, k: Key)
    requires k in view && k !in rows && forall r <- rows :: r in view
    ensures forall r <- rows :: r in view - {k}
    ensures ManifestOf(view, rows + [k]) == ManifestOf(view - {k}, rows) + [EntryOf(view[k])]
  {
    hide EntryOf;
    var a, b := ManifestOf(view, rows + [k]), ManifestOf(view - {k}, rows) + [EntryOf(view[k])];
    forall i | 0 <= i < |a| ensures a[i] == b[i] {
      if i < |rows| {
        assert rows[i] in rows && (rows + [k])[i] == rows[i];
      }
    }
  }

  lemma EnumeratesOneMore(rows: seq<Key>, keys: set<Key>, k: Key)
    requires k in keys && k !in rows
    ensures Enumerates(rows + [k], keys) <==> Enumerates(rows, keys - {k})
  {
    var more := rows + [k];
    if Enumerates(more, keys) {
      forall x ensures x in rows <==> x in keys - {k} {
        assert x in more <==> x in rows || x == k;
      }
      assert forall i :: 0 <= i < |rows| ==> rows[i] == more[i];
    }
  }

  lemma {:induction false} ManifestHasEntries(view: View, rows: seq<Key>)
    requires Enumerates(rows, view.Keys)
    ensures multiset(ManifestOf(view, rows)) == EntriesOf(view)
    decreases |rows|
  {
    hide EntryOf;
    if rows == [] {
      assert view == map[];
    } else {
      var n := |rows| - 1;
      var k := rows[n];
      assert rows == rows[..n] + [k] && k in rows;
      EnumeratesOneMore(rows[..n], view.Keys, k);
      assert (view - {k}).Keys == view.Keys - {k};
      ManifestHasEntries(view - {k}, rows[..n]);
      ManifestGrows(view, rows[..n], k);
      EntriesWithout(view, k);
    }
  }

  lemma {:induction false} EntriesMakeManifest(m: seq<Entry>, view: View) returns (rows: seq<Key>)
    requires multiset(m) == EntriesOf(view)
    ensures Enumerates(rows, view.Keys) && m == ManifestOf(view, rows)
    decreases |m|
  {
    hide EntryOf;
    hide EntriesOf;
    hide Enumerates;
    if m == [] {
      rows := [];
      NoEntries(view);
      EmptyManifest();
      assert multiset(m) == multiset{} && view.Keys == {};
    } else {
      var n := |m| - 1;
      var k := LastRow(m, view);
      var rest := EntriesMakeManifest(m[..n], view - {k});
      OneRowMore(m[..n], view, rest, k);
      assert m == m[..n] + [m[n]];
      rows := rest + [k];
    }
  }

  lemma EmptyManifest()
    ensures Enumerates<Key>([], {}) && ManifestOf(map[], []) == []
  {
  }

  /** A row for the last entry, and what is left for the others. */
  lemma LastRow(m: seq<Entry>, view: View) returns (k: Key)
    requires multiset(m) == EntriesOf(view) && m != []
    ensures k in view && EntryOf(view[k]) == m[|m| - 1] && multiset(m[..|m| - 1]) == EntriesOf(view - {k})
  {
    hide EntryOf;
    hide EntriesOf;
    var n := |m| - 1;
    assert m == m[..n] + [m[n]];
    assert multiset(m[..n]) == multiset(m) - multiset{m[n]};
    assert m[n] in multiset(m);
    EntryHasRow(view, m[n]);
    k :| k in view && EntryOf(view[k]) == m[n];
    EntriesWithout(view, k);
    assert EntriesOf(view - {k}) == EntriesOf(view) - multiset{m[n]};
  }

  lemma OneRowMore(m: seq<Entry>, view: View, rest: seq<Key>, k: Key)
    requires k in view && Enumerates(rest, (view - {k}).Keys) && m == ManifestOf(view - {k}, rest)
    ensures Enumerates(rest + [k], view.Keys)
    ensures forall r <- rest + [k] :: r in view
    ensures ManifestOf(view, rest + [k]) == m + [EntryOf(view[k])]
  {
    hide EntryOf;
    assert (view - {k}).Keys == view.Keys - {k};
    assert k !in rest && forall r <- rest :: r in view.Keys - {k};
    EnumeratesOneMore(rest, view.Keys, k);
    ManifestGrows(view, rest, k);
  }

  /** A list is a manifest of a view exactly if it has the entries of its rows. */
  lemma ManifestIff(m: seq<Entry>, view: View)
    ensures IsManifest(m, view) <==> multiset(m) == EntriesOf(view)
  {
    if IsManifest(m, view) {
      var rows: seq<Key> :| Enumerates(rows, view.Keys) && m == ManifestOf(view, rows);
      ManifestHasEntries(view, rows);
    }
    if multiset(m) == EntriesOf(view) {
      var rows := EntriesMakeManifest(m, view);
    }
  }

  // ---------- skipped commits ----------

  /** A tracked session without pending changes has left the live view as it found it. */
  lemma SkippedMeansUnchanged(w: World, service: string)
    requires service in w.sessions && Skips(w.sessions[service], service) && ViewOk(w, service)
    ensures Live(w.db, service) == Start(w, service)
  {
    var s := w.sessions[service];
    assert s.pending == map[] by {
      assert forall k <- s.pending :: k in PendingOf(s, service);
    }
    OverlayNothing(Start(w, service));
  }

  /** The generation a skipped commit returns lists the live view; without one nothing is live. */
  ghost predicate SkipNamesLive(db: Tables, service: string) {
    match Latest(db, service)
    case None => Live(db, service) == map[]
    case Some(gen) => gen in db.manifests && IsManifest(db.manifests[gen], Live(db, service))
  }

  lemma LatestIsLast(w: World, service: string)
    requires UpToLast(w) && LatestStored(w, service)
    ensures Latest(w.db, service) == if Last(w, service) == 0 then None else Some(GenKey(service, Last(w, service)))
  {
    var gens := Generations(w.db, service);
    assert forall g <- gens :: g in w.db.snapshots && 1 <= g.number <= Last(w, service);
    if Last(w, service) > 0 {
      assert GenKey(service, Last(w, service)) in gens;
    } else {
      assert gens == {};
    }
  }

  lemma NoEntries(view: View)
    ensures EntriesOf(view) == multiset{} <==> view == map[]
  {
    if view != map[] {
      EntriesWithout(view, Pick(view.Keys));
      assert EntryOf(view[Pick(view.Keys)]) in EntriesOf(view);
    }
  }

  /** The view committed with the generation a skipped commit returns, empty if there is none. */
  ghost function NamedView(w: World, service: string): View {
    match Latest(w.db, service)
    case None => map[]
    case Some(gen) => ViewAt(w, gen)
  }

  /**
   Exactly when a skipped commit is sound, on every run: when the view the session started
   from, the last committed one with the changes of aborted sessions on top, has the same
   manifest entries as the latest generation still stored.
   */
  lemma SkipIsSoundIff(sid: Paths.ShortId, es: seq<Event>, service: string)
    requires Legal(sid, es) && GraphPuts(es)
    requires service in After(sid, es).sessions && Skips(After(sid, es).sessions[service], service)
    ensures var w := After(sid, es);
            SkipNamesLive(w.db, service) <==> EntriesOf(Start(w, service)) == EntriesOf(NamedView(w, service))
  {
    var w := After(sid, es);
    AlwaysCoherent(sid, es);
    AlwaysBounded(sid, es);
    AlwaysManifests(sid, es);
    hide After;
    assert ViewOk(w, service);
    SkippedMeansUnchanged(w, service);
    SkipByEntries(w, service);
  }

  lemma SkipByEntries(w: World, service: string)
    requires Bounded(w) && ManifestsOk(w) && Live(w.db, service) == Start(w, service)
    ensures SkipNamesLive(w.db, service) <==> EntriesOf(Start(w, service)) == EntriesOf(NamedView(w, service))
  {
    LatestHasManifest(w, service);
    hide Latest;
    hide EntriesOf;
    match Latest(w.db, service)
    case None =>
      NoEntries(Live(w.db, service));
      NoEntries(map[]);
    case Some(gen) =>
      ManifestIff(w.db.manifests[gen], w.views[gen]);
      ManifestIff(w.db.manifests[gen], Live(w.db, service));
  }

  lemma LatestHasManifest(w: World, service: string)
    requires Bounded(w)
    ensures Latest(w.db, service).Some? ==> Latest(w.db, service).value in w.db.manifests
  {
    var gens := Generations(w.db, service);
    if gens != {} {
      assert Pick(gens) in w.db.snapshots;
      var g :| g in gens && g.number == MaxNumber(gens);
      assert g in w.db.snapshots.Keys && g == GenKey(service, MaxNumber(gens));
    }
  }

  /**
   While the latest generation is still stored, only aborted sessions matter: a skip is
   sound exactly if the changes they left uncommitted change no manifest entry.
   */
  lemma SkipIsSoundStored(sid: Paths.ShortId, es: seq<Event>, service: string)
    requires Legal(sid, es) && GraphPuts(es) && LatestStored(After(sid, es), service)
    requires service in After(sid, es).sessions && Skips(After(sid, es).sessions[service], service)
    ensures var w := After(sid, es);
            SkipNamesLive(w.db, service) <==>
            EntriesOf(Overlay(Base(w, service), Dropped(w, service))) == EntriesOf(Base(w, service))
  {
    var w := After(sid, es);
    SkipIsSoundIff(sid, es, service);
    AlwaysBounded(sid, es);
    hide After;
    LatestIsLast(w, service);
    hide Latest;
    hide EntriesOf;
    hide Overlay;
  }

  // ---------- tidy histories ----------

  /** No session is opened while an earlier one of the service has uncommitted changes. */
  ghost predicate Tidy(sid: Paths.ShortId, es: seq<Event>, service: string)
    requires Legal(sid, es)
  {
    forall i :: 0 <= i < |es| && es[i] in {Open(service, true), Open(service, false)} ==>
      Log(Before(sid, es, i), service) == map[]
  }

  lemma {:induction false} NothingDropped(sid: Paths.ShortId, es: seq<Event>, n: nat, service: string)
    requires Legal(sid, es) && n <= |es| && Tidy(sid, es, service)
    ensures Dropped(Before(sid, es, n), service) == map[]
    decreases n
  {
    BeforeStart(sid, es);
    if n > 0 {
      NothingDropped(sid, es, n - 1, service);
      BeforeNext(sid, es, n - 1);
      DroppedAfter(sid, Before(sid, es, n - 1), es[n - 1], service);
      assert es[n - 1].Open? && es[n - 1].service == service ==> es[n - 1] in {Open(service, true), Open(service, false)};
      hide Apply;
    }
  }

  lemma DroppedAfter(sid: Paths.ShortId, w: World, e: Event, service: string)
    requires Allowed(w, e)
    ensures var v := Apply(sid, w, e);
            || Dropped(v, service) == Dropped(w, service) || Dropped(v, service) == map[]
            || (e.Open? && e.service == service && Dropped(v, service) == Dropped(w, service) + Log(w, service))
  {
    hide Act;
    hide Commit;
    hide Retain;
  }

  /**
   With a rising clock and no session left uncommitted, the live view is the committed
   one with the pending changes on top, and every skipped commit is sound.
   */
  lemma SkipIsSound(sid: Paths.ShortId, es: seq<Event>, service: string)
    requires Legal(sid, es) && Ticking(sid, es) && GraphPuts(es) && Tidy(sid, es, service)
    ensures var w := After(sid, es);
            && Live(w.db, service) == Overlay(Base(w, service), Log(w, service))
            && (service in w.sessions && Skips(w.sessions[service], service) ==> SkipNamesLive(w.db, service))
  {
    var w := After(sid, es);
    BeforeStart(sid, es);
    NothingDropped(sid, es, |es|, service);
    OverlayNothing(Base(w, service));
    AlwaysCoherent(sid, es);
    AlwaysNumbered(sid, es);
    assert ViewOk(w, service) && LatestStored(w, service);
    if service in w.sessions && Skips(w.sessions[service], service) {
      SkipIsSoundStored(sid, es, service);
    }
  }
}
