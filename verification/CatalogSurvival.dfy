/**
 When a retained generation keeps its blobs. The collector spares what item rows and
 change rows name and never looks at manifests. A generation is safe as far as the
 change rows behind it reach: back to the first generation, or to the last one that a
 full job wrote, and from there on as long as the item rows still name the content.
 */
module CatalogSurvival {
  import opened SmartRecycle
  import opened Tables
  import opened Catalog
  import opened CatalogRuns
  import opened CatalogNumbers
  import opened CatalogViews
  import Paths

  // ---------- change rows lead from generation to generation ----------

  /** The generation has a change row about the id. */
  ghost predicate HasChange(db: Tables, gen: GenKey, id: string) {
    exists c <- db.changes :: c.gen == gen && c.id == id
  }

  /** A change row says what its generation's view has under the id. */
  predicate RowExact(view: View, c: ChangeRow) {
    var k := Key(c.gen.service, c.id);
    if c.change.op == Upsert then k in view && view[k] == c.change.item else k !in view
  }

  function Previous(w: World, gen: GenKey): View {
    if gen.number <= 1 then map[] else ViewAt(w, GenKey(gen.service, gen.number - 1))
  }

  /** Rows without a change row are those of the generation before. */
  ghost predicate LinkedRow(w: World, gen: GenKey, k: Key)
    requires k in ViewAt(w, gen)
  {
    HasChange(w.db, gen, k.id) || (k in Previous(w, gen) && Previous(w, gen)[k] == ViewAt(w, gen)[k])
  }

  ghost predicate Linked(w: World) {
    forall gen <- w.db.snapshots :: gen !in w.breaks ==> forall k <- ViewAt(w, gen) :: LinkedRow(w, gen, k)
  }

  ghost predicate ChangesExact(w: World) {
    forall c <- w.db.changes :: c.gen in w.db.snapshots && RowExact(ViewAt(w, c.gen), c)
  }

  ghost predicate ChangesBacked(db: Tables) {
    forall c <- db.changes :: c.change.item.hash == NoHash || c.change.item.hash in db.blobs
  }

  /** Committed rows have content and belong to the service of their generation. */
  ghost predicate ViewsHashed(w: World) {
    forall g <- w.views :: forall k <- w.views[g] :: w.views[g][k].hash != NoHash && k.service == g.service
  }

  /** A pending change carries no hash but that of the row it is about. */
  ghost predicate PendingMatches(st: State) {
    forall k <- st.session.pending ::
      || st.session.pending[k].item.hash == NoHash
      || (k in st.db.items && st.db.items[k].hash == st.session.pending[k].item.hash)
  }

  ghost predicate AllMatch(w: World) {
    forall s <- w.sessions :: PendingMatches(StateOf(w, s))
  }

  ghost predicate Chained(w: World) {
    Linked(w) && ChangesExact(w) && ChangesBacked(w.db) && ViewsHashed(w) && AllMatch(w)
  }

  /** The other invariants it builds on. */
  ghost predicate Regular(w: World) {
    Restorable(w.db) && Coherent(w) && Bounded(w)
  }

  // ---------- operations ----------

  lemma ActKeepsBlobs(sid: Paths.ShortId, st: State, e: Event)
    requires IsOp(e)
    ensures st.db.blobs.Keys <= Act(sid, st, e).db.blobs.Keys
  {
    hide AliasOf;
    hide Renamed;
  }

  lemma ActPendingMatches(sid: Paths.ShortId, st: State, e: Event)
    requires IsOp(e) && NoImports(st.db) && PendingMatches(st) && (st.session.trackChanges || st.session.pending == map[])
    ensures PendingMatches(Act(sid, st, e))
  {
    hide AliasOf;
    hide Covers;
    match e
    case PutItem(key, it, data) =>
      NoAlias(sid, st, key, it);
      PutMatches(sid, st, key, it, data);
    case DeleteItem(key) => NoAlias(sid, st, key, BLANK);
    case DeleteUnder(service, mailbox, rel) => DeleteAllMatches(st, PrefixKeys(st.db, service, mailbox, rel));
    case EndReconcile(service) => DeleteAllMatches(st, GoneKeys(st, service));
    case _ =>
  }

  lemma PutMatches(sid: Paths.ShortId, st: State, key: Key, it: Item, data: Bytes)
    requires AliasOf(sid, st, key, it) == None && PendingMatches(st)
    requires st.session.trackChanges || st.session.pending == map[]
    ensures PendingMatches(Put(sid, st, key, it, data))
  {
    hide AliasOf;
  }

  lemma DeleteAllMatches(st: State, doomed: set<Key>)
    requires PendingMatches(st) && (st.session.trackChanges || st.session.pending == map[])
    ensures PendingMatches(DeleteAll(st, doomed))
  {
  }

  lemma OthersMatch(a: Tables, b: Tables, session: Session, service: string, actor: string)
    requires OwnKeys(session.pending, service) && service != actor && SameOutside(a.items, b.items, actor)
    requires PendingMatches(State(a, session))
    ensures PendingMatches(State(b, session))
  {
  }

  /** Same generations, same change rows, more blobs. */
  lemma SameChain(w: World, v: World)
    requires Linked(w) && ChangesExact(w) && ChangesBacked(w.db) && ViewsHashed(w)
    requires v.db.snapshots == w.db.snapshots && v.db.changes == w.db.changes && w.db.blobs.Keys <= v.db.blobs.Keys
    requires v.views == w.views && v.breaks == w.breaks
    ensures Linked(v) && ChangesExact(v) && ChangesBacked(v.db) && ViewsHashed(v)
  {
    forall gen, k | gen in v.db.snapshots && gen !in v.breaks && k in ViewAt(v, gen) ensures LinkedRow(v, gen, k) {
      assert LinkedRow(w, gen, k);
    }
  }

  lemma OperateChained(sid: Paths.ShortId, w: World, e: Event)
    requires IsOp(e) && Allowed(w, e) && Chained(w) && Coherent(w)
    ensures Chained(Operate(sid, w, e))
  {
    var actor := Actor(e).value;
    var st := StateOf(w, actor);
    var v := Operate(sid, w, e);
    assert PendingMatches(st) && ViewOk(w, actor);
    hide Act;
    ActKeepsGenerations(sid, st, e);
    ActKeepsBlobs(sid, st, e);
    SameChain(w, v);
    OperateMatches(sid, w, e);
    hide Linked;
    hide ChangesExact;
  }

  lemma OperateMatches(sid: Paths.ShortId, w: World, e: Event)
    requires IsOp(e) && Allowed(w, e) && AllMatch(w) && Coherent(w)
    ensures AllMatch(Operate(sid, w, e))
  {
    var actor := Actor(e).value;
    var st, v := StateOf(w, actor), Operate(sid, w, e);
    assert PendingMatches(st) && ViewOk(w, actor);
    ActPendingMatches(sid, st, e);
    ActStaysInService(sid, st, e);
    hide Act;
    hide Overlay;
    hide Live;
    forall s | s in v.sessions ensures PendingMatches(StateOf(v, s)) {
      if s != actor {
        assert ViewOk(w, s) && PendingMatches(StateOf(w, s));
        OthersMatch(w.db, v.db, w.sessions[s], s, actor);
      }
    }
  }

  // ---------- commits ----------

  /** The change rows of a new generation say what its view has. */
  lemma NewRowExact(w: World, e: Event, c: ChangeRow)
    requires e.CommitGen? && Allowed(w, e) && !Skips(w.sessions[e.service], e.service)
    requires ViewOk(w, e.service) && PendingMatches(StateOf(w, e.service)) && Restorable(w.db)
    requires c in Committing(w, e).db.changes && c !in w.db.changes
    ensures c.gen == NextGeneration(w.db, e.service) && RowExact(Live(w.db, e.service), c)
    ensures c.change.item.hash == NoHash || c.change.item.hash in w.db.blobs
  {
    var s, gen := e.service, NextGeneration(w.db, e.service);
    var pending := PendingOf(w.sessions[s], s);
    CommitRows(w, e);
    hide Committing;
    hide NextGeneration;
    var k :| k in pending && c == ChangeRow(gen, k.id, pending[k]);
    assert k in w.sessions[s].pending && k == Key(s, c.id) && w.sessions[s].trackChanges;
    OverlayRow(Start(w, s), w.sessions[s].pending, k);
    hide Overlay;
    hide Live;
    if k in w.db.items {
      assert Backed(w.db.blobs, w.db.items[k]);
    }
  }

  lemma OverlayRow(start: View, pending: Changes, k: Key)
    requires k in pending
    ensures k in Overlay(start, pending) <==> pending[k].op == Upsert
    ensures pending[k].op == Upsert ==> Overlay(start, pending)[k] == pending[k].item
  {
  }

  lemma CommitRows(w: World, e: Event)
    requires e.CommitGen? && Allowed(w, e) && !Skips(w.sessions[e.service], e.service)
    ensures var pending, gen := PendingOf(w.sessions[e.service], e.service), NextGeneration(w.db, e.service);
            Committing(w, e).db.changes == w.db.changes + (set k | k in pending :: ChangeRow(gen, k.id, pending[k]))
  {
    hide NextGeneration;
    hide Live;
  }

  /** Every pending change of the service becomes a change row of the new generation. */
  lemma PendingBecomesRow(w: World, e: Event, k: Key)
    requires e.CommitGen? && Allowed(w, e) && !Skips(w.sessions[e.service], e.service)
    requires k in w.sessions[e.service].pending && k.service == e.service
    ensures HasChange(Committing(w, e).db, NextGeneration(w.db, e.service), k.id)
  {
    var s, gen := e.service, NextGeneration(w.db, e.service);
    var pending := PendingOf(w.sessions[s], s);
    assert k in pending;
    assert ChangeRow(gen, k.id, pending[k]) in Committing(w, e).db.changes;
    hide Committing;
  }

  /** A new generation that breaks nothing is linked to the one before, row by row. */
  lemma NewRowLinked(w: World, e: Event, k: Key)
    requires e.CommitGen? && Allowed(w, e) && !Skips(w.sessions[e.service], e.service) && ViewOk(w, e.service)
    requires NextGeneration(w.db, e.service) !in Committing(w, e).breaks && k in Live(w.db, e.service)
    ensures var v, gen := Committing(w, e), NextGeneration(w.db, e.service);
            k in ViewAt(v, gen) && LinkedRow(v, gen, k)
  {
    hide Committing;
    hide NextGeneration;
    hide Live;
    var s, v, gen := e.service, Committing(w, e), NextGeneration(w.db, e.service);
    CommitHistory(w, e);
    UnbrokenCommit(w, e);
    assert Previous(v, gen) == Base(w, s);
    if k in w.sessions[s].pending {
      PendingBecomesRow(w, e, k);
    }
  }

  /** Such a generation is the next one, and its view is the last committed one plus the pending changes. */
  lemma UnbrokenCommit(w: World, e: Event)
    requires e.CommitGen? && Allowed(w, e) && !Skips(w.sessions[e.service], e.service) && ViewOk(w, e.service)
    requires NextGeneration(w.db, e.service) !in Committing(w, e).breaks
    ensures NextGeneration(w.db, e.service) == GenKey(e.service, Last(w, e.service) + 1)
    ensures OwnKeys(w.sessions[e.service].pending, e.service)
    ensures Live(w.db, e.service) == Overlay(Base(w, e.service), w.sessions[e.service].pending)
  {
    var s := e.service;
    assert w.sessions[s].trackChanges && Dropped(w, s) == map[];
    hide Committing;
    OverlayNothing(Base(w, s));
  }

  lemma NextIsLater(db: Tables, gen: GenKey, service: string)
    requires gen in db.snapshots
    ensures NextGeneration(db, service).service == service
    ensures gen.service == service ==> gen.number < NextGeneration(db, service).number
  {
    assert gen.service == service ==> gen in Generations(db, service);
  }

  lemma OldRowLinked(w: World, e: Event, gen: GenKey, k: Key)
    requires e.CommitGen? && Allowed(w, e) && !Skips(w.sessions[e.service], e.service) && UpToLast(w)
    requires gen in w.db.snapshots && gen != NextGeneration(w.db, e.service) && k in ViewAt(w, gen) && LinkedRow(w, gen, k)
    ensures var v := Committing(w, e); k in ViewAt(v, gen) && LinkedRow(v, gen, k)
  {
    hide Committing;
    hide Live;
    var v, next := Committing(w, e), NextGeneration(w.db, e.service);
    CommitHistory(w, e);
    NextIsLater(w.db, gen, e.service);
    hide NextGeneration;
    assert Previous(v, gen) == Previous(w, gen) && ViewAt(v, gen) == ViewAt(w, gen);
    if HasChange(w.db, gen, k.id) {
      var c :| c in w.db.changes && c.gen == gen && c.id == k.id;
      assert c in v.db.changes;
    }
  }

  lemma CommitLinked(w: World, e: Event)
    requires e.CommitGen? && Allowed(w, e) && !Skips(w.sessions[e.service], e.service)
    requires Chained(w) && Regular(w)
    ensures Linked(Committing(w, e))
  {
    var v, next := Committing(w, e), NextGeneration(w.db, e.service);
    assert ViewOk(w, e.service);
    CommitAdds(w, e);
    CommitHistory(w, e);
    hide Committing;
    hide LinkedRow;
    forall gen, k | gen in v.db.snapshots && gen !in v.breaks && k in ViewAt(v, gen)
      ensures LinkedRow(v, gen, k)
    {
      if gen == next {
        NewRowLinked(w, e, k);
      } else {
        assert LinkedRow(w, gen, k);
        OldRowLinked(w, e, gen, k);
      }
    }
  }

  lemma CommitHistory(w: World, e: Event)
    requires e.CommitGen? && Allowed(w, e) && !Skips(w.sessions[e.service], e.service)
    ensures var v, gen := Committing(w, e), NextGeneration(w.db, e.service);
            && v.views == w.views[gen := Live(w.db, e.service)] && gen.service == e.service
            && w.breaks - {gen} <= v.breaks <= w.breaks + {gen}
            && w.db.changes <= v.db.changes
            && v.sessions == w.sessions[e.service := v.sessions[e.service]]
            && v.sessions[e.service].pending.Keys <= w.sessions[e.service].pending.Keys
            && forall k <- v.sessions[e.service].pending :: v.sessions[e.service].pending[k] == w.sessions[e.service].pending[k]
  {
  }

  lemma CommitExact(w: World, e: Event)
    requires e.CommitGen? && Allowed(w, e) && !Skips(w.sessions[e.service], e.service)
    requires Chained(w) && Regular(w)
    ensures ChangesExact(Committing(w, e)) && ChangesBacked(Committing(w, e).db)
  {
    var v, next := Committing(w, e), NextGeneration(w.db, e.service);
    assert ViewOk(w, e.service) && PendingMatches(StateOf(w, e.service));
    CommitAdds(w, e);
    CommitHistory(w, e);
    NextIsNew(w, e.service);
    hide Committing;
    hide NextGeneration;
    hide RowExact;
    forall c | c in v.db.changes
      ensures c.gen in v.db.snapshots && RowExact(ViewAt(v, c.gen), c)
      ensures c.change.item.hash == NoHash || c.change.item.hash in v.db.blobs
    {
      if c !in w.db.changes {
        NewRowExact(w, e, c);
      }
    }
  }

  lemma NextIsNew(w: World, service: string)
    ensures NextGeneration(w.db, service) !in w.db.snapshots
  {
    var next := NextGeneration(w.db, service);
    assert next in w.db.snapshots ==> next in Generations(w.db, service);
  }

  lemma CommitHashed(w: World, e: Event)
    requires e.CommitGen? && Allowed(w, e) && !Skips(w.sessions[e.service], e.service)
    requires ViewsHashed(w) && AllMatch(w) && Restorable(w.db)
    ensures ViewsHashed(Committing(w, e)) && AllMatch(Committing(w, e))
  {
    var v, next := Committing(w, e), NextGeneration(w.db, e.service);
    CommitAdds(w, e);
    CommitHistory(w, e);
    hide Committing;
    hide NextGeneration;
    forall g, k | g in v.views && k in v.views[g] ensures v.views[g][k].hash != NoHash && k.service == g.service {
      if g == next {
        assert k in w.db.items && Backed(w.db.blobs, w.db.items[k]);
        assert w.db.items[k].hash == Sha256(w.db.blobs[w.db.items[k].hash]);
      }
    }
    forall s | s in v.sessions ensures PendingMatches(StateOf(v, s)) {
      assert PendingMatches(StateOf(w, s));
    }
  }

  // ---------- cleaning up ----------

  lemma PruneChained(w: World, gone: set<GenKey>)
    requires Chained(w)
    ensures Chained(w.(db := Prune(w.db, gone)))
  {
    var v := w.(db := Prune(w.db, gone));
    forall gen, k | gen in v.db.snapshots && gen !in v.breaks && k in ViewAt(v, gen) ensures LinkedRow(v, gen, k) {
      assert LinkedRow(w, gen, k);
      if HasChange(w.db, gen, k.id) {
        var c :| c in w.db.changes && c.gen == gen && c.id == k.id;
        assert c in v.db.changes;
      }
    }
    forall s | s in v.sessions ensures PendingMatches(StateOf(v, s)) {
      assert PendingMatches(StateOf(w, s));
    }
  }

  lemma CollectChained(w: World)
    requires Chained(w)
    ensures Chained(w.(db := Collect(w.db)))
  {
    var v := w.(db := Collect(w.db));
    SameRows(w, v);
    forall c | c in w.db.changes && c.change.item.hash != NoHash ensures c.change.item.hash in v.db.blobs {
      assert c.change.item.hash in Named(w.db);
    }
    forall s | s in v.sessions ensures PendingMatches(StateOf(v, s)) {
      assert PendingMatches(StateOf(w, s));
    }
  }

  lemma SameRows(w: World, v: World)
    requires Linked(w) && ChangesExact(w) && ViewsHashed(w)
    requires v.db.snapshots == w.db.snapshots && v.db.changes == w.db.changes && v.views == w.views && v.breaks == w.breaks
    ensures Linked(v) && ChangesExact(v) && ViewsHashed(v)
  {
    forall gen, k | gen in v.db.snapshots && gen !in v.breaks && k in ViewAt(v, gen) ensures LinkedRow(v, gen, k) {
      assert LinkedRow(w, gen, k);
    }
  }

  // ---------- every run ----------

  lemma ApplyChained(sid: Paths.ShortId, w: World, e: Event)
    requires Allowed(w, e) && Chained(w) && Regular(w)
    ensures Chained(Apply(sid, w, e))
  {
    match e
    case Open(service, full) => OpenChained(w, service, full);
    case CommitGen(service, _, _, _) =>
      if !Skips(w.sessions[service], service) {
        CommitLinked(w, e);
        CommitExact(w, e);
        CommitHashed(w, e);
      }
    case RetainAll(policy, now, orders) =>
      var gone := Retired(w.db, policy, now, orders);
      PruneChained(w, gone);
      CollectChained(w.(db := Prune(w.db, gone)));
    case CollectBlobs => CollectChained(w);
    case _ => OperateChained(sid, w, e);
  }

  lemma OpenChained(w: World, service: string, full: bool)
    requires Chained(w)
    ensures Chained(Opening(w, service, full))
  {
    var v := Opening(w, service, full);
    SameChain(w, v);
    forall s | s in v.sessions ensures PendingMatches(StateOf(v, s)) {
      if s != service {
        assert PendingMatches(StateOf(w, s));
      }
    }
  }

  lemma AlwaysRegular(sid: Paths.ShortId, es: seq<Event>)
    requires Legal(sid, es) && GraphPuts(es)
    ensures Regular(After(sid, es))
  {
    AlwaysRestorable(sid, es);
    AlwaysCoherent(sid, es);
    AlwaysBounded(sid, es);
  }

  /** Over every run, full jobs, aborted jobs and prunings included. */
  lemma {:induction false} AlwaysChained(sid: Paths.ShortId, es: seq<Event>)
    requires Legal(sid, es) && GraphPuts(es)
    ensures Chained(After(sid, es))
  {
    if es != [] {
      AlwaysChained(sid, es[..|es| - 1]);
      AlwaysRegular(sid, es[..|es| - 1]);
      ApplyChained(sid, After(sid, es[..|es| - 1]), es[|es| - 1]);
      hide Apply;
      hide Chained;
      hide Regular;
    }
  }

  // ---------- which generations restore ----------

  /** Generations `f + 1` to `gen` are all stored and each is linked to the one before. */
  ghost predicate Reaches(w: World, gen: GenKey, f: nat) {
    f <= gen.number && forall n: nat :: f < n <= gen.number ==>
      GenKey(gen.service, n) in w.db.snapshots && GenKey(gen.service, n) !in w.breaks
  }

  /** A change row of one of these generations is about the id. */
  ghost predicate ChangedSince(db: Tables, gen: GenKey, f: nat, id: string) {
    exists n: nat :: f < n <= gen.number && HasChange(db, GenKey(gen.service, n), id)
  }

  /** A row of a generation: the last change row behind it has its content, or it dates from `f`. */
  lemma {:induction false} TraceBack(w: World, gen: GenKey, f: nat, k: Key)
    requires Linked(w) && ChangesExact(w) && Reaches(w, gen, f) && k in ViewAt(w, gen) && k.service == gen.service
    requires f < gen.number
    ensures ChangedSince(w.db, gen, f, k.id) ==>
              exists c <- w.db.changes :: c.change.item.hash == ViewAt(w, gen)[k].hash
    ensures f == 0 ==> ChangedSince(w.db, gen, f, k.id)
    decreases gen.number
  {
    assert GenKey(gen.service, gen.number) == gen && LinkedRow(w, gen, k);
    if HasChange(w.db, gen, k.id) {
      var c :| c in w.db.changes && c.gen == gen && c.id == k.id;
      assert RowExact(ViewAt(w, gen), c);
      assert ChangedSince(w.db, gen, f, k.id);
    } else if gen.number > f + 1 {
      var prev := GenKey(gen.service, gen.number - 1);
      assert Reaches(w, prev, f);
      TraceBack(w, prev, f, k);
      EarlierChange(w.db, gen, prev, f, k.id);
    }
  }

  lemma EarlierChange(db: Tables, gen: GenKey, prev: GenKey, f: nat, id: string)
    requires prev.service == gen.service && prev.number == gen.number - 1 && !HasChange(db, gen, id)
    ensures ChangedSince(db, gen, f, id) <==> ChangedSince(db, prev, f, id)
  {
    assert GenKey(gen.service, gen.number) == gen;
  }

  /** The rows of a generation that no change row since `f` is about still have their content on their item row. */
  ghost predicate OldRowsKept(w: World, gen: GenKey, f: nat) {
    forall k <- ViewAt(w, gen) :: !ChangedSince(w.db, gen, f, k.id) ==>
      k in w.db.items && w.db.items[k].hash == ViewAt(w, gen)[k].hash
  }

  /**
   Over every run: if the generations after `f` up to `gen` are stored and linked, `gen`
   restores in full provided the rows untouched since `f` still have their content on
   their item row, deleted or not. Full jobs, aborted jobs and other services may do
   anything else.
   */
  lemma GenerationRestores(sid: Paths.ShortId, es: seq<Event>, gen: GenKey, f: nat)
    requires Legal(sid, es) && GraphPuts(es)
    requires var w := After(sid, es); gen in w.db.snapshots && Reaches(w, gen, f) && OldRowsKept(w, gen, f)
    ensures RestoresInFull(After(sid, es).db, gen)
  {
    var w := After(sid, es);
    AlwaysChained(sid, es);
    AlwaysRegular(sid, es);
    AlwaysManifests(sid, es);
    hide After;
    forall x | x in w.db.manifests[gen] ensures x.hash in w.db.blobs {
      ViewRowOf(w, gen, x);
      var k :| k in ViewAt(w, gen) && ViewAt(w, gen)[k].hash == x.hash && k.service == gen.service;
      RowContentKept(w, gen, f, k);
    }
  }

  lemma ViewRowOf(w: World, gen: GenKey, x: Entry)
    requires ManifestsOk(w) && ViewsHashed(w) && gen in w.db.manifests && x in w.db.manifests[gen]
    ensures exists k <- ViewAt(w, gen) :: ViewAt(w, gen)[k].hash == x.hash && k.service == gen.service
  {
    var view := w.views[gen];
    assert IsManifest(w.db.manifests[gen], view);
    ManifestRowOf(w.db.manifests[gen], view, x);
  }

  lemma ManifestRowOf(m: seq<Entry>, view: View, x: Entry)
    requires IsManifest(m, view) && x in m
    ensures exists k <- view :: view[k].hash == x.hash
  {
    var rows: seq<Key> :| Enumerates(rows, view.Keys) && m == ManifestOf(view, rows);
    var i :| 0 <= i < |rows| && m[i] == x;
    assert rows[i] in rows && EntryOf(view[rows[i]]).hash == x.hash;
  }

  lemma RowContentKept(w: World, gen: GenKey, f: nat, k: Key)
    requires Chained(w) && Restorable(w.db) && Reaches(w, gen, f) && OldRowsKept(w, gen, f)
    requires k in ViewAt(w, gen) && k.service == gen.service
    ensures ViewAt(w, gen)[k].hash in w.db.blobs
  {
    if ChangedSince(w.db, gen, f, k.id) {
      TraceBack(w, gen, f, k);
      var c :| c in w.db.changes && c.change.item.hash == ViewAt(w, gen)[k].hash;
      assert gen in w.views && w.views[gen][k].hash != NoHash;
    } else {
      assert Backed(w.db.blobs, w.db.items[k]);
    }
  }

  /** In particular a generation linked all the way back to the first one restores whatever became of the item rows. */
  lemma CompleteGenerationsRestore(sid: Paths.ShortId, es: seq<Event>, gen: GenKey)
    requires Legal(sid, es) && GraphPuts(es)
    requires var w := After(sid, es); gen in w.db.snapshots && Reaches(w, gen, 0)
    ensures RestoresInFull(After(sid, es).db, gen)
  {
    var w := After(sid, es);
    AlwaysChained(sid, es);
    AlwaysRegular(sid, es);
    forall k | k in ViewAt(w, gen) ensures ChangedSince(w.db, gen, 0, k.id) {
      assert gen in w.views && k.service == gen.service && 1 <= gen.number;
      TraceBack(w, gen, 0, k);
    }
    GenerationRestores(sid, es, gen, 0);
  }

  // ---------- one retention run, exactly ----------

  /** An item row, or a change row of a generation that stays, names the hash. */
  ghost predicate NamedAfter(db: Tables, gone: set<GenKey>, h: Hash) {
    h != NoHash &&
    ((exists k <- db.items :: db.items[k].hash == h) || (exists c <- db.changes :: c.gen !in gone && c.change.item.hash == h))
  }

  lemma NamedAfterPrune(db: Tables, gone: set<GenKey>, h: Hash)
    ensures h in Named(Prune(db, gone)) <==> NamedAfter(db, gone, h)
  {
    var left := Prune(db, gone);
    if NamedAfter(db, gone, h) && !(exists k <- db.items :: db.items[k].hash == h) {
      var c :| c in db.changes && c.gen !in gone && c.change.item.hash == h;
      assert c in left.changes;
    }
  }

  /**
   A generation that a retention run leaves in place restores in full afterwards
   exactly if it did before and each of its hashes is named by an item row or by a
   change row of a generation that is left in place too.
   */
  lemma RetentionSurvivalIsExact(db: Tables, policy: Policy, now: int, orders: map<string, seq<GenKey>>, gen: GenKey)
    requires Ordered(db, orders) && gen !in Retired(db, policy, now, orders)
    ensures RestoresInFull(Retain(db, policy, now, orders), gen) <==>
            RestoresInFull(db, gen) && forall e <- db.manifests[gen] :: NamedAfter(db, Retired(db, policy, now, orders), e.hash)
  {
    var gone := Retired(db, policy, now, orders);
    SurvivalIsExact(Prune(db, gone), gen);
    forall h ensures h in Named(Prune(db, gone)) <==> NamedAfter(db, gone, h) {
      NamedAfterPrune(db, gone, h);
    }
    hide Named;
    hide NamedAfter;
    hide Retired;
  }

  // ---------- runs that break the wider guarantees ----------

  function Stored(it: Item, data: Bytes): Item {
    it.(hash := Sha256(data), size := |data|, deleted := false)
  }

  /** A job on a store that holds at most one item: it puts that item. */
  function PutJob(sid: Paths.ShortId, db: Tables, full: bool, key: Key, it: Item, data: Bytes): State {
    Put(sid, State(db, Opened(full)), key, it, data)
  }

  ghost predicate OneItemStore(db: Tables, key: Key) {
    db.items.Keys <= {key} && ValidKey(key) && !ImportId(key.id)
  }

  lemma PutJobState(sid: Paths.ShortId, db: Tables, full: bool, key: Key, it: Item, data: Bytes)
    requires OneItemStore(db, key)
    ensures var st := PutJob(sid, db, full, key, it, data);
            && st.db == db.(items := map[key := Stored(it, data)], blobs := PutBlob(db.blobs, data))
            && st.session == Opened(full).(pending := if full then map[] else map[key := Change(Upsert, Stored(it, data))])
            && LiveKeys(st.db, key.service) == {key}
            && Enumerates([key], {key})
  {
    var start := State(db, Opened(full));
    NoAlias(sid, start, key, it);
    PlainPut(sid, start, key, it, data);
    hide Put;
    hide PutBlob;
    assert db.items[key := Stored(it, data)] == map[key := Stored(it, data)];
    var st := PutJob(sid, db, full, key, it, data);
    assert LiveKeys(st.db, key.service) == {key};
  }

  lemma PlainPut(sid: Paths.ShortId, st: State, key: Key, it: Item, data: Bytes)
    requires ValidKey(key) && AliasOf(sid, st, key, it) == None
    ensures Put(sid, st, key, it, data) ==
            State(st.db.(items := st.db.items[key := Stored(it, data)], blobs := PutBlob(st.db.blobs, data)),
                  NotePending(st.session, Upsert, key, Stored(it, data)))
  {
    hide AliasOf;
  }

  /** The same job with its commit. */
  ghost function CommitJob(sid: Paths.ShortId, db: Tables, full: bool, key: Key, it: Item, data: Bytes, uuid: string, now: int): Tables
    requires OneItemStore(db, key)
  {
    PutJobState(sid, db, full, key, it, data);
    Commit(PutJob(sid, db, full, key, it, data), key.service, uuid, now, [key]).db
  }

  lemma OneRowManifest(view: map<Key, Item>, k: Key)
    requires k in view
    ensures ManifestOf(view, [k]) == [EntryOf(view[k])]
  {
    assert [k][..0] == [];
  }

  lemma CommitJobState(sid: Paths.ShortId, db: Tables, full: bool, key: Key, it: Item, data: Bytes, uuid: string, now: int)
    requires OneItemStore(db, key)
    ensures var after, gen := CommitJob(sid, db, full, key, it, data, uuid, now), NextGeneration(db, key.service);
            && OneItemStore(after, key)
            && after.items == map[key := Stored(it, data)]
            && after.snapshots.Keys == db.snapshots.Keys + {gen}
            && after.manifests == db.manifests[gen := [EntryOf(Stored(it, data))]]
            && (forall c <- after.changes :: c in db.changes || (!full && c.change.item == Stored(it, data)))
  {
    hide PutJob;
    hide Commit;
    hide EntryOf;
    hide NextGeneration;
    PutJobState(sid, db, full, key, it, data);
    PutJobPending(sid, db, full, key, it, data);
    CommitOneRow(PutJob(sid, db, full, key, it, data), key, Stored(it, data), uuid, now);
  }

  lemma PutJobPending(sid: Paths.ShortId, db: Tables, full: bool, key: Key, it: Item, data: Bytes)
    requires OneItemStore(db, key)
    ensures var st := PutJob(sid, db, full, key, it, data);
            && !Skips(st.session, key.service) && NextGeneration(st.db, key.service) == NextGeneration(db, key.service)
            && (forall k <- st.session.pending :: st.session.trackChanges && st.session.pending[k].item == Stored(it, data))
  {
    PutJobState(sid, db, full, key, it, data);
    var st := PutJob(sid, db, full, key, it, data);
    hide PutJob;
    assert Generations(st.db, key.service) == Generations(db, key.service);
    assert !full ==> key in PendingOf(st.session, key.service);
  }

  lemma CommitOneRow(st: State, key: Key, row: Item, uuid: string, now: int)
    requires Enumerates([key], LiveKeys(st.db, key.service)) && key in st.db.items && st.db.items[key] == row
    requires !Skips(st.session, key.service)
    requires forall k <- st.session.pending :: st.session.trackChanges && st.session.pending[k].item == row
    ensures var after, gen := Commit(st, key.service, uuid, now, [key]).db, NextGeneration(st.db, key.service);
            && after.items == st.db.items && after.blobs == st.db.blobs
            && after.snapshots.Keys == st.db.snapshots.Keys + {gen}
            && after.manifests == st.db.manifests[gen := [EntryOf(row)]]
            && (forall c <- after.changes :: c in st.db.changes || (st.session.trackChanges && c.change.item == row))
  {
    assert key in [key] && key in LiveKeys(st.db, key.service);
    OneRowManifest(Live(st.db, key.service), key);
    assert forall k <- PendingOf(st.session, key.service) :: k in st.session.pending;
  }

  /**
   A full job, an overwrite by a later job and a blob collection: the first
   generation is still listed, nothing was pruned, and its blob is gone.
   */
  lemma OverwriteAfterFullLosesBlob(sid: Paths.ShortId, key: Key, it: Item, a: Bytes, b: Bytes)
    requires a != b && ValidKey(key) && !ImportId(key.id)
    ensures OneItemStore(CommitJob(sid, EMPTY, true, key, it, a, "u", 1), key)
    ensures var db := CommitJob(sid, CommitJob(sid, EMPTY, true, key, it, a, "u", 1), false, key, it, b, "v", 2);
            && GenKey(key.service, 1) in db.snapshots && RestoresInFull(db, GenKey(key.service, 1))
            && !RestoresInFull(Collect(db), GenKey(key.service, 1))
  {
    FirstGeneration(sid, true, key, it, a);
    var one := CommitJob(sid, EMPTY, true, key, it, a, "u", 1);
    assert GenKey(key.service, 1) in Generations(one, key.service);
    CommitJobState(sid, one, false, key, it, b, "v", 2);
    LostBlob(CommitJob(sid, one, false, key, it, b, "v", 2), key, it, a, b);
  }

  lemma FirstGeneration(sid: Paths.ShortId, full: bool, key: Key, it: Item, data: Bytes)
    requires OneItemStore(EMPTY, key)
    ensures var one := CommitJob(sid, EMPTY, full, key, it, data, "u", 1);
            && OneItemStore(one, key)
            && one.snapshots.Keys == {GenKey(key.service, 1)} && GenKey(key.service, 1) in one.manifests
            && one.manifests[GenKey(key.service, 1)] == [EntryOf(Stored(it, data))]
            && (full ==> one.changes == {})
  {
    var gen := NextGeneration(EMPTY, key.service);
    assert gen == GenKey(key.service, 1) by { assert Generations(EMPTY, key.service) == {}; }
    CommitJobState(sid, EMPTY, full, key, it, data, "u", 1);
    var one := CommitJob(sid, EMPTY, full, key, it, data, "u", 1);
    assert gen in one.snapshots.Keys;
    assert full ==> forall c <- one.changes :: c in EMPTY.changes;
  }

  lemma LostBlob(db: Tables, key: Key, it: Item, a: Bytes, b: Bytes)
    requires a != b
    requires var gen := GenKey(key.service, 1); gen in db.manifests && db.manifests[gen] == [EntryOf(Stored(it, a))]
    requires db.items == map[key := Stored(it, b)]
    requires forall c <- db.changes :: c.change.item == Stored(it, b)
    ensures !RestoresInFull(Collect(db), GenKey(key.service, 1))
  {
    var m := db.manifests[GenKey(key.service, 1)];
    assert m[0].hash == Sha256(a) && m[0] in m;
    assert Sha256(a) !in Named(db);
  }

  /**
   An aborted job drops its pending changes; the next job's commit is skipped
   although the newest manifest no longer is the live view.
   */
  lemma AbortedJobMakesSkipStale(sid: Paths.ShortId, key: Key, it: Item, a: Bytes, b: Bytes)
    requires a != b && ValidKey(key) && !ImportId(key.id)
    ensures var committed := CommitJob(sid, EMPTY, false, key, it, a, "u", 1);
            var aborted := PutJob(sid, committed, false, key, it, b).db;
            && Skips(Opened(false), key.service) && Latest(aborted, key.service) == Some(GenKey(key.service, 1))
            && !SkipNamesLive(aborted, key.service)
  {
    FirstGeneration(sid, false, key, it, a);
    var committed := CommitJob(sid, EMPTY, false, key, it, a, "u", 1);
    PutJobState(sid, committed, false, key, it, b);
    var aborted := PutJob(sid, committed, false, key, it, b).db;
    hide CommitJob;
    hide PutJob;
    hide EntryOf;
    assert Generations(aborted, key.service) == {GenKey(key.service, 1)};
    StaleManifest(Live(aborted, key.service), key, aborted.manifests[GenKey(key.service, 1)], it, a, b);
  }

  lemma StaleManifest(view: map<Key, Item>, key: Key, m: seq<Entry>, it: Item, a: Bytes, b: Bytes)
    requires a != b && m == [EntryOf(Stored(it, a))] && view.Keys == {key} && view[key] == Stored(it, b)
    ensures !IsManifest(m, view)
  {
    forall rows: seq<Key> | Enumerates(rows, view.Keys) ensures m != ManifestOf(view, rows) {
      assert key in view.Keys && key in rows;
      assert rows[0] in rows;
      assert ManifestOf(view, rows)[0].hash == Sha256(b) && m[0].hash == Sha256(a);
    }
  }

  /**
   Between the blob write and the row writes of a put, a rename of an imported row
   included, another job may collect: every row is then backed exactly if some row
   already named the new hash.
   */
  lemma PutAcrossCollect(sid: Paths.ShortId, st: State, key: Key, it: Item, data: Bytes)
    requires Restorable(st.db) && ValidKey(key)
    ensures var mid := Collect(st.db.(blobs := PutBlob(st.db.blobs, data)));
            var after := mid.(items := Put(sid, State(mid, st.session), key, it, data).db.items);
            RowsBacked(after) <==> Sha256(data) in Named(st.db)
  {
    var wide := st.db.(blobs := PutBlob(st.db.blobs, data));
    var mid := Collect(wide);
    assert Named(wide) == Named(st.db);
    assert Restorable(wide);
    CollectRestorable(wide);
    assert Sha256(data) in mid.blobs <==> Sha256(data) in Named(st.db);
    PutRowsFrom(sid, State(mid, st.session), key, it, data);
    RowsBackedIff(mid, Put(sid, State(mid, st.session), key, it, data).db.items, key, data);
  }

  /** A put leaves its own row with the new content; every other row was there before. */
  lemma PutRowsFrom(sid: Paths.ShortId, st: State, key: Key, it: Item, data: Bytes)
    requires ValidKey(key)
    ensures var items := Put(sid, st, key, it, data).db.items;
            && key in items && items[key].hash == Sha256(data) && items[key].size == |data|
            && forall k <- items :: k != key ==> k in st.db.items && items[k] == st.db.items[k]
  {
    hide Aliases;
  }

  lemma RowsBackedIff(db: Tables, items: map<Key, Item>, key: Key, data: Bytes)
    requires Restorable(db) && key in items && items[key].hash == Sha256(data) && items[key].size == |data|
    requires forall k <- items :: k != key ==> k in db.items && items[k] == db.items[k]
    ensures RowsBacked(db.(items := items)) <==> Sha256(data) in db.blobs
  {
    var after := db.(items := items);
    if Sha256(data) in db.blobs {
      forall k | k in items ensures Backed(after.blobs, items[k]) {
        if k != key {
          assert Backed(db.blobs, db.items[k]);
        }
      }
    } else {
      assert !Backed(after.blobs, items[key]);
    }
  }
}
