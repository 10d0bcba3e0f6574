/**
 Whole runs of the catalog: any number of jobs of any services, interleaved
 operation by operation, with commits, retention and blob collections between
 them.
 */
module CatalogRuns {
  import opened Tables
  import opened SmartRecycle
  import opened Catalog
  import Paths

  type Changes = map<Key, Change>

  /**
   The store and the open session of each service, with five history variables:
   the live view each generation was committed with, the last generation number
   issued, the changes of the open session since its last commit, tracked or not,
   the uncommitted changes of earlier sessions, and the generations whose change
   rows do not lead from the generation before.
   */
  datatype World = World(
    db: Tables,
    sessions: map<string, Session>,
    views: map<GenKey, View>,
    lastGen: map<string, nat>,
    log: map<string, Changes>,
    dropped: map<string, Changes>,
    breaks: set<GenKey>)

  const START := World(EMPTY, map[], map[], map[], map[], map[], {})

  datatype Event =
    | Open(service: string, full: bool)
    | PutItem(key: Key, it: Item, data: Bytes)
    | RefreshItem(key: Key, mailbox: string, parent: string, name: string, subject: string)
    | DeleteItem(key: Key)
    | DeleteUnder(service: string, mailbox: string, rel: string)
    | BeginReconcile(service: string)
    | EndReconcile(service: string)
    | CommitGen(service: string, uuid: string, now: int, rows: seq<Key>)
    | RetainAll(policy: Policy, now: int, orders: map<string, seq<GenKey>>)
    | CollectBlobs

  function Last(w: World, service: string): nat {
    if service in w.lastGen then w.lastGen[service] else 0
  }

  function ViewAt(w: World, gen: GenKey): View {
    if gen in w.views then w.views[gen] else map[]
  }

  /** The live view at the last commit of a service. */
  function Base(w: World, service: string): View {
    if Last(w, service) == 0 then map[] else ViewAt(w, GenKey(service, Last(w, service)))
  }

  function Log(w: World, service: string): Changes {
    if service in w.log then w.log[service] else map[]
  }

  function Dropped(w: World, service: string): Changes {
    if service in w.dropped then w.dropped[service] else map[]
  }

  function StateOf(w: World, service: string): State
    requires service in w.sessions
  {
    State(w.db, w.sessions[service])
  }

  /** The service whose session carries out an event, if one does. */
  function Actor(e: Event): Option<string> {
    match e
    case PutItem(key, _, _) => Some(key.service)
    case RefreshItem(key, _, _, _, _) => Some(key.service)
    case DeleteItem(key) => Some(key.service)
    case DeleteUnder(service, _, _) => Some(service)
    case BeginReconcile(service) => Some(service)
    case EndReconcile(service) => Some(service)
    case CommitGen(service, _, _, _) => Some(service)
    case _ => None
  }

  predicate IsOp(e: Event) {
    Actor(e).Some? && !e.CommitGen?
  }

  /** Operations need an open session; result sets and fresh ids are what the database yields. */
  ghost predicate Allowed(w: World, e: Event) {
    && (Actor(e).Some? ==> Actor(e).value in w.sessions)
    && (e.CommitGen? ==> && Enumerates(e.rows, LiveKeys(w.db, e.service))
                         && forall g <- w.db.snapshots :: w.db.snapshots[g].id != e.uuid)
    && (e.RetainAll? ==> Ordered(w.db, e.orders))
  }

  /** A catalog operation in the acting session. */
  function Act(sid: Paths.ShortId, st: State, e: Event): State
    requires IsOp(e)
  {
    match e
    case PutItem(key, it, data) => Put(sid, st, key, it, data)
    case RefreshItem(key, mailbox, parent, name, subject) => Refresh(st, key, mailbox, parent, name, subject)
    case DeleteItem(key) => Delete(sid, st, key)
    case DeleteUnder(service, mailbox, rel) => DeletePrefix(st, service, mailbox, rel)
    case BeginReconcile(service) => StartReconcile(st, service)
    case EndReconcile(service) => FinishReconcile(st, service)
  }

  /** The session as it would be had it tracked its changes since the last commit. */
  function Shadow(w: World, service: string): State
    requires service in w.sessions
  {
    State(w.db, w.sessions[service].(pending := Log(w, service), trackChanges := true))
  }

  function Operate(sid: Paths.ShortId, w: World, e: Event): World
    requires IsOp(e) && Actor(e).value in w.sessions
  {
    var s := Actor(e).value;
    var end := Act(sid, StateOf(w, s), e);
    w.(db := end.db, sessions := w.sessions[s := end.session],
       log := w.log[s := Act(sid, Shadow(w, s), e).session.pending])
  }

  /** Opening a session forgets what the last one changed and did not commit. */
  function Opening(w: World, service: string, full: bool): World {
    w.(sessions := w.sessions[service := Opened(full)], log := w.log[service := map[]],
       dropped := w.dropped[service := Dropped(w, service) + Log(w, service)])
  }

  ghost function Committing(w: World, e: Event): World
    requires e.CommitGen? && Allowed(w, e)
  {
    var s := e.service;
    var end := Commit(StateOf(w, s), s, e.uuid, e.now, e.rows);
    if Skips(w.sessions[s], s) then w
    else
      var gen := NextGeneration(w.db, s);
      w.(db := end.db, sessions := w.sessions[s := end.session], views := w.views[gen := Live(w.db, s)],
         lastGen := w.lastGen[s := gen.number], log := w.log[s := map[]], dropped := w.dropped[s := map[]],
         breaks := if w.sessions[s].trackChanges && Dropped(w, s) == map[] && gen.number == Last(w, s) + 1
                   then w.breaks - {gen} else w.breaks + {gen})
  }

  ghost function Apply(sid: Paths.ShortId, w: World, e: Event): World
    requires Allowed(w, e)
  {
    match e
    case Open(service, full) => Opening(w, service, full)
    case CommitGen(_, _, _, _) => Committing(w, e)
    case RetainAll(policy, now, orders) => w.(db := Retain(w.db, policy, now, orders))
    case CollectBlobs => w.(db := Collect(w.db))
    case _ => Operate(sid, w, e)
  }

  ghost predicate Legal(sid: Paths.ShortId, es: seq<Event>)
    decreases |es|, 0
  {
    es == [] || (Legal(sid, es[..|es| - 1]) && Allowed(After(sid, es[..|es| - 1]), es[|es| - 1]))
  }

  /** The world after a legal run from the empty store. */
  ghost function After(sid: Paths.ShortId, es: seq<Event>): World
    requires Legal(sid, es)
    decreases |es|, 1
  {
    if es == [] then START else Apply(sid, After(sid, es[..|es| - 1]), es[|es| - 1])
  }

  lemma {:induction false} LegalPrefix(sid: Paths.ShortId, es: seq<Event>, i: nat)
    requires Legal(sid, es) && i <= |es|
    ensures Legal(sid, es[..i])
    decreases |es|
  {
    if i == |es| {
      assert es[..i] == es;
    } else {
      LegalPrefix(sid, es[..|es| - 1], i);
      assert es[..|es| - 1][..i] == es[..i];
    }
  }

  /** The world before event `i` of a run. */
  ghost function Before(sid: Paths.ShortId, es: seq<Event>, i: nat): World
    requires Legal(sid, es) && i <= |es|
  {
    LegalPrefix(sid, es, i);
    After(sid, es[..i])
  }

  lemma BeforeNext(sid: Paths.ShortId, es: seq<Event>, i: nat)
    requires Legal(sid, es) && i < |es|
    ensures Allowed(Before(sid, es, i), es[i])
    ensures Before(sid, es, i + 1) == Apply(sid, Before(sid, es, i), es[i])
  {
    LegalPrefix(sid, es, i + 1);
    var upTo := es[..i + 1];
    assert |upTo| - 1 == i && upTo[..i] == es[..i] && upTo[i] == es[i];
    hide Apply;
    hide Allowed;
  }

  lemma BeforeStart(sid: Paths.ShortId, es: seq<Event>)
    requires Legal(sid, es)
    ensures Before(sid, es, 0) == START && Before(sid, es, |es|) == After(sid, es)
  {
    assert es[..0] == [] && es[..|es|] == es;
  }

  /** One more event. */
  lemma Extended(sid: Paths.ShortId, es: seq<Event>, e: Event)
    requires Legal(sid, es) && Allowed(After(sid, es), e)
    ensures Legal(sid, es + [e]) && After(sid, es + [e]) == Apply(sid, After(sid, es), e)
  {
    assert (es + [e])[..|es|] == es;
    hide Apply;
    hide Allowed;
  }

  /** Only commits and retention touch generations. */
  lemma ActKeepsGenerations(sid: Paths.ShortId, st: State, e: Event)
    requires IsOp(e)
    ensures var end := Act(sid, st, e);
            && end.db.snapshots == st.db.snapshots && end.db.manifests == st.db.manifests
            && end.db.changes == st.db.changes && end.session.trackChanges == st.session.trackChanges
            && end.session.skipRematch == st.session.skipRematch
  {
    hide AliasOf;
    hide Renamed;
    hide Filled;
  }

  // ---------- live restorability ----------

  lemma ActRestorable(sid: Paths.ShortId, st: State, e: Event)
    requires IsOp(e) && Restorable(st.db)
    ensures Restorable(Act(sid, st, e).db)
  {
    hide Restorable;
    match e
    case PutItem(key, it, data) => PutRestorable(sid, st, key, it, data);
    case RefreshItem(key, mailbox, parent, name, subject) => RefreshRestorable(st, key, mailbox, parent, name, subject);
    case DeleteItem(key) => DeleteRestorable(sid, st, key);
    case DeleteUnder(service, mailbox, rel) => DeleteAllRestorable(st, PrefixKeys(st.db, service, mailbox, rel));
    case BeginReconcile(service) =>
    case EndReconcile(service) => DeleteAllRestorable(st, GoneKeys(st, service));
  }

  lemma ApplyRestorable(sid: Paths.ShortId, w: World, e: Event)
    requires Allowed(w, e) && Restorable(w.db)
    ensures Restorable(Apply(sid, w, e).db)
  {
    match e
    case Open(_, _) =>
    case CommitGen(_, _, _, _) =>
    case RetainAll(policy, now, orders) =>
      var pruned := Prune(w.db, Retired(w.db, policy, now, orders));
      assert Restorable(pruned);
      CollectRestorable(pruned);
    case CollectBlobs => CollectRestorable(w.db);
    case _ => ActRestorable(sid, StateOf(w, Actor(e).value), e);
  }

  /** In every reachable state every row's content exists, has the recorded hash and the recorded size. */
  lemma {:induction false} AlwaysRestorable(sid: Paths.ShortId, es: seq<Event>)
    requires Legal(sid, es)
    ensures Restorable(After(sid, es).db)
  {
    if es != [] {
      AlwaysRestorable(sid, es[..|es| - 1]);
      ApplyRestorable(sid, After(sid, es[..|es| - 1]), es[|es| - 1]);
      hide Apply;
      hide Restorable;
    }
  }

  /** The content of the last put under a key. */
  function LastPut(es: seq<Event>, key: Key): Option<Bytes> {
    if es == [] then None
    else
      var e := es[|es| - 1];
      if e.PutItem? && e.key == key && ValidKey(key) then Some(e.data) else LastPut(es[..|es| - 1], key)
  }

  /** A live row's stored content is exactly what was last put under its key. */
  lemma LiveContentIsLastPut(sid: Paths.ShortId, es: seq<Event>, key: Key)
    requires Legal(sid, es) && IsLive(After(sid, es).db, key)
    ensures var db := After(sid, es).db;
            && LastPut(es, key).Some?
            && db.items[key].hash in db.blobs
            && db.blobs[db.items[key].hash] == LastPut(es, key).value
  {
    LiveHashIsLastPut(sid, es, key);
    AlwaysRestorable(sid, es);
    var db := After(sid, es).db;
    hide After;
    assert Backed(db.blobs, db.items[key]);
    assert db.items[key].hash == Sha256(db.blobs[db.items[key].hash]);
  }

  lemma {:induction false} LiveHashIsLastPut(sid: Paths.ShortId, es: seq<Event>, key: Key)
    requires Legal(sid, es) && IsLive(After(sid, es).db, key)
    ensures LastPut(es, key).Some? && After(sid, es).db.items[key].hash == Sha256(LastPut(es, key).value)
  {
    assert es != [];
    var w, e := After(sid, es[..|es| - 1]), es[|es| - 1];
    HashChangesOnlyByPut(sid, w, e, key);
    hide Apply;
    if !(e.PutItem? && e.key == key && ValidKey(key)) {
      LiveHashIsLastPut(sid, es[..|es| - 1], key);
    }
  }

  lemma ActHash(sid: Paths.ShortId, st: State, e: Event, key: Key)
    requires IsOp(e) && IsLive(Act(sid, st, e).db, key)
    ensures if e.PutItem? && e.key == key && ValidKey(key) then Act(sid, st, e).db.items[key].hash == Sha256(e.data)
            else IsLive(st.db, key) && Act(sid, st, e).db.items[key].hash == st.db.items[key].hash
  {
  }

  lemma HashChangesOnlyByPut(sid: Paths.ShortId, w: World, e: Event, key: Key)
    requires Allowed(w, e) && IsLive(Apply(sid, w, e).db, key)
    ensures if e.PutItem? && e.key == key && ValidKey(key) then Apply(sid, w, e).db.items[key].hash == Sha256(e.data)
            else IsLive(w.db, key) && Apply(sid, w, e).db.items[key].hash == w.db.items[key].hash
  {
    if IsOp(e) {
      ActHash(sid, StateOf(w, Actor(e).value), e, key);
      hide Act;
    }
  }
}
