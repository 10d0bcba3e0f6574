/**
 Retention on the catalog: per service, idempotent, and the run in which it makes a
 generation number be issued twice.
 */
module CatalogRetention {
  import opened SmartRecycle
  import opened Tables
  import opened CatalogRuns
  import opened CatalogNumbers
  import opened CatalogViews
  import Paths

  /**
   Without the clock hypothesis: the latest generation survives every policy
   exactly if it is also the newest by creation time.
   */
  lemma LatestSurvivesIffNewest(db: Tables, orders: map<string, seq<GenKey>>, latest: GenKey)
    requires UniqueIds(db) && Ordered(db, orders) && latest in db.snapshots
    ensures (forall policy: Policy, now: int :: latest !in Retired(db, policy, now, orders)) <==>
            orders[latest.service] != [] && orders[latest.service][0] == latest
  {
    var order := orders[latest.service];
    assert latest in Generations(db, latest.service) && latest in order;
    var infos := Infos(db, order);
    if order[0] == latest {
      forall policy: Policy, now: int ensures latest !in Retired(db, policy, now, orders) {
        NewestIsKept(infos, policy, now);
      }
    } else {
      assert order[0] in order && infos[0].id != db.snapshots[latest].id;
      assert latest in Retired(db, STRICT, 0, orders);
    }
  }

  /** Keeps nothing but the newest snapshot. */
  const STRICT := Policy(false, 0, 0, 0, 0, 0, 1)

  // ---------- twice ----------

  function InfoOf(sn: Snapshot): SnapshotInfo {
    SnapshotInfo(sn.id, sn.createdAt)
  }

  lemma InfosMembers(db: Tables, gens: seq<GenKey>, x: SnapshotInfo)
    requires forall g <- gens :: g in db.snapshots
    ensures x in Infos(db, gens) <==> exists g <- gens :: x == InfoOf(db.snapshots[g])
  {
    var infos := Infos(db, gens);
    if x in infos {
      var i :| 0 <= i < |infos| && infos[i] == x;
      assert gens[i] in gens;
    }
    if exists g <- gens :: x == InfoOf(db.snapshots[g]) {
      var g :| g in gens && x == InfoOf(db.snapshots[g]);
      var i :| 0 <= i < |gens| && gens[i] == g;
      assert infos[i] == x;
    }
  }

  lemma DistinctInfos(db: Tables, gens: seq<GenKey>, keys: set<GenKey>)
    requires UniqueIds(db) && Enumerates(gens, keys) && forall g <- gens :: g in db.snapshots
    ensures DistinctIds(Infos(db, gens))
  {
    forall i, j | 0 <= i < j < |gens| ensures Infos(db, gens)[i].id != Infos(db, gens)[j].id {
      assert gens[i] in gens && gens[j] in gens;
    }
  }

  /** After a retention run, any new list of a service holds exactly what was kept. */
  lemma SurvivorsRelisted(db: Tables, left: Tables, policy: Policy, now: int, orders: map<string, seq<GenKey>>,
                          again: map<string, seq<GenKey>>, s: string)
    requires UniqueIds(db) && Ordered(db, orders) && left == Retain(db, policy, now, orders) && Ordered(left, again)
    requires s in orders && s in again
    ensures Relists(Infos(left, again[s]), Infos(db, orders[s]), ScanKept(Infos(db, orders[s]), Normalize(policy), now))
  {
    var keep := ScanKept(Infos(db, orders[s]), Normalize(policy), now);
    hide ScanKept;
    assert UniqueIds(left);
    DistinctInfos(left, again[s], Generations(left, s));
    forall x ensures x in Infos(left, again[s]) <==> x in Infos(db, orders[s]) && x.id in keep {
      InfosMembers(left, again[s], x);
      InfosMembers(db, orders[s], x);
      SameMember(db, left, policy, now, orders, again, s, x);
      hide Infos;
    }
  }

  lemma SameMember(db: Tables, left: Tables, policy: Policy, now: int, orders: map<string, seq<GenKey>>,
                   again: map<string, seq<GenKey>>, s: string, x: SnapshotInfo)
    requires Ordered(db, orders) && left == Retain(db, policy, now, orders) && Ordered(left, again)
    requires s in orders && s in again
    ensures (exists g <- again[s] :: x == InfoOf(left.snapshots[g])) <==>
            (exists g <- orders[s] :: x == InfoOf(db.snapshots[g])) &&
            x.id in ScanKept(Infos(db, orders[s]), Normalize(policy), now)
  {
    hide ScanKept;
    hide Infos;
    if exists g <- again[s] :: x == InfoOf(left.snapshots[g]) {
      var g :| g in again[s] && x == InfoOf(left.snapshots[g]);
      assert g in Generations(left, s);
      assert g in db.snapshots && g in Generations(db, s) && g in orders[s];
    }
    if exists g <- orders[s] :: x == InfoOf(db.snapshots[g]) {
      var g :| g in orders[s] && x == InfoOf(db.snapshots[g]);
      assert g in Generations(db, s);
      if x.id in ScanKept(Infos(db, orders[s]), Normalize(policy), now) {
        assert g in left.snapshots && g in Generations(left, s) && g in again[s];
      }
    }
  }

  /**
   Applying the same policy again at the same time retires nothing, in whatever order
   the second run lists snapshots of the same age.
   */
  lemma RetentionIsIdempotent(db: Tables, policy: Policy, now: int, orders: map<string, seq<GenKey>>, again: map<string, seq<GenKey>>)
    requires UniqueIds(db) && Ordered(db, orders) && Ordered(Retain(db, policy, now, orders), again)
    ensures Retired(Retain(db, policy, now, orders), policy, now, again) == {}
  {
    var left := Retain(db, policy, now, orders);
    forall g | g in left.snapshots
      ensures left.snapshots[g].id in ScanKept(Infos(left, again[g.service]), Normalize(policy), now)
    {
      var order := again[g.service];
      assert g in db.snapshots && g in Generations(left, g.service) && g in order;
      var i :| 0 <= i < |order| && order[i] == g;
      DistinctInfos(db, orders[g.service], Generations(db, g.service));
      SurvivorsRelisted(db, left, policy, now, orders, again, g.service);
      KeepIsIdempotent(Infos(db, orders[g.service]), Infos(left, order), policy, now, i);
    }
  }

  /** What retention does to a service depends on the snapshots of that service alone. */
  lemma RetentionIsPerService(a: Tables, b: Tables, policy: Policy, now: int,
                              oa: map<string, seq<GenKey>>, ob: map<string, seq<GenKey>>, g: GenKey)
    requires Ordered(a, oa) && Ordered(b, ob) && g in a.snapshots && g in b.snapshots
    requires oa[g.service] == ob[g.service]
    requires forall h :: h in a.snapshots && h in b.snapshots && h.service == g.service ==> a.snapshots[h] == b.snapshots[h]
    ensures g in Retired(a, policy, now, oa) <==> g in Retired(b, policy, now, ob)
  {
    var order := oa[g.service];
    forall i | 0 <= i < |order| ensures Infos(a, order)[i] == Infos(b, order)[i] {
      assert order[i] in order && order[i] in Generations(a, g.service) && order[i] in Generations(b, g.service);
    }
    assert Infos(a, order) == Infos(b, order);
  }

  // ---------- a number issued twice ----------

  /** An empty catalog with a full job open and these generations. */
  ghost predicate Bare(w: World, s: string, snaps: map<GenKey, Snapshot>) {
    w.db.items == map[] && w.db.snapshots == snaps && s in w.sessions && w.sessions[s] == Opened(true)
  }

  lemma NextOf(db: Tables, s: string, n: nat)
    requires (forall g <- Generations(db, s) :: g.number <= n) && (n == 0 || GenKey(s, n) in db.snapshots)
    ensures NextGeneration(db, s) == GenKey(s, n + 1)
  {
    assert n > 0 ==> GenKey(s, n) in Generations(db, s);
  }

  lemma BareCommit(sid: Paths.ShortId, w: World, s: string, snaps: map<GenKey, Snapshot>, uuid: string, now: int, n: nat)
    requires Bare(w, s, snaps) && (forall g <- snaps :: snaps[g].id != uuid)
    requires (forall g <- snaps :: g.number <= n) && (n == 0 || GenKey(s, n) in snaps)
    ensures var e := CommitGen(s, uuid, now, []);
            && Allowed(w, e) && Issues(w, e, s) == n + 1
            && Bare(Apply(sid, w, e), s, snaps[GenKey(s, n + 1) := Snapshot(uuid, now, 0, 0)])
  {
    var e := CommitGen(s, uuid, now, []);
    assert LiveKeys(w.db, s) == {} && Enumerates<Key>([], {});
    NextOf(w.db, s, n);
    assert PendingOf(w.sessions[s], s) == map[];
    var v := Committing(w, e);
    assert v.db.snapshots == snaps[GenKey(s, n + 1) := Snapshot(uuid, now, 0, 0)];
    assert v.sessions[s].pending == map[];
  }

  /** Two generations, the first one created later. */
  function TwoGens(s: string, a: int, b: int): map<GenKey, Snapshot> {
    map[GenKey(s, 1) := Snapshot("a", a, 0, 0), GenKey(s, 2) := Snapshot("b", b, 0, 0)]
  }

  lemma BareRetain(sid: Paths.ShortId, w: World, s: string, a: int, b: int)
    requires Bare(w, s, TwoGens(s, a, b)) && a > b
    ensures var e := RetainAll(STRICT, a, map[s := [GenKey(s, 1), GenKey(s, 2)]]);
            Allowed(w, e) && Bare(Apply(sid, w, e), s, map[GenKey(s, 1) := Snapshot("a", a, 0, 0)])
  {
    TwoOrdered(w.db, s, a, b);
    TwoRetired(w.db, s, a, b);
    var gone := Retired(w.db, STRICT, a, map[s := [GenKey(s, 1), GenKey(s, 2)]]);
    hide Retired;
    assert w.db.snapshots - gone == map[GenKey(s, 1) := Snapshot("a", a, 0, 0)];
  }

  /** These are the stored generations, whatever they count and sum. */
  predicate AreTwo(snaps: map<GenKey, Snapshot>, s: string, a: int, b: int) {
    && snaps.Keys == {GenKey(s, 1), GenKey(s, 2)}
    && InfoOf(snaps[GenKey(s, 1)]) == SnapshotInfo("a", a) && InfoOf(snaps[GenKey(s, 2)]) == SnapshotInfo("b", b)
  }

  lemma TwoOrdered(db: Tables, s: string, a: int, b: int)
    requires AreTwo(db.snapshots, s, a, b) && a > b
    ensures Ordered(db, map[s := [GenKey(s, 1), GenKey(s, 2)]])
  {
    var order := [GenKey(s, 1), GenKey(s, 2)];
    assert Infos(db, order)[0] == SnapshotInfo("a", a) && Infos(db, order)[1] == SnapshotInfo("b", b);
    assert Enumerates(order, Generations(db, s)) && NewestFirst(Infos(db, order));
  }

  /** Only the newer one is kept. */
  lemma OnlyHeadKept(infos: seq<SnapshotInfo>, now: int)
    requires |infos| == 2
    ensures ScanKept(infos, STRICT, now) == {infos[0].id}
  {
    hide FirstInWindow;
    hide InHours;
    assert ScanKeeps(infos, STRICT, now, 0) && !ScanKeeps(infos, STRICT, now, 1);
  }

  lemma TwoRetired(db: Tables, s: string, a: int, b: int)
    requires AreTwo(db.snapshots, s, a, b) && Ordered(db, map[s := [GenKey(s, 1), GenKey(s, 2)]])
    ensures Retired(db, STRICT, a, map[s := [GenKey(s, 1), GenKey(s, 2)]]) == {GenKey(s, 2)}
  {
    var order := [GenKey(s, 1), GenKey(s, 2)];
    OnlyHeadKept(Infos(db, order), a);
    hide ScanKept;
    assert Normalize(STRICT) == STRICT && Infos(db, order)[0].id == "a";
  }

  /** A full job commits twice while the clock goes back. */
  function BackRun(s: string, a: int, b: int): seq<Event> {
    [Open(s, true)] + [CommitGen(s, "a", a, [])] + [CommitGen(s, "b", b, [])]
  }

  /** The same, then a retention run and a third commit. */
  function ReuseRun(s: string, a: int, b: int, c: int): seq<Event> {
    BackRun(s, a, b) + [RetainAll(STRICT, a, map[s := [GenKey(s, 1), GenKey(s, 2)]])] + [CommitGen(s, "c", c, [])]
  }

  lemma BareOpen(sid: Paths.ShortId, s: string)
    ensures Legal(sid, [Open(s, true)]) && Bare(After(sid, [Open(s, true)]), s, map[])
  {
    Extended(sid, [], Open(s, true));
    assert [] + [Open(s, true)] == [Open(s, true)];
  }

  /** The last event of an extended run issues what it issues in the world before it. */
  lemma IssuedLast(sid: Paths.ShortId, es: seq<Event>, e: Event, more: seq<Event>, s: string)
    requires Legal(sid, es + [e] + more) && Legal(sid, es) && Allowed(After(sid, es), e)
    ensures Issued(sid, es + [e] + more, |es|, s) == Issues(After(sid, es), e, s)
  {
    var all := es + [e] + more;
    assert all[..|es|] == es && all[|es|] == e;
    hide Issues;
    hide After;
    hide Legal;
    hide Allowed;
  }

  lemma BackRunState(sid: Paths.ShortId, s: string, a: int, b: int)
    ensures var first := [Open(s, true)] + [CommitGen(s, "a", a, [])];
            && Legal(sid, first) && Legal(sid, BackRun(s, a, b)) && Bare(After(sid, BackRun(s, a, b)), s, TwoGens(s, a, b))
            && Allowed(After(sid, first), CommitGen(s, "b", b, [])) && Issues(After(sid, first), CommitGen(s, "b", b, []), s) == 2
  {
    hide Legal;
    hide After;
    hide Apply;
    hide Allowed;
    hide Bare;
    hide Issues;
    var one := map[GenKey(s, 1) := Snapshot("a", a, 0, 0)];
    BareOpen(sid, s);
    BareCommit(sid, After(sid, [Open(s, true)]), s, map[], "a", a, 0);
    Extended(sid, [Open(s, true)], CommitGen(s, "a", a, []));
    var first := [Open(s, true)] + [CommitGen(s, "a", a, [])];
    BareCommit(sid, After(sid, first), s, one, "b", b, 1);
    Extended(sid, first, CommitGen(s, "b", b, []));
    assert one[GenKey(s, 2) := Snapshot("b", b, 0, 0)] == TwoGens(s, a, b);
  }

  /** For every service: such a run is possible, and its second and third commit issue the same number. */
  lemma NumberIssuedTwice(sid: Paths.ShortId, s: string, a: int, b: int, c: int)
    requires a > b
    ensures var es := ReuseRun(s, a, b, c);
            Legal(sid, es) && |es| == 5 && Issued(sid, es, 2, s) == 2 && Issued(sid, es, 4, s) == 2
  {
    hide Legal;
    hide After;
    hide Apply;
    hide Allowed;
    hide Bare;
    hide Issues;
    hide Issued;
    var back, es := BackRun(s, a, b), ReuseRun(s, a, b, c);
    var retain, last := RetainAll(STRICT, a, map[s := [GenKey(s, 1), GenKey(s, 2)]]), CommitGen(s, "c", c, []);
    BackRunState(sid, s, a, b);
    BareRetain(sid, After(sid, back), s, a, b);
    Extended(sid, back, retain);
    BareCommit(sid, After(sid, back + [retain]), s, map[GenKey(s, 1) := Snapshot("a", a, 0, 0)], "c", c, 1);
    Extended(sid, back + [retain], last);
    var first, second := [Open(s, true)] + [CommitGen(s, "a", a, [])], CommitGen(s, "b", b, []);
    assert es == first + [second] + [retain, last];
    IssuedLast(sid, first, second, [retain, last], s);
    assert es == back + [retain] + [last] + [];
    IssuedLast(sid, back + [retain], last, [], s);
  }

  // ---------- a skip that names a stale generation ----------

  /** A full job of the service is open, with these rows, snapshots and manifests, nothing dropped. */
  ghost predicate Full(w: World, s: string, items: map<Key, Item>, snaps: map<GenKey, Snapshot>, manifests: map<GenKey, seq<Entry>>) {
    && w.db.items == items && w.db.snapshots == snaps && w.db.manifests == manifests
    && s in w.sessions && w.sessions[s] == Opened(true) && Dropped(w, s) == map[]
  }

  lemma FullOpens(sid: Paths.ShortId, s: string)
    ensures Legal(sid, [Open(s, true)]) && Full(After(sid, [Open(s, true)]), s, map[], map[], map[])
  {
    Extended(sid, [], Open(s, true));
    assert [] + [Open(s, true)] == [Open(s, true)];
  }

  /** A commit of the full job adds a generation with exactly the live rows, and leaves nothing uncommitted. */
  lemma FullCommits(sid: Paths.ShortId, w: World, s: string, items: map<Key, Item>, snaps: map<GenKey, Snapshot>,
                    manifests: map<GenKey, seq<Entry>>, e: Event, n: nat)
    requires Full(w, s, items, snaps, manifests) && e.CommitGen? && e.service == s
    requires Enumerates(e.rows, LiveKeys(w.db, s)) && (forall g <- snaps :: snaps[g].id != e.uuid)
    requires (forall g <- snaps :: g.number <= n) && (n == 0 || GenKey(s, n) in snaps)
    ensures Allowed(w, e)
    ensures var v, g := Apply(sid, w, e), GenKey(s, n + 1);
            && Log(v, s) == map[]
            && Full(v, s, items, snaps[g := Snapshot(e.uuid, e.now, |e.rows|, SizeSum(Live(w.db, s), e.rows))],
                    manifests[g := ManifestOf(Live(w.db, s), e.rows)])
  {
    NextOf(w.db, s, n);
    assert PendingOf(w.sessions[s], s) == map[];
    hide NextGeneration;
    hide EntryOf;
    var v := Committing(w, e);
    assert v.sessions[s].pending == map[];
  }

  lemma FullPuts(sid: Paths.ShortId, w: World, snaps: map<GenKey, Snapshot>, manifests: map<GenKey, seq<Entry>>,
                 key: Key, it: Item, data: Bytes)
    requires Full(w, key.service, map[], snaps, manifests) && ValidKey(key)
    ensures var e := PutItem(key, it, data);
            Allowed(w, e) && Full(Apply(sid, w, e), key.service, map[key := Written(it, data)], snaps, manifests)
  {
    var st := StateOf(w, key.service);
    assert AliasOf(sid, st, key, it) == None;
    hide Aliases;
  }

  function Written(it: Item, data: Bytes): Item {
    it.(hash := Sha256(data), size := |data|, deleted := false)
  }

  /** The retention run that keeps only the first of two generations, and an incremental job after it. */
  lemma FullRetains(sid: Paths.ShortId, w: World, s: string, items: map<Key, Item>, snaps: map<GenKey, Snapshot>,
                    manifests: map<GenKey, seq<Entry>>, a: int, b: int)
    requires Full(w, s, items, snaps, manifests) && AreTwo(snaps, s, a, b) && a > b && Log(w, s) == map[]
    ensures var e := RetainAll(STRICT, a, map[s := [GenKey(s, 1), GenKey(s, 2)]]);
            && Allowed(w, e)
            && var v := Apply(sid, w, e);
               Full(v, s, items, snaps - {GenKey(s, 2)}, manifests - {GenKey(s, 2)}) && Log(v, s) == map[]
  {
    TwoOrdered(w.db, s, a, b);
    TwoRetired(w.db, s, a, b);
    hide Retired;
  }

  function PruneRun(key: Key, it: Item, data: Bytes, a: int, b: int): seq<Event> {
    var s := key.service;
    [Open(s, true)] + [CommitGen(s, "a", a, [])] + [PutItem(key, it, data)] + [CommitGen(s, "b", b, [key])] +
    [RetainAll(STRICT, a, map[s := [GenKey(s, 1), GenKey(s, 2)]])] + [Open(s, false)]
  }

  /** The run up to the second commit. */
  lemma PruneRunCommits(sid: Paths.ShortId, key: Key, it: Item, data: Bytes, a: int, b: int) returns (snaps: map<GenKey, Snapshot>, manifests: map<GenKey, seq<Entry>>)
    requires ValidKey(key)
    ensures var s := key.service;
            var es := [Open(s, true)] + [CommitGen(s, "a", a, [])] + [PutItem(key, it, data)] + [CommitGen(s, "b", b, [key])];
            && Legal(sid, es) && Full(After(sid, es), s, map[key := Written(it, data)], snaps, manifests)
            && Log(After(sid, es), s) == map[]
    ensures AreTwo(snaps, key.service, a, b)
    ensures manifests.Keys == {GenKey(key.service, 1), GenKey(key.service, 2)} && manifests[GenKey(key.service, 1)] == []
  {
    hide Legal;
    hide After;
    hide Apply;
    hide Allowed;
    hide Full;
    var s := key.service;
    var e1, e2, e3 := CommitGen(s, "a", a, []), PutItem(key, it, data), CommitGen(s, "b", b, [key]);
    FullOpens(sid, s);
    var es := [Open(s, true)];
    var w := After(sid, es);
    FullLive(w, s, map[], map[], map[]);
    NoRows(w.db, s);
    FullCommits(sid, w, s, map[], map[], map[], e1, 0);
    Extended(sid, es, e1);
    snaps, manifests := map[GenKey(s, 1) := Snapshot("a", a, 0, 0)], map[GenKey(s, 1) := []];
    FullPuts(sid, After(sid, es + [e1]), snaps, manifests, key, it, data);
    Extended(sid, es + [e1], e2);
    w := After(sid, es + [e1] + [e2]);
    FullLive(w, s, map[key := Written(it, data)], snaps, manifests);
    OneRow(w.db, key, Written(it, data));
    FullCommits(sid, w, s, map[key := Written(it, data)], snaps, manifests, e3, 1);
    Extended(sid, es + [e1] + [e2], e3);
    snaps := snaps[GenKey(s, 2) := Snapshot("b", b, |e3.rows|, SizeSum(Live(w.db, s), e3.rows))];
    manifests := manifests[GenKey(s, 2) := ManifestOf(Live(w.db, s), e3.rows)];
  }

  lemma FullLive(w: World, s: string, items: map<Key, Item>, snaps: map<GenKey, Snapshot>, manifests: map<GenKey, seq<Entry>>)
    requires Full(w, s, items, snaps, manifests)
    ensures w.db.items == items
  {
  }

  lemma NoRows(db: Tables, s: string)
    requires db.items == map[]
    ensures Enumerates([], LiveKeys(db, s)) && Live(db, s) == map[]
    ensures SizeSum(Live(db, s), []) == 0 && ManifestOf(Live(db, s), []) == []
  {
    assert LiveKeys(db, s) == {};
  }

  lemma OneRow(db: Tables, key: Key, row: Item)
    requires db.items == map[key := row] && !row.deleted
    ensures Enumerates([key], LiveKeys(db, key.service)) && Live(db, key.service) == map[key := row]
  {
    assert LiveKeys(db, key.service) == {key};
  }

  /**
   For every item: a full job commits an empty catalog, puts the item and commits again while
   the clock goes back; a retention run then prunes the second generation. Nothing was left
   uncommitted, and yet the next job's skipped commit names the first generation, which does
   not list the item.
   */
  lemma PrunedLatestMakesSkipStale(sid: Paths.ShortId, key: Key, it: Item, data: Bytes, a: int, b: int)
    requires ValidKey(key) && !ImportId(key.id) && a > b
    ensures var es := PruneRun(key, it, data, a, b);
            && Legal(sid, es) && GraphPuts(es)
            && var w := After(sid, es);
               && Dropped(w, key.service) == map[] && key.service in w.sessions && Skips(w.sessions[key.service], key.service)
               && Latest(w.db, key.service) == Some(GenKey(key.service, 1)) && !SkipNamesLive(w.db, key.service)
  {
    hide Legal;
    hide After;
    hide Apply;
    hide Allowed;
    hide Full;
    var s := key.service;
    var snaps, manifests := PruneRunCommits(sid, key, it, data, a, b);
    var es := [Open(s, true)] + [CommitGen(s, "a", a, [])] + [PutItem(key, it, data)] + [CommitGen(s, "b", b, [key])];
    var e := RetainAll(STRICT, a, map[s := [GenKey(s, 1), GenKey(s, 2)]]);
    FullRetains(sid, After(sid, es), s, map[key := Written(it, data)], snaps, manifests, a, b);
    Extended(sid, es, e);
    SkipAfterOpen(sid, After(sid, es + [e]), key, Written(it, data), snaps - {GenKey(s, 2)}, manifests - {GenKey(s, 2)});
    Extended(sid, es + [e], Open(s, false));
  }

  /** An incremental job opened on one row and a first generation without it. */
  lemma SkipAfterOpen(sid: Paths.ShortId, w: World, key: Key, row: Item, snaps: map<GenKey, Snapshot>, manifests: map<GenKey, seq<Entry>>)
    requires Full(w, key.service, map[key := row], snaps, manifests) && Log(w, key.service) == map[] && !row.deleted
    requires snaps.Keys == {GenKey(key.service, 1)} && manifests.Keys == {GenKey(key.service, 1)}
    requires manifests[GenKey(key.service, 1)] == []
    ensures var s, e := key.service, Open(key.service, false);
            && Allowed(w, e)
            && var v := Apply(sid, w, e);
               && Dropped(v, s) == map[] && s in v.sessions && Skips(v.sessions[s], s)
               && Latest(v.db, s) == Some(GenKey(s, 1)) && !SkipNamesLive(v.db, s)
  {
    var s := key.service;
    assert Generations(w.db, s) == {GenKey(s, 1)};
    OneRow(w.db, key, row);
    NoEntries(map[key := row]);
    ManifestIff([], map[key := row]);
    hide EntriesOf;
    hide IsManifest;
  }
}
