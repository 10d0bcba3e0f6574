/**
 Delta sync with crashes: applying the entries of a feed to the catalog, stopping
 anywhere, and going on from any earlier position. However often that happens, the
 live catalog ends up as if the feed had been applied once without interruption.
 */
module DeltaSync {
  import opened Strings
  import opened Tables
  import opened CatalogViews
  import opened Feed
  import Paths

  /** A mailbox or drive being synced, and the content Graph serves for each id. */
  datatype Source = Source(service: string, mailbox: string, content: string -> Bytes)

  /** The live rows of all services. */
  function LiveView(db: Tables): View {
    map k | k in db.items && !db.items[k].deleted :: db.items[k]
  }

  // ---------- one entry ----------

  function Meta(src: Source, d: Delta): Item
    requires d.Fetch?
  {
    Item(src.mailbox, d.parent, d.name, NoHash, 0, d.subject, false)
  }

  /** What the page loop does to the catalog for one entry. */
  function ApplyDelta(sid: Paths.ShortId, src: Source, st: State, d: Delta): State {
    match d
    case Fetch(id, parent, name, subject, reuse) =>
      var key := Key(src.service, id);
      if Feed.Skips(LiveBlob(st.db, key), reuse) then Refresh(st, key, src.mailbox, parent, name, subject)
      else Put(sid, st, key, Meta(src, d), src.content(id))
    case Drop(id) => Delete(sid, st, Key(src.service, id))
    case DropPath(rel, file) =>
      var mid := DeletePrefix(st, src.service, src.mailbox, rel);
      if file == "" then mid else Delete(sid, mid, Key(src.service, file))
    case Pass => st
  }

  function ApplyAll(sid: Paths.ShortId, src: Source, st: State, ds: seq<Delta>): State {
    if ds == [] then st else ApplyDelta(sid, src, ApplyAll(sid, src, st, ds[..|ds| - 1]), ds[|ds| - 1])
  }

  /** The row that ends up live for a fetched entry. */
  function RowOf(src: Source, d: Delta): Item
    requires d.Fetch?
  {
    Meta(src, d).(hash := Sha256(src.content(d.id)), size := |src.content(d.id)|)
  }

  predicate Doomed(src: Source, d: Delta, k: Key, row: Item)
    requires d.DropPath?
  {
    k.service == src.service && (Covers(src.mailbox, TrimSlashes(d.rel), row) || (d.file != "" && k.id == d.file))
  }

  /** The same on live rows alone: no reuse, no downloads, no dead rows. */
  function Effect(src: Source, v: View, d: Delta): View {
    match d
    case Fetch(id, _, _, _, _) => v[Key(src.service, id) := RowOf(src, d)]
    case Drop(id) => v - {Key(src.service, id)}
    case DropPath(_, _) => map k | k in v && !Doomed(src, d, k, v[k]) :: v[k]
    case Pass => v
  }

  // ---------- hypotheses ----------

  /** Entries carry Graph ids, never ids made up by an import. */
  predicate GoodId(d: Delta) {
    match d
    case Fetch(id, _, _, _, _) => id != "" && !ImportId(id)
    case Drop(id) => id != "" && !ImportId(id)
    case DropPath(_, file) => !ImportId(file)
    case Pass => true
  }

  ghost predicate GoodFeed(src: Source, cs: seq<Delta>) {
    src.service != "" && forall d <- cs :: GoodId(d)
  }

  /** A row that the feed lets stand in for a download has the content Graph serves. */
  ghost predicate Settled(src: Source, cs: seq<Delta>, id: string, row: Item) {
    forall d <- cs :: d.Fetch? && d.id == id && Feed.Skips(Some(row), d.reuse) ==>
      row.hash == Sha256(src.content(id)) && row.size == |src.content(id)|
  }

  ghost predicate Steady(src: Source, cs: seq<Delta>, db: Tables) {
    forall k <- LiveView(db) :: k.service == src.service && db.items[k].hash != NoHash ==>
      Settled(src, cs, k.id, db.items[k])
  }

  ghost predicate Ready(src: Source, cs: seq<Delta>, db: Tables) {
    NoImports(db) && Steady(src, cs, db)
  }

  lemma SameContentSettled(src: Source, cs: seq<Delta>, id: string, a: Item, b: Item)
    requires Settled(src, cs, id, a) && a.hash == b.hash && a.size == b.size
    ensures Settled(src, cs, id, b)
  {
    assert forall d <- cs :: d.Fetch? ==> (Feed.Skips(Some(b), d.reuse) <==> Feed.Skips(Some(a), d.reuse));
  }

  // ---------- one entry on live rows ----------

  lemma PutEffect(sid: Paths.ShortId, src: Source, cs: seq<Delta>, st: State, d: Delta)
    requires Ready(src, cs, st.db) && GoodFeed(src, cs) && d in cs && d.Fetch?
    ensures var end := Put(sid, st, Key(src.service, d.id), Meta(src, d), src.content(d.id));
            LiveView(end.db) == Effect(src, LiveView(st.db), d) && Ready(src, cs, end.db)
  {
    var key := Key(src.service, d.id);
    NoAlias(sid, st, key, Meta(src, d));
    assert GoodId(d);
    var end := Put(sid, st, key, Meta(src, d), src.content(d.id));
    assert end.db.items == st.db.items[key := RowOf(src, d)];
    UpsertReady(src, cs, st.db, end.db, key, RowOf(src, d));
  }

  lemma UpsertReady(src: Source, cs: seq<Delta>, db: Tables, end: Tables, key: Key, row: Item)
    requires Ready(src, cs, db) && end.items == db.items[key := row] && !row.deleted
    requires !ImportId(key.id) && Settled(src, cs, key.id, row)
    ensures LiveView(end) == LiveView(db)[key := row] && Ready(src, cs, end)
  {
  }

  lemma RefreshEffect(src: Source, cs: seq<Delta>, st: State, d: Delta)
    requires Ready(src, cs, st.db) && GoodFeed(src, cs) && d in cs && d.Fetch?
    requires Feed.Skips(LiveBlob(st.db, Key(src.service, d.id)), d.reuse)
    ensures var end := Refresh(st, Key(src.service, d.id), src.mailbox, d.parent, d.name, d.subject);
            LiveView(end.db) == Effect(src, LiveView(st.db), d) && Ready(src, cs, end.db)
  {
    var key := Key(src.service, d.id);
    assert GoodId(d);
    var row := st.db.items[key];
    assert key in LiveView(st.db) && Settled(src, cs, key.id, row);
    var moved := row.(mailbox := src.mailbox, parent := d.parent, name := d.name, subject := d.subject);
    assert moved == RowOf(src, d);
    SameContentSettled(src, cs, key.id, row, moved);
    var end := Refresh(st, key, src.mailbox, d.parent, d.name, d.subject);
    assert end.db.items == st.db.items[key := moved];
    UpsertReady(src, cs, st.db, end.db, key, moved);
  }

  /** Losing live rows keeps a catalog ready. */
  lemma FewerReady(src: Source, cs: seq<Delta>, db: Tables, end: Tables)
    requires Ready(src, cs, db) && end.items.Keys <= db.items.Keys
    requires forall k <- LiveView(end) :: k in LiveView(db) && end.items[k] == db.items[k]
    ensures Ready(src, cs, end)
  {
  }

  lemma DeleteEffect(sid: Paths.ShortId, src: Source, cs: seq<Delta>, st: State, id: string)
    requires Ready(src, cs, st.db) && src.service != "" && id != "" && !ImportId(id)
    ensures var end := Delete(sid, st, Key(src.service, id));
            LiveView(end.db) == LiveView(st.db) - {Key(src.service, id)} && Ready(src, cs, end.db)
  {
    var key := Key(src.service, id);
    NoAlias(sid, st, key, BLANK);
    var end := Delete(sid, st, key);
    assert end.db.items == if key in st.db.items then st.db.items[key := Dead(st.db.items[key])] else st.db.items;
    FewerReady(src, cs, st.db, end.db);
  }

  lemma PrefixEffect(src: Source, cs: seq<Delta>, st: State, rel: string)
    requires Ready(src, cs, st.db)
    ensures var end := DeletePrefix(st, src.service, src.mailbox, rel);
            LiveView(end.db) == Effect(src, LiveView(st.db), DropPath(rel, "")) && Ready(src, cs, end.db)
  {
    var end := DeletePrefix(st, src.service, src.mailbox, rel);
    FewerReady(src, cs, st.db, end.db);
  }

  /** One entry changes the live rows as its effect says, whatever was stored before. */
  lemma DeltaEffect(sid: Paths.ShortId, src: Source, cs: seq<Delta>, st: State, d: Delta)
    requires Ready(src, cs, st.db) && GoodFeed(src, cs) && d in cs
    ensures LiveView(ApplyDelta(sid, src, st, d).db) == Effect(src, LiveView(st.db), d)
    ensures Ready(src, cs, ApplyDelta(sid, src, st, d).db)
  {
    assert GoodId(d);
    match d
    case Fetch(id, _, _, _, reuse) =>
      if Feed.Skips(LiveBlob(st.db, Key(src.service, id)), reuse) {
        RefreshEffect(src, cs, st, d);
      } else {
        PutEffect(sid, src, cs, st, d);
      }
    case Drop(id) => DeleteEffect(sid, src, cs, st, id);
    case DropPath(rel, file) => DropPathEffect(sid, src, cs, st, d);
    case Pass =>
  }

  lemma DropPathEffect(sid: Paths.ShortId, src: Source, cs: seq<Delta>, st: State, d: Delta)
    requires Ready(src, cs, st.db) && src.service != "" && d.DropPath? && GoodId(d)
    ensures LiveView(ApplyDelta(sid, src, st, d).db) == Effect(src, LiveView(st.db), d)
    ensures Ready(src, cs, ApplyDelta(sid, src, st, d).db)
  {
    PrefixEffect(src, cs, st, d.rel);
    if d.file != "" {
      DeleteEffect(sid, src, cs, DeletePrefix(st, src.service, src.mailbox, d.rel), d.file);
    }
  }

  // ---------- replaying ----------

  /** The live rows after the first `j` entries, applied once. */
  function At(src: Source, v: View, cs: seq<Delta>, j: nat): View
    requires j <= |cs|
  {
    if j == 0 then v else Effect(src, At(src, v, cs, j - 1), cs[j - 1])
  }

  /** The entry is about this very id, not merely about a folder above it. */
  predicate Own(src: Source, d: Delta, k: Key) {
    k.service == src.service &&
    match d
    case Fetch(id, _, _, _, _) => k.id == id
    case Drop(id) => k.id == id
    case DropPath(_, file) => file != "" && k.id == file
    case Pass => false
  }

  ghost predicate OwnIn(src: Source, cs: seq<Delta>, j: nat, p: nat, k: Key)
    requires p <= |cs|
  {
    exists i :: j <= i < p && Own(src, cs[i], k)
  }

  predicate Same(a: View, b: View, k: Key) {
    if k in a then k in b && a[k] == b[k] else k !in b
  }

  /** Without an entry of its own, a row stays as it is or dies. */
  lemma EffectElsewhere(src: Source, v: View, d: Delta, k: Key)
    requires !Own(src, d, k)
    ensures Same(Effect(src, v, d), v, k) || k !in Effect(src, v, d)
  {
  }

  /** What happens to a row depends on that row alone. */
  lemma EffectIsLocal(src: Source, a: View, b: View, d: Delta, k: Key)
    requires Same(a, b, k)
    ensures Same(Effect(src, a, d), Effect(src, b, d), k)
  {
  }

  lemma EffectOnOwn(src: Source, a: View, b: View, d: Delta, k: Key)
    requires Own(src, d, k)
    ensures Same(Effect(src, a, d), Effect(src, b, d), k)
  {
  }

  lemma {:induction false} QuietStretch(src: Source, v: View, cs: seq<Delta>, j: nat, p: nat, k: Key)
    requires j <= p <= |cs| && !OwnIn(src, cs, j, p, k)
    ensures Same(At(src, v, cs, p), At(src, v, cs, j), k) || k !in At(src, v, cs, p)
    decreases p
  {
    if j < p {
      QuietStretch(src, v, cs, j, p - 1, k);
      EffectElsewhere(src, At(src, v, cs, p - 1), cs[p - 1], k);
    }
  }

  /** How far `b` may differ at position `j` after some run reached `p`, for one row. */
  ghost predicate RowFits(src: Source, v: View, cs: seq<Delta>, j: nat, p: nat, b: View, k: Key)
    requires j <= p <= |cs|
  {
    || OwnIn(src, cs, j, p, k)
    || Same(b, At(src, v, cs, j), k)
    || (k !in b && k !in At(src, v, cs, p))
  }

  ghost predicate Fits(src: Source, v: View, cs: seq<Delta>, j: nat, p: nat, b: View)
    requires j <= p <= |cs|
  {
    forall k: Key :: RowFits(src, v, cs, j, p, b, k)
  }

  lemma StepFits(src: Source, v: View, cs: seq<Delta>, j: nat, p: nat, b: View, k: Key)
    requires j < p <= |cs| && RowFits(src, v, cs, j, p, b, k)
    ensures RowFits(src, v, cs, j + 1, p, Effect(src, b, cs[j]), k)
  {
    var a := At(src, v, cs, j);
    assert At(src, v, cs, j + 1) == Effect(src, a, cs[j]);
    if Own(src, cs[j], k) {
      EffectOnOwn(src, b, a, cs[j], k);
    } else if !OwnIn(src, cs, j + 1, p, k) {
      assert !OwnIn(src, cs, j, p, k);
      if Same(b, a, k) {
        EffectIsLocal(src, b, a, cs[j], k);
      } else {
        EffectElsewhere(src, b, cs[j], k);
      }
    }
  }

  lemma RewindFits(src: Source, v: View, cs: seq<Delta>, q: nat, j: nat, p: nat, b: View, k: Key)
    requires q <= j <= p <= |cs| && RowFits(src, v, cs, j, p, b, k)
    ensures RowFits(src, v, cs, q, p, b, k)
  {
    if !OwnIn(src, cs, q, p, k) {
      assert !OwnIn(src, cs, q, j, k) && !OwnIn(src, cs, j, p, k);
      QuietStretch(src, v, cs, q, j, k);
      QuietStretch(src, v, cs, j, p, k);
    }
  }

  lemma CaughtUp(src: Source, v: View, cs: seq<Delta>, p: nat, b: View)
    requires p <= |cs| && Fits(src, v, cs, p, p, b)
    ensures b == At(src, v, cs, p)
  {
    forall k: Key ensures Same(b, At(src, v, cs, p), k) {
      assert RowFits(src, v, cs, p, p, b, k);
    }
    SameEverywhere(b, At(src, v, cs, p));
  }

  lemma SameEverywhere(a: View, b: View)
    requires forall k: Key :: Same(a, b, k)
    ensures a == b
  {
    assert forall k: Key :: Same(a, b, k) ==> (k in a <==> k in b);
  }

  function Max(a: nat, b: nat): nat {
    if a < b then b else a
  }

  /** One more entry, replayed or new. */
  lemma AdvanceFits(src: Source, v: View, cs: seq<Delta>, j: nat, p: nat, b: View)
    requires j <= p <= |cs| && j < |cs| && Fits(src, v, cs, j, p, b)
    ensures Fits(src, v, cs, j + 1, Max(j + 1, p), Effect(src, b, cs[j]))
  {
    var next, after := j + 1, Effect(src, b, cs[j]);
    if j == p {
      CaughtUp(src, v, cs, p, b);
      assert after == At(src, v, cs, next);
      forall k: Key ensures RowFits(src, v, cs, next, next, after, k) {
      }
    } else {
      forall k: Key ensures RowFits(src, v, cs, next, p, after, k) {
        assert RowFits(src, v, cs, j, p, b, k);
        StepFits(src, v, cs, j, p, b, k);
      }
    }
  }

  // ---------- stopping inside a removal ----------

  /**
   A removal of a path that is cut off after some of its rows: those of `cut` that it
   covers are dead already. Nothing else an entry does can be cut in two.
   */
  function CutShort(src: Source, st: State, d: Delta, cut: set<Key>): State {
    if d.DropPath? && cut != {} then DeleteAll(st, cut * PrefixKeys(st.db, src.service, src.mailbox, d.rel)) else st
  }

  lemma CutView(src: Source, cs: seq<Delta>, st: State, d: Delta, cut: set<Key>)
    requires Ready(src, cs, st.db)
    ensures var after, b := LiveView(CutShort(src, st, d, cut).db), LiveView(st.db);
            forall k: Key :: Same(after, b, k) || (k !in after && k in b && d.DropPath? && Doomed(src, d, k, b[k]))
    ensures Ready(src, cs, CutShort(src, st, d, cut).db)
  {
    hide Covers;
    FewerReady(src, cs, st.db, CutShort(src, st, d, cut).db);
  }

  /** A row that the entry at `j` would delete anyway may be dead before it. */
  lemma CutRowFits(src: Source, v: View, cs: seq<Delta>, j: nat, p: nat, b: View, after: View, k: Key)
    requires j < p <= |cs| && RowFits(src, v, cs, j, p, b, k)
    requires Same(after, b, k) || (k !in after && k in b && cs[j].DropPath? && Doomed(src, cs[j], k, b[k]))
    ensures RowFits(src, v, cs, j, p, after, k)
  {
    if !OwnIn(src, cs, j, p, k) && k in b && k !in after {
      assert !OwnIn(src, cs, j + 1, p, k);
      assert k !in At(src, v, cs, j + 1);
      QuietStretch(src, v, cs, j + 1, p, k);
    }
  }

  /** Not having taken the next entry yet is no harm. */
  lemma AheadFits(src: Source, v: View, cs: seq<Delta>, j: nat, p: nat, b: View)
    requires j <= p <= |cs| && j < |cs| && Fits(src, v, cs, j, p, b)
    ensures Fits(src, v, cs, j, Max(p, j + 1), b)
  {
    if p == j {
      CaughtUp(src, v, cs, p, b);
      var next := j + 1;
      forall k: Key ensures RowFits(src, v, cs, j, next, b, k) {
      }
    }
  }

  lemma CutFits(src: Source, v: View, cs: seq<Delta>, st: State, j: nat, p: nat, cut: set<Key>)
    requires j <= p <= |cs| && j < |cs| && Ready(src, cs, st.db) && Fits(src, v, cs, j, p, LiveView(st.db))
    ensures var after := CutShort(src, st, cs[j], cut).db;
            Ready(src, cs, after) && Fits(src, v, cs, j, Max(p, j + 1), LiveView(after))
  {
    var after, b, q := LiveView(CutShort(src, st, cs[j], cut).db), LiveView(st.db), Max(p, j + 1);
    AheadFits(src, v, cs, j, p, b);
    CutView(src, cs, st, cs[j], cut);
    hide CutShort;
    forall k: Key ensures RowFits(src, v, cs, j, q, after, k) {
      assert RowFits(src, v, cs, j, q, b, k);
      CutRowFits(src, v, cs, j, q, b, after, k);
    }
  }

  // ---------- runs ----------

  /**
   One job: it starts at `from` and applies the entries before `till`; it may be cut off
   inside the entry at `till`, with the rows of `cut` deleted.
   */
  datatype Attempt = Attempt(from: nat, till: nat, session: Session, cut: set<Key>)

  /** Every job starts at a checkpoint that is not ahead of where the last one stopped. */
  predicate Resumes(cs: seq<Delta>, runs: seq<Attempt>) {
    runs == [] ||
    var r := runs[|runs| - 1];
    && Resumes(cs, runs[..|runs| - 1])
    && r.from <= r.till <= |cs| && (r.cut != {} ==> r.till < |cs|)
    && r.from <= Position(runs[..|runs| - 1])
  }

  /** The state in which a job leaves the store. */
  function Attempted(sid: Paths.ShortId, src: Source, cs: seq<Delta>, st: State, r: Attempt): State
    requires r.from <= r.till <= |cs| && (r.cut != {} ==> r.till < |cs|)
  {
    var done := ApplyAll(sid, src, st, cs[r.from..r.till]);
    if r.cut == {} then done else CutShort(src, done, cs[r.till], r.cut)
  }

  function AfterRuns(sid: Paths.ShortId, src: Source, cs: seq<Delta>, db: Tables, runs: seq<Attempt>): Tables
    requires Resumes(cs, runs)
  {
    if runs == [] then db
    else
      var r := runs[|runs| - 1];
      var before := AfterRuns(sid, src, cs, db, runs[..|runs| - 1]);
      Attempted(sid, src, cs, State(before, r.session), r).db
  }

  /** How far a job got, an entry it was cut off in included. */
  function Got(r: Attempt): nat {
    if r.cut == {} then r.till else r.till + 1
  }

  function Reached(runs: seq<Attempt>): nat {
    if runs == [] then 0 else Max(Reached(runs[..|runs| - 1]), Got(runs[|runs| - 1]))
  }

  function Position(runs: seq<Attempt>): nat {
    if runs == [] then 0 else runs[|runs| - 1].till
  }

  lemma {:induction false} JobFits(sid: Paths.ShortId, src: Source, cs: seq<Delta>, v: View, st: State, from: nat, till: nat, p: nat)
    requires from <= till <= |cs| && from <= p <= |cs| && GoodFeed(src, cs)
    requires Ready(src, cs, st.db) && Fits(src, v, cs, from, p, LiveView(st.db))
    ensures var end := ApplyAll(sid, src, st, cs[from..till]).db;
            Ready(src, cs, end) && Fits(src, v, cs, till, Max(p, till), LiveView(end))
    decreases till
  {
    hide ApplyDelta;
    hide Effect;
    hide Ready;
    hide LiveView;
    if till != from {
      var n := till - 1;
      JobFits(sid, src, cs, v, st, from, n, p);
      var mid := ApplyAll(sid, src, st, cs[from..n]);
      assert cs[from..till][..|cs[from..till]| - 1] == cs[from..n] && cs[from..till][|cs[from..till]| - 1] == cs[n];
      DeltaEffect(sid, src, cs, mid, cs[n]);
      AdvanceFits(src, v, cs, n, Max(p, n), LiveView(mid.db));
    }
  }

  lemma RewindJob(src: Source, v: View, cs: seq<Delta>, q: nat, j: nat, p: nat, b: View)
    requires q <= j <= p <= |cs| && Fits(src, v, cs, j, p, b)
    ensures Fits(src, v, cs, q, p, b)
  {
    forall k: Key ensures RowFits(src, v, cs, q, p, b, k) {
      assert RowFits(src, v, cs, j, p, b, k);
      RewindFits(src, v, cs, q, j, p, b, k);
    }
  }

  lemma AttemptFits(sid: Paths.ShortId, src: Source, cs: seq<Delta>, v: View, st: State, r: Attempt, p: nat)
    requires r.from <= r.till <= |cs| && (r.cut != {} ==> r.till < |cs|) && r.from <= p <= |cs| && GoodFeed(src, cs)
    requires Ready(src, cs, st.db) && Fits(src, v, cs, r.from, p, LiveView(st.db))
    ensures var end := Attempted(sid, src, cs, st, r).db;
            Ready(src, cs, end) && Fits(src, v, cs, r.till, Max(p, Got(r)), LiveView(end))
  {
    JobFits(sid, src, cs, v, st, r.from, r.till, p);
    hide ApplyAll;
    hide Ready;
    hide LiveView;
    if r.cut != {} {
      CutFits(src, v, cs, ApplyAll(sid, src, st, cs[r.from..r.till]), r.till, Max(p, r.till), r.cut);
    }
  }

  lemma {:induction false} RunsFit(sid: Paths.ShortId, src: Source, cs: seq<Delta>, db: Tables, runs: seq<Attempt>)
    requires GoodFeed(src, cs) && Ready(src, cs, db) && Resumes(cs, runs)
    ensures Position(runs) <= Reached(runs) <= |cs|
    ensures var end := AfterRuns(sid, src, cs, db, runs);
            Ready(src, cs, end) && Fits(src, LiveView(db), cs, Position(runs), Reached(runs), LiveView(end))
  {
    hide Ready;
    hide LiveView;
    hide Attempted;
    if runs == [] {
      forall k: Key ensures RowFits(src, LiveView(db), cs, 0, 0, LiveView(db), k) {
      }
    } else {
      var n := |runs| - 1;
      var r := runs[n];
      var v := LiveView(db);
      RunsFit(sid, src, cs, db, runs[..n]);
      var before := AfterRuns(sid, src, cs, db, runs[..n]);
      RewindJob(src, v, cs, r.from, Position(runs[..n]), Reached(runs[..n]), LiveView(before));
      AttemptFits(sid, src, cs, v, State(before, r.session), r, Reached(runs[..n]));
    }
  }

  lemma {:induction false} UninterruptedView(sid: Paths.ShortId, src: Source, cs: seq<Delta>, st: State, j: nat)
    requires GoodFeed(src, cs) && Ready(src, cs, st.db) && j <= |cs|
    ensures Ready(src, cs, ApplyAll(sid, src, st, cs[..j]).db)
    ensures LiveView(ApplyAll(sid, src, st, cs[..j]).db) == At(src, LiveView(st.db), cs, j)
    decreases j
  {
    hide Ready;
    hide ApplyDelta;
    if j > 0 {
      UninterruptedView(sid, src, cs, st, j - 1);
      assert cs[..j][..|cs[..j]| - 1] == cs[..j - 1];
      DeltaEffect(sid, src, cs, ApplyAll(sid, src, st, cs[..j - 1]), cs[j - 1]);
    }
  }

  /**
   Crash and resume: any number of jobs, each stopped anywhere, inside the removal of a
   folder too, and followed by one that starts at a checkpoint lagging behind by any
   number of entries, leave the same live catalog as one uninterrupted job, once the
   furthest position any of them reached is reached again.
   */
  lemma CrashResume(sid: Paths.ShortId, src: Source, cs: seq<Delta>, db: Tables, runs: seq<Attempt>, session: Session)
    requires GoodFeed(src, cs) && Ready(src, cs, db) && Resumes(cs, runs)
    requires Position(runs) == Reached(runs)
    ensures Position(runs) <= |cs|
    ensures LiveView(AfterRuns(sid, src, cs, db, runs)) ==
            LiveView(ApplyAll(sid, src, State(db, session), cs[..Position(runs)]).db)
  {
    RunsFit(sid, src, cs, db, runs);
    CaughtUp(src, LiveView(db), cs, Position(runs), LiveView(AfterRuns(sid, src, cs, db, runs)));
    UninterruptedView(sid, src, cs, State(db, session), Position(runs));
  }

  /** In particular when the last job gets through the whole feed. */
  lemma FinishedSync(sid: Paths.ShortId, src: Source, cs: seq<Delta>, db: Tables, runs: seq<Attempt>, session: Session)
    requires GoodFeed(src, cs) && Ready(src, cs, db) && Resumes(cs, runs) && Position(runs) == |cs|
    ensures LiveView(AfterRuns(sid, src, cs, db, runs)) == LiveView(ApplyAll(sid, src, State(db, session), cs).db)
  {
    RunsFit(sid, src, cs, db, runs);
    CrashResume(sid, src, cs, db, runs, session);
    assert cs[..|cs|] == cs;
  }
}
