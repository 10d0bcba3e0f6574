/**
 What the entries of a feed mean for the catalog, in the terms of the tables: a message
 or file that is reported is live where it was reported, one that is reported removed is
 not, and after a removed folder nothing below it is.
 */
module SyncMeaning {
  import opened Strings
  import opened Tables
  import T = Tables
  import opened CatalogViews
  import opened Feed
  import opened DeltaSync
  import Paths

  // ---------- one entry ----------

  /** All rows but that of `key` are as before. */
  ghost predicate OthersSame(before: Tables, after: Tables, key: Key) {
    forall k: Key :: k != key ==>
      (k in before.items <==> k in after.items) && (k in before.items ==> after.items[k] == before.items[k])
  }

  /** The row is live with content. */
  predicate Stocked(db: Tables, key: Key) {
    key in db.items && !db.items[key].deleted && db.items[key].hash != NoHash
  }

  /** The content of the new row: what was stored if that is reused, else what Graph serves. */
  predicate ContentRight(before: Tables, key: Key, row: Item, data: Bytes, reused: bool)
    requires reused ==> Stocked(before, key)
  {
    if reused then row.hash == before.items[key].hash && row.size == before.items[key].size
    else row.hash == Sha256(data) && row.size == |data|
  }

  /** The catalog after a message. */
  ghost predicate MessageHandled(sid: Paths.ShortId, src: Source, folder: string, decode: string -> string,
                                 before: Tables, after: Tables, m: Message)
  {
    var key := Key(src.service, m.id);
    if m.id == "" then after.items == before.items
    else if m.removed then OthersSame(before, after, key) && !(key in after.items && !after.items[key].deleted)
    else
      && OthersSame(before, after, key) && key in after.items
      && var row := after.items[key];
         && !row.deleted && row.mailbox == src.mailbox && row.parent == folder && row.subject == decode(m.subject)
         && (Paths.IsShort(sid(m.id)) ==> Paths.EmlShortFromName(row.name) == Paths.Ok(sid(m.id)))
         && ContentRight(before, key, row, src.content(m.id), Stocked(before, key))
  }

  predicate AtOrBelow(p: string, top: string) {
    p == top || top + "/" <= p
  }

  /** A live row of the drive at or below the path. */
  predicate LiesBelow(db: Tables, src: Source, k: Key, rel: string) {
    && k.service == src.service && k in db.items && !db.items[k].deleted && db.items[k].mailbox == src.mailbox
    && AtOrBelow(db.items[k].RelPath(), src.mailbox + "/" + rel)
  }

  /** A row after the removal of a path, and of a file if `file` is not empty: dead if meant, else as before. */
  predicate RowAfterRemoval(src: Source, before: Tables, after: Tables, rel: string, file: string, k: Key) {
    if LiesBelow(before, src, k, rel) || (file != "" && k == Key(src.service, file))
    then !(k in after.items && !after.items[k].deleted)
    else (k in before.items <==> k in after.items) && (k in before.items ==> after.items[k] == before.items[k])
  }

  /** The catalog after a drive item whose path is `rel`. */
  ghost predicate DriveHandled(src: Source, before: Tables, after: Tables, item: DriveItem, rel: string) {
    var key := Key(src.service, item.id);
    if rel == "" || (!item.removed && (!item.file || item.id == "")) then after.items == before.items
    else if item.removed then
      var file := if item.file then item.id else "";
      forall k: Key :: RowAfterRemoval(src, before, after, rel, file, k)
    else
      && OthersSame(before, after, key) && key in after.items
      && var row := after.items[key];
         && !row.deleted && row.mailbox == src.mailbox && row.subject == ""
         && (Paths.CleanSeg(src.mailbox) ==> row.RelPath() == src.mailbox + "/" + rel)
         && ContentRight(before, key, row, src.content(item.id),
                         Stocked(before, key) && item.size == Some(before.items[key].size))
  }

  // ---------- one entry, proved ----------

  /** A fetched entry leaves a live row with its place and the right content. */
  lemma FetchMeans(sid: Paths.ShortId, src: Source, st: State, d: Delta)
    requires NoImports(st.db) && src.service != "" && d.Fetch? && d.id != ""
    ensures var key, after := Key(src.service, d.id), ApplyDelta(sid, src, st, d).db;
            && OthersSame(st.db, after, key) && key in after.items
            && var row, reused := after.items[key], Feed.Skips(LiveBlob(st.db, key), d.reuse);
               && !row.deleted && row.mailbox == src.mailbox && row.parent == d.parent && row.name == d.name && row.subject == d.subject
               && ContentRight(st.db, key, row, src.content(d.id), reused)
  {
    NoAlias(sid, st, Key(src.service, d.id), Meta(src, d));
    hide AliasOf;
  }

  lemma MessageMeans(sid: Paths.ShortId, src: Source, folder: string, decode: string -> string, st: State, m: Message)
    requires NoImports(st.db) && src.service != ""
    ensures MessageHandled(sid, src, folder, decode, st.db,
                           ApplyDelta(sid, src, st, MessageDelta(sid, decode, folder, m)).db, m)
  {
    var key := Key(src.service, m.id);
    if m.id == "" {
    } else if m.removed {
      NoAlias(sid, st, key, BLANK);
      hide AliasOf;
    } else {
      FetchMeans(sid, src, st, MessageDelta(sid, decode, folder, m));
      if Paths.IsShort(sid(m.id)) {
        Paths.EmlShortRoundTrip(decode(m.subject), sid(m.id));
      }
      hide ApplyDelta;
      hide Paths.EmlFileName;
      hide Paths.EmlShortFromName;
    }
  }

  lemma RemovalMeans(sid: Paths.ShortId, src: Source, st: State, rel: string, file: string, k: Key)
    requires NoImports(st.db) && src.service != "" && rel != "" && TrimSlashes(rel) == rel
    ensures RowAfterRemoval(src, st.db, ApplyDelta(sid, src, st, DropPath(rel, file)).db, rel, file, k)
  {
    var mid := DeletePrefix(st, src.service, src.mailbox, rel);
    PrefixMeans(src, st, rel, k);
    assert NoImports(mid.db);
    if file != "" {
      NoAlias(sid, mid, Key(src.service, file), BLANK);
      hide AliasOf;
      hide DeletePrefix;
    }
  }

  lemma PrefixMeans(src: Source, st: State, rel: string, k: Key)
    requires rel != "" && TrimSlashes(rel) == rel
    ensures var before, after := st.db, DeletePrefix(st, src.service, src.mailbox, rel).db;
            && (k in before.items <==> k in after.items)
            && (k in before.items ==> after.items[k] == if LiesBelow(before, src, k, rel) then Dead(before.items[k]) else before.items[k])
  {
    hide TrimSlashes;
    assert k in PrefixKeys(st.db, src.service, src.mailbox, rel) <==> LiesBelow(st.db, src, k, rel);
  }

  lemma DriveMeans(sid: Paths.ShortId, src: Source, st: State, item: DriveItem)
    requires NoImports(st.db) && src.service != ""
    ensures DriveHandled(src, st.db, ApplyDelta(sid, src, st, DriveDelta(item)).db, item, Join(DriveSegs(item)))
  {
    hide DriveSegs;
    hide Join;
    hide Feed.Dir;
    hide Feed.Base;
    if Join(DriveSegs(item)) != "" && item.removed {
      RemovedItemMeans(sid, src, st, item);
      hide DriveHandled;
    } else if Join(DriveSegs(item)) != "" && item.file && item.id != "" {
      StoredItemMeans(sid, src, st, item);
      hide DriveHandled;
    }
  }

  lemma RemovedItemMeans(sid: Paths.ShortId, src: Source, st: State, item: DriveItem)
    requires NoImports(st.db) && src.service != "" && item.removed && Join(DriveSegs(item)) != ""
    ensures DriveHandled(src, st.db, ApplyDelta(sid, src, st, DriveDelta(item)).db, item, Join(DriveSegs(item)))
  {
    var rel, file := Join(DriveSegs(item)), if item.file then item.id else "";
    DriveSegsArePlain(item);
    PathIsTrimmed(DriveSegs(item));
    hide DriveSegs;
    hide Join;
    hide ApplyDelta;
    hide RowAfterRemoval;
    hide TrimSlashes;
    var after := ApplyDelta(sid, src, st, DriveDelta(item)).db;
    forall k: Key ensures RowAfterRemoval(src, st.db, after, rel, file, k) {
      RemovalMeans(sid, src, st, rel, file, k);
    }
  }

  lemma StoredItemMeans(sid: Paths.ShortId, src: Source, st: State, item: DriveItem)
    requires NoImports(st.db) && src.service != "" && !item.removed && item.file && item.id != "" && Join(DriveSegs(item)) != ""
    ensures DriveHandled(src, st.db, ApplyDelta(sid, src, st, DriveDelta(item)).db, item, Join(DriveSegs(item)))
  {
    hide DriveSegs;
    hide Join;
    hide ApplyDelta;
    hide Feed.Dir;
    hide Feed.Base;
    hide OthersSame;
    hide Paths.CleanSeg;
    FetchMeans(sid, src, st, DriveDelta(item));
    FetchedPlace(item, src.mailbox);
  }

  lemma PathIsTrimmed(segs: seq<string>)
    requires (forall seg <- segs :: Paths.PlainSeg(seg)) && Join(segs) != ""
    ensures TrimSlashes(Join(segs)) == Join(segs)
  {
    if segs != [] {
      Paths.JoinEnds(segs);
      TrimSlashesIdentity(Join(segs));
    }
  }

  lemma FetchedPlace(item: DriveItem, mailbox: string)
    requires DriveDelta(item).Fetch?
    ensures Paths.CleanSeg(mailbox) ==>
              Paths.RelPath(mailbox, DriveDelta(item).parent, DriveDelta(item).name) == mailbox + "/" + Join(DriveSegs(item))
  {
    if Paths.CleanSeg(mailbox) {
      FetchedAtItsPath(item, mailbox);
    }
  }

  // ---------- whole feeds ----------

  datatype GraphItem = Mail(message: Message) | File(item: DriveItem)

  /** A folder or drive being synced, with the header decoder of the mail library. */
  datatype Task = Task(src: Source, folder: string, decode: string -> string)

  function DeltaOf(sid: Paths.ShortId, task: Task, g: GraphItem): Delta {
    match g
    case Mail(m) => MessageDelta(sid, task.decode, task.folder, m)
    case File(item) => DriveDelta(item)
  }

  function DeltasOf(sid: Paths.ShortId, task: Task, items: seq<GraphItem>): (r: seq<Delta>)
    ensures |r| == |items| && forall i :: 0 <= i < |items| ==> r[i] == DeltaOf(sid, task, items[i])
  {
    seq(|items|, i requires 0 <= i < |items| => DeltaOf(sid, task, items[i]))
  }

  function IdOf(g: GraphItem): string {
    match g
    case Mail(m) => m.id
    case File(item) => item.id
  }

  /** The report is about the row of this id: a message, or a file with a path. */
  predicate About(g: GraphItem, id: string) {
    match g
    case Mail(m) => m.id == id
    case File(item) => item.id == id && item.file && Join(DriveSegs(item)) != ""
  }

  /** Nothing later in the feed is about the row of report `i`. */
  predicate LastReport(items: seq<GraphItem>, i: nat)
    requires i < |items|
  {
    && IdOf(items[i]) != "" && About(items[i], IdOf(items[i]))
    && forall j :: i < j < |items| ==> !About(items[j], IdOf(items[i]))
  }

  lemma OwnMeansAbout(sid: Paths.ShortId, task: Task, g: GraphItem, id: string)
    requires id != ""
    ensures Own(task.src, DeltaOf(sid, task, g), Key(task.src.service, id)) <==> About(g, id)
  {
    hide DriveSegs;
    hide Join;
    hide Feed.Dir;
    hide Feed.Base;
    hide Paths.EmlFileName;
  }

  predicate RemovesPath(g: GraphItem) {
    g.File? && g.item.removed && Join(DriveSegs(g.item)) != ""
  }

  /** A later report removes the path of file `i` or a folder above it. */
  ghost predicate TakenLater(items: seq<GraphItem>, i: nat)
    requires i < |items| && items[i].File?
  {
    exists j :: i < j < |items| && RemovesPath(items[j]) && DriveSegs(items[j].item) <= DriveSegs(items[i].item)
  }

  /** The row of a reported message. */
  predicate IsMessageRow(sid: Paths.ShortId, task: Task, m: Message, row: Item) {
    && row.mailbox == task.src.mailbox && row.parent == task.folder && row.subject == task.decode(m.subject)
    && (Paths.IsShort(sid(m.id)) ==> Paths.EmlShortFromName(row.name) == Paths.Ok(sid(m.id)))
    && row.hash == Sha256(task.src.content(m.id)) && row.size == |task.src.content(m.id)|
  }

  /** The row of a reported file. */
  predicate IsFileRow(task: Task, item: DriveItem, row: Item) {
    && row.mailbox == task.src.mailbox && row.RelPath() == task.src.mailbox + "/" + Join(DriveSegs(item)) && row.subject == ""
    && row.hash == Sha256(task.src.content(item.id)) && row.size == |task.src.content(item.id)|
  }

  /**
   What the last report about a row comes to: removed means not live. A message is live as
   reported. A file is live as reported unless its path or a folder above it is removed later.
   */
  ghost predicate ReportHolds(live: View, sid: Paths.ShortId, task: Task, items: seq<GraphItem>, i: nat)
    requires i < |items|
  {
    var key := Key(task.src.service, IdOf(items[i]));
    match items[i]
    case Mail(m) =>
      if m.removed then key !in live
      else (forall g <- items :: g.Mail?) ==> key in live && IsMessageRow(sid, task, m, live[key])
    case File(item) =>
      if item.removed then key !in live
      else (key in live <==> !TakenLater(items, i)) && (key in live ==> IsFileRow(task, item, live[key]))
  }

  ghost predicate DoomedIn(src: Source, cs: seq<Delta>, i: nat, n: nat, k: Key)
    requires i < n <= |cs| && cs[i].Fetch?
  {
    exists j :: i < j < n && cs[j].DropPath? && Doomed(src, cs[j], k, RowOf(src, cs[i]))
  }

  /** Fetched last, the row lives until a removed path covers it. */
  lemma {:induction false} AfterLastFetch(src: Source, v: View, cs: seq<Delta>, i: nat, n: nat, k: Key)
    requires i < n <= |cs| && cs[i].Fetch? && Own(src, cs[i], k) && forall j :: i < j < n ==> !Own(src, cs[j], k)
    ensures k in At(src, v, cs, n) <==> !DoomedIn(src, cs, i, n, k)
    ensures k in At(src, v, cs, n) ==> At(src, v, cs, n)[k] == RowOf(src, cs[i])
    decreases n
  {
    hide RowOf;
    hide Doomed;
    if n == i + 1 {
      assert At(src, v, cs, n) == Effect(src, At(src, v, cs, i), cs[i]);
    } else {
      AfterLastFetch(src, v, cs, i, n - 1, k);
      assert !Own(src, cs[n - 1], k);
    }
  }

  lemma {:induction false} AfterLastRemoval(src: Source, v: View, cs: seq<Delta>, i: nat, n: nat, k: Key)
    requires i < n <= |cs| && !cs[i].Fetch? && Own(src, cs[i], k) && forall j :: i < j < n ==> !Own(src, cs[j], k)
    ensures k !in At(src, v, cs, n)
    decreases n
  {
    hide Covers;
    if n > i + 1 {
      AfterLastRemoval(src, v, cs, i, n - 1, k);
      assert !Own(src, cs[n - 1], k);
      EffectElsewhere(src, At(src, v, cs, n - 1), cs[n - 1], k);
    }
  }

  lemma OnlyOwn(sid: Paths.ShortId, task: Task, items: seq<GraphItem>, i: nat)
    requires i < |items| && LastReport(items, i)
    ensures var cs, key := DeltasOf(sid, task, items), Key(task.src.service, IdOf(items[i]));
            Own(task.src, cs[i], key) && forall j :: i < j < |cs| ==> !Own(task.src, cs[j], key)
  {
    hide DeltaOf;
    hide Own;
    hide About;
    var id := IdOf(items[i]);
    OwnMeansAbout(sid, task, items[i], id);
    forall j | i < j < |items| ensures !Own(task.src, DeltaOf(sid, task, items[j]), Key(task.src.service, id)) {
      OwnMeansAbout(sid, task, items[j], id);
    }
  }

  lemma MessageReportHolds(sid: Paths.ShortId, task: Task, items: seq<GraphItem>, v: View, i: nat)
    requires i < |items| && LastReport(items, i) && items[i].Mail?
    ensures ReportHolds(At(task.src, v, DeltasOf(sid, task, items), |items|), sid, task, items, i)
  {
    var cs, m := DeltasOf(sid, task, items), items[i].message;
    var key := Key(task.src.service, m.id);
    OnlyOwn(sid, task, items, i);
    if m.removed {
      AfterLastRemoval(task.src, v, cs, i, |cs|, key);
    } else if forall g <- items :: g.Mail? {
      AfterLastFetch(task.src, v, cs, i, |cs|, key);
      forall j | i < j < |cs| ensures !cs[j].DropPath? {
        assert items[j] in items;
      }
      if Paths.IsShort(sid(m.id)) {
        Paths.EmlShortRoundTrip(task.decode(m.subject), sid(m.id));
      }
      hide At;
      hide Paths.EmlFileName;
      hide Paths.EmlShortFromName;
    }
  }

  /** A removed path dooms a fetched file exactly if it is the file's path or a folder above it. */
  lemma DoomedBySegs(sid: Paths.ShortId, task: Task, g: GraphItem, h: GraphItem, key: Key)
    requires Paths.CleanSeg(task.src.mailbox) && g.File? && DeltaOf(sid, task, g).Fetch? && key == Key(task.src.service, g.item.id)
    requires !Own(task.src, DeltaOf(sid, task, h), key)
    ensures var d := DeltaOf(sid, task, h);
            d.DropPath? && Doomed(task.src, d, key, RowOf(task.src, DeltaOf(sid, task, g))) <==>
            RemovesPath(h) && DriveSegs(h.item) <= DriveSegs(g.item)
  {
    hide DriveSegs;
    hide Join;
    hide Feed.Dir;
    hide Feed.Base;
    hide Covers;
    var d := DeltaOf(sid, task, h);
    if d.DropPath? {
      RemovalTakesItem(g.item, h.item, task.src.mailbox, RowOf(task.src, DeltaOf(sid, task, g)));
    }
  }

  lemma FileReportHolds(sid: Paths.ShortId, task: Task, items: seq<GraphItem>, v: View, i: nat)
    requires i < |items| && LastReport(items, i) && items[i].File? && Paths.CleanSeg(task.src.mailbox)
    ensures ReportHolds(At(task.src, v, DeltasOf(sid, task, items), |items|), sid, task, items, i)
  {
    var cs, item := DeltasOf(sid, task, items), items[i].item;
    var key := Key(task.src.service, item.id);
    OnlyOwn(sid, task, items, i);
    FileDelta(item);
    hide DriveSegs;
    hide Join;
    hide Feed.Dir;
    hide Feed.Base;
    if item.removed {
      AfterLastRemoval(task.src, v, cs, i, |cs|, key);
    } else {
      AfterLastFetch(task.src, v, cs, i, |cs|, key);
      hide At;
      DoomedMeansTaken(sid, task, items, i);
      FetchedAtItsPath(item, task.src.mailbox);
    }
  }

  lemma FileDelta(item: DriveItem)
    requires item.file && item.id != "" && Join(DriveSegs(item)) != ""
    ensures DriveDelta(item).Fetch? <==> !item.removed
    ensures !item.removed ==> DriveDelta(item).id == item.id && DriveDelta(item).subject == ""
  {
    hide DriveSegs;
    hide Join;
  }

  lemma DoomedMeansTaken(sid: Paths.ShortId, task: Task, items: seq<GraphItem>, i: nat)
    requires i < |items| && LastReport(items, i) && items[i].File? && Paths.CleanSeg(task.src.mailbox)
    requires DeltasOf(sid, task, items)[i].Fetch?
    ensures DoomedIn(task.src, DeltasOf(sid, task, items), i, |items|, Key(task.src.service, IdOf(items[i]))) <==> TakenLater(items, i)
  {
    var cs, key := DeltasOf(sid, task, items), Key(task.src.service, IdOf(items[i]));
    OnlyOwn(sid, task, items, i);
    forall j | i < j < |items|
      ensures cs[j].DropPath? && Doomed(task.src, cs[j], key, RowOf(task.src, cs[i])) <==>
              RemovesPath(items[j]) && DriveSegs(items[j].item) <= DriveSegs(items[i].item)
    {
      DoomedBySegs(sid, task, items[i], items[j], key);
    }
    hide Doomed;
    hide RowOf;
    hide DeltaOf;
    hide RemovesPath;
  }

  /** After the whole feed the last report about every row holds. */
  lemma LastReportsHold(sid: Paths.ShortId, task: Task, items: seq<GraphItem>, v: View, i: nat)
    requires i < |items| && LastReport(items, i) && Paths.CleanSeg(task.src.mailbox)
    ensures ReportHolds(At(task.src, v, DeltasOf(sid, task, items), |items|), sid, task, items, i)
  {
    hide ReportHolds;
    if items[i].Mail? {
      MessageReportHolds(sid, task, items, v, i);
    } else {
      FileReportHolds(sid, task, items, v, i);
    }
  }

  // ---------- when a sync changes nothing ----------

  /** The stored row is exactly what the entry asks for. */
  predicate UpToDate(src: Source, db: Tables, id: string, parent: string, name: string, subject: string) {
    var key := Key(src.service, id);
    && Stocked(db, key)
    && db.items[key].mailbox == src.mailbox && db.items[key].parent == parent
    && db.items[key].name == name && db.items[key].subject == subject
  }

  /** An entry that leaves rows and pending changes alone; a removed id is always noted, stored or not. */
  ghost predicate Quiet(src: Source, db: Tables, d: Delta) {
    match d
    case Pass => true
    case Drop(id) => id == ""
    case DropPath(rel, file) => PrefixKeys(db, src.service, src.mailbox, rel) == {} && file == ""
    case Fetch(id, parent, name, subject, reuse) =>
      id == "" || (Feed.Skips(LiveBlob(db, Key(src.service, id)), reuse) && UpToDate(src, db, id, parent, name, subject))
  }

  ghost predicate NothingPending(s: Session, service: string) {
    forall k <- s.pending :: k.service != service
  }

  lemma SkipsMeansNothing(s: Session, service: string)
    requires s.trackChanges
    ensures T.Skips(s, service) <==> NothingPending(s, service)
  {
    if T.Skips(s, service) {
      forall k | k in s.pending ensures k.service != service {
        assert k.service == service ==> k in PendingOf(s, service);
      }
    } else {
      assert exists k :: k in PendingOf(s, service);
    }
  }

  lemma QuietStays(sid: Paths.ShortId, src: Source, st: State, d: Delta)
    requires src.service != "" && Quiet(src, st.db, d)
    ensures ApplyDelta(sid, src, st, d) == st
  {
    match d
    case Pass =>
    case Drop(_) =>
    case Fetch(id, parent, name, subject, reuse) =>
      if id != "" {
        var row := st.db.items[Key(src.service, id)];
        assert row.(mailbox := src.mailbox, parent := parent, name := name, subject := subject) == row;
      }
    case DropPath(rel, _) =>
      var none: set<Key> := {};
      assert PrefixKeys(st.db, src.service, src.mailbox, rel) == none;
      assert DeleteAll(st, none) == st by {
        assert DeleteAll(st, none).db.items == st.db.items;
        assert DeleteAll(st, none).session.pending == st.session.pending;
      }
      hide PrefixKeys;
      hide DeleteAll;
  }

  lemma LoudIsNoted(sid: Paths.ShortId, src: Source, st: State, d: Delta)
    requires src.service != "" && st.session.trackChanges
    ensures var e := ApplyDelta(sid, src, st, d).session;
            && e.trackChanges && st.session.pending.Keys <= e.pending.Keys
            && (!Quiet(src, st.db, d) ==> !NothingPending(e, src.service))
  {
    hide AliasOf;
    hide TrimSlashes;
    hide Covers;
    match d
    case Pass =>
    case Drop(id) =>
      assert id != "" ==> Key(src.service, id) in ApplyDelta(sid, src, st, d).session.pending;
    case Fetch(id, _, _, _, _) =>
      assert !Quiet(src, st.db, d) ==> Key(src.service, id) in ApplyDelta(sid, src, st, d).session.pending;
    case DropPath(rel, file) => LoudRemoval(sid, src, st, rel, file);
  }

  lemma LoudRemoval(sid: Paths.ShortId, src: Source, st: State, rel: string, file: string)
    requires src.service != "" && st.session.trackChanges
    ensures var e := ApplyDelta(sid, src, st, DropPath(rel, file)).session;
            && e.trackChanges && st.session.pending.Keys <= e.pending.Keys
            && (!Quiet(src, st.db, DropPath(rel, file)) ==> !NothingPending(e, src.service))
  {
    var doomed := PrefixKeys(st.db, src.service, src.mailbox, rel);
    var mid, e := DeleteAll(st, doomed).session, ApplyDelta(sid, src, st, DropPath(rel, file)).session;
    assert mid.pending.Keys <= e.pending.Keys && (file != "" ==> Key(src.service, file) in e.pending) by {
      hide AliasOf;
      hide PrefixKeys;
    }
    hide ApplyDelta;
    hide Covers;
    if doomed != {} {
      var k :| k in doomed;
      assert k in mid.pending;
    }
  }

  /** Over a whole feed: nothing pending in the end exactly if every entry is quiet, and then nothing happened at all. */
  lemma {:induction false} QuietFeedIff(sid: Paths.ShortId, src: Source, st: State, cs: seq<Delta>)
    requires src.service != "" && st.session.trackChanges && NothingPending(st.session, src.service)
    ensures var e := ApplyAll(sid, src, st, cs);
            && e.session.trackChanges
            && (NothingPending(e.session, src.service) <==> forall d <- cs :: Quiet(src, st.db, d))
            && ((forall d <- cs :: Quiet(src, st.db, d)) ==> e == st)
  {
    hide Quiet;
    hide ApplyDelta;
    if cs != [] {
      var n := |cs| - 1;
      QuietFeedIff(sid, src, st, cs[..n]);
      var mid := ApplyAll(sid, src, st, cs[..n]);
      LoudIsNoted(sid, src, mid, cs[n]);
      assert cs == cs[..n] + [cs[n]];
      if forall d <- cs[..n] :: Quiet(src, st.db, d) {
        if Quiet(src, st.db, cs[n]) {
          QuietStays(sid, src, st, cs[n]);
        }
      }
    }
  }

  /** A report that says nothing new. */
  ghost predicate OldNews(sid: Paths.ShortId, task: Task, db: Tables, g: GraphItem) {
    match g
    case Mail(m) =>
      m.id == "" || (!m.removed && UpToDate(task.src, db, m.id, task.folder,
                                            Paths.EmlFileName(task.decode(m.subject), sid(m.id)), task.decode(m.subject)))
    case File(item) =>
      var segs := DriveSegs(item);
      if Join(segs) == "" then true
      else if item.removed then
        (!item.file || item.id == "") && forall k: Key :: !LiesBelow(db, task.src, k, Join(segs))
      else
        || !item.file || item.id == ""
        || (&& segs != [] && UpToDate(task.src, db, item.id, Join(segs[..|segs| - 1]), segs[|segs| - 1], "")
            && item.size == Some(db.items[Key(task.src.service, item.id)].size))
  }

  lemma OldFileIsQuiet(sid: Paths.ShortId, task: Task, db: Tables, item: DriveItem)
    ensures OldNews(sid, task, db, File(item)) <==> Quiet(task.src, db, DriveDelta(item))
  {
    var segs := DriveSegs(item);
    DriveSegsArePlain(item);
    hide DriveSegs;
    hide Paths.PlainSeg;
    hide TrimSlashes;
    if Join(segs) == "" {
    } else if item.removed {
      PathIsTrimmed(segs);
      hide Join;
      forall k: Key ensures k in PrefixKeys(db, task.src.service, task.src.mailbox, Join(segs)) <==> LiesBelow(db, task.src, k, Join(segs)) {
      }
      hide PrefixKeys;
      hide LiesBelow;
    } else if item.file && item.id != "" {
      assert segs != [];
      var top, last := SplitLast(segs);
      DirAndBase(top, last);
      hide Join;
      hide Feed.Dir;
      hide Feed.Base;
    }
  }

  /**
   The snapshot after an incremental sync is skipped exactly if every report of the feed is
   old news for the catalog it started from; the catalog is then untouched.
   */
  lemma SyncSkipsIff(sid: Paths.ShortId, task: Task, st: State, items: seq<GraphItem>)
    requires task.src.service != "" && st.session.trackChanges && NothingPending(st.session, task.src.service)
    ensures var e := ApplyAll(sid, task.src, st, DeltasOf(sid, task, items));
            && (T.Skips(e.session, task.src.service) <==> forall g <- items :: OldNews(sid, task, st.db, g))
            && ((forall g <- items :: OldNews(sid, task, st.db, g)) ==> e == st)
  {
    var cs := DeltasOf(sid, task, items);
    forall i | 0 <= i < |items| ensures OldNews(sid, task, st.db, items[i]) <==> Quiet(task.src, st.db, cs[i]) {
      if items[i].File? {
        OldFileIsQuiet(sid, task, st.db, items[i].item);
      }
      hide DriveDelta;
      hide Paths.EmlFileName;
    }
    hide OldNews;
    hide Quiet;
    QuietFeedIff(sid, task.src, st, cs);
    SkipsMeansNothing(ApplyAll(sid, task.src, st, cs).session, task.src.service);
  }
}
