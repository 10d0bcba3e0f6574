/** Stored delta links, one per tenant, service and user or folder. */
module DeltaTokens {
  import opened Tables

  datatype TokenKey = TokenKey(tenant: string, service: string, user: string)

  /** `odataResumeURL`: the next page is preferred over the end of the feed. */
  function ResumeUrl(next: Option<string>, delta: Option<string>): string {
    if next.Some? && next.value != "" then next.value
    else if delta.Some? then delta.value
    else ""
  }

  function Without(tokens: map<TokenKey, string>, tenant: string, service: string): map<TokenKey, string> {
    map k | k in tokens && !(k.tenant == tenant && k.service == service) :: tokens[k]
  }

  class TokenStore {
    var tokens: map<TokenKey, string>

    constructor (tokens: map<TokenKey, string>)
      ensures this.tokens == tokens
    {
      this.tokens := tokens;
    }

    function Saved(key: TokenKey): string
      reads this
    {
      if key in tokens then tokens[key] else ""
    }

    /** `persistDeltaURL`: an empty link never overwrites a stored one. */
    method Persist(key: TokenKey, url: string)
      modifies this
      ensures tokens == if url == "" then old(tokens) else old(tokens)[key := url]
    {
      if url == "" {
        return;
      }
      tokens := tokens[key := url];
    }

    method DeleteAll(tenant: string, service: string) returns (ok: bool)
      modifies this
      ensures ok == (tenant != "" && service != "")
      ensures tokens == if ok then Without(old(tokens), tenant, service) else old(tokens)
    {
      ok := tenant != "" && service != "";
      if ok {
        tokens := Without(tokens, tenant, service);
      }
    }
  }
}

/**
 The page loops of the Exchange and OneDrive jobs, cancellable before any item and
 inside the removal of a folder, and the sequence of jobs that follow one another on
 the same stored link.
 */
module SyncLoop {
  import opened Strings
  import opened Tables
  import opened CatalogNumbers
  import opened CatalogStore
  import opened CatalogViews
  import opened Feed
  import opened DeltaSync
  import opened SyncMeaning
  import opened DeltaTokens
  import Paths

  datatype Page = Page(items: seq<GraphItem>, next: Option<string>, delta: Option<string>)

  // ---------- one item ----------

  method HandleMessage(store: Store, task: Task, m: Message)
    requires store.Valid()
    modifies store
    ensures store.Valid()
    ensures store.Now() ==
            ApplyDelta(store.sid, task.src, old(store.Now()), MessageDelta(store.sid, task.decode, task.folder, m))
    ensures NoImports(old(store.db)) && task.src.service != "" ==>
              MessageHandled(store.sid, task.src, task.folder, task.decode, old(store.db), store.db, m)
  {
    ghost var start := store.Now();
    if NoImports(store.db) && task.src.service != "" {
      MessageMeans(store.sid, task.src, task.folder, task.decode, start, m);
    }
    hide MessageHandled;
    hide Paths.EmlFileName;
    if m.id == "" {
      return;
    }
    var key := Key(task.src.service, m.id);
    if m.removed {
      var _ := store.Delete(key);
      return;
    }
    var subject := task.decode(m.subject);
    var name := Paths.EmlFileName(subject, store.sid(m.id));
    if Feed.Skips(LiveBlob(store.db, key), Always) {
      var _ := store.Refresh(key, task.src.mailbox, task.folder, name, subject);
    } else {
      var _ := store.Put(key, Item(task.src.mailbox, task.folder, name, NoHash, 0, subject, false), task.src.content(m.id));
    }
  }

  method RemoveDriveItem(store: Store, src: Source, rel: string, file: string)
    requires store.Valid()
    modifies store
    ensures store.Valid()
    ensures store.Now() == ApplyDelta(store.sid, src, old(store.Now()), DropPath(rel, file))
  {
    store.DeletePrefix(src.service, src.mailbox, rel);
    if file != "" {
      var _ := store.Delete(Key(src.service, file));
    }
  }

  method StoreDriveItem(store: Store, src: Source, id: string, parent: string, name: string, size: Option<nat>)
    requires store.Valid()
    modifies store
    ensures store.Valid()
    ensures store.Now() == ApplyDelta(store.sid, src, old(store.Now()),
                             Fetch(id, parent, name, "", if size.Some? then IfSize(size.value) else Never))
  {
    var key := Key(src.service, id);
    var existing := LiveBlob(store.db, key);
    if size.Some? && Feed.Skips(existing, IfSize(size.value)) {
      var _ := store.Refresh(key, src.mailbox, parent, name, "");
    } else {
      var _ := store.Put(key, Item(src.mailbox, parent, name, NoHash, 0, "", false), src.content(id));
    }
  }

  method HandleDriveItem(store: Store, src: Source, item: DriveItem)
    requires store.Valid()
    modifies store
    ensures store.Valid()
    ensures store.Now() == ApplyDelta(store.sid, src, old(store.Now()), DriveDelta(item))
    ensures NoImports(old(store.db)) && src.service != "" ==>
              DriveHandled(src, old(store.db), store.db, item, Join(DriveSegs(item)))
  {
    ghost var start := store.Now();
    DispatchDriveItem(store, src, item);
    if NoImports(start.db) && src.service != "" {
      DriveMeans(store.sid, src, start, item);
    }
    hide *;
  }

  method DispatchDriveItem(store: Store, src: Source, item: DriveItem)
    requires store.Valid()
    modifies store
    ensures store.Valid()
    ensures store.Now() == ApplyDelta(store.sid, src, old(store.Now()), DriveDelta(item))
  {
    hide DriveSegs;
    hide Join;
    hide HasDotDot;
    hide Feed.Dir;
    hide Feed.Base;
    var rel := DriveItemRelPath(item);
    if rel == "" || rel == "." || HasDotDot(rel) {
      return;
    }
    hide ApplyDelta;
    if item.removed {
      RemoveDriveItem(store, src, rel, if item.file then item.id else "");
      return;
    }
    if (item.folder && !item.file) || !item.file || item.id == "" {
      return;
    }
    StoreDriveItem(store, src, item.id, Feed.Dir(rel), Feed.Base(rel), item.size);
  }

  method HandleItem(store: Store, task: Task, g: GraphItem)
    requires store.Valid()
    modifies store
    ensures store.Valid()
    ensures store.Now() == ApplyDelta(store.sid, task.src, old(store.Now()), DeltaOf(store.sid, task, g))
  {
    match g
    case Mail(m) => HandleMessage(store, task, m);
    case File(item) => HandleDriveItem(store, task.src, item);
  }

  // ---------- one page ----------

  /** A removal that the cancelled context stops after `rows` single deletions. */
  method CutRemoval(store: Store, src: Source, rel: string, rows: nat) returns (ghost cut: set<Key>)
    requires store.Valid()
    modifies store
    ensures store.Valid() && cut <= PrefixKeys(old(store.db), src.service, src.mailbox, rel)
    ensures store.Now() == DeleteAll(old(store.Now()), cut)
  {
    var doomed := Select(PrefixKeys(store.db, src.service, src.mailbox, rel));
    var first := doomed[..if rows < |doomed| then rows else |doomed|];
    cut := Elements(first);
    assert forall k <- first :: k in doomed;
    store.DeleteRows(first);
  }

  /** The item at which the context is cancelled. */
  method CutItem(store: Store, task: Task, g: GraphItem, rows: nat) returns (ghost cut: set<Key>)
    requires store.Valid()
    modifies store
    ensures store.Valid()
    ensures store.Now() == CutShort(task.src, old(store.Now()), DeltaOf(store.sid, task, g), cut)
  {
    cut := {};
    if g.File? && g.item.removed {
      var rel := DriveItemRelPath(g.item);
      if rel != "" {
        hide DriveSegs;
        hide PrefixKeys;
        DeleteNone(store.Now());
        ghost var doomed := PrefixKeys(store.db, task.src.service, task.src.mailbox, rel);
        cut := CutRemoval(store, task.src, rel, rows);
        assert cut * doomed == cut;
      }
    }
  }

  /**
   The items of a page until the context is cancelled: after `ticks` items, and if the
   next one removes a path, after `rows` of its single deletions.
   */
  method SyncPage(store: Store, task: Task, items: seq<GraphItem>, ticks: nat, rows: nat, ghost cs: seq<Delta>, ghost at: nat)
    returns (done: nat, ghost cut: set<Key>)
    requires store.Valid()
    requires at + |items| <= |cs| && cs[at..at + |items|] == DeltasOf(store.sid, task, items)
    modifies store
    ensures store.Valid() && done == (if ticks < |items| then ticks else |items|) && (done == |items| ==> cut == {})
    ensures store.Now() == StoppedAt(store.sid, task.src, old(store.Now()), cs, at, at + done, cut)
  {
    hide ApplyDelta;
    hide DeltaOf;
    hide CutShort;
    done, cut := 0, {};
    while done < |items| && done < ticks
      invariant store.Valid() && done <= |items| && done <= ticks
      invariant store.Now() == ApplyAll(store.sid, task.src, old(store.Now()), cs[at..at + done])
    {
      assert cs[at..at + |items|][done] == cs[at + done];
      NextEntry(store.sid, task.src, old(store.Now()), cs, at, at + done);
      HandleItem(store, task, items[done]);
      done := done + 1;
    }
    if done < |items| {
      assert cs[at..at + |items|][done] == cs[at + done];
      cut := CutItem(store, task, items[done], rows);
      NoCut(task.src, ApplyAll(store.sid, task.src, old(store.Now()), cs[at..at + done]), cs[at + done]);
    }
  }

  /** The state after the entries before `till`, cut off inside the one there. */
  function StoppedAt(sid: Paths.ShortId, src: Source, st: State, cs: seq<Delta>, from: nat, till: nat, cut: set<Key>): State
    requires from <= till <= |cs|
  {
    var done := ApplyAll(sid, src, st, cs[from..till]);
    if cut == {} || till == |cs| then done else CutShort(src, done, cs[till], cut)
  }

  lemma NoCut(src: Source, st: State, d: Delta)
    ensures CutShort(src, st, d, {}) == st
  {
  }

  lemma NothingApplied(sid: Paths.ShortId, src: Source, st: State)
    ensures ApplyAll(sid, src, st, []) == st
  {
  }

  lemma NextEntry(sid: Paths.ShortId, src: Source, st: State, cs: seq<Delta>, a: nat, b: nat)
    requires a <= b < |cs|
    ensures ApplyAll(sid, src, st, cs[a..b + 1]) == ApplyDelta(sid, src, ApplyAll(sid, src, st, cs[a..b]), cs[b])
  {
    assert cs[a..b + 1][..|cs[a..b + 1]| - 1] == cs[a..b];
  }

  lemma {:induction false} ApplyFurther(sid: Paths.ShortId, src: Source, st: State, cs: seq<Delta>, a: nat, b: nat, c: nat)
    requires a <= b <= c <= |cs|
    ensures ApplyAll(sid, src, ApplyAll(sid, src, st, cs[a..b]), cs[b..c]) == ApplyAll(sid, src, st, cs[a..c])
    decreases c
  {
    hide ApplyDelta;
    if b < c {
      ApplyFurther(sid, src, st, cs, a, b, c - 1);
      NextEntry(sid, src, ApplyAll(sid, src, st, cs[a..b]), cs, b, c - 1);
      NextEntry(sid, src, st, cs, a, c - 1);
    }
  }

  lemma StoppedFurther(sid: Paths.ShortId, src: Source, st: State, mid: State, cs: seq<Delta>, a: nat, b: nat, c: nat, cut: set<Key>)
    requires a <= b <= c <= |cs| && mid == ApplyAll(sid, src, st, cs[a..b])
    ensures StoppedAt(sid, src, mid, cs, b, c, cut) == StoppedAt(sid, src, st, cs, a, c, cut)
    ensures cut == {} ==> StoppedAt(sid, src, st, cs, a, c, cut) == ApplyAll(sid, src, st, cs[a..c])
  {
    ApplyFurther(sid, src, st, cs, a, b, c);
    hide ApplyAll;
    hide CutShort;
  }

  // ---------- the feed as pages ----------

  /**
   When the environment stops a job: the context is cancelled after `ticks` items and
   `rows` deletions of a removal, and fetching fails after `fetches` pages. A first sync
   runs as a full job.
   */
  datatype Limit = Limit(ticks: nat, rows: nat, fetches: nat, full: bool)

  function FeedOf(sid: Paths.ShortId, task: Task, pages: seq<Page>): seq<Delta> {
    if pages == [] then []
    else FeedOf(sid, task, pages[..|pages| - 1]) + DeltasOf(sid, task, pages[|pages| - 1].items)
  }

  /** All items of the feed, page after page. */
  function ItemsOf(pages: seq<Page>): seq<GraphItem> {
    if pages == [] then [] else ItemsOf(pages[..|pages| - 1]) + pages[|pages| - 1].items
  }

  lemma {:induction false} FeedIsItems(sid: Paths.ShortId, task: Task, pages: seq<Page>)
    ensures FeedOf(sid, task, pages) == DeltasOf(sid, task, ItemsOf(pages))
  {
    hide DeltaOf;
    if pages != [] {
      FeedIsItems(sid, task, pages[..|pages| - 1]);
    }
  }

  function Offset(sid: Paths.ShortId, task: Task, pages: seq<Page>, t: nat): nat
    requires t <= |pages|
  {
    |FeedOf(sid, task, pages[..t])|
  }

  lemma {:induction false} FeedPrefix(sid: Paths.ShortId, task: Task, pages: seq<Page>, t: nat)
    requires t <= |pages|
    ensures FeedOf(sid, task, pages[..t]) <= FeedOf(sid, task, pages)
    decreases |pages| - t
  {
    if t == |pages| {
      assert pages[..t] == pages;
    } else {
      assert pages[..t + 1][..t] == pages[..t];
      FeedPrefix(sid, task, pages, t + 1);
    }
  }

  /** Page `t` is the stretch of the feed between its offset and the next. */
  lemma PageInFeed(sid: Paths.ShortId, task: Task, pages: seq<Page>, t: nat)
    requires t < |pages|
    ensures var at, cs := Offset(sid, task, pages, t), FeedOf(sid, task, pages);
            var end := at + |pages[t].items|;
            && Offset(sid, task, pages, t + 1) == end <= |cs|
            && cs[at..end] == DeltasOf(sid, task, pages[t].items)
  {
    assert pages[..t + 1][..t] == pages[..t];
    FeedPrefix(sid, task, pages, t + 1);
  }

  // ---------- the page loop ----------

  predicate LinksTo(page: Page, url: string, last: bool) {
    && url != ""
    && if last then (page.next.None? || page.next.value == "") && page.delta == Some(url) else page.next == Some(url)
  }

  /** Graph serves the pages at these links; the last one leads to the link of the next feed. */
  ghost predicate Serves(server: map<string, Page>, urls: seq<string>, pages: seq<Page>) {
    && |pages| > 0 && |urls| == |pages| + 1
    && (forall t :: 0 <= t < |pages| ==> urls[t] in server && server[urls[t]] == pages[t])
    && (forall t :: 0 <= t < |pages| ==> LinksTo(pages[t], urls[t + 1], t + 1 == |pages|))
  }

  lemma PageServed(server: map<string, Page>, urls: seq<string>, pages: seq<Page>, t: nat)
    requires Serves(server, urls, pages) && t < |pages|
    ensures |urls| == |pages| + 1 && urls[t] in server && server[urls[t]] == pages[t]
    ensures LinksTo(pages[t], urls[t + 1], t + 1 == |pages|)
  {
    assert pages[t] in pages;
  }

  lemma OffsetBound(sid: Paths.ShortId, task: Task, pages: seq<Page>, t: nat)
    requires t <= |pages|
    ensures Offset(sid, task, pages, t) <= |FeedOf(sid, task, pages)|
  {
    FeedPrefix(sid, task, pages, t);
  }

  lemma OffsetEnd(sid: Paths.ShortId, task: Task, pages: seq<Page>)
    ensures Offset(sid, task, pages, |pages|) == |FeedOf(sid, task, pages)|
  {
    assert pages[..|pages|] == pages;
  }

  /** Which link is stored after the pages before `t`. */
  ghost predicate Stored(before: map<TokenKey, string>, after: map<TokenKey, string>, key: TokenKey,
                         urls: seq<string>, first: nat, t: nat)
    requires t < |urls|
  {
    after == if t == first then before else before[key := urls[t]]
  }

  /**
   One job: from the page of the saved link on, page by page, storing the resume
   link after each complete page, within its limits.
   */
  method SyncPages(store: Store, tokens: TokenStore, key: TokenKey, task: Task, server: map<string, Page>,
                   saved: string, lim: Limit, ghost urls: seq<string>, ghost pages: seq<Page>, ghost first: nat)
    returns (finished: bool, ghost pos: nat, ghost cut: set<Key>, ghost t: nat)
    requires store.Valid() && Serves(server, urls, pages) && first < |pages| && urls[first] == saved
    modifies store, tokens
    ensures store.Valid() && first <= t <= |pages|
    ensures Offset(store.sid, task, pages, first) <= pos <= |FeedOf(store.sid, task, pages)|
    ensures Offset(store.sid, task, pages, t) <= pos
    ensures store.Now() == StoppedAt(store.sid, task.src, old(store.Now()), FeedOf(store.sid, task, pages),
                             Offset(store.sid, task, pages, first), pos, cut)
    ensures cut != {} ==> pos < |FeedOf(store.sid, task, pages)|
    ensures Stored(old(tokens.tokens), tokens.tokens, key, urls, first, t)
    ensures finished <==> t == |pages|
    ensures finished ==> pos == |FeedOf(store.sid, task, pages)|
    ensures lim.ticks >= |FeedOf(store.sid, task, pages)| && lim.fetches >= |pages| ==> finished
  {
    hide ApplyDelta;
    hide ApplyAll;
    hide FeedOf;
    hide Serves;
    hide Offset;
    PageServed(server, urls, pages, first);
    OffsetBound(store.sid, task, pages, first);
    NothingApplied(store.sid, task.src, store.Now());
    ghost var cs := FeedOf(store.sid, task, pages);
    ghost var from := Offset(store.sid, task, pages, first);
    var url := saved;
    var left: nat, budget: nat := lim.ticks, lim.fetches;
    t, pos, cut := first, from, {};
    assert cs[from..from] == [];
    while true
      invariant store.Valid() && first <= t < |pages| && url == urls[t]
      invariant from <= pos <= |cs| && pos == Offset(store.sid, task, pages, t)
      invariant store.Now() == ApplyAll(store.sid, task.src, old(store.Now()), cs[from..pos])
      invariant Stored(old(tokens.tokens), tokens.tokens, key, urls, first, t)
      invariant left + pos >= lim.ticks && budget + t >= lim.fetches && cut == {}
      decreases |pages| - t
    {
      if budget == 0 {
        return false, pos, cut, t;
      }
      PageServed(server, urls, pages, t);
      var page := server[url];
      PageInFeed(store.sid, task, pages, t);
      ghost var at := pos;
      ghost var before := store.Now();
      var done;
      done, cut := SyncPage(store, task, page.items, left, lim.rows, cs, at);
      pos := at + done;
      StoppedFurther(store.sid, task.src, old(store.Now()), before, cs, from, at, pos, cut);
      if done < |page.items| {
        return false, pos, cut, t;
      }
      left, budget := left - done, budget - 1;
      tokens.Persist(key, ResumeUrl(page.next, page.delta));
      t := t + 1;
      if page.next.None? || page.next.value == "" {
        OffsetEnd(store.sid, task, pages);
        return true, pos, cut, t;
      }
      url := page.next.value;
    }
  }

  // ---------- job after job ----------

  /** `db` is what the jobs `runs` made of `start`, and page `t` is where the next one begins. */
  ghost predicate Between(sid: Paths.ShortId, task: Task, pages: seq<Page>, start: Tables, runs: seq<Attempt>, db: Tables, t: nat)
    requires t <= |pages|
  {
    var cs := FeedOf(sid, task, pages);
    && SoundTables(db) && Resumes(cs, runs) && db == AfterRuns(sid, task.src, cs, start, runs)
    && Offset(sid, task, pages, t) <= Position(runs) <= |cs|
  }

  /** A new job on what the last one left: only the tables and the stored link survive. */
  method OneJob(sid: Paths.ShortId, db: Tables, tokens: TokenStore, key: TokenKey, task: Task, server: map<string, Page>,
                lim: Limit, ghost urls: seq<string>, ghost pages: seq<Page>,
                ghost start: Tables, ghost runs: seq<Attempt>, ghost t: nat)
    returns (end: Tables, finished: bool, ghost more: seq<Attempt>, ghost next: nat)
    requires Serves(server, urls, pages) && t < |pages| && tokens.Saved(key) == urls[t]
    requires Between(sid, task, pages, start, runs, db, t)
    modifies tokens
    ensures t <= next <= |pages| && Between(sid, task, pages, start, more, end, next)
    ensures Stored(old(tokens.tokens), tokens.tokens, key, urls, t, next)
    ensures finished <==> next == |pages|
    ensures finished ==> Position(more) == |FeedOf(sid, task, pages)|
  {
    hide ApplyDelta;
    hide ApplyAll;
    hide AfterRuns;
    hide Resumes;
    hide Position;
    hide StoppedAt;
    hide FeedOf;
    hide Offset;
    hide LinksTo;
    var store := new Store(sid, db, lim.full);
    ghost var pos, cut;
    finished, pos, cut, next := SyncPages(store, tokens, key, task, server, tokens.Saved(key), lim, urls, pages, t);
    end := store.db;
    ghost var r := Attempt(Offset(sid, task, pages, t), pos, Opened(lim.full), cut);
    more := OneMoreRun(sid, task.src, FeedOf(sid, task, pages), start, runs, r, db, end);
  }

  /** Job after job until one gets to the end: the catalog is that of a single job. */
  method RunJobs(sid: Paths.ShortId, db: Tables, tokens: TokenStore, key: TokenKey, task: Task, server: map<string, Page>,
                 limits: seq<Limit>, ghost urls: seq<string>, ghost pages: seq<Page>)
    returns (end: Tables, finished: bool)
    requires SoundTables(db) && Serves(server, urls, pages) && tokens.Saved(key) == urls[0]
    requires GoodFeed(task.src, FeedOf(sid, task, pages)) && Ready(task.src, FeedOf(sid, task, pages), db)
    modifies tokens
    ensures finished ==> tokens.tokens == old(tokens.tokens)[key := urls[|pages|]]
    ensures finished ==>
      LiveView(end) == LiveView(ApplyAll(sid, task.src, State(db, Opened(false)), FeedOf(sid, task, pages)).db)
    ensures finished && Paths.CleanSeg(task.src.mailbox) ==> AllReportsHold(LiveView(end), sid, task, ItemsOf(pages))
  {
    PageServed(server, urls, pages, 0);
    hide Serves;
    hide Stored;
    hide SoundTables;
    hide ApplyAll;
    hide Between;
    hide GoodFeed;
    hide Ready;
    hide LiveView;
    hide FeedOf;
    ghost var t, runs := 0, [];
    NoJobYet(sid, task, pages, db);
    end, finished := db, false;
    for i := 0 to |limits|
      invariant t < |pages| && Between(sid, task, pages, db, runs, end, t)
      invariant tokens.Saved(key) == urls[t] && Stored(old(tokens.tokens), tokens.tokens, key, urls, 0, t)
    {
      ghost var before, at := tokens.tokens, t;
      end, finished, runs, t := OneJob(sid, end, tokens, key, task, server, limits[i], urls, pages, db, runs, t);
      StoredOn(old(tokens.tokens), before, tokens.tokens, key, urls, at, t);
      if finished {
        LastJob(sid, task, pages, db, runs, end, t);
        FinishedReports(sid, task, pages, db, LiveView(end));
        return;
      }
    }
    finished := false;
  }

  /** For every id of the feed, what its last report says holds of the live rows. */
  ghost predicate AllReportsHold(live: View, sid: Paths.ShortId, task: Task, items: seq<GraphItem>) {
    forall i :: 0 <= i < |items| && LastReport(items, i) ==> ReportHolds(live, sid, task, items, i)
  }

  lemma FinishedReports(sid: Paths.ShortId, task: Task, pages: seq<Page>, db: Tables, live: View)
    requires GoodFeed(task.src, FeedOf(sid, task, pages)) && Ready(task.src, FeedOf(sid, task, pages), db)
    requires live == LiveView(ApplyAll(sid, task.src, State(db, Opened(false)), FeedOf(sid, task, pages)).db)
    ensures Paths.CleanSeg(task.src.mailbox) ==> AllReportsHold(live, sid, task, ItemsOf(pages))
  {
    var cs, items := FeedOf(sid, task, pages), ItemsOf(pages);
    FeedIsItems(sid, task, pages);
    UninterruptedView(sid, task.src, cs, State(db, Opened(false)), |cs|);
    assert cs[..|cs|] == cs;
    hide ReportHolds;
    hide LastReport;
    hide At;
    hide ApplyAll;
    if Paths.CleanSeg(task.src.mailbox) {
      forall i | 0 <= i < |items| && LastReport(items, i) ensures ReportHolds(live, sid, task, items, i) {
        LastReportsHold(sid, task, items, LiveView(db), i);
      }
    }
  }

  /** Two jobs in a row store what the later one stored. */
  lemma StoredOn(first: map<TokenKey, string>, before: map<TokenKey, string>, after: map<TokenKey, string>, key: TokenKey,
                 urls: seq<string>, at: nat, t: nat)
    requires at <= t < |urls| && Stored(first, before, key, urls, 0, at) && Stored(before, after, key, urls, at, t)
    ensures Stored(first, after, key, urls, 0, t)
    ensures t > 0 ==> key in after && after[key] == urls[t]
  {
  }

  lemma LastJob(sid: Paths.ShortId, task: Task, pages: seq<Page>, start: Tables, runs: seq<Attempt>, db: Tables, t: nat)
    requires t <= |pages| && Between(sid, task, pages, start, runs, db, t)
    requires GoodFeed(task.src, FeedOf(sid, task, pages)) && Ready(task.src, FeedOf(sid, task, pages), start)
    requires Position(runs) == |FeedOf(sid, task, pages)|
    ensures LiveView(db) == LiveView(ApplyAll(sid, task.src, State(start, Opened(false)), FeedOf(sid, task, pages)).db)
  {
    FinishedSync(sid, task.src, FeedOf(sid, task, pages), start, runs, Opened(false));
  }

  lemma NoJobYet(sid: Paths.ShortId, task: Task, pages: seq<Page>, db: Tables)
    requires SoundTables(db)
    ensures Between(sid, task, pages, db, [], db, 0)
  {
    NoRuns(sid, task.src, FeedOf(sid, task, pages), db);
  }

  lemma NoRuns(sid: Paths.ShortId, src: Source, cs: seq<Delta>, db: Tables)
    ensures Resumes(cs, []) && Position([]) == 0 && AfterRuns(sid, src, cs, db, []) == db
  {
  }

  ghost method OneMoreRun(sid: Paths.ShortId, src: Source, cs: seq<Delta>, db: Tables, runs: seq<Attempt>,
                          r: Attempt, before: Tables, after: Tables) returns (more: seq<Attempt>)
    requires Resumes(cs, runs) && before == AfterRuns(sid, src, cs, db, runs)
    requires r.from <= Position(runs) && r.from <= r.till <= |cs| && (r.cut != {} ==> r.till < |cs|)
    requires after == StoppedAt(sid, src, State(before, r.session), cs, r.from, r.till, r.cut).db
    ensures more == runs + [r]
    ensures Resumes(cs, more) && Position(more) == r.till && after == AfterRuns(sid, src, cs, db, more)
  {
    hide ApplyAll;
    hide CutShort;
    more := runs + [r];
    assert more[..|more| - 1] == runs;
  }
}
