/**
 What the delta pages of Graph say, and where the items they name are stored: the
 catalog path of a drive item, and which rows a removed folder covers.
 */
module Feed {
  import opened Strings
  import opened Paths
  import opened Tables

  /** When the stored content stands in for a download. */
  datatype Reuse = Always | IfSize(size: nat) | Never

  /** One entry of a delta page, as far as the catalog is concerned. */
  datatype Delta =
    | Fetch(id: string, parent: string, name: string, subject: string, reuse: Reuse)
    | Drop(id: string)
    | DropPath(rel: string, file: string)
    | Pass

  datatype DriveItem = DriveItem(
    id: string, name: string, parentPath: string, file: bool, folder: bool, removed: bool, size: Option<nat>)

  datatype Message = Message(id: string, subject: string, removed: bool)

  /** `skipContentDownload` on the row read by `LiveBlob`. */
  predicate Skips(existing: Option<Item>, reuse: Reuse) {
    match reuse
    case Never => false
    case Always => existing.Some?
    case IfSize(n) => existing.Some? && existing.value.size == n
  }

  // ---------- messages ----------

  function MessageDelta(sid: ShortId, decode: string -> string, folder: string, m: Message): Delta {
    if m.id == "" then Pass
    else if m.removed then Drop(m.id)
    else Fetch(m.id, folder, EmlFileName(decode(m.subject), sid(m.id)), decode(m.subject), Always)
  }

  // ---------- drive items ----------

  const ROOT := "/root:"

  /** `strings.Index` */
  function Find(s: string, pat: string): (r: int)
    ensures r >= 0 ==> r + |pat| <= |s| && s[r..r + |pat|] == pat
    ensures r < 0 ==> r == -1
  {
    if pat <= s then 0
    else if s == "" then -1
    else
      var r := Find(s[1..], pat);
      if r < 0 then -1 else r + 1
  }

  /** The part of a parent reference below the drive's root. */
  function BelowRoot(p: string): string {
    var i := Find(p, ROOT);
    TrimSlashes(if i >= 0 then p[i + |ROOT|..] else p)
  }

  function Sanitized(segs: seq<string>): (r: seq<string>)
    ensures |r| <= |segs|
  {
    if segs == [] then []
    else
      var seg := segs[|segs| - 1];
      Sanitized(segs[..|segs| - 1]) + if seg == "" then [] else [Sanitize(seg)]
  }

  /** `strings.EqualFold(s, "root")` */
  predicate IsRoot(s: string) {
    |s| == 4 && s[0] in {'r', 'R'} && s[1] in {'o', 'O'} && s[2] in {'o', 'O'} && s[3] in {'t', 'T'}
  }

  function LeafName(name: string): seq<string> {
    if IsRoot(Sanitize(name)) then [] else [Sanitize(name)]
  }

  /** The segments below the mailbox under which a drive item is stored. */
  function DriveSegs(item: DriveItem): seq<string> {
    Sanitized(Split(BelowRoot(item.parentPath))) + LeafName(item.name)
  }

  lemma {:induction false} SanitizedIsPlain(segs: seq<string>)
    ensures forall seg <- Sanitized(segs) :: PlainSeg(seg)
  {
    hide PlainSeg;
    if segs != [] {
      var n := |segs| - 1;
      SanitizedIsPlain(segs[..n]);
      SanitizeIsPlain(segs[n]);
    }
  }

  lemma DriveSegsArePlain(item: DriveItem)
    ensures forall seg <- DriveSegs(item) :: PlainSeg(seg)
  {
    hide PlainSeg;
    SanitizedIsPlain(Split(BelowRoot(item.parentPath)));
    SanitizeIsPlain(item.name);
  }

  // ---------- what the segments are ----------

  lemma {:induction false} FindAt(s: string, pat: string, i: nat)
    requires OccursAt(s, pat, i) && forall k :: 0 <= k < i ==> !OccursAt(s, pat, k)
    ensures Find(s, pat) == i
    decreases |s|
  {
    if i > 0 {
      assert !OccursAt(s, pat, 0);
      var rest := s[1..];
      OccursLater(s, pat, i - 1);
      forall k | 0 <= k < i - 1 ensures !OccursAt(rest, pat, k) {
        OccursLater(s, pat, k);
        assert !OccursAt(s, pat, k + 1);
      }
      FindAt(rest, pat, i - 1);
      assert !(pat <= s);
    }
  }

  lemma OccursLater(s: string, pat: string, k: nat)
    requires s != ""
    ensures OccursAt(s[1..], pat, k) <==> OccursAt(s, pat, k + 1)
  {
    if k + 1 + |pat| <= |s| {
      assert s[1..][k..k + |pat|] == s[k + 1..k + 1 + |pat|];
    }
  }

  /** "/root:" stands right after `head` and nowhere earlier. */
  predicate HeadOfRoot(head: string) {
    forall k :: 0 <= k < |head| ==> !OccursAt(head + "/root:", "/root:", k)
  }

  lemma FindRoot(head: string, rest: string)
    requires HeadOfRoot(head)
    ensures Find(head + "/root:" + rest, ROOT) == |head|
  {
    var s := head + "/root:" + rest;
    assert s[|head|..|head| + 6] == ROOT;
    forall k | 0 <= k < |head| ensures !OccursAt(s, ROOT, k) {
      assert s[k..k + 6] == (head + "/root:")[k..k + 6];
      assert !OccursAt(head + "/root:", "/root:", k);
    }
    FindAt(s, ROOT, |head|);
  }

  /** The parent reference Graph gives for these folders of a drive. */
  function ParentPath(head: string, folders: seq<string>): string {
    head + "/root:" + if folders == [] then "" else "/" + Join(folders)
  }

  lemma BelowRootOf(head: string, folders: seq<string>)
    requires HeadOfRoot(head) && forall seg <- folders :: CleanSeg(seg)
    ensures BelowRoot(ParentPath(head, folders)) == Join(folders)
  {
    var rest := if folders == [] then "" else "/" + Join(folders);
    var p := head + "/root:" + rest;
    FindRoot(head, rest);
    assert p[|head| + 6..] == rest;
    if folders == [] {
      TrimSlashesIdentity("");
    } else {
      JoinEnds(folders);
      TrimLeadingSlash(Join(folders));
    }
    hide Find;
    hide Join;
  }

  lemma {:induction false} SanitizedIdentity(segs: seq<string>)
    requires forall seg <- segs :: seg != "" && Sanitize(seg) == seg
    ensures Sanitized(segs) == segs
  {
    hide Sanitize;
    if segs != [] {
      var n := |segs| - 1;
      assert segs[n] in segs && forall seg <- segs[..n] :: seg in segs;
      SanitizedIdentity(segs[..n]);
      assert segs == segs[..n] + [segs[n]];
    }
  }

  function LowerChar(c: char): char {
    if 'A' <= c <= 'Z' then c - 'A' + 'a' else c
  }

  function LowerCase(s: string): (r: string)
    ensures |r| == |s| && forall i :: 0 <= i < |s| ==> r[i] == LowerChar(s[i])
  {
    seq(|s|, i requires 0 <= i < |s| => LowerChar(s[i]))
  }

  lemma RootByCase(s: string)
    ensures IsRoot(s) <==> LowerCase(s) == "root"
  {
    var low := LowerCase(s);
    if |s| == 4 {
      assert LowerChar(s[0]) == 'r' <==> s[0] in {'r', 'R'};
      assert LowerChar(s[1]) == 'o' <==> s[1] in {'o', 'O'};
      assert LowerChar(s[2]) == 'o' <==> s[2] in {'o', 'O'};
      assert LowerChar(s[3]) == 't' <==> s[3] in {'t', 'T'};
      assert low == [low[0], low[1], low[2], low[3]];
    }
  }

  lemma SplitFolders(folders: seq<string>)
    requires forall seg <- folders :: NeedsNothing(seg)
    ensures Sanitized(Split(Join(folders))) == folders
  {
    forall seg | seg in folders ensures Sanitize(seg) == seg && CleanSeg(seg) {
      SanitizeIdentity(seg);
      SanitizeIsPlain(seg);
    }
    hide Sanitize;
    hide NeedsNothing;
    if folders == [] {
      assert IndexOf("", SLASH) < 0 && Split("") == [""];
      assert [""][..0] == [];
    } else {
      JoinOfClean(folders);
      SanitizedIdentity(folders);
    }
  }

  /**
   The path of a drive item is its folders below the drive's root and its name, for names
   that need no sanitizing; the root folder itself, in any case, has no name of its own.
   */
  lemma DriveSegsExact(item: DriveItem, head: string, folders: seq<string>)
    requires HeadOfRoot(head) && item.parentPath == ParentPath(head, folders)
    requires forall seg <- folders + [item.name] :: NeedsNothing(seg)
    ensures DriveSegs(item) == if LowerCase(item.name) == "root" then folders else folders + [item.name]
  {
    hide Sanitize;
    hide NeedsNothing;
    hide BelowRoot;
    hide ParentPath;
    hide HeadOfRoot;
    hide Split;
    hide Join;
    hide IsRoot;
    hide LowerCase;
    assert item.name in folders + [item.name] && forall seg <- folders :: seg in folders + [item.name];
    forall seg | seg in folders ensures CleanSeg(seg) {
      NeedingNothingIsClean(seg);
    }
    SanitizeIdentity(item.name);
    RootByCase(item.name);
    BelowRootOf(head, folders);
    SplitFolders(folders);
    assert folders + [] == folders;
  }

  lemma NeedingNothingIsClean(seg: string)
    requires NeedsNothing(seg)
    ensures CleanSeg(seg)
  {
    SanitizeIdentity(seg);
    SanitizeIsPlain(seg);
    hide Sanitize;
  }

  /** Two such items share a path exactly if their folders and names agree. */
  lemma DrivePathsDiffer(a: DriveItem, b: DriveItem, head: string, more: string, fa: seq<string>, fb: seq<string>)
    requires HeadOfRoot(head) && a.parentPath == ParentPath(head, fa) && LowerCase(a.name) != "root"
    requires HeadOfRoot(more) && b.parentPath == ParentPath(more, fb) && LowerCase(b.name) != "root"
    requires (forall seg <- fa + [a.name] :: NeedsNothing(seg)) && (forall seg <- fb + [b.name] :: NeedsNothing(seg))
    ensures Join(DriveSegs(a)) == Join(fa + [a.name])
    ensures Join(DriveSegs(a)) == Join(DriveSegs(b)) <==> fa == fb && a.name == b.name
  {
    DriveSegsExact(a, head, fa);
    DriveSegsExact(b, more, fb);
    DriveSegsArePlain(a);
    DriveSegsArePlain(b);
    hide DriveSegs;
    hide NeedsNothing;
    hide LowerCase;
    JoinOfClean(fa + [a.name]);
    JoinOfClean(fb + [b.name]);
    hide Join;
    hide Split;
    assert (fa + [a.name])[|fa|] == a.name && (fb + [b.name])[|fb|] == b.name;
    assert (fa + [a.name])[..|fa|] == fa && (fb + [b.name])[..|fb|] == fb;
  }

  method SanitizeAll(segs: seq<string>) returns (parts: seq<string>)
    ensures parts == Sanitized(segs)
  {
    parts := [];
    for i := 0 to |segs|
      invariant parts == Sanitized(segs[..i])
    {
      assert segs[..i + 1][..i] == segs[..i];
      if segs[i] != "" {
        parts := parts + [Sanitize(segs[i])];
      }
    }
    assert segs[..|segs|] == segs;
  }

  /** `driveItemRelPath`: the slash-joined safe segments, or "" for the root itself. */
  method DriveItemRelPath(item: DriveItem) returns (rel: string)
    ensures rel == Join(DriveSegs(item))
    ensures rel != "." && !HasDotDot(rel)
  {
    DriveSegsArePlain(item);
    var name := Sanitize(item.name);
    SanitizeIsPlain(item.name);
    if name == "" || IsRoot(name) {
      name := "";
    }
    var p := BelowRoot(item.parentPath);
    var parts := SanitizeAll(Split(p));
    if name != "" {
      parts := parts + [name];
    }
    assert parts == DriveSegs(item);
    if parts == [] {
      return "";
    }
    JoinOfPlain(parts);
    rel := JoinPath(parts);
  }

  lemma DotIsNotClean(segs: seq<string>)
    requires Split(Join(segs)) == segs && forall seg <- segs :: CleanSeg(seg)
    ensures Join(segs) != "."
  {
    assert IndexOf(".", SLASH) < 0;
    assert Split(".") == ["."] && "." in ["."] && !CleanSeg(".");
  }

  lemma JoinOfPlain(segs: seq<string>)
    requires segs != [] && forall seg <- segs :: PlainSeg(seg)
    ensures JoinPath(segs) == Join(segs) != "." && !HasDotDot(Join(segs))
  {
    NonEmptyOfClean(segs);
    JoinOfClean(segs);
    JoinNoDotDot(segs);
    DotIsNotClean(segs);
  }

  /** `filepath.Dir`, with "." read as the top. */
  function Dir(rel: string): string {
    var d := Clean(rel[..LastSlash(rel) + 1]);
    if d == "." then "" else d
  }

  /** `filepath.Base` of a path that does not end in a slash. */
  function Base(rel: string): string {
    rel[LastSlash(rel) + 1..]
  }

  function LastSlash(s: string): (r: int)
    ensures -1 <= r < |s|
    ensures forall i :: r < i < |s| ==> s[i] != SLASH
    ensures r >= 0 ==> s[r] == SLASH
  {
    if s == "" then -1
    else if s[|s| - 1] == SLASH then |s| - 1
    else LastSlash(s[..|s| - 1])
  }

  lemma LastSlashAt(a: string, b: string)
    requires SLASH !in b
    ensures LastSlash(a + "/" + b) == |a| && LastSlash(b) == -1
  {
    var s := a + "/" + b;
    var r := LastSlash(s);
    assert s[|a|] == SLASH;
    forall i | |a| < i < |s| ensures s[i] != SLASH {
      assert s[i] == b[i - |a| - 1] && s[i] in b;
    }
  }

  /** The parent and name stored for a path are all but its last segment, and its last. */
  lemma DirAndBase(top: seq<string>, last: string)
    requires (forall seg <- top :: CleanSeg(seg)) && CleanSeg(last)
    ensures Dir(Join(top + [last])) == Join(top) && Base(Join(top + [last])) == last
  {
    if top == [] {
      LastSlashAt("", last);
      assert top + [last] == [last];
    } else {
      JoinConcat(top, [last]);
      LastSlashAt(Join(top), last);
      DirOfPrefix(top, last);
    }
  }

  lemma DirOfPrefix(top: seq<string>, last: string)
    requires top != [] && (forall seg <- top :: CleanSeg(seg)) && CleanSeg(last)
    ensures Dir(Join(top) + "/" + last) == Join(top)
  {
    var p := Join(top);
    LastSlashAt(p, last);
    assert (p + "/" + last)[..|p| + 1] == p + "/" + "";
    JoinOfClean(top);
    TrailingSlashCleaned(top);
    DotIsNotClean(top);
  }

  lemma TrailingSlashCleaned(top: seq<string>)
    requires top != [] && forall seg <- top :: CleanSeg(seg)
    ensures Clean(Join(top) + "/" + "") == Join(top)
  {
    var p := Join(top);
    JoinOfClean(top);
    SplitConcat(p, "");
    assert IndexOf("", SLASH) < 0 && Split("") == [""];
    TrailingEmptySegment(top, []);
    assert [] + top == top;
    assert (p + "/" + "")[0] == p[0];
  }

  lemma {:induction false} TrailingEmptySegment(segs: seq<string>, done: seq<string>)
    requires forall seg <- segs :: CleanSeg(seg)
    ensures CleanSegs(segs + [""], false, done) == done + segs
    decreases |segs|
  {
    if segs == [] {
      assert segs + [""] == [""];
    } else {
      assert (segs + [""])[1..] == segs[1..] + [""];
      assert segs[0] in segs;
      TrailingEmptySegment(segs[1..], done + [segs[0]]);
      assert done + [segs[0]] + segs[1..] == done + segs;
    }
  }

  // ---------- removed paths ----------

  /** The row stored for a drive item with these segments. */
  predicate StoredAt(row: Item, mailbox: string, segs: seq<string>) {
    row.mailbox == mailbox && row.parent == Dir(Join(segs)) && row.name == Base(Join(segs))
  }

  lemma JoinUnder(mailbox: string, top: seq<string>, last: string)
    ensures Join([mailbox] + top + [last]) == mailbox + "/" + Join(top + [last])
  {
    assert [mailbox] + top + [last] == [mailbox] + (top + [last]);
    JoinConcat([mailbox], top + [last]);
  }

  lemma PathOfParts(mailbox: string, top: seq<string>, last: string)
    requires CleanSeg(mailbox) && (forall seg <- top :: CleanSeg(seg)) && CleanSeg(last)
    ensures RelPath(mailbox, Join(top), last) == mailbox + "/" + Join(top + [last])
  {
    RelPathOfClean(mailbox, top, last);
    JoinUnder(mailbox, top, last);
  }

  lemma StoredRelPath(row: Item, mailbox: string, top: seq<string>, last: string)
    requires CleanSeg(mailbox) && (forall seg <- top :: CleanSeg(seg)) && CleanSeg(last)
    requires StoredAt(row, mailbox, top + [last])
    ensures row.mailbox == mailbox && row.RelPath() == mailbox + "/" + Join(top + [last])
  {
    DirAndBase(top, last);
    PathOfParts(mailbox, top, last);
  }

  /** Segment-wise, a path lies at or below another exactly if its text does. */
  lemma BelowIsPrefix(top: seq<string>, segs: seq<string>)
    requires top != [] && segs != [] && Split(Join(top)) == top && Split(Join(segs)) == segs
    ensures Join(segs) == Join(top) || Join(top) + "/" <= Join(segs) <==> top <= segs
  {
    hide Split;
    hide Join;
    if top <= segs {
      PrefixIsBelow(top, segs[|top|..]);
      assert segs == top + segs[|top|..];
    }
    if Join(top) + "/" <= Join(segs) {
      var rest := Join(segs)[|Join(top)| + 1..];
      assert Join(segs) == Join(top) + "/" + rest;
      SplitConcat(Join(top), rest);
    }
  }

  lemma PrefixIsBelow(top: seq<string>, rest: seq<string>)
    requires top != []
    ensures Join(top + rest) == Join(top) || Join(top) + "/" <= Join(top + rest)
  {
    if rest == [] {
      assert top + rest == top;
    } else {
      JoinConcat(top, rest);
    }
  }

  lemma CleanText(segs: seq<string>)
    requires segs != [] && forall seg <- segs :: CleanSeg(seg)
    ensures Split(Join(segs)) == segs && Join(segs) != "" && TrimSlashes(Join(segs)) == Join(segs)
  {
    JoinOfClean(segs);
    TrimSlashesIdentity(Join(segs));
  }

  /** Removing a path deletes exactly the rows stored at it or in the folder tree below it. */
  lemma RemovalCoversSubtree(row: Item, mailbox: string, folders: seq<string>, name: string, top: seq<string>)
    requires CleanSeg(mailbox) && CleanSeg(name) && top != [] && StoredAt(row, mailbox, folders + [name])
    requires (forall seg <- folders :: CleanSeg(seg)) && (forall seg <- top :: CleanSeg(seg))
    ensures Covers(mailbox, TrimSlashes(Join(top)), row) <==> top <= folders + [name]
  {
    hide Join;
    hide Split;
    hide Clean;
    hide CleanSeg;
    hide Covers;
    hide StoredAt;
    CleanText(top);
    assert forall seg <- folders + [name] :: CleanSeg(seg);
    CleanText(folders + [name]);
    StoredRelPath(row, mailbox, folders, name);
    BelowIsPrefix(top, folders + [name]);
    CoversByText(row, mailbox, Join(top), Join(folders + [name]));
  }

  lemma CoversByText(row: Item, mailbox: string, top: string, rel: string)
    requires row.mailbox == mailbox && row.RelPath() == mailbox + "/" + rel && top != ""
    ensures Covers(mailbox, top, row) <==> rel == top || top + "/" <= rel
  {
    var head := mailbox + "/";
    PrefixAfter(head, top, rel);
    PrefixAfter(head, top + "/", rel);
    assert mailbox + "/" + top + "/" == head + (top + "/");
  }

  /** What the page loop does with a drive item. */
  function DriveDelta(item: DriveItem): Delta {
    var rel := Join(DriveSegs(item));
    if rel == "" then Pass
    else if item.removed then DropPath(rel, if item.file then item.id else "")
    else if !item.file || item.id == "" then Pass
    else Fetch(item.id, Dir(rel), Base(rel), "", if item.size.Some? then IfSize(item.size.value) else Never)
  }

  lemma SplitLast(segs: seq<string>) returns (top: seq<string>, last: string)
    requires segs != [] && forall seg <- segs :: PlainSeg(seg)
    ensures segs == top + [last] && CleanSeg(last) && forall seg <- top :: CleanSeg(seg)
  {
    top, last := segs[..|segs| - 1], segs[|segs| - 1];
    assert last in segs && forall seg <- top :: seg in segs;
  }

  /** The row of a fetched drive item has the item's own path below the mailbox. */
  lemma FetchedAtItsPath(item: DriveItem, mailbox: string)
    requires CleanSeg(mailbox) && DriveDelta(item).Fetch?
    ensures DriveSegs(item) != []
    ensures RelPath(mailbox, DriveDelta(item).parent, DriveDelta(item).name) == mailbox + "/" + Join(DriveSegs(item))
  {
    DriveSegsArePlain(item);
    hide DriveSegs;
    var top, last := SplitLast(DriveSegs(item));
    DirAndBase(top, last);
    PathOfParts(mailbox, top, last);
  }

  /** A removal report takes a fetched item along exactly if it names the item's path or a folder above it. */
  lemma RemovalTakesItem(item: DriveItem, removed: DriveItem, mailbox: string, row: Item)
    requires CleanSeg(mailbox)
    requires DriveDelta(item).Fetch? && DriveDelta(removed).DropPath?
    requires row.mailbox == mailbox && row.parent == DriveDelta(item).parent && row.name == DriveDelta(item).name
    ensures Covers(mailbox, TrimSlashes(DriveDelta(removed).rel), row) <==> DriveSegs(removed) <= DriveSegs(item)
  {
    DriveSegsArePlain(item);
    DriveSegsArePlain(removed);
    hide DriveSegs;
    hide Covers;
    var top, last := SplitLast(DriveSegs(item));
    RemovalCoversSubtree(row, mailbox, top, last, DriveSegs(removed));
  }

  /** The name a message is stored under gives its short id back. */
  lemma MessageNameKeepsShortId(sid: ShortId, decode: string -> string, folder: string, m: Message)
    requires IsShort(sid(m.id)) && MessageDelta(sid, decode, folder, m).Fetch?
    ensures EmlShortFromName(MessageDelta(sid, decode, folder, m).name) == Ok(sid(m.id))
  {
    EmlShortRoundTrip(decode(m.subject), sid(m.id));
  }
}
