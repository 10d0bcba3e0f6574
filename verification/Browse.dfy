/**
 Directory listings over a flat list of stored paths, and the recursive walk a
 client does with them.
 */
module Browse {
  import opened Strings
  import opened Paths

  datatype Entry = Dir(path: string) | File(path: string)

  // ---------- one directory level ----------

  /** How a stored path shows up in the listing of a directory. */
  datatype Kind = Hidden | OwnFile | Via(dir: string)

  /** `p` lies strictly below the directory `rel`; every path lies below "". */
  predicate Under(p: string, rel: string) {
    rel == "" || rel + "/" <= p
  }

  function Rest(p: string, rel: string): string
    requires Under(p, rel)
  {
    if rel == "" then p else p[|rel| + 1..]
  }

  function Child(rel: string, seg: string): string {
    if rel == "" then seg else rel + "/" + seg
  }

  /** The branches of the listing loop for one stored path. */
  function KindOf(p: string, rel: string): Kind {
    if !Under(p, rel) || Rest(p, rel) == "" then Hidden
    else
      var k := IndexOf(Rest(p, rel), SLASH);
      if k < 0 then OwnFile else Via(Child(rel, Rest(p, rel)[..k]))
  }

  /**
   A listing of `paths` under a classification: the own files, once per stored
   row, and each directory that some path goes through exactly once.
   */
  ghost predicate Lists(out: multiset<Entry>, paths: seq<string>, kind: string -> Kind) {
    && (forall x :: out[File(x)] == if kind(x) == OwnFile then multiset(paths)[x] else 0)
    && (forall p <- paths :: kind(p).Via? ==> Dir(kind(p).dir) in out)
    && (forall d :: Dir(d) in out ==> out[Dir(d)] == 1 && exists p <- paths :: kind(p) == Via(d))
  }

  lemma ListsNone(kind: string -> Kind)
    ensures Lists(multiset([]), [], kind)
  {
  }

  lemma ListsFile(out: seq<Entry>, paths: seq<string>, p: string, kind: string -> Kind)
    requires Lists(multiset(out), paths, kind) && kind(p) == OwnFile
    ensures Lists(multiset(out + [File(p)]), paths + [p], kind)
  {
    assert forall q <- paths :: q in paths + [p];
  }

  lemma ListsNewDir(out: seq<Entry>, paths: seq<string>, p: string, kind: string -> Kind)
    requires Lists(multiset(out), paths, kind) && kind(p).Via? && Dir(kind(p).dir) !in out
    ensures Lists(multiset(out + [Dir(kind(p).dir)]), paths + [p], kind)
  {
    assert forall q <- paths :: q in paths + [p];
    assert p in paths + [p];
  }

  lemma ListsNothingNew(out: seq<Entry>, paths: seq<string>, p: string, kind: string -> Kind)
    requires Lists(multiset(out), paths, kind)
    requires kind(p) == Hidden || (kind(p).Via? && Dir(kind(p).dir) in out)
    ensures Lists(multiset(out), paths + [p], kind)
  {
    assert forall q <- paths :: q in paths + [p];
  }

  /** `entriesAtPrefix`, without the final ordering of the entries. */
  method EntriesAtPrefix(paths: seq<string>, rel: string) returns (out: seq<Entry>)
    ensures Lists(multiset(out), paths, p => KindOf(p, rel))
  {
    ghost var kind := (p: string) => KindOf(p, rel);
    ListsNone(kind);
    hide KindOf;
    hide Lists;
    out := [];
    var dirSeen: set<string> := {};
    for i := 0 to |paths|
      invariant forall d :: d in dirSeen <==> Dir(d) in out
      invariant Lists(multiset(out), paths[..i], kind)
    {
      var p := paths[i];
      assert paths[..i + 1] == paths[..i] + [p];
      match KindOf(p, rel)
      case Hidden =>
        ListsNothingNew(out, paths[..i], p, kind);
      case OwnFile =>
        ListsFile(out, paths[..i], p, kind);
        out := out + [File(p)];
      case Via(full) =>
        if full in dirSeen {
          ListsNothingNew(out, paths[..i], p, kind);
        } else {
          ListsNewDir(out, paths[..i], p, kind);
          dirSeen := dirSeen + {full};
          out := out + [Dir(full)];
        }
    }
    assert paths[..|paths|] == paths;
  }

  // ---------- the recursive walk ----------

  /** A stored path as the catalog builds it: clean segments, no backslash. */
  ghost predicate GoodPath(p: string) {
    (forall seg <- Split(p) :: CleanSeg(seg)) && '\\' !in p
  }

  function ForwardSlashes(s: string): string {
    if s == "" then "" else [if s[0] == '\\' then SLASH else s[0]] + ForwardSlashes(s[1..])
  }

  function NormalizeRel(rel: string): string {
    var r := TrimSlashes(ForwardSlashes(rel));
    if r == "." then "" else r
  }

  lemma {:induction false} ForwardSlashesIdentity(s: string)
    requires '\\' !in s
    ensures ForwardSlashes(s) == s
  {
    if s != "" {
      ForwardSlashesIdentity(s[1..]);
    }
  }

  lemma GoodPathEnds(rel: string)
    requires GoodPath(rel)
    ensures rel != "" && rel != "." && rel[0] != SLASH && rel[|rel| - 1] != SLASH
  {
    JoinSplit(rel);
    JoinEnds(Split(rel));
    if |rel| == 1 {
      assert IndexOf(rel, SLASH) < 0;
      assert Split(rel) == [rel] && rel in Split(rel);
    }
  }

  lemma NormalizeRelIdentity(rel: string)
    requires rel == "" || GoodPath(rel)
    ensures NormalizeRel(rel) == rel
  {
    ForwardSlashesIdentity(rel);
    if rel != "" {
      GoodPathEnds(rel);
    }
    TrimSlashesIdentity(rel);
  }

  /** A path below the directory `seg` of `rel` is exactly one listed through it. */
  function BackSlashes(s: string): string {
    if s == "" then "" else [if s[0] == SLASH then '\\' else s[0]] + BackSlashes(s[1..])
  }

  lemma {:induction false} SlashesBack(s: string)
    requires '\\' !in s
    ensures ForwardSlashes(BackSlashes(s)) == s
  {
    if s != "" {
      SlashesBack(s[1..]);
      assert BackSlashes(s)[1..] == BackSlashes(s[1..]);
    }
  }

  /** Backslashes and a leading slash are normalized away; "", "." and "/" all mean the root. */
  lemma NormalizeRelCleans(rel: string)
    requires GoodPath(rel)
    ensures NormalizeRel(BackSlashes(rel)) == rel && NormalizeRel("/" + rel) == rel
    ensures NormalizeRel("") == "" && NormalizeRel(".") == "" && NormalizeRel("/") == ""
  {
    GoodPathEnds(rel);
    SlashesBack(rel);
    TrimSlashesIdentity(rel);
    ForwardSlashesIdentity("/" + rel);
    TrimLeadingSlash(rel);
    ForwardSlashesIdentity(".");
    ForwardSlashesIdentity("/");
    TrimSlashesIdentity(".");
    TrimSlashesIdentity("");
    OnlySlash();
    hide ForwardSlashes;
    hide TrimSlashes;
  }

  lemma OnlySlash()
    ensures TrimSlashes("/") == "" && ForwardSlashes("") == ""
  {
    TrimPadding("/", "", "", c => c == SLASH);
    assert "/" + "" == "/";
  }

  lemma UnderChild(x: string, rel: string, seg: string)
    requires SLASH !in seg && seg != ""
    ensures Under(x, Child(rel, seg)) <==> KindOf(x, rel) == Via(Child(rel, seg))
  {
    if Under(x, Child(rel, seg)) {
      UnderChildIsVia(x, rel, seg);
    }
    if KindOf(x, rel) == Via(Child(rel, seg)) {
      ViaIsUnderChild(x, rel, seg);
    }
  }

  lemma UnderChildIsVia(x: string, rel: string, seg: string)
    requires SLASH !in seg && seg != "" && Under(x, Child(rel, seg))
    ensures KindOf(x, rel) == Via(Child(rel, seg))
  {
    var d := Child(rel, seg);
    assert x == d + "/" + x[|d| + 1..];
    if rel != "" {
      assert x[..|rel| + 1] == rel + "/";
    }
    var rest := Rest(x, rel);
    assert rest[..|seg|] == seg && rest[|seg|] == SLASH;
    assert forall k :: 0 <= k < |seg| ==> rest[k] == seg[k] && seg[k] in seg;
    assert IndexOf(rest, SLASH) == |seg|;
  }

  lemma ViaIsUnderChild(x: string, rel: string, seg: string)
    requires SLASH !in seg && seg != "" && KindOf(x, rel) == Via(Child(rel, seg))
    ensures Under(x, Child(rel, seg))
  {
    var rest := Rest(x, rel);
    var k := IndexOf(rest, SLASH);
    assert Child(rel, rest[..k]) == Child(rel, seg);
    if rel != "" {
      assert (rel + "/" + rest[..k])[|rel| + 1..] == rest[..k];
      assert (rel + "/" + seg)[|rel| + 1..] == seg;
      assert x == rel + "/" + rest;
    }
    assert rest == seg + "/" + rest[k + 1..];
  }

  lemma RestIsGood(p: string, rel: string)
    requires GoodPath(p) && (rel == "" || GoodPath(rel)) && Under(p, rel)
    ensures GoodPath(Rest(p, rel)) && Rest(p, rel) != ""
  {
    var rest := Rest(p, rel);
    if rel != "" {
      assert p == rel + "/" + rest;
      SplitConcat(rel, rest);
      assert forall seg <- Split(rest) :: seg in Split(p);
      assert forall c <- rest :: c in p;
    }
    GoodPathEnds(rest);
  }

  lemma ChildIsGood(rel: string, seg: string)
    requires rel == "" || GoodPath(rel)
    requires CleanSeg(seg) && '\\' !in seg
    ensures GoodPath(Child(rel, seg))
  {
    assert Split(seg) == [seg];
    if rel != "" {
      SplitConcat(rel, seg);
    }
  }

  /** The directories a listing names are good paths, deeper than `rel` and above a stored path. */
  lemma ViaIsGood(p: string, rel: string)
    requires GoodPath(p) && (rel == "" || GoodPath(rel)) && KindOf(p, rel).Via?
    ensures var k := IndexOf(Rest(p, rel), SLASH);
            && k > 0
            && KindOf(p, rel).dir == Child(rel, Rest(p, rel)[..k])
            && GoodPath(Child(rel, Rest(p, rel)[..k]))
            && |rel| < |Child(rel, Rest(p, rel)[..k])| < |p|
  {
    RestIsGood(p, rel);
    var rest := Rest(p, rel);
    var k := IndexOf(rest, SLASH);
    assert Split(rest)[0] == rest[..k] && rest[..k] in Split(rest);
    assert forall c <- rest[..k] :: c in rest;
    ChildIsGood(rel, rest[..k]);
    if rel != "" {
      assert p == rel + "/" + rest;
    }
  }

  function MaxLen(paths: seq<string>): (n: nat)
    ensures forall p <- paths :: |p| <= n
  {
    if paths == [] then 0
    else var m := MaxLen(paths[1..]); if |paths[0]| > m then |paths[0]| else m
  }

  /** A bound on how much deeper than `rel` the stored paths go. */
  function Depth(paths: seq<string>, rel: string): nat {
    if |rel| <= MaxLen(paths) then MaxLen(paths) - |rel| + 1 else 0
  }

  /** What a walk has collected from the listed entries in `done`. */
  ghost predicate Collected(files: multiset<string>, done: seq<Entry>, paths: multiset<string>, kind: string -> Kind) {
    forall x :: files[x] == multiset(done)[File(x)] +
                            if kind(x).Via? && Dir(kind(x).dir) in done then paths[x] else 0
  }

  lemma CollectFile(files: seq<string>, done: seq<Entry>, x: string, paths: multiset<string>, kind: string -> Kind)
    requires Collected(multiset(files), done, paths, kind)
    ensures Collected(multiset(files + [x]), done + [File(x)], paths, kind)
  {
  }

  lemma CollectDir(files: seq<string>, done: seq<Entry>, d: string, below: seq<string>, paths: multiset<string>, kind: string -> Kind)
    requires Collected(multiset(files), done, paths, kind) && Dir(d) !in done
    requires forall x :: multiset(below)[x] == if kind(x) == Via(d) then paths[x] else 0
    ensures Collected(multiset(files + below), done + [Dir(d)], paths, kind)
  {
    forall x ensures multiset(files + below)[x] == multiset(done + [Dir(d)])[File(x)] +
                       if kind(x).Via? && Dir(kind(x).dir) in done + [Dir(d)] then paths[x] else 0
    {
      assert multiset(files + below)[x] == multiset(files)[x] + multiset(below)[x];
    }
  }

  lemma CollectedAll(files: seq<string>, out: seq<Entry>, paths: seq<string>, kind: string -> Kind)
    requires Lists(multiset(out), paths, kind) && Collected(multiset(files), out, multiset(paths), kind)
    ensures forall x :: multiset(files)[x] == if kind(x) == Hidden then 0 else multiset(paths)[x]
  {
    forall x ensures multiset(files)[x] == if kind(x) == Hidden then 0 else multiset(paths)[x] {
      if kind(x).Via? && x in paths {
        assert Dir(kind(x).dir) in multiset(out);
      }
    }
  }

  lemma ListedOnce(out: seq<Entry>, i: nat)
    requires i < |out| && multiset(out)[out[i]] == 1
    ensures out[i] !in out[..i]
  {
    assert out == out[..i] + [out[i]] + out[i + 1..];
    assert multiset(out) == multiset(out[..i]) + multiset{out[i]} + multiset(out[i + 1..]);
  }

  /** `files` are the stored paths below `rel`, each as often as it is stored. */
  ghost predicate Reaches(files: seq<string>, paths: seq<string>, rel: string) {
    forall x :: multiset(files)[x] == if Under(x, rel) then multiset(paths)[x] else 0
  }

  /**
   Following directory entries from `rel` terminates and reaches every stored
   path below `rel` exactly as often as it is stored, and nothing else.
   */
  method Walk(paths: seq<string>, rel: string) returns (files: seq<string>)
    requires forall p <- paths :: GoodPath(p)
    requires rel == "" || GoodPath(rel)
    ensures Reaches(files, paths, rel)
    decreases Depth(paths, rel), 2
  {
    NormalizeRelIdentity(rel);
    var out := EntriesAtPrefix(paths, NormalizeRel(rel));
    files := Follow(paths, rel, out);
    ReachesAll(files, out, paths, rel);
  }

  lemma CollectedNone(paths: multiset<string>, kind: string -> Kind)
    ensures Collected(multiset([]), [], paths, kind)
  {
  }

  /** Opens every entry of one listing in turn. */
  method Follow(paths: seq<string>, rel: string, out: seq<Entry>) returns (files: seq<string>)
    requires forall p <- paths :: GoodPath(p)
    requires rel == "" || GoodPath(rel)
    requires Lists(multiset(out), paths, p => KindOf(p, rel))
    ensures Collected(multiset(files), out, multiset(paths), p => KindOf(p, rel))
    decreases Depth(paths, rel), 1
  {
    ghost var kind := (p: string) => KindOf(p, rel);
    CollectedNone(multiset(paths), kind);
    hide KindOf;
    hide Lists;
    hide Collected;
    hide GoodPath;
    files := [];
    for i := 0 to |out|
      invariant Collected(multiset(files), out[..i], multiset(paths), kind)
    {
      assert out[..i + 1] == out[..i] + [out[i]];
      match out[i]
      case File(x) =>
        CollectFile(files, out[..i], x, multiset(paths), kind);
        files := files + [x];
      case Dir(d) =>
        ghost var p := ListedVia(out, paths, rel, i);
        var below := WalkBelow(paths, rel, d, p);
        ListedOnce(out, i);
        CollectDir(files, out[..i], d, below, multiset(paths), kind);
        files := files + below;
    }
    assert out[..|out|] == out;
  }

  lemma ReachesAll(files: seq<string>, out: seq<Entry>, paths: seq<string>, rel: string)
    requires forall p <- paths :: GoodPath(p)
    requires rel == "" || GoodPath(rel)
    requires Lists(multiset(out), paths, p => KindOf(p, rel))
    requires Collected(multiset(files), out, multiset(paths), p => KindOf(p, rel))
    ensures Reaches(files, paths, rel)
  {
    CollectedAll(files, out, paths, p => KindOf(p, rel));
    HiddenIsNotUnder(paths, rel);
    assert forall x :: x !in paths ==> multiset(paths)[x] == 0;
  }

  method WalkBelow(paths: seq<string>, rel: string, d: string, ghost p: string) returns (below: seq<string>)
    requires forall p <- paths :: GoodPath(p)
    requires rel == "" || GoodPath(rel)
    requires p in paths && KindOf(p, rel) == Via(d)
    ensures forall x :: multiset(below)[x] == if KindOf(x, rel) == Via(d) then multiset(paths)[x] else 0
    decreases Depth(paths, rel), 0
  {
    assert GoodPath(d) && |rel| < |d| < |p| by { ViaIsGood(p, rel); }
    below := Walk(paths, d);
    BelowIsVia(below, paths, rel, d, p);
  }

  lemma ListedVia(out: seq<Entry>, paths: seq<string>, rel: string, i: nat) returns (p: string)
    requires Lists(multiset(out), paths, p => KindOf(p, rel)) && i < |out| && out[i].Dir?
    ensures p in paths && KindOf(p, rel) == Via(out[i].path) && multiset(out)[out[i]] == 1
  {
    assert out[i] in multiset(out);
    p :| p in paths && KindOf(p, rel) == Via(out[i].path);
  }

  lemma BelowIsVia(below: seq<string>, paths: seq<string>, rel: string, d: string, p: string)
    requires Reaches(below, paths, d)
    requires GoodPath(p) && (rel == "" || GoodPath(rel)) && KindOf(p, rel) == Via(d)
    ensures forall x :: multiset(below)[x] == if KindOf(x, rel) == Via(d) then multiset(paths)[x] else 0
  {
    ViaIsGood(p, rel);
    var seg := Rest(p, rel)[..IndexOf(Rest(p, rel), SLASH)];
    forall x ensures Under(x, d) <==> KindOf(x, rel) == Via(d) {
      UnderChild(x, rel, seg);
    }
  }

  lemma HiddenIsNotUnder(paths: seq<string>, rel: string)
    requires forall p <- paths :: GoodPath(p)
    requires rel == "" || GoodPath(rel)
    ensures forall p <- paths :: KindOf(p, rel) == Hidden <==> !Under(p, rel)
  {
    forall p <- paths ensures KindOf(p, rel) == Hidden <==> !Under(p, rel) {
      if Under(p, rel) {
        RestIsGood(p, rel);
      }
    }
  }

  /** From the root, the walk reproduces the stored paths with their multiplicity. */
  method WalkAll(paths: seq<string>) returns (files: seq<string>)
    requires forall p <- paths :: GoodPath(p)
    ensures multiset(files) == multiset(paths)
  {
    files := Walk(paths, "");
    assert forall x :: Under(x, "");
  }
}
