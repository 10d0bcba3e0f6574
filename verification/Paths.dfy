/**
 Path algebra: the segment sanitizer of the Graph services, `Item.RelPath`, the
 subpath guard in front of every file access, and the file names of messages.
 */
module Paths {
  import opened Strings

  datatype Result<+T> = Ok(value: T) | Err

  // ---------- path.Clean and path.Join ----------

  /** What `path.Clean` does with one more segment. */
  function CleanStep(seg: string, rooted: bool, done: seq<string>): seq<string> {
    if seg == "" || seg == "." then done
    else if seg != ".." then done + [seg]
    else if done != [] && done[|done| - 1] != ".." then done[..|done| - 1]
    else if rooted then done
    else done + [seg]
  }

  /** One lexical pass of `path.Clean` over the segments of a path. */
  function CleanSegs(segs: seq<string>, rooted: bool, done: seq<string>): seq<string>
    decreases |segs|
  {
    if segs == [] then done else CleanSegs(segs[1..], rooted, CleanStep(segs[0], rooted, done))
  }

  predicate Rooted(p: string) {
    p != "" && p[0] == SLASH
  }

  function Clean(p: string): string {
    if p == "" then "."
    else
      var segs := CleanSegs(Split(p), Rooted(p), []);
      if Rooted(p) then "/" + Join(segs)
      else if segs == [] then "." else Join(segs)
  }

  /** `path.Join`: empty elements are ignored, the rest is joined and cleaned. */
  function JoinPath(elems: seq<string>): string {
    var parts := NonEmpty(elems);
    if parts == [] then "" else Clean(Join(parts))
  }

  function NonEmpty(elems: seq<string>): seq<string> {
    if elems == [] then []
    else (if elems[0] == "" then [] else [elems[0]]) + NonEmpty(elems[1..])
  }

  /** `Item.RelPath` */
  function RelPath(mailbox: string, parent: string, name: string): string {
    JoinPath(
      (if mailbox == "" then [] else [mailbox]) +
      (if parent == "" then [] else Split(TrimSlashes(parent))) +
      (if name == "" then [] else [name]))
  }

  // ---------- clean segments ----------

  /** A segment that `path.Clean` leaves alone. */
  predicate CleanSeg(s: string) {
    s != "" && s != "." && s != ".." && SLASH !in s
  }

  /** A clean segment that also passes the ".." and NUL guards. */
  predicate SafeSeg(s: string) {
    CleanSeg(s) && !HasDotDot(s) && NUL !in s
  }

  lemma {:induction false} CleanSegsOfClean(segs: seq<string>, rooted: bool, done: seq<string>)
    requires forall seg <- segs :: CleanSeg(seg)
    ensures CleanSegs(segs, rooted, done) == done + segs
    decreases |segs|
  {
    if segs != [] {
      assert segs[0] in segs;
      CleanSegsOfClean(segs[1..], rooted, done + [segs[0]]);
      assert done + [segs[0]] + segs[1..] == done + segs;
    }
  }

  lemma {:induction false} CleanSegsAppend(a: seq<string>, b: seq<string>, rooted: bool, done: seq<string>)
    requires forall seg <- b :: CleanSeg(seg)
    ensures CleanSegs(a + b, rooted, done) == CleanSegs(a, rooted, done) + b
    decreases |a|
  {
    if a == [] {
      assert a + b == b;
      CleanSegsOfClean(b, rooted, done);
    } else {
      assert (a + b)[1..] == a[1..] + b;
      CleanSegsAppend(a[1..], b, rooted, CleanStep(a[0], rooted, done));
    }
  }

  // ---------- what cleaning does ----------

  /** No empty and no dot segments; ".." only in front, and never below the root. */
  predicate Normal(segs: seq<string>, rooted: bool, ups: nat) {
    && ups <= |segs| && (rooted ==> ups == 0)
    && (forall i :: 0 <= i < ups ==> segs[i] == "..")
    && (forall i :: ups <= i < |segs| ==> CleanSeg(segs[i]))
  }

  lemma {:induction false} CleanIsNormal(segs: seq<string>, rooted: bool, done: seq<string>, ups: nat) returns (n: nat)
    requires Normal(done, rooted, ups) && forall seg <- segs :: SLASH !in seg
    ensures Normal(CleanSegs(segs, rooted, done), rooted, n)
    decreases |segs|
  {
    if segs == [] {
      n := ups;
    } else {
      assert segs[0] in segs;
      var next := CleanStep(segs[0], rooted, done);
      var more := if next == done + [".."] && !rooted && segs[0] == ".." then ups + 1 else ups;
      assert Normal(next, rooted, more);
      n := CleanIsNormal(segs[1..], rooted, next, more);
    }
  }

  /** A step down and up again cancels, and empty and dot segments vanish. */
  lemma CleanCancels(a: seq<string>, x: string, b: seq<string>, rooted: bool, done: seq<string>)
    requires CleanSeg(x)
    ensures CleanSegs(a + [x, ".."] + b, rooted, done) == CleanSegs(a + b, rooted, done)
    ensures CleanSegs(a + [""] + b, rooted, done) == CleanSegs(a + b, rooted, done)
    ensures CleanSegs(a + ["."] + b, rooted, done) == CleanSegs(a + b, rooted, done)
  {
    var mid := CleanSegs(a, rooted, done);
    DownAndUp(x, b, rooted, mid);
    Vanishes("", b, rooted, mid);
    Vanishes(".", b, rooted, mid);
    hide CleanSegs;
    CleanSplit(a, b, rooted, done);
    Inside(a, [x, ".."], b, rooted, done);
    Inside(a, [""], b, rooted, done);
    Inside(a, ["."], b, rooted, done);
  }

  lemma Inside(a: seq<string>, m: seq<string>, b: seq<string>, rooted: bool, done: seq<string>)
    ensures CleanSegs(a + m + b, rooted, done) == CleanSegs(m + b, rooted, CleanSegs(a, rooted, done))
  {
    hide CleanSegs;
    CleanSplit(a, m + b, rooted, done);
    assert a + (m + b) == a + m + b;
  }

  lemma DownAndUp(x: string, b: seq<string>, rooted: bool, done: seq<string>)
    requires CleanSeg(x)
    ensures CleanSegs([x, ".."] + b, rooted, done) == CleanSegs(b, rooted, done)
  {
    assert ([x, ".."] + b)[1..] == [".."] + b && ([".."] + b)[1..] == b;
    assert CleanStep(x, rooted, done) == done + [x];
    assert (done + [x])[..|done|] == done;
    assert CleanStep("..", rooted, done + [x]) == done;
  }

  lemma Vanishes(x: string, b: seq<string>, rooted: bool, done: seq<string>)
    requires x == "" || x == "."
    ensures CleanSegs([x] + b, rooted, done) == CleanSegs(b, rooted, done)
  {
    assert ([x] + b)[1..] == b;
  }

  lemma {:induction false} CleanSplit(a: seq<string>, b: seq<string>, rooted: bool, done: seq<string>)
    ensures CleanSegs(a + b, rooted, done) == CleanSegs(b, rooted, CleanSegs(a, rooted, done))
    decreases |a|
  {
    if a == [] {
      assert a + b == b;
    } else {
      assert (a + b)[1..] == a[1..] + b;
      CleanSplit(a[1..], b, rooted, CleanStep(a[0], rooted, done));
    }
  }

  lemma {:induction false} JoinOfClean(segs: seq<string>)
    requires segs != [] && forall seg <- segs :: CleanSeg(seg)
    ensures var p := Join(segs); p != "" && p[0] != SLASH && p[|p| - 1] != SLASH
    ensures Split(Join(segs)) == segs
    ensures Clean(Join(segs)) == Join(segs)
  {
    SplitJoin(segs) by { assert forall seg <- segs :: CleanSeg(seg); }
    JoinEnds(segs);
    CleanSegsOfClean(segs, false, []);
    assert [] + segs == segs;
  }

  lemma {:induction false} JoinEnds(segs: seq<string>)
    requires segs != [] && forall seg <- segs :: CleanSeg(seg)
    ensures var p := Join(segs); p != "" && p[0] != SLASH && p[|p| - 1] != SLASH
    ensures segs[0] <= Join(segs)
  {
    assert segs[0] in segs;
    assert segs[0][0] in segs[0] && segs[0][|segs[0]| - 1] in segs[0];
    if |segs| > 1 {
      JoinEnds(segs[1..]);
      var p, q := Join(segs), Join(segs[1..]);
      assert p == segs[0] + "/" + q;
      assert p[0] == segs[0][0] && p[|p| - 1] == q[|q| - 1];
    }
  }

  lemma {:induction false} NonEmptyOfClean(segs: seq<string>)
    requires forall seg <- segs :: CleanSeg(seg)
    ensures NonEmpty(segs) == segs
  {
    if segs != [] {
      NonEmptyOfClean(segs[1..]);
      assert segs[0] in segs;
      assert [segs[0]] + segs[1..] == segs;
    }
  }

  /** On clean segments `RelPath` is the plain slash-joined list. */
  lemma RelPathOfClean(mailbox: string, folders: seq<string>, name: string)
    requires CleanSeg(mailbox) && CleanSeg(name)
    requires forall seg <- folders :: CleanSeg(seg)
    ensures RelPath(mailbox, Join(folders), name) == Join([mailbox] + folders + [name])
  {
    var segs := [mailbox] + folders + [name];
    if folders == [] {
      assert [mailbox] + [] + [name] == segs;
    } else {
      JoinOfClean(folders);
    }
    NonEmptyOfClean(segs);
    JoinOfClean(segs);
  }

  /**
   Restores are collision-free: two items whose mailbox, folders and name are
   clean segments share a relative path only if all three agree.
   */
  lemma RelPathInjective(m1: string, f1: seq<string>, n1: string, m2: string, f2: seq<string>, n2: string)
    requires CleanSeg(m1) && CleanSeg(n1) && forall seg <- f1 :: CleanSeg(seg)
    requires CleanSeg(m2) && CleanSeg(n2) && forall seg <- f2 :: CleanSeg(seg)
    ensures RelPath(m1, Join(f1), n1) == RelPath(m2, Join(f2), n2) <==> m1 == m2 && f1 == f2 && n1 == n2
  {
    RelPathOfClean(m1, f1, n1);
    RelPathOfClean(m2, f2, n2);
    var s1, s2 := [m1] + f1 + [n1], [m2] + f2 + [n2];
    JoinOfClean(s1);
    JoinOfClean(s2);
    if Join(s1) == Join(s2) {
      assert s1 == s2;
      assert m1 == s1[0] == m2 && n1 == s1[|s1| - 1] == n2;
      assert f1 == s1[1..|s1| - 1] == f2;
    }
  }

  // ---------- GuardPath and EnsureSubpath ----------

  predicate GuardPath(p: string) {
    p != "" && NUL !in p && !HasDotDot(p)
  }

  function EnsureSubpath(root: string, sub: string): Result<string> {
    if !GuardPath(root) || NUL in sub || HasDotDot(sub) then Err
    else
      var target := JoinPath([root, Clean(sub)]);
      if !(Clean(root) + "/" <= target) && target != Clean(root) then Err
      else if GuardPath(target) then Ok(target) else Err
  }

  lemma DotDotHasDotDot()
    ensures HasDotDot("..")
  {
    assert PairAt("..", 0, '.');
  }

  lemma {:induction false} CleanSegsKeepsSafety(segs: seq<string>, rooted: bool, done: seq<string>)
    requires forall seg <- segs + done :: !HasDotDot(seg) && NUL !in seg && SLASH !in seg
    requires forall seg <- done :: CleanSeg(seg)
    ensures forall seg <- CleanSegs(segs, rooted, done) :: SafeSeg(seg)
    decreases |segs|
  {
    if segs != [] {
      var seg := segs[0];
      assert seg in segs + done;
      DotDotHasDotDot();
      if seg == "" || seg == "." {
        CleanSegsKeepsSafety(segs[1..], rooted, done);
      } else {
        CleanSegsKeepsSafety(segs[1..], rooted, done + [seg]);
      }
    }
  }

  /** What the guard computes on a path of safe segments, before its checks. */
  lemma JoinUnderRoot(root: string, segs: seq<string>)
    requires GuardPath(root) && segs != []
    requires forall seg <- segs :: SafeSeg(seg)
    ensures var top := CleanSegs(Split(root), Rooted(root), []);
            && (forall seg <- top :: SafeSeg(seg))
            && JoinPath([root, Clean(Join(segs))]) ==
                 (if Rooted(root) then "/" + Join(top + segs) else Join(top + segs))
  {
    JoinOfClean(segs);
    var sub := Join(segs);
    assert [root, sub][1..] == [sub] && [sub][1..] == [];
    assert NonEmpty([sub]) == [sub] + NonEmpty([]) == [sub];
    assert NonEmpty([root, sub]) == [root] + [sub] == [root, sub];
    assert Join([root, sub]) == root + "/" + Join([sub]) == root + "/" + sub;
    SplitConcat(root, sub);
    CleanSegsAppend(Split(root), segs, Rooted(root), []);
    SplitIsSafe(root);
    SplitHasNoSlash(root);
    assert Split(root) + [] == Split(root);
    CleanSegsKeepsSafety(Split(root), Rooted(root), []);
  }

  lemma SubpathOfTrivialRoot(root: string, segs: seq<string>)
    requires GuardPath(root) && segs != []
    requires forall seg <- segs :: SafeSeg(seg)
    requires CleanSegs(Split(root), Rooted(root), []) == []
    ensures Clean(root) == "/" || Clean(root) == "."
    ensures EnsureSubpath(root, Join(segs)) == Err
  {
    var sub := Join(segs);
    JoinEnds(segs);
    JoinUnderRoot(root, segs);
    assert [] + segs == segs;
    var target := JoinPath([root, Clean(sub)]);
    if Rooted(root) {
      assert target[1] == sub[0];
    } else {
      NotBelowDot(segs);
    }
    hide HasDotDot;
    hide Split;
    hide Join;
  }

  lemma NotBelowDot(segs: seq<string>)
    requires segs != [] && forall seg <- segs :: SafeSeg(seg)
    ensures Join(segs) != "." && !("." + "/" <= Join(segs))
  {
    var sub := Join(segs);
    JoinEnds(segs);
    assert segs[0] in segs;
    assert segs[0] == [segs[0][0]] + segs[0][1..];
    assert sub[0] == segs[0][0];
    if |segs[0]| >= 2 {
      assert sub[1] == segs[0][1] && segs[0][1] in segs[0];
    }
  }

  lemma SubpathOfRealRoot(root: string, segs: seq<string>)
    requires GuardPath(root) && segs != []
    requires forall seg <- segs :: SafeSeg(seg)
    requires CleanSegs(Split(root), Rooted(root), []) != []
    ensures Clean(root) != "/" && Clean(root) != "."
    ensures EnsureSubpath(root, Join(segs)) == Ok(Clean(root) + "/" + Join(segs))
  {
    hide CleanSegs;
    hide Clean;
    hide Split;
    hide Join;
    hide HasDotDot;
    var sub := Join(segs);
    JoinIsSafe(segs);
    JoinUnderRoot(root, segs);
    var top := CleanSegs(Split(root), Rooted(root), []);
    var target := JoinPath([root, Clean(sub)]);
    RealRootIsNamed(root, top);
    JoinConcat(top, segs);
    assert target == Clean(root) + "/" + sub;
    JoinIsSafe(top + segs);
    RootedIsSafe(Join(top + segs));
    hide JoinPath;
    hide Rooted;
    hide SafeSeg;
    assert Clean(root) + "/" <= target && GuardPath(target);
  }

  lemma RealRootIsNamed(root: string, top: seq<string>)
    requires top == CleanSegs(Split(root), Rooted(root), []) && top != [] && forall seg <- top :: SafeSeg(seg)
    ensures Clean(root) != "/" && Clean(root) != "."
    ensures Clean(root) == if Rooted(root) then "/" + Join(top) else Join(top)
  {
    JoinOfClean(top);
    assert IndexOf(".", SLASH) < 0 && Split(".") == ["."];
    assert top[0] in top && top != ["."];
  }

  lemma RootedIsSafe(p: string)
    requires !HasDotDot(p) && NUL !in p
    ensures !HasDotDot("/" + p) && NUL !in "/" + p
  {
    DotDotAcrossSlash("", p);
    assert "" + "/" + p == "/" + p;
  }

  /**
   Exactly when the guard lets a path of safe segments through: for every
   admissible root except those that clean to "/" or ".", and then the result is
   the path below the cleaned root.
   */
  lemma EnsureSubpathExact(root: string, segs: seq<string>)
    requires GuardPath(root) && segs != []
    requires forall seg <- segs :: SafeSeg(seg)
    ensures EnsureSubpath(root, Join(segs)) ==
            (if Clean(root) == "/" || Clean(root) == "." then Err else Ok(Clean(root) + "/" + Join(segs)))
  {
    if CleanSegs(Split(root), Rooted(root), []) == [] {
      SubpathOfTrivialRoot(root, segs);
    } else {
      SubpathOfRealRoot(root, segs);
    }
  }

  /** Whatever the paths: an accepted one lies at or below the cleaned root; ".." and NUL are refused. */
  lemma EnsureSubpathContains(root: string, sub: string)
    ensures var r := EnsureSubpath(root, sub);
            && (r.Ok? ==> r.value == Clean(root) || Clean(root) + "/" <= r.value)
            && (r.Ok? ==> r.value != "" && NUL !in r.value && forall i :: !OccursAt(r.value, "..", i))
            && (NUL in sub || NUL in root || root == "" ==> r.Err?)
            && ((exists i :: OccursAt(sub, "..", i)) ==> r.Err?)
  {
    hide Clean;
    hide JoinPath;
    DotDotAsText(sub);
    var r := EnsureSubpath(root, sub);
    if r.Ok? {
      DotDotAsText(r.value);
    }
  }

  lemma DotDotAsText(s: string)
    ensures HasDotDot(s) <==> exists i :: OccursAt(s, "..", i)
  {
    if HasDotDot(s) {
      var i :| 0 <= i < |s| - 1 && PairAt(s, i, '.');
      assert OccursAt(s, "..", i);
    }
    if exists i :: OccursAt(s, "..", i) {
      var i :| OccursAt(s, "..", i);
      assert s[i] == s[i..i + 2][0] && s[i + 1] == s[i..i + 2][1];
      assert PairAt(s, i, '.');
    }
  }

  // ---------- sanitize ----------

  /** `unicode.IsSpace` */
  predicate IsSpace(c: char) {
    || c == ' ' || '\t' <= c <= '\r' || c == '\U{85}' || c == '\U{A0}' || c == '\U{1680}'
    || '\U{2000}' <= c <= '\U{200A}' || c == '\U{2028}' || c == '\U{2029}' || c == '\U{202F}'
    || c == '\U{205F}' || c == '\U{3000}'
  }

  const RESERVED: string := "/\\:*?\"<>|"

  function ReplaceReserved(s: string): (r: string)
    ensures |r| == |s|
    ensures forall c <- r :: c !in RESERVED && (c in s || c == '_')
  {
    if s == "" then "" else [if s[0] in RESERVED then '_' else s[0]] + ReplaceReserved(s[1..])
  }

  function Sanitize(s: string): string {
    var t := Trim(ReplaceReserved(s), IsSpace);
    if t == "" || t == "." || t == ".." then "_" else ReplacePair(t, '.', '_')
  }

  lemma {:induction false} ReplacePairRemovesDotDot(s: string)
    ensures var r := ReplacePair(s, '.', '_');
            !HasDotDot(r) && (r != "" && r[0] == '.' ==> s[0] == '.')
    ensures ReplacePair(s, '.', '_') == "." ==> s == "."
    decreases |s|
  {
    var r := ReplacePair(s, '.', '_');
    if |s| >= 2 {
      var skip := if s[0] == '.' && s[1] == '.' then 2 else 1;
      var tail := ReplacePair(s[skip..], '.', '_');
      ReplacePairRemovesDotDot(s[skip..]);
      assert r == [r[0]] + tail;
      forall i | 0 <= i < |r| - 1 ensures !PairAt(r, i, '.') {
        if i > 0 {
          assert !PairAt(tail, i - 1, '.');
        } else {
          assert r[1] == tail[0] && (tail[0] == '.' ==> s[skip] == '.');
        }
      }
    }
  }

  /** A clean segment without ".."; NUL is not excluded. */
  predicate PlainSeg(s: string) {
    CleanSeg(s) && !HasDotDot(s)
  }

  /** A sanitized segment has only characters of the text, no reserved one, and underscores. */
  lemma SanitizeChars(s: string)
    ensures forall c <- Sanitize(s) :: c !in RESERVED && (c in s || c == '_')
  {
    hide IsSpace;
    assert '_' !in RESERVED;
  }

  lemma SanitizeDots(s: string)
    ensures var t := Sanitize(s); t != "" && t != "." && t != ".." && !HasDotDot(t)
  {
    var t := Trim(ReplaceReserved(s), IsSpace);
    ReplacePairRemovesDotDot(t);
    DotDotHasDotDot();
    hide ReplaceReserved;
    hide IsSpace;
  }

  /** Every sanitized segment is non-empty, no dot segment, and free of separators and "..". */
  lemma SanitizeIsPlain(s: string)
    ensures PlainSeg(Sanitize(s))
    ensures forall c <- Sanitize(s) :: c !in "/\\:*?\"<>|"
  {
    SanitizeChars(s);
    SanitizeDots(s);
    hide Sanitize;
    hide HasDotDot;
    assert SLASH in RESERVED by { assert RESERVED[0] == SLASH; }
  }

  lemma {:induction false} ReplaceReservedAt(s: string, i: nat)
    requires i < |s|
    ensures ReplaceReserved(s)[i] == if s[i] in "/\\:*?\"<>|" then '_' else s[i]
  {
    if i > 0 {
      ReplaceReservedAt(s[1..], i - 1);
    }
  }

  /** Text in which only reserved characters need replacing: each becomes an underscore, in its place. */
  lemma SanitizeByChar(s: string)
    requires s != "" && s != "." && !HasDotDot(s) && !IsSpace(s[0]) && !IsSpace(s[|s| - 1])
    ensures |Sanitize(s)| == |s|
    ensures forall i :: 0 <= i < |s| ==> Sanitize(s)[i] == if s[i] in "/\\:*?\"<>|" then '_' else s[i]
  {
    var t := ReplaceReserved(s);
    forall i | 0 <= i < |s| ensures t[i] == if s[i] in "/\\:*?\"<>|" then '_' else s[i] {
      ReplaceReservedAt(s, i);
    }
    assert '.' !in "/\\:*?\"<>|" && !IsSpace('_');
    forall i | 0 <= i < |t| - 1 ensures !PairAt(t, i, '.') {
      assert !PairAt(s, i, '.');
    }
    assert |s| == 1 ==> t == [t[0]] && s == [s[0]];
    hide ReplaceReserved;
    SanitizeAfterReserved(s, t);
  }

  lemma SanitizeAfterReserved(s: string, t: string)
    requires t == ReplaceReserved(s) && t != "" && t != "." && !IsSpace(t[0]) && !IsSpace(t[|t| - 1])
    requires forall i :: 0 <= i < |t| - 1 ==> !PairAt(t, i, '.')
    ensures Sanitize(s) == t
  {
    hide ReplaceReserved;
    hide IsSpace;
    assert t == ".." ==> PairAt(t, 0, '.');
    ReplacePairIdentity(t, '.', '_');
  }

  /** Text that needs no sanitizing: no reserved character, no "..", no outer space, no lone dot. */
  predicate NeedsNothing(s: string) {
    && s != "" && s != "." && !HasDotDot(s) && !IsSpace(s[0]) && !IsSpace(s[|s| - 1])
    && forall c <- s :: c !in "/\\:*?\"<>|"
  }

  /** Sanitizing changes nothing in text that needs nothing. */
  lemma SanitizeIdentity(s: string)
    requires NeedsNothing(s)
    ensures Sanitize(s) == s
  {
    SanitizeByChar(s);
    hide Sanitize;
    hide HasDotDot;
    hide IsSpace;
    forall i | 0 <= i < |s| ensures s[i] !in "/\\:*?\"<>|" {
      assert s[i] in s;
    }
    hide NeedsNothing;
  }

  lemma NothingReserved(s: string)
    requires forall c <- s :: c !in "/\\:*?\"<>|"
    ensures ReplaceReserved(s) == s
  {
    forall i | 0 <= i < |s| ensures ReplaceReserved(s)[i] == s[i] {
      ReplaceReservedAt(s, i);
      assert s[i] in s;
    }
  }

  /** Outer spaces go, and text of spaces alone becomes an underscore. */
  lemma SanitizeTrims(a: string, s: string, b: string)
    requires (forall c <- a + b :: IsSpace(c)) && (s == "" || NeedsNothing(s))
    ensures Sanitize(a + s + b) == if s == "" then "_" else s
  {
    forall c | c in a + s + b ensures c !in "/\\:*?\"<>|" {
      assert c in a + b || c in s;
    }
    NothingReserved(a + s + b);
    assert (forall c <- a :: c in a + b) && (forall c <- b :: c in a + b);
    hide ReplaceReserved;
    TrimPadding(a, s, b, IsSpace);
    if s != "" {
      assert s != ".." by { assert PairAt("..", 0, '.'); }
      hide IsSpace;
      ReplacePairIdentity(s, '.', '_');
    }
  }

  /** A step up inside a text is replaced where it stands. */
  lemma SanitizeStepsUp(s: string, t: string)
    requires NeedsNothing(s) && NeedsNothing(t) && s[|s| - 1] != '.'
    ensures Sanitize(s + ".." + t) == s + "_" + t
  {
    var all := s + ".." + t;
    forall c | c in all ensures c !in "/\\:*?\"<>|" {
      assert c in s || c in ".." || c in t;
      assert '.' !in "/\\:*?\"<>|";
    }
    NothingReserved(all);
    hide ReplaceReserved;
    assert all[0] == s[0] && all[|all| - 1] == t[|t| - 1];
    hide IsSpace;
    ReplacePairAt(s, t, '.', '_');
  }

  /** For NUL-free text it also passes the NUL guard. */
  lemma SanitizeIsSafe(s: string)
    requires NUL !in s
    ensures SafeSeg(Sanitize(s))
    ensures forall c <- Sanitize(s) :: c !in RESERVED
  {
    SanitizeChars(s);
    SanitizeIsPlain(s);
    hide Sanitize;
    hide HasDotDot;
  }

  // ---------- message file names ----------

  /** The short id of a message: ten hex digits of a digest of its Graph id. */
  type ShortId = string -> string

  predicate IsShort(s: string) {
    |s| == 10 && forall c <- s :: '0' <= c <= '9' || 'a' <= c <= 'f'
  }

  function Cut(s: string, n: nat): (r: string)
    ensures r <= s && |r| <= n
  {
    if |s| > n then s[..n] else s
  }

  /** `emlFileName`, over the decoded subject. */
  function EmlFileName(subject: string, short: string): string {
    var subj := ReplacePair(Sanitize(subject), ' ', ' ');
    Cut(if subj == "" || subj == "_" then "ohne-betreff" else subj, 80) + "__" + short + ".eml"
  }

  /** The last position of "__", or -1. */
  function LastUnderscores(s: string): (r: int)
    ensures -1 <= r <= |s| - 2 || r == -1
    ensures r >= 0 ==> PairAt(s, r, '_')
    ensures forall i :: r < i ==> !PairAt(s, i, '_')
  {
    if |s| < 2 then -1
    else if PairAt(s, |s| - 2, '_') then |s| - 2
    else
      var t := s[..|s| - 1];
      assert forall i :: PairAt(s, i, '_') ==> PairAt(t, i, '_');
      LastUnderscores(t)
  }

  /** `strings.TrimSuffix(name, filepath.Ext(name))` */
  function DropExt(name: string): (r: string)
    ensures r <= name
  {
    var i := LastDot(name, |name|);
    if i < 0 then name else name[..i]
  }

  /** The dot `filepath.Ext` finds: the last one after the last slash. */
  function LastDot(s: string, n: nat): (r: int)
    requires n <= |s|
    ensures -1 <= r < n
  {
    if n == 0 || s[n - 1] == SLASH then -1
    else if s[n - 1] == '.' then n - 1
    else LastDot(s, n - 1)
  }

  function EmlShortFromName(name: string): Result<string> {
    var base := DropExt(name);
    var i := LastUnderscores(base);
    if i < 0 || i + 2 >= |base| then Err
    else
      var id := base[i + 2..];
      if |id| < 6 || |id| > 16 then Err else Ok(id)
  }

  lemma DropEmlExt(base: string)
    ensures DropExt(base + ".eml") == base
  {
    var name, n := base + ".eml", |base|;
    assert name[n] == '.' && name[n + 1] == 'e' && name[n + 2] == 'm' && name[n + 3] == 'l';
    assert LastDot(name, n + 1) == n;
    assert LastDot(name, n + 2) == n;
    assert LastDot(name, n + 3) == n;
    assert LastDot(name, n + 4) == n;
  }

  lemma ShortAfterUnderscores(subj: string, short: string)
    requires IsShort(short)
    ensures LastUnderscores(subj + "__" + short) == |subj|
  {
    var base := subj + "__" + short;
    assert PairAt(base, |subj|, '_');
    forall i | |subj| < i ensures !PairAt(base, i, '_') {
      if i < |base| - 1 {
        ShortTail(subj, short, i);
      }
    }
    var r := LastUnderscores(base);
    hide LastUnderscores;
    hide PairAt;
    assert r == |subj|;
  }

  lemma ShortTail(subj: string, short: string, i: nat)
    requires IsShort(short) && |subj| < i < |subj| + 11
    ensures (subj + "__" + short)[i + 1] != '_'
  {
    assert (subj + "__" + short)[i + 1] == short[i - 1 - |subj|] && short[i - 1 - |subj|] in short;
  }

  /** The import recovers the short id from every message file name. */
  lemma EmlShortRoundTrip(subject: string, short: string)
    requires IsShort(short)
    ensures EmlShortFromName(EmlFileName(subject, short)) == Ok(short)
  {
    var clean := ReplacePair(Sanitize(subject), ' ', ' ');
    var subj := Cut(if clean == "" || clean == "_" then "ohne-betreff" else clean, 80);
    var base := subj + "__" + short;
    assert EmlFileName(subject, short) == base + ".eml";
    DropEmlExt(base);
    ShortAfterUnderscores(subj, short);
    assert base[|subj| + 2..] == short;
  }

  /** A message file name is itself a safe segment. */
  lemma LastUnderscoresAt(subj: string, tail: string)
    requires '_' !in tail
    ensures LastUnderscores(subj + "__" + tail) == |subj|
  {
    var base := subj + "__" + tail;
    assert PairAt(base, |subj|, '_');
    forall i | |subj| < i ensures !PairAt(base, i, '_') {
      if i < |base| - 1 {
        assert base[i + 1] == tail[i - 1 - |subj|] && tail[i - 1 - |subj|] in tail;
      }
    }
    var r := LastUnderscores(base);
    hide LastUnderscores;
    hide PairAt;
    assert r == |subj|;
  }

  /** Which file names of messages give an id: those whose part after the last "__" has six to sixteen characters. */
  lemma EmlShortIff(subj: string, tail: string)
    requires '_' !in tail
    ensures EmlShortFromName(subj + "__" + tail + ".eml") == if 6 <= |tail| <= 16 then Ok(tail) else Err
  {
    var base := subj + "__" + tail;
    DropEmlExt(base);
    LastUnderscoresAt(subj, tail);
    assert base[|subj| + 2..] == tail;
    hide LastUnderscores;
    hide DropExt;
  }

  lemma NoUnderscoresNoShort(base: string)
    requires forall i :: !OccursAt(base, "__", i)
    ensures EmlShortFromName(base + ".eml") == Err
  {
    DropEmlExt(base);
    var r := LastUnderscores(base);
    assert r >= 0 ==> OccursAt(base, "__", r);
    hide LastUnderscores;
    hide DropExt;
  }

  /** A subject of spaces alone has a name of its own. */
  lemma EmlFileNameBlank(subject: string, short: string)
    requires forall c <- subject :: IsSpace(c)
    ensures EmlFileName(subject, short) == "ohne-betreff__" + short + ".eml"
  {
    SanitizeTrims(subject, "", "");
    assert subject + "" + "" == subject;
    hide Sanitize;
    assert "ohne-betreff" + "__" + short + ".eml" == "ohne-betreff__" + short + ".eml";
  }

  /** A subject that needs no sanitizing and fits is the readable part of the name. */
  lemma EmlFileNameReadable(subject: string, short: string)
    requires NeedsNothing(subject) && subject != "_" && |subject| <= 80 && forall i :: !OccursAt(subject, "  ", i)
    ensures EmlFileName(subject, short) == subject + "__" + short + ".eml"
  {
    hide Sanitize;
    hide ReplacePair;
    hide NeedsNothing;
    hide OccursAt;
    SanitizeIdentity(subject);
    SingleSpaces(subject);
    NeedsText(subject);
  }

  lemma SingleSpaces(s: string)
    requires forall i :: !OccursAt(s, "  ", i)
    ensures ReplacePair(s, ' ', ' ') == s
  {
    forall i | 0 <= i < |s| - 1 ensures !PairAt(s, i, ' ') {
      PairIsText(s, i, ' ');
      assert [' ', ' '] == "  " && !OccursAt(s, "  ", i);
    }
    ReplacePairIdentity(s, ' ', ' ');
  }

  lemma PairIsText(s: string, i: nat, c: char)
    requires i < |s| - 1
    ensures PairAt(s, i, c) <==> OccursAt(s, [c, c], i)
  {
    assert s[i..i + 2] == [s[i], s[i + 1]];
  }

  lemma NeedsText(s: string)
    requires NeedsNothing(s)
    ensures s != ""
  {
  }

  lemma EmlFileNameIsSafe(subject: string, short: string)
    requires NUL !in subject && IsShort(short)
    ensures SafeSeg(EmlFileName(subject, short))
  {
    SanitizeIsSafe(subject);
    var clean := Sanitize(subject);
    SpacesKeepDotDot(clean);
    var spaced := ReplacePair(clean, ' ', ' ');
    var subj := if spaced == "" || spaced == "_" then "ohne-betreff" else spaced;
    assert !HasDotDot(subj) by { assert '.' !in "ohne-betreff"; }
    assert SLASH !in subj && NUL !in subj;
    var kept := Cut(subj, 80);
    assert !HasDotDot(kept) by {
      forall i | 0 <= i < |kept| - 1 ensures !PairAt(kept, i, '.') { assert !PairAt(subj, i, '.'); }
    }
    assert SLASH !in kept && NUL !in kept;
    EmlNameOfSafe(kept, short);
  }

  lemma EmlNameOfSafe(kept: string, short: string)
    requires !HasDotDot(kept) && SLASH !in kept && NUL !in kept && IsShort(short)
    ensures SafeSeg(kept + "__" + short + ".eml")
  {
    assert '.' !in short && SLASH !in short && NUL !in short;
    DotDotAcrossConcat(kept, "__");
    DotDotAcrossConcat(kept + "__", short);
    assert (kept + "__" + short)[|kept| + 11] == short[9] && short[9] in short;
    DotDotAcrossConcat(kept + "__" + short, ".eml");
  }

  lemma {:induction false} SpacesKeepDotDot(s: string)
    requires !HasDotDot(s)
    ensures !HasDotDot(ReplacePair(s, ' ', ' '))
    ensures s != "" ==> ReplacePair(s, ' ', ' ')[0] == s[0]
    decreases |s|
  {
    if |s| >= 2 {
      var skip := if s[0] == ' ' && s[1] == ' ' then 2 else 1;
      var t := s[skip..];
      assert !HasDotDot(t) by {
        forall k | 0 <= k < |t| - 1 ensures !PairAt(t, k, '.') {
          assert !PairAt(s, k + skip, '.');
        }
      }
      SpacesKeepDotDot(t);
      var r, tail := ReplacePair(s, ' ', ' '), ReplacePair(t, ' ', ' ');
      assert r == [s[0]] + tail;
      forall i | 0 <= i < |r| - 1 ensures !PairAt(r, i, '.') {
        if i > 0 {
          assert !PairAt(tail, i - 1, '.');
        } else {
          assert r[1] == tail[0] == t[0] == s[skip] && !PairAt(s, 0, '.');
        }
      }
    }
  }
}
