/** String helpers of the Go standard library that the path code relies on. */
module Strings {

  const SLASH := '/'
  const NUL := '\0'

  /** The character `c` stands at positions `i` and `i + 1`. */
  predicate PairAt(s: string, i: int, c: char) {
    0 <= i < |s| - 1 && s[i] == c && s[i + 1] == c
  }

  /** `strings.Contains(s, "..")` */
  predicate HasDotDot(s: string) {
    exists i :: 0 <= i < |s| - 1 && PairAt(s, i, '.')
  }

  /** `pat` stands at position `i`. */
  predicate OccursAt(s: string, pat: string, i: int) {
    0 <= i && i + |pat| <= |s| && s[i..i + |pat|] == pat
  }

  /** `strings.IndexByte`: the first position of `c`, or -1. */
  function IndexOf(s: string, c: char): (r: int)
    ensures -1 <= r < |s|
    ensures r < 0 ==> c !in s
    ensures r >= 0 ==> s[r] == c
    ensures forall k :: 0 <= k < r ==> s[k] != c
  {
    if s == "" then -1
    else if s[0] == c then 0
    else
      var k := IndexOf(s[1..], c);
      if k < 0 then -1 else k + 1
  }

  /** `strings.Split(s, "/")` */
  function Split(s: string): (r: seq<string>)
    ensures |r| >= 1
    decreases |s|
  {
    var i := IndexOf(s, SLASH);
    if i < 0 then [s] else [s[..i]] + Split(s[i + 1..])
  }

  /** `strings.Join(segs, "/")` */
  function Join(segs: seq<string>): string {
    if |segs| == 0 then ""
    else if |segs| == 1 then segs[0]
    else segs[0] + "/" + Join(segs[1..])
  }

  lemma {:induction false} SplitHasNoSlash(s: string)
    ensures forall seg <- Split(s) :: SLASH !in seg
    decreases |s|
  {
    var i := IndexOf(s, SLASH);
    if i >= 0 {
      SplitHasNoSlash(s[i + 1..]);
    }
  }

  lemma {:induction false} SplitJoin(segs: seq<string>)
    requires |segs| >= 1
    requires forall seg <- segs :: SLASH !in seg
    ensures Split(Join(segs)) == segs
  {
    assert segs[0] in segs;
    if |segs| == 1 {
      assert Join(segs) == segs[0] && IndexOf(segs[0], SLASH) < 0;
    } else {
      SplitJoin(segs[1..]);
      SplitAtSlash(segs[0], Join(segs[1..]));
    }
  }

  lemma SplitAtSlash(a: string, b: string)
    requires SLASH !in a
    ensures Split(a + "/" + b) == [a] + Split(b)
  {
    var s := a + "/" + b;
    assert s[|a|] == SLASH && s[..|a|] == a && s[|a| + 1..] == b;
    assert forall k :: 0 <= k < |a| ==> s[k] == a[k] && a[k] in a;
    assert IndexOf(s, SLASH) == |a|;
  }

  lemma RegroupAtSlash(a: string, b: string, i: nat)
    requires i < |a| && a[i] == SLASH
    ensures a + "/" + b == a[..i] + "/" + (a[i + 1..] + "/" + b)
  {
    assert a == a[..i] + "/" + a[i + 1..];
  }

  lemma {:induction false} SplitConcat(a: string, b: string)
    ensures Split(a + "/" + b) == Split(a) + Split(b)
    decreases |a|
  {
    var i := IndexOf(a, SLASH);
    if i < 0 {
      SplitAtSlash(a, b);
    } else {
      var seg, rest := a[..i], a[i + 1..];
      calc {
        Split(a + "/" + b);
        { RegroupAtSlash(a, b, i); }
        Split(seg + "/" + (rest + "/" + b));
        { SplitAtSlash(seg, rest + "/" + b); }
        [seg] + Split(rest + "/" + b);
        { SplitConcat(rest, b); }
        [seg] + (Split(rest) + Split(b));
        [seg] + Split(rest) + Split(b);
        Split(a) + Split(b);
      }
    }
  }

  lemma {:induction false} JoinSplit(s: string)
    ensures Join(Split(s)) == s
    decreases |s|
  {
    var i := IndexOf(s, SLASH);
    if i >= 0 {
      JoinSplit(s[i + 1..]);
      JoinCons(s[..i], Split(s[i + 1..]));
      hide Join;
      assert s == s[..i] + "/" + s[i + 1..];
    }
  }

  lemma JoinCons(a: string, rest: seq<string>)
    requires rest != []
    ensures Join([a] + rest) == a + "/" + Join(rest)
  {
    assert ([a] + rest)[1..] == rest;
  }

  lemma {:induction false} JoinConcat(a: seq<string>, b: seq<string>)
    requires |a| >= 1 && |b| >= 1
    ensures Join(a + b) == Join(a) + "/" + Join(b)
  {
    if |a| == 1 {
      assert (a + b)[1..] == b;
    } else {
      assert (a + b)[1..] == a[1..] + b;
      JoinConcat(a[1..], b);
    }
  }

  lemma DotDotAcrossSlash(a: string, b: string)
    requires !HasDotDot(a) && !HasDotDot(b)
    ensures !HasDotDot(a + "/" + b)
  {
    var s := a + "/" + b;
    forall i | 0 <= i < |s| - 1 ensures !PairAt(s, i, '.') {
      if i + 1 < |a| {
        assert !PairAt(a, i, '.');
      } else if i > |a| {
        assert !PairAt(b, i - |a| - 1, '.');
      }
    }
  }

  lemma DotDotAcrossConcat(a: string, b: string)
    requires !HasDotDot(a) && !HasDotDot(b)
    requires a == "" || b == "" || a[|a| - 1] != '.' || b[0] != '.'
    ensures !HasDotDot(a + b)
  {
    forall i | 0 <= i < |a + b| - 1 ensures !PairAt(a + b, i, '.') {
      if i + 1 < |a| {
        assert !PairAt(a, i, '.');
      } else if i >= |a| {
        assert !PairAt(b, i - |a|, '.');
      }
    }
  }

  lemma {:induction false} JoinNoDotDot(segs: seq<string>)
    requires forall seg <- segs :: !HasDotDot(seg)
    ensures !HasDotDot(Join(segs))
  {
    if |segs| > 1 {
      JoinNoDotDot(segs[1..]);
      DotDotAcrossSlash(segs[0], Join(segs[1..]));
    }
  }

  lemma {:induction false} JoinNoNul(segs: seq<string>)
    requires forall seg <- segs :: NUL !in seg
    ensures NUL !in Join(segs)
  {
    if |segs| > 1 {
      JoinNoNul(segs[1..]);
    }
  }

  /** A join of segments has ".." or NUL only if a segment has. */
  lemma JoinIsSafe(segs: seq<string>)
    requires forall seg <- segs :: !HasDotDot(seg) && NUL !in seg
    ensures !HasDotDot(Join(segs)) && NUL !in Join(segs)
  {
    hide HasDotDot;
    JoinNoDotDot(segs);
    JoinNoNul(segs);
  }

  /** Conversely, every segment of a safe string is safe. */
  lemma {:induction false} SplitIsSafe(s: string)
    requires !HasDotDot(s) && NUL !in s
    ensures forall seg <- Split(s) :: !HasDotDot(seg) && NUL !in seg
    decreases |s|
  {
    var i := IndexOf(s, SLASH);
    if i >= 0 {
      var rest := s[i + 1..];
      assert !HasDotDot(rest) by {
        forall k | 0 <= k < |rest| - 1 ensures !PairAt(rest, k, '.') {
          assert !PairAt(s, k + i + 1, '.');
        }
      }
      assert !HasDotDot(s[..i]) by {
        forall k | 0 <= k < i - 1 ensures !PairAt(s[..i], k, '.') {
          assert !PairAt(s, k, '.');
        }
      }
      SplitIsSafe(rest);
    }
  }

  function TrimLeft(s: string, cut: char -> bool): (r: string)
    ensures |r| <= |s| && r == s[|s| - |r|..]
    ensures r != "" ==> !cut(r[0])
  {
    if s != "" && cut(s[0]) then TrimLeft(s[1..], cut) else s
  }

  function TrimRight(s: string, cut: char -> bool): (r: string)
    ensures r <= s
    ensures r != "" ==> !cut(r[|r| - 1])
  {
    if s != "" && cut(s[|s| - 1]) then TrimRight(s[..|s| - 1], cut) else s
  }

  function Trim(s: string, cut: char -> bool): (r: string)
    ensures |r| <= |s|
    ensures forall c <- r :: c in s
    ensures r != "" ==> !cut(r[|r| - 1])
    ensures s == "" || (!cut(s[0]) && !cut(s[|s| - 1])) ==> r == s
  {
    TrimRight(TrimLeft(s, cut), cut)
  }

  /** `strings.Trim(s, "/")` */
  function TrimSlashes(s: string): string {
    Trim(s, c => c == SLASH)
  }

  lemma TrimSlashesIdentity(s: string)
    requires s == "" || (s[0] != SLASH && s[|s| - 1] != SLASH)
    ensures TrimSlashes(s) == s
  {
  }

  /** A leading slash in front of a trimmed text goes. */
  lemma TrimLeadingSlash(s: string)
    requires s != "" && s[0] != SLASH && s[|s| - 1] != SLASH
    ensures TrimSlashes("/" + s) == s
  {
    TrimPadding("/", s, "", c => c == SLASH);
    assert "/" + s + "" == "/" + s;
  }

  /** What is cut off goes from both ends, and only there. */
  lemma {:induction false} TrimPadding(a: string, s: string, b: string, cut: char -> bool)
    requires (forall c <- a :: cut(c)) && (forall c <- b :: cut(c)) && (s == "" || (!cut(s[0]) && !cut(s[|s| - 1])))
    ensures Trim(a + s + b, cut) == s
    decreases |a| + |b|
  {
    if a != "" {
      assert (a + s + b)[0] in a && (a + s + b)[1..] == a[1..] + s + b;
      TrimPadding(a[1..], s, b, cut);
    } else if s == "" {
      TrimmedAway(b, cut);
      assert a + s + b == b;
    } else {
      assert a + s + b == s + b && TrimLeft(s + b, cut) == s + b;
      TrimRightPadding(s, b, cut);
    }
  }

  lemma {:induction false} TrimmedAway(b: string, cut: char -> bool)
    requires forall c <- b :: cut(c)
    ensures TrimLeft(b, cut) == ""
  {
    if b != "" {
      assert b[0] in b;
      TrimmedAway(b[1..], cut);
    }
  }

  lemma {:induction false} TrimRightPadding(s: string, b: string, cut: char -> bool)
    requires (forall c <- b :: cut(c)) && (s == "" || !cut(s[|s| - 1]))
    ensures TrimRight(s + b, cut) == s
    decreases |b|
  {
    if b != "" {
      var n := |b| - 1;
      assert b[n] in b && (s + b)[..|s + b| - 1] == s + b[..n];
      TrimRightPadding(s, b[..n], cut);
    } else {
      assert s + b == s;
    }
  }

  /** A single pair is replaced where it stands. */
  lemma {:induction false} ReplacePairAt(s: string, t: string, c: char, sub: char)
    requires (s == "" || s[|s| - 1] != c)
    requires (forall i :: 0 <= i < |s| - 1 ==> !PairAt(s, i, c)) && (forall i :: 0 <= i < |t| - 1 ==> !PairAt(t, i, c))
    ensures ReplacePair(s + [c, c] + t, c, sub) == s + [sub] + t
  {
    var all := s + [c, c] + t;
    if s == "" {
      assert all[2..] == t;
      ReplacePairIdentity(t, c, sub);
    } else {
      assert all[1..] == s[1..] + [c, c] + t;
      forall i | 0 <= i < |s[1..]| - 1 ensures !PairAt(s[1..], i, c) {
        assert !PairAt(s, i + 1, c);
      }
      assert |s| >= 2 ==> !PairAt(s, 0, c);
      ReplacePairAt(s[1..], t, c, sub);
      assert s + [sub] + t == [s[0]] + (s[1..] + [sub] + t);
    }
  }

  /** Text without the pair is left alone. */
  lemma {:induction false} ReplacePairIdentity(s: string, c: char, sub: char)
    requires forall i :: 0 <= i < |s| - 1 ==> !PairAt(s, i, c)
    ensures ReplacePair(s, c, sub) == s
    decreases |s|
  {
    if |s| >= 2 {
      assert !PairAt(s, 0, c);
      forall i | 0 <= i < |s[1..]| - 1 ensures !PairAt(s[1..], i, c) {
        assert !PairAt(s, i + 1, c);
      }
      ReplacePairIdentity(s[1..], c, sub);
      assert s == [s[0]] + s[1..];
    }
  }

  /** `strings.ReplaceAll(s, [c, c], [sub])`: non-overlapping, left to right. */
  function ReplacePair(s: string, c: char, sub: char): (r: string)
    ensures |r| <= |s| && (s != "" ==> r != "")
    ensures forall x <- r :: x in s || x == sub
  {
    if |s| < 2 then s
    else if s[0] == c && s[1] == c then [sub] + ReplacePair(s[2..], c, sub)
    else [s[0]] + ReplacePair(s[1..], c, sub)
  }

  /** A common head can be left off. */
  lemma PrefixAfter(head: string, a: string, b: string)
    ensures head + a <= head + b <==> a <= b
    ensures head + a == head + b <==> a == b
  {
    assert (head + a)[|head|..] == a && (head + b)[|head|..] == b;
    if head + a <= head + b {
      forall i | 0 <= i < |a| ensures a[i] == b[i] {
        assert (head + a)[|head| + i] == (head + b)[|head| + i];
      }
    }
  }
}
