/**
  The Python `str` operations the tools rely on, restricted to ASCII:
  `isspace`/`strip`, `lower`, `title`, substring `in`, `replace`, `split`,
  `join`, and the POSIX `os.path.basename` / `os.path.splitext` rules.
 */
module Text {

  type String = seq<char>

  // ---------------------------------------------------------------------
  // Characters
  // ---------------------------------------------------------------------

  /** `str.isspace` on ASCII: tab, newline, vertical tab, form feed, carriage
      return (9..13), the four separator controls and space (28..32). */
  predicate IsSpace(c: char) {
    9 <= c as int <= 13 || 28 <= c as int <= 32
  }

  predicate IsUpper(c: char) { 'A' <= c <= 'Z' }
  predicate IsLower(c: char) { 'a' <= c <= 'z' }
  predicate IsLetter(c: char) { IsUpper(c) || IsLower(c) }

  function LowerChar(c: char): (r: char)
    ensures IsUpper(c) ==> IsLower(r)
    ensures !IsUpper(c) ==> r == c
  {
    if IsUpper(c) then (c as int + 32) as char else c
  }

  function UpperChar(c: char): (r: char)
    ensures IsLower(c) ==> IsUpper(r)
    ensures !IsLower(c) ==> r == c
  {
    if IsLower(c) then (c as int - 32) as char else c
  }

  // ---------------------------------------------------------------------
  // lower() and title()
  // ---------------------------------------------------------------------

  /** `s.lower()`: every ASCII capital becomes its small letter. */
  function Lower(s: String): (r: String)
    ensures |r| == |s|
    ensures forall i :: 0 <= i < |s| ==> r[i] == LowerChar(s[i])
  {
    seq(|s|, i requires 0 <= i < |s| => LowerChar(s[i]))
  }

  lemma {:induction false} LowerAppend(a: String, b: String)
    ensures Lower(a + b) == Lower(a) + Lower(b)
  {
    assert forall i :: 0 <= i < |a + b| ==> Lower(a + b)[i] == (Lower(a) + Lower(b))[i];
  }

  /** `s.title()`: a letter is upper-cased when it starts a run of letters
      and lower-cased otherwise; other characters are kept. */
  function Title(s: String): (r: String)
    ensures |r| == |s|
    ensures forall i :: 0 <= i < |s| && !IsLetter(s[i]) ==> r[i] == s[i]
    ensures forall i :: 0 <= i < |s| && IsLetter(s[i]) && (i == 0 || !IsLetter(s[i - 1])) ==> IsUpper(r[i])
    ensures forall i :: 0 < i < |s| && IsLetter(s[i]) && IsLetter(s[i - 1]) ==> IsLower(r[i])
    ensures forall i :: 0 <= i < |s| ==> LowerChar(r[i]) == LowerChar(s[i])
  {
    seq(|s|, i requires 0 <= i < |s| =>
      if !IsLetter(s[i]) then s[i]
      else if i > 0 && IsLetter(s[i - 1]) then LowerChar(s[i])
      else UpperChar(s[i]))
  }

  // ---------------------------------------------------------------------
  // Substrings: Python's `sub in s`
  // ---------------------------------------------------------------------

  predicate OccursAt(s: String, sub: String, i: int) {
    0 <= i && i + |sub| <= |s| && s[i..i + |sub|] == sub
  }

  /** `sub in s` */
  predicate Contains(s: String, sub: String) {
    exists i :: 0 <= i <= |s| - |sub| && OccursAt(s, sub, i)
  }

  /** Containment survives extending the text on either side. */
  lemma {:induction false} ContainsExtend(s: String, sub: String, pre: String, post: String)
    requires Contains(s, sub)
    ensures Contains(pre + s + post, sub)
  {
    var i :| 0 <= i <= |s| - |sub| && OccursAt(s, sub, i);
    var t := pre + s + post;
    assert t[|pre| + i..|pre| + i + |sub|] == s[i..i + |sub|];
    assert OccursAt(t, sub, |pre| + i);
  }

  /** A word occurring inside a longer word occurs wherever the longer one does
      (why `java` is found wherever `javascript` is). */
  lemma {:induction false} ContainsTransitive(s: String, mid: String, sub: String)
    requires Contains(s, mid) && Contains(mid, sub)
    ensures Contains(s, sub)
  {
    var i :| 0 <= i <= |s| - |mid| && OccursAt(s, mid, i);
    var j :| 0 <= j <= |mid| - |sub| && OccursAt(mid, sub, j);
    assert forall k :: 0 <= k < |sub| ==> s[i + j + k] == mid[j + k] == sub[k];
    assert OccursAt(s, sub, i + j);
  }

  predicate NoChar(s: String, c: char) {
    forall i :: 0 <= i < |s| ==> s[i] != c
  }

  /** A pattern whose first character never appears in `s` does not occur in it. */
  lemma {:induction false} NotContainsWithoutFirst(s: String, sub: String)
    requires |sub| > 0 && NoChar(s, sub[0])
    ensures !Contains(s, sub)
  {
  }

  // ---------------------------------------------------------------------
  // strip()
  // ---------------------------------------------------------------------

  function TrimStart(s: String): String
  {
    if |s| > 0 && IsSpace(s[0]) then TrimStart(s[1..]) else s
  }

  function TrimEnd(s: String): String
  {
    if |s| > 0 && IsSpace(s[|s| - 1]) then TrimEnd(s[..|s| - 1]) else s
  }

  predicate AllSpace(s: String) {
    forall i :: 0 <= i < |s| ==> IsSpace(s[i])
  }

  /** `s.strip()` */
  function Strip(s: String): String
  {
    TrimEnd(TrimStart(s))
  }

  lemma {:induction false} TrimStartSpec(s: String)
    ensures var t := TrimStart(s);
      |t| <= |s| && t == s[|s| - |t|..] && AllSpace(s[..|s| - |t|]) &&
      (|t| > 0 ==> !IsSpace(t[0]))
  {
    if |s| > 0 && IsSpace(s[0]) {
      TrimStartSpec(s[1..]);
      var t := TrimStart(s[1..]);
      assert s[1..][|s| - 1 - |t|..] == s[|s| - |t|..];
      assert forall i :: 0 <= i < |s| - |t| ==> i == 0 || s[i] == s[1..][..|s| - 1 - |t|][i - 1];
    }
  }

  lemma {:induction false} TrimEndSpec(s: String)
    ensures var t := TrimEnd(s);
      |t| <= |s| && t == s[..|t|] && AllSpace(s[|t|..]) &&
      (|t| > 0 ==> !IsSpace(t[|t| - 1]))
  {
    if |s| > 0 && IsSpace(s[|s| - 1]) {
      TrimEndSpec(s[..|s| - 1]);
      var t := TrimEnd(s[..|s| - 1]);
      assert s[..|s| - 1][..|t|] == s[..|t|];
      assert forall i :: |t| <= i < |s| ==> i == |s| - 1 || s[i] == s[..|s| - 1][|t|..][i - |t|];
    }
  }

  /** `s.strip()` is the middle of `s` left once the whitespace on both ends is
      removed: what was removed is whitespace, and a non-empty result starts
      and ends with a non-whitespace character. */
  lemma {:induction false} StripSpec(s: String)
    ensures var t := Strip(s);
      exists i :: 0 <= i <= |s| - |t| && t == s[i..i + |t|] &&
        AllSpace(s[..i]) && AllSpace(s[i + |t|..])
    ensures |Strip(s)| > 0 ==> !IsSpace(Strip(s)[0]) && !IsSpace(Strip(s)[|Strip(s)| - 1])
  {
    var u := TrimStart(s);
    TrimStartSpec(s);
    TrimEndSpec(u);
    var t := TrimEnd(u);
    var i := |s| - |u|;
    assert t == s[i..i + |t|];
    assert s[i + |t|..] == u[|t|..];
    if |t| > 0 {
      assert t[0] == u[0];
    }
  }

  /** `s.strip()` is empty exactly when `s` is all whitespace. */
  lemma {:induction false} StripEmptyIff(s: String)
    ensures Strip(s) == [] <==> AllSpace(s)
  {
    StripSpec(s);
    var t := Strip(s);
    var i :| 0 <= i <= |s| - |t| && t == s[i..i + |t|] && AllSpace(s[..i]) && AllSpace(s[i + |t|..]);
    if t == [] {
      assert forall k :: 0 <= k < |s| ==> (k < i && s[k] == s[..i][k]) || (k >= i && s[k] == s[i..][k - i]);
    } else {
      assert s[i] == t[0];
    }
  }

  /** Trimming leading whitespace off padding followed by a text that starts
      with a non-space character gives back that text. */
  lemma {:induction false} TrimStartPadded(a: String, x: String)
    requires AllSpace(a) && |x| > 0 && !IsSpace(x[0])
    ensures TrimStart(a + x) == x
    decreases |a|
  {
    if |a| > 0 {
      assert (a + x)[1..] == a[1..] + x;
      TrimStartPadded(a[1..], x);
    }
  }

  lemma {:induction false} TrimEndPadded(x: String, b: String)
    requires AllSpace(b) && |x| > 0 && !IsSpace(x[|x| - 1])
    ensures TrimEnd(x + b) == x
    decreases |b|
  {
    if |b| > 0 {
      assert (x + b)[..|x + b| - 1] == x + b[..|b| - 1];
      TrimEndPadded(x, b[..|b| - 1]);
    } else {
      assert x + b == x;
    }
  }

  /** Stripping whitespace padding gives back text that starts and ends with
      a non-space character. */
  lemma {:induction false} StripPadded(a: String, x: String, b: String)
    requires AllSpace(a) && AllSpace(b)
    requires |x| > 0 && !IsSpace(x[0]) && !IsSpace(x[|x| - 1])
    ensures Strip(a + x + b) == x
  {
    assert a + x + b == a + (x + b);
    TrimStartPadded(a, x + b);
    TrimEndPadded(x, b);
  }

  /** Stripping a string without a given character leaves it without it. */
  lemma {:induction false} StripNoChar(s: String, c: char)
    requires NoChar(s, c)
    ensures NoChar(Strip(s), c)
  {
    StripSpec(s);
    var t := Strip(s);
    var i :| 0 <= i <= |s| - |t| && t == s[i..i + |t|] && AllSpace(s[..i]) && AllSpace(s[i + |t|..]);
    assert forall k :: 0 <= k < |t| ==> t[k] == s[i + k];
  }

  // ---------------------------------------------------------------------
  // replace()
  // ---------------------------------------------------------------------

  /** `s.replace("", rep)`: `rep` before every character and at the end. */
  function InsertEverywhere(s: String, rep: String): String
  {
    if s == [] then rep else rep + [s[0]] + InsertEverywhere(s[1..], rep)
  }

  /** `s.replace(pat, rep)`: every occurrence of `pat`, found left to right
      without overlap, is replaced by `rep`; the inserted text is not rescanned. */
  function Replace(s: String, pat: String, rep: String): String
    decreases |s|
  {
    if |pat| == 0 then InsertEverywhere(s, rep)
    else if |s| < |pat| then s
    else if s[..|pat|] == pat then rep + Replace(s[|pat|..], pat, rep)
    else [s[0]] + Replace(s[1..], pat, rep)
  }

  /** Text in which `pat` does not occur comes back unchanged. */
  lemma {:induction false} ReplaceAbsent(s: String, pat: String, rep: String)
    requires |pat| > 0 && !Contains(s, pat)
    ensures Replace(s, pat, rep) == s
  {
    if |s| >= |pat| {
      assert !OccursAt(s, pat, 0);
      ContainsTail(s, pat);
      ReplaceAbsent(s[1..], pat, rep);
    }
  }

  /** An occurrence after the first character is an occurrence. */
  lemma {:induction false} ContainsTail(s: String, pat: String)
    requires |s| > 0
    ensures Contains(s[1..], pat) ==> Contains(s, pat)
  {
    if Contains(s[1..], pat) {
      var i :| 0 <= i <= |s| - 1 - |pat| && OccursAt(s[1..], pat, i);
      assert s[1 + i..1 + i + |pat|] == s[1..][i..i + |pat|];
      assert OccursAt(s, pat, i + 1);
    }
  }

  /** No occurrence of `pat` in `a + b` starts inside `a` and ends inside `b`. */
  predicate NoStraddle(a: String, b: String, pat: String) {
    forall k :: 0 <= k < |a| < k + |pat| <= |a| + |b| ==> !OccursAt(a + b, pat, k)
  }

  /** When no occurrence crosses the seam, replacing in a concatenation is
      replacing in each part. */
  lemma {:induction false} ReplaceAppend(a: String, b: String, pat: String, rep: String)
    requires |pat| > 0 && NoStraddle(a, b, pat)
    ensures Replace(a + b, pat, rep) == Replace(a, pat, rep) + Replace(b, pat, rep)
    decreases |a|
  {
    var s := a + b;
    if a == [] {
      assert s == b;
    } else if |s| < |pat| {
      assert Replace(a, pat, rep) == a;
      assert Replace(b, pat, rep) == b;
    } else if s[..|pat|] == pat {
      MatchInsideFirst(a, b, pat);
      NoStraddleDrop(a, b, pat, |pat|);
      ReplaceAppend(a[|pat|..], b, pat, rep);
      ReplaceAppendMatch(a, b, pat, rep);
    } else {
      NoStraddleDrop(a, b, pat, 1);
      ReplaceAppend(a[1..], b, pat, rep);
      ReplaceAppendSkip(a, b, pat, rep);
    }
  }

  /** An occurrence at the start of `a + b` that does not cross the seam lies
      inside `a`. */
  lemma {:induction false} MatchInsideFirst(a: String, b: String, pat: String)
    requires |pat| > 0 && NoStraddle(a, b, pat) && |a| > 0
    requires |pat| <= |a + b| && (a + b)[..|pat|] == pat
    ensures |pat| <= |a| && a[..|pat|] == pat
  {
    if |a| < |pat| {
      assert OccursAt(a + b, pat, 0);
    }
    assert a[..|pat|] == (a + b)[..|pat|];
  }

  /** The step of `ReplaceAppend` where the text starts with the pattern. */
  lemma {:induction false} ReplaceAppendMatch(a: String, b: String, pat: String, rep: String)
    requires |pat| > 0 && |pat| <= |a| && a[..|pat|] == pat
    requires Replace(a[|pat|..] + b, pat, rep) == Replace(a[|pat|..], pat, rep) + Replace(b, pat, rep)
    ensures Replace(a + b, pat, rep) == Replace(a, pat, rep) + Replace(b, pat, rep)
  {
    var s := a + b;
    assert s[..|pat|] == pat;
    assert s[|pat|..] == a[|pat|..] + b;
    assert Replace(s, pat, rep) == rep + Replace(s[|pat|..], pat, rep);
    assert Replace(a, pat, rep) == rep + Replace(a[|pat|..], pat, rep);
  }

  /** The step of `ReplaceAppend` where the text does not start with the
      pattern. */
  lemma {:induction false} ReplaceAppendSkip(a: String, b: String, pat: String, rep: String)
    requires |pat| > 0 && |a| > 0 && |pat| <= |a + b| && (a + b)[..|pat|] != pat
    requires Replace(a[1..] + b, pat, rep) == Replace(a[1..], pat, rep) + Replace(b, pat, rep)
    ensures Replace(a + b, pat, rep) == Replace(a, pat, rep) + Replace(b, pat, rep)
  {
    var s := a + b;
    assert s[1..] == a[1..] + b;
    ReplaceSkip(s, pat, rep);
    if |a| < |pat| {
      ReplaceShort(a, pat, rep);
      ReplaceShort(a[1..], pat, rep);
      assert [a[0]] + a[1..] == a;
    } else {
      assert a[..|pat|] == s[..|pat|];
      ReplaceSkip(a, pat, rep);
    }
    ConsAppend(a[0], Replace(a[1..], pat, rep), Replace(b, pat, rep));
  }

  lemma {:induction false} ConsAppend(x: char, t: String, u: String)
    ensures [x] + (t + u) == ([x] + t) + u
  {
  }

  lemma {:induction false} ReplaceShort(s: String, pat: String, rep: String)
    requires 0 < |pat| && |s| < |pat|
    ensures Replace(s, pat, rep) == s
  {
  }

  lemma {:induction false} ReplaceSkip(s: String, pat: String, rep: String)
    requires 0 < |pat| <= |s| && s[..|pat|] != pat
    ensures Replace(s, pat, rep) == [s[0]] + Replace(s[1..], pat, rep)
  {
  }

  lemma {:induction false} NoStraddleDrop(a: String, b: String, pat: String, d: nat)
    requires NoStraddle(a, b, pat) && d <= |a|
    ensures NoStraddle(a[d..], b, pat)
  {
    forall k | 0 <= k < |a| - d < k + |pat| <= |a| - d + |b|
      ensures !OccursAt(a[d..] + b, pat, k)
    {
      assert (a[d..] + b)[k..k + |pat|] == (a + b)[k + d..k + d + |pat|];
      assert !OccursAt(a + b, pat, k + d);
    }
  }

  lemma {:induction false} ReplaceLeading(b: String, pat: String, rep: String)
    requires |pat| > 0
    ensures Replace(pat + b, pat, rep) == rep + Replace(b, pat, rep)
  {
    assert (pat + b)[..|pat|] == pat;
    assert (pat + b)[|pat|..] == b;
  }

  // ---------------------------------------------------------------------
  // split() and join()
  // ---------------------------------------------------------------------

  /** `s.split(sep)` for a non-empty separator (Python raises on an empty one):
      the pieces between the occurrences of `sep`, found left to right. */
  function Split(s: String, sep: String): (r: seq<String>)
    requires |sep| > 0
    ensures |r| >= 1
    ensures |r[0]| <= |s| && r[0] == s[..|r[0]|]
    decreases |s|
  {
    if |s| < |sep| then [s]
    else if s[..|sep|] == sep then [[]] + Split(s[|sep|..], sep)
    else
      var rest := Split(s[1..], sep);
      [[s[0]] + rest[0]] + rest[1..]
  }

  /** `sep.join(parts)` */
  function Join(parts: seq<String>, sep: String): String
  {
    if parts == [] then []
    else if |parts| == 1 then parts[0]
    else parts[0] + sep + Join(parts[1..], sep)
  }

  /** Joining the pieces of a split with the same separator gives back the text. */
  lemma {:induction false} SplitJoin(s: String, sep: String)
    requires |sep| > 0
    ensures Join(Split(s, sep), sep) == s
    decreases |s|
  {
    if |s| < |sep| {
    } else if s[..|sep|] == sep {
      SplitJoin(s[|sep|..], sep);
      SplitJoinMatch(s, sep);
    } else {
      SplitJoin(s[1..], sep);
      SplitJoinSkip(s, sep);
    }
  }

  lemma {:induction false} JoinCons(x: String, rest: seq<String>, sep: String)
    requires |rest| > 0
    ensures Join([x] + rest, sep) == x + sep + Join(rest, sep)
  {
    assert ([x] + rest)[1..] == rest;
  }

  /** The step of `SplitJoin` where the text starts with the separator. */
  lemma {:induction false} SplitJoinMatch(s: String, sep: String)
    requires 0 < |sep| <= |s| && s[..|sep|] == sep
    requires Join(Split(s[|sep|..], sep), sep) == s[|sep|..]
    ensures Join(Split(s, sep), sep) == s
  {
    var rest := Split(s[|sep|..], sep);
    assert Split(s, sep) == [[]] + rest;
    JoinCons([], rest, sep);
    assert s == sep + s[|sep|..];
  }

  /** The step of `SplitJoin` where it does not. */
  lemma {:induction false} SplitJoinSkip(s: String, sep: String)
    requires 0 < |sep| <= |s| && s[..|sep|] != sep
    requires Join(Split(s[1..], sep), sep) == s[1..]
    ensures Join(Split(s, sep), sep) == s
  {
    var rest := Split(s[1..], sep);
    var head := [s[0]] + rest[0];
    assert Split(s, sep) == [head] + rest[1..];
    if |rest| == 1 {
      assert [head] + rest[1..] == [head];
    } else {
      var tail := Join(rest[1..], sep);
      assert rest == [rest[0]] + rest[1..];
      JoinCons(rest[0], rest[1..], sep);
      JoinCons(head, rest[1..], sep);
      calc {
        Join([head] + rest[1..], sep);
        head + sep + tail;
        [s[0]] + (rest[0] + sep + tail);
        [s[0]] + s[1..];
      }
    }
    assert s == [s[0]] + s[1..];
  }

  /** No piece of a split contains the separator. */
  lemma {:induction false} SplitPiecesFree(s: String, sep: String)
    requires |sep| > 0
    ensures forall k :: 0 <= k < |Split(s, sep)| ==> !Contains(Split(s, sep)[k], sep)
  {
    var r := Split(s, sep);
    if |s| < |sep| {
      assert r == [s];
      assert !Contains(s, sep);
    } else if s[..|sep|] == sep {
      SplitPiecesFree(s[|sep|..], sep);
      var rest := Split(s[|sep|..], sep);
      assert r == [[]] + rest;
      assert forall k :: 0 < k < |r| ==> r[k] == rest[k - 1];
    } else {
      SplitPiecesFree(s[1..], sep);
      var rest := Split(s[1..], sep);
      var head := [s[0]] + rest[0];
      assert r == [head] + rest[1..];
      assert forall k :: 0 < k < |r| ==> r[k] == rest[k];
      assert head == s[..|head|];
      assert |sep| <= |head| ==> head[..|sep|] == s[..|sep|];
      ContainsAfterFirst(s[0], rest[0], sep);
    }
  }

  /** An occurrence in `[c] + t` is at its start or inside `t`. */
  lemma {:induction false} ContainsAfterFirst(c: char, t: String, sep: String)
    ensures Contains([c] + t, sep) ==> OccursAt([c] + t, sep, 0) || Contains(t, sep)
  {
    var h := [c] + t;
    if Contains(h, sep) {
      var i :| 0 <= i <= |h| - |sep| && OccursAt(h, sep, i);
      if i > 0 {
        assert h[i..i + |sep|] == t[i - 1..i - 1 + |sep|];
        assert OccursAt(t, sep, i - 1);
      }
    }
  }

  /** A character of `s` that is not in the separator lands in one of the pieces;
      in particular a piece never holds a character `s` does not hold. */
  lemma {:induction false} SplitPiecesNoChar(s: String, sep: String, c: char)
    requires |sep| > 0 && NoChar(s, c)
    ensures forall k :: 0 <= k < |Split(s, sep)| ==> NoChar(Split(s, sep)[k], c)
  {
    var r := Split(s, sep);
    if |s| < |sep| {
    } else if s[..|sep|] == sep {
      SplitPiecesNoChar(s[|sep|..], sep, c);
      assert forall k :: 0 < k < |r| ==> r[k] == Split(s[|sep|..], sep)[k - 1];
    } else {
      SplitPiecesNoChar(s[1..], sep, c);
      var rest := Split(s[1..], sep);
      assert forall k :: 0 < k < |r| ==> r[k] == rest[k];
      assert r[0] == [s[0]] + rest[0];
    }
  }

  /** Joining pieces and a separator that lack a character gives a string
      that lacks it. */
  lemma {:induction false} JoinNoChar(parts: seq<String>, sep: String, c: char)
    requires NoChar(sep, c) && forall k :: 0 <= k < |parts| ==> NoChar(parts[k], c)
    ensures NoChar(Join(parts, sep), c)
  {
    if |parts| > 1 {
      JoinNoChar(parts[1..], sep, c);
      var rest := Join(parts[1..], sep);
      forall i | 0 <= i < |parts[0] + sep + rest| ensures (parts[0] + sep + rest)[i] != c {
        if i < |parts[0]| {
        } else if i < |parts[0]| + |sep| {
          assert (parts[0] + sep + rest)[i] == sep[i - |parts[0]|];
        } else {
          assert (parts[0] + sep + rest)[i] == rest[i - |parts[0]| - |sep|];
        }
      }
    }
  }

  /** A string without the separator's first character is a single piece. */
  lemma {:induction false} SplitWhole(p: String, sep: String)
    requires |sep| > 0 && NoChar(p, sep[0])
    ensures Split(p, sep) == [p]
    decreases |p|
  {
    if |p| >= |sep| {
      assert p[..|sep|][0] == p[0];
      SplitWhole(p[1..], sep);
      assert [p[0]] + p[1..] == p;
    }
  }

  /** Splitting `p + sep + rest`, where `p` lacks the separator's first
      character, cuts exactly after `p`. */
  lemma {:induction false} SplitAfterFree(p: String, sep: String, rest: String)
    requires |sep| > 0 && NoChar(p, sep[0])
    ensures Split(p + sep + rest, sep) == [p] + Split(rest, sep)
    decreases |p|
  {
    var s := p + sep + rest;
    if p == [] {
      assert s == sep + rest;
      assert s[..|sep|] == sep;
      assert s[|sep|..] == rest;
    } else {
      assert s[..|sep|][0] == p[0];
      assert s[1..] == p[1..] + sep + rest;
      SplitAfterFree(p[1..], sep, rest);
      assert [p[0]] + p[1..] == p;
      assert Split(s, sep) == [[s[0]] + Split(s[1..], sep)[0]] + Split(s[1..], sep)[1..];
    }
  }

  /** Splitting a join gives the pieces back, when no piece holds the
      separator's first character. */
  lemma {:induction false} JoinSplit(parts: seq<String>, sep: String)
    requires |sep| > 0 && |parts| > 0
    requires forall k :: 0 <= k < |parts| ==> NoChar(parts[k], sep[0])
    ensures Split(Join(parts, sep), sep) == parts
  {
    if |parts| == 1 {
      SplitWhole(parts[0], sep);
    } else {
      JoinSplit(parts[1..], sep);
      SplitAfterFree(parts[0], sep, Join(parts[1..], sep));
    }
  }

  /** One more piece appended to a non-empty join extends it by the separator
      and the piece. */
  lemma {:induction false} JoinSnoc(parts: seq<String>, x: String, sep: String)
    requires |parts| > 0
    ensures Join(parts + [x], sep) == Join(parts, sep) + sep + x
  {
    if |parts| > 1 {
      assert (parts + [x])[1..] == parts[1..] + [x];
      JoinSnoc(parts[1..], x, sep);
    }
  }

  /** A join of non-empty pieces starts with the first piece's first character
      and ends with the last piece's last character; it is empty exactly when
      there is no piece. */
  lemma {:induction false} JoinEnds(parts: seq<String>, sep: String)
    requires forall k :: 0 <= k < |parts| ==> |parts[k]| > 0
    ensures Join(parts, sep) == [] <==> parts == []
    ensures |parts| > 0 ==> var j := Join(parts, sep);
      j[0] == parts[0][0] && j[|j| - 1] == parts[|parts| - 1][|parts[|parts| - 1]| - 1]
  {
    if |parts| > 1 {
      JoinEnds(parts[1..], sep);
      var rest := Join(parts[1..], sep);
      assert (parts[0] + sep + rest)[0] == parts[0][0];
      assert (parts[0] + sep + rest)[|parts[0] + sep + rest| - 1] == rest[|rest| - 1];
    }
  }

  /** Text without the one-character string `[c]` lacks the character `c`. */
  lemma {:induction false} NoCharFromNotContains(s: String, c: char)
    requires !Contains(s, [c])
    ensures NoChar(s, c)
  {
    forall i | 0 <= i < |s| ensures s[i] != c {
      if s[i] == c {
        assert s[i..i + 1] == [c];
        assert OccursAt(s, [c], i);
      }
    }
  }

  /** Replacing a one-character pattern by a one-character text swaps that
      character wherever it occurs and keeps every other character. */
  lemma {:induction false} ReplaceChar(s: String, c: char, d: char)
    ensures var r := Replace(s, [c], [d]);
      |r| == |s| && forall i :: 0 <= i < |s| ==> r[i] == if s[i] == c then d else s[i]
    decreases |s|
  {
    if |s| > 0 {
      ReplaceChar(s[1..], c, d);
      if s[..1] == [c] {
        assert Replace(s, [c], [d]) == [d] + Replace(s[1..], [c], [d]);
      } else {
        assert Replace(s, [c], [d]) == [s[0]] + Replace(s[1..], [c], [d]);
      }
    }
  }

  // ---------------------------------------------------------------------
  // os.path (POSIX): basename and splitext
  // ---------------------------------------------------------------------

  /** Index of the last `c` in `s`, or -1 (`s.rfind(c)`). */
  function RFind(s: String, c: char): (r: int)
    ensures -1 <= r < |s|
    ensures r >= 0 ==> s[r] == c
    ensures forall k :: r < k < |s| ==> s[k] != c
  {
    if s == [] then -1
    else if s[|s| - 1] == c then |s| - 1
    else RFind(s[..|s| - 1], c)
  }

  /** The last `c` of `a + b`, when `b` holds no `c`, is the last `c` of `a`. */
  lemma {:induction false} RFindAppend(a: String, b: String, c: char)
    requires NoChar(b, c)
    ensures RFind(a + b, c) == RFind(a, c)
    decreases |b|
  {
    if |b| > 0 {
      assert (a + b)[..|a + b| - 1] == a + b[..|b| - 1];
      RFindAppend(a, b[..|b| - 1], c);
    } else {
      assert a + b == a;
    }
  }

  /** `os.path.basename(p)`: what follows the last `/`. */
  function Basename(p: String): (r: String)
    ensures NoChar(r, '/')
    ensures |r| <= |p| && r == p[|p| - |r|..]
    ensures |r| < |p| ==> p[|p| - |r| - 1] == '/'
  {
    var i := RFind(p, '/') + 1;
    assert p == p[..i] + p[i..];
    p[i..]
  }

  predicate AllChar(s: String, c: char) {
    forall k :: 0 <= k < |s| ==> s[k] == c
  }

  /** `s.rstrip(c)` for one character. */
  function RStripChar(s: String, c: char): (r: String)
    ensures |r| <= |s| && r == s[..|r|] && AllChar(s[|r|..], c)
    ensures !AllChar(s, c) ==> |r| > 0
  {
    if |s| > 0 && s[|s| - 1] == c then
      var r := RStripChar(s[..|s| - 1], c);
      assert s[..|s| - 1][..|r|] == s[..|r|];
      assert forall k :: |r| <= k < |s| ==> k == |s| - 1 || s[k] == s[..|s| - 1][|r|..][k - |r|];
      r
    else s
  }

  /** `os.path.dirname(p)` (POSIX): what precedes the last `/`, without its
      trailing slashes unless it is made of slashes only. */
  function Dirname(p: String): (r: String)
    ensures r == [] <==> NoChar(p, '/')
  {
    var cut := RFind(p, '/') + 1;
    var head := p[..cut];
    assert cut > 0 ==> head[cut - 1] == '/';
    if head != [] && !AllChar(head, '/') then RStripChar(head, '/') else head
  }

  predicate AllDots(s: String) {
    forall k :: 0 <= k < |s| ==> s[k] == '.'
  }

  /** Length of the root in `os.path.splitext(p)` (POSIX): the text is cut at
      the last `.` when that dot lies in the final path component and is not
      part of the component's run of leading dots. */
  function SplitextCut(p: String): (n: nat)
    ensures n <= |p|
    ensures n < |p| ==> p[n] == '.' && forall k :: n < k < |p| ==> p[k] != '.' && p[k] != '/'
  {
    var sepIndex := RFind(p, '/');
    var dotIndex := RFind(p, '.');
    if dotIndex > sepIndex && !AllDots(p[sepIndex + 1..dotIndex]) then dotIndex else |p|
  }

  /** `os.path.splitext(p)`: (root, ext) with root + ext == p. */
  function Splitext(p: String): (r: (String, String))
    ensures r.0 + r.1 == p
    ensures r.1 == [] || (r.1[0] == '.' && NoChar(r.1[1..], '.') && NoChar(r.1, '/'))
  {
    var n := SplitextCut(p);
    assert p == p[..n] + p[n..];
    (p[..n], p[n..])
  }

  /** `s[:n]` */
  function Take<T>(s: seq<T>, n: nat): (r: seq<T>)
    ensures |r| <= n && |r| <= |s| && r == s[..|r|]
    ensures |s| <= n ==> r == s
    ensures |s| > n ==> |r| == n
  {
    if |s| <= n then s else s[..n]
  }

  // ---------------------------------------------------------------------
  // str(n) for a natural number
  // ---------------------------------------------------------------------

  predicate IsDigit(c: char) { '0' <= c <= '9' }

  function DigitChar(d: nat): (c: char)
    requires d < 10
    ensures IsDigit(c) && c as int - '0' as int == d
  {
    ('0' as int + d) as char
  }

  predicate AllDigits(s: String) {
    forall k :: 0 <= k < |s| ==> IsDigit(s[k])
  }

  /** The number a string of decimal digits spells, most significant first. */
  function DecimalValue(s: String): nat
    requires AllDigits(s)
  {
    if s == [] then 0
    else DecimalValue(s[..|s| - 1]) * 10 + (s[|s| - 1] as int - '0' as int)
  }

  /** `str(n)`: the decimal digits of `n`, without leading zeros. */
  function NatToString(n: nat): (r: String)
    ensures |r| > 0 && AllDigits(r)
    ensures |r| > 1 ==> r[0] != '0'
    ensures DecimalValue(r) == n
  {
    if n < 10 then [DigitChar(n)]
    else
      var head := NatToString(n / 10);
      var r := head + [DigitChar(n % 10)];
      assert r[..|r| - 1] == head;
      r
  }
}
