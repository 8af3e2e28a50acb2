/**
  Templates with `{{name}}` placeholders, filled by a chain of
  `str.replace` calls.  A template is viewed as literal text pieces with a
  hole between each two of them; a hole is either still a placeholder or
  already filled with a value.  Replacing one placeholder's token fills
  exactly the holes that carry that name, provided the literal text holds no
  `{` and the values hold no `{{`.
 */
module Template {
  import opened Text

  /** The placeholder token `{{name}}`. */
  function Token(name: String): (r: String)
    ensures |r| == |name| + 4
    ensures r[0] == '{' && r[1] == '{'
  {
    "{{" + name + "}}"
  }

  /** True when `s` holds no `{{`, so no placeholder token can be read in it. */
  predicate NoDoubleBrace(s: String) {
    !Contains(s, "{{")
  }

  predicate BraceFree(s: String) {
    NoChar(s, '{') && NoChar(s, '}')
  }

  datatype Hole = Slot(name: String) | Filled(value: String)

  function HoleText(h: Hole): String {
    match h
    case Slot(n) => Token(n)
    case Filled(v) => v
  }

  /** lits[0] holes[0] lits[1] holes[1] ... lits[n] */
  function Render(lits: seq<String>, holes: seq<Hole>): String
    requires |lits| == |holes| + 1
    decreases holes
  {
    if holes == [] then lits[0]
    else lits[0] + (HoleText(holes[0]) + Render(lits[1..], holes[1..]))
  }

  /** The shape for which filling by `replace` behaves: literal pieces are
      non-empty and hold no `{`, placeholder names are non-empty and hold no
      brace, filled values hold no `{{`. */
  predicate WellFormed(lits: seq<String>, holes: seq<Hole>) {
    && |lits| == |holes| + 1
    && (forall i :: 0 <= i < |lits| ==> |lits[i]| > 0 && '{' !in lits[i])
    && (forall i :: 0 <= i < |holes| ==>
          match holes[i]
          case Slot(n) => |n| > 0 && BraceFree(n)
          case Filled(v) => NoDoubleBrace(v))
  }

  /** The holes after `replace(Token(name), value)`. */
  function Fill(holes: seq<Hole>, name: String, value: String): (r: seq<Hole>)
    ensures |r| == |holes|
    ensures forall i :: 0 <= i < |holes| ==>
      r[i] == if holes[i] == Slot(name) then Filled(value) else holes[i]
  {
    seq(|holes|, i requires 0 <= i < |holes| =>
      if holes[i] == Slot(name) then Filled(value) else holes[i])
  }

  predicate AllFilled(holes: seq<Hole>) {
    forall i :: 0 <= i < |holes| ==> holes[i].Filled?
  }

  // ---------------------------------------------------------------------
  // Where a token can occur
  // ---------------------------------------------------------------------

  lemma {:induction false} NoCharFromNotIn(s: String, c: char)
    requires c !in s
    ensures NoChar(s, c)
  {
    assert forall i :: 0 <= i < |s| ==> s[i] in s;
  }

  lemma {:induction false} TokenChars(m: String)
    ensures forall j :: 0 <= j < |m| ==> Token(m)[j + 2] == m[j]
    ensures Token(m)[|m| + 2] == '}' && Token(m)[|m| + 3] == '}'
  {
  }

  /** Inside `Token(m) + b`, a token `Token(n)` can start in the first part
      only at position 0, and only when it is that very token. */
  lemma {:induction false} TokenOccurrence(m: String, n: String, b: String, k: int)
    requires BraceFree(m) && BraceFree(n)
    requires 0 <= k < |Token(m)| && OccursAt(Token(m) + b, Token(n), k)
    ensures k == 0 && m == n
  {
    var a := Token(m);
    var t := Token(n);
    var s := a + b;
    TokenChars(m);
    TokenChars(n);
    assert forall j :: 0 <= j < |t| ==> s[k + j] == t[j];
    assert forall j :: 0 <= j < |a| ==> s[j] == a[j];
    if k == 0 && |n| == |m| {
      assert forall j :: 0 <= j < |n| ==> m[j] == a[j + 2] == t[j + 2] == n[j];
    }
  }

  /** No token starts in text without `{`. */
  lemma {:induction false} NoStraddleLiteral(a: String, b: String, pat: String)
    requires |pat| > 0 && pat[0] == '{' && NoChar(a, '{')
    ensures NoStraddle(a, b, pat)
  {
    forall k | 0 <= k < |a| < k + |pat| <= |a| + |b|
      ensures !OccursAt(a + b, pat, k)
    {
      assert (a + b)[k..k + |pat|][0] == (a + b)[k] == a[k];
    }
  }

  /** A token can not straddle the end of a value without `{{` when the text
      after it does not start with `{`. */
  lemma {:induction false} NoStraddleValue(v: String, b: String, pat: String)
    requires |pat| >= 2 && pat[0] == '{' && pat[1] == '{'
    requires NoDoubleBrace(v) && |b| > 0 && b[0] != '{'
    ensures NoStraddle(v, b, pat)
  {
    forall k | 0 <= k < |v| < k + |pat| <= |v| + |b|
      ensures !OccursAt(v + b, pat, k)
    {
      StraddleValue(v, b, pat, k);
    }
  }

  /** A token crossing the end of `v` puts a `{{` in `v` or a `{` at the
      start of `b`. */
  lemma {:induction false} StraddleValue(v: String, b: String, pat: String, k: int)
    requires |pat| >= 2 && pat[0] == '{' && pat[1] == '{'
    requires 0 <= k < |v| < k + |pat| <= |v| + |b|
    ensures OccursAt(v + b, pat, k) ==> Contains(v, "{{") || b[0] == '{'
  {
    var s := v + b;
    if OccursAt(s, pat, k) {
      assert s[k..k + |pat|][0] == s[k] == '{';
      assert s[k..k + |pat|][1] == s[k + 1] == '{';
      if k + 1 < |v| {
        assert v[k..k + 2] == "{{";
        assert OccursAt(v, "{{", k);
      } else {
        assert b[0] == s[k + 1];
      }
    }
  }

  /** A value without `{{` holds no token. */
  lemma {:induction false} ValueHoldsNoToken(v: String, pat: String)
    requires |pat| >= 2 && pat[0] == '{' && pat[1] == '{' && NoDoubleBrace(v)
    ensures !Contains(v, pat)
  {
    TokenInValue(v, pat);
  }

  lemma {:induction false} TokenInValue(v: String, pat: String)
    requires |pat| >= 2 && pat[0] == '{' && pat[1] == '{'
    ensures Contains(v, pat) ==> Contains(v, "{{")
  {
    if Contains(v, pat) {
      assert OccursAt(pat, "{{", 0);
      ContainsTransitive(v, pat, "{{");
    }
  }

  /** A concatenation holds no `{{` when neither part does and the seam does
      not join two `{`. */
  lemma {:induction false} NoDoubleBraceAppend(a: String, b: String)
    requires NoDoubleBrace(a) && NoDoubleBrace(b)
    requires |a| == 0 || |b| == 0 || a[|a| - 1] != '{' || b[0] != '{'
    ensures NoDoubleBrace(a + b)
  {
    DoubleBraceAppend(a, b);
  }

  /** A `{{` in a concatenation lies in one part or joins two `{` at the seam. */
  lemma {:induction false} DoubleBraceAppend(a: String, b: String)
    ensures Contains(a + b, "{{") ==>
      Contains(a, "{{") || Contains(b, "{{") || (|a| > 0 && |b| > 0 && a[|a| - 1] == '{' && b[0] == '{')
  {
    var s := a + b;
    if Contains(s, "{{") {
      var k :| 0 <= k <= |s| - 2 && OccursAt(s, "{{", k);
      assert s[k..k + 2][0] == s[k] && s[k..k + 2][1] == s[k + 1];
      if k + 2 <= |a| {
        assert a[k..k + 2] == s[k..k + 2];
        assert OccursAt(a, "{{", k);
      } else if k >= |a| {
        assert b[k - |a|..k - |a| + 2] == s[k..k + 2];
        assert OccursAt(b, "{{", k - |a|);
      } else {
        assert s[k] == '{' && s[k + 1] == '{';
        assert a[|a| - 1] == s[k] && b[0] == s[k + 1];
      }
    }
  }

  lemma {:induction false} NoDoubleBraceLiteral(s: String)
    requires NoChar(s, '{')
    ensures NoDoubleBrace(s)
  {
    NotContainsWithoutFirst(s, "{{");
  }

  // ---------------------------------------------------------------------
  // Filling by replace
  // ---------------------------------------------------------------------

  lemma {:induction false} RenderStart(lits: seq<String>, holes: seq<Hole>)
    requires WellFormed(lits, holes)
    ensures |Render(lits, holes)| > 0 && Render(lits, holes)[0] != '{'
  {
    NoCharFromNotIn(lits[0], '{');
    assert Render(lits, holes)[0] == lits[0][0];
  }

  /** The rendered text starts with the first literal piece and ends with
      the last one. */
  lemma {:induction false} RenderEnds(lits: seq<String>, holes: seq<Hole>)
    requires |lits| == |holes| + 1
    ensures var r := Render(lits, holes);
      |lits[0]| <= |r| && r[..|lits[0]|] == lits[0] &&
      |lits[|lits| - 1]| <= |r| && r[|r| - |lits[|lits| - 1]|..] == lits[|lits| - 1]
    decreases holes
  {
    if holes != [] {
      var rest := Render(lits[1..], holes[1..]);
      var last := lits[|lits| - 1];
      RenderEnds(lits[1..], holes[1..]);
      assert lits[1..][|lits[1..]| - 1] == last;
      var front := lits[0] + HoleText(holes[0]);
      assert Render(lits, holes) == front + rest;
      assert (front + rest)[|front + rest| - |last|..] == rest[|rest| - |last|..];
    }
  }

  /** A template whose text starts and ends with something other than
      whitespace comes back unchanged from stripping a blank line on either
      side. */
  lemma {:induction false} RenderStripped(lits: seq<String>, holes: seq<Hole>)
    requires |lits| == |holes| + 1
    requires |lits[0]| > 0 && !IsSpace(lits[0][0])
    requires |lits[|lits| - 1]| > 0 && !IsSpace(lits[|lits| - 1][|lits[|lits| - 1]| - 1])
    ensures Strip("\n" + Render(lits, holes) + "\n") == Render(lits, holes)
  {
    var r := Render(lits, holes);
    var last := lits[|lits| - 1];
    RenderEnds(lits, holes);
    assert r[0] == r[..|lits[0]|][0];
    assert r[|r| - 1] == r[|r| - |last|..][|last| - 1];
    StripPadded("\n", r, "\n");
  }

  lemma {:induction false} WellFormedTail(lits: seq<String>, holes: seq<Hole>)
    requires WellFormed(lits, holes) && |holes| > 0
    ensures WellFormed(lits[1..], holes[1..])
  {
    assert forall i :: 0 <= i < |lits| - 1 ==> lits[1..][i] == lits[i + 1];
    assert forall i :: 0 <= i < |holes| - 1 ==> holes[1..][i] == holes[i + 1];
  }

  /** Replacing one token leaves a different token in front untouched. */
  lemma {:induction false} OtherSlotReplace(n: String, name: String, rest: String, value: String)
    requires BraceFree(n) && BraceFree(name) && n != name
    ensures Replace(Token(n) + rest, Token(name), value) == Token(n) + Replace(rest, Token(name), value)
  {
    var h, pat := Token(n), Token(name);
    forall k | 0 <= k < |h| < k + |pat| <= |h| + |rest|
      ensures !OccursAt(h + rest, pat, k)
    {
      StraddleToken(n, name, rest, k);
    }
    TokenInToken(n, name);
    ReplaceAppend(h, rest, pat, value);
    ReplaceAbsent(h, pat, value);
  }

  lemma {:induction false} StraddleToken(n: String, name: String, rest: String, k: int)
    requires BraceFree(n) && BraceFree(name) && 0 <= k < |Token(n)|
    ensures OccursAt(Token(n) + rest, Token(name), k) ==> k == 0 && n == name
  {
    if OccursAt(Token(n) + rest, Token(name), k) {
      TokenOccurrence(n, name, rest, k);
    }
  }

  /** One token occurs inside another only when they are the same. */
  lemma {:induction false} TokenInToken(n: String, name: String)
    requires BraceFree(n) && BraceFree(name)
    ensures Contains(Token(n), Token(name)) ==> n == name
  {
    var h, pat := Token(n), Token(name);
    if Contains(h, pat) {
      var k :| 0 <= k <= |h| - |pat| && OccursAt(h, pat, k);
      assert (h + [])[k..k + |pat|] == h[k..k + |pat|];
      TokenOccurrence(n, name, [], k);
    }
  }

  /** `Render(lits, holes).replace(Token(name), value)` fills every hole named
      `name` with `value` and leaves the literal text and all other holes as
      they were. */
  lemma {:induction false} ReplaceRender(lits: seq<String>, holes: seq<Hole>, name: String, value: String)
    requires WellFormed(lits, holes)
    requires |name| > 0 && BraceFree(name) && NoDoubleBrace(value)
    ensures WellFormed(lits, Fill(holes, name, value))
    ensures Replace(Render(lits, holes), Token(name), value) == Render(lits, Fill(holes, name, value))
    decreases holes
  {
    var pat := Token(name);
    var filled := Fill(holes, name, value);
    NoCharFromNotIn(lits[0], '{');
    NotContainsWithoutFirst(lits[0], pat);
    ReplaceAbsent(lits[0], pat, value);
    if holes != [] {
      WellFormedTail(lits, holes);
      var rest := Render(lits[1..], holes[1..]);
      var h := HoleText(holes[0]);
      RenderStart(lits[1..], holes[1..]);
      ReplaceRender(lits[1..], holes[1..], name, value);
      assert filled[1..] == Fill(holes[1..], name, value);
      NoStraddleLiteral(lits[0], h + rest, pat);
      ReplaceAppend(lits[0], h + rest, pat, value);
      match holes[0]
      case Slot(n) =>
        if n == name {
          ReplaceLeading(rest, pat, value);
        } else {
          OtherSlotReplace(n, name, rest, value);
        }
      case Filled(v) =>
        NoStraddleValue(v, rest, pat);
        ReplaceAppend(v, rest, pat, value);
        ValueHoldsNoToken(v, pat);
        ReplaceAbsent(v, pat, value);
    }
  }

  /** A well-formed render with every hole filled holds no `{{` and starts
      and ends with its first and last literal pieces. */
  lemma {:induction false} ClosedRender(lits: seq<String>, holes: seq<Hole>)
    requires WellFormed(lits, holes) && AllFilled(holes)
    ensures var r := Render(lits, holes);
      NoDoubleBrace(r) &&
      |lits[0]| <= |r| && r[..|lits[0]|] == lits[0] &&
      |lits[|lits| - 1]| <= |r| && r[|r| - |lits[|lits| - 1]|..] == lits[|lits| - 1]
  {
    RenderClosed(lits, holes);
    RenderEnds(lits, holes);
  }

  /** Once every hole is filled, the text holds no `{{`: no placeholder
      token is left. */
  lemma {:induction false} RenderClosed(lits: seq<String>, holes: seq<Hole>)
    requires WellFormed(lits, holes) && AllFilled(holes)
    ensures NoDoubleBrace(Render(lits, holes))
    decreases holes
  {
    NoCharFromNotIn(lits[0], '{');
    NoDoubleBraceLiteral(lits[0]);
    if holes != [] {
      WellFormedTail(lits, holes);
      var rest := Render(lits[1..], holes[1..]);
      var v := holes[0].value;
      RenderClosed(lits[1..], holes[1..]);
      RenderStart(lits[1..], holes[1..]);
      NoDoubleBraceAppend(v, rest);
      NoDoubleBraceAppend(lits[0], v + rest);
    }
  }
}
