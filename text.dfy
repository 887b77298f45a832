/** String helpers that stand for the JavaScript string and regular-expression
    operations the application uses: `trim`, `/^\d+$/`, `/\S+@\S+\.\S+/` and
    `replace(/-/g, ' ')`. Whitespace is the ASCII set (space, tab, line feed,
    carriage return, form feed, vertical tab). */
module Text {

  predicate IsWhitespace(c: char)
  {
    c == ' ' || c == '\t' || c == '\n' || c == '\r' || c == '\U{000C}' || c == '\U{000B}'
  }

  predicate IsDigit(c: char)
  {
    '0' <= c <= '9'
  }

  /** Every character is whitespace (the empty string included). */
  predicate IsBlank(s: string)
  {
    forall i :: 0 <= i < |s| ==> IsWhitespace(s[i])
  }

  /** `s` drops its leading whitespace. */
  function TrimStart(s: string): (r: string)
    ensures |r| <= |s| && r == s[|s| - |r|..]
    ensures r == [] || !IsWhitespace(r[0])
    ensures forall i :: 0 <= i < |s| - |r| ==> IsWhitespace(s[i])
  {
    if s == [] || !IsWhitespace(s[0]) then s else TrimStart(s[1..])
  }

  /** `s` drops its trailing whitespace. */
  function TrimEnd(s: string): (r: string)
    ensures |r| <= |s| && r == s[..|r|]
    ensures r == [] || !IsWhitespace(r[|r| - 1])
    ensures forall i :: |r| <= i < |s| ==> IsWhitespace(s[i])
  {
    if s == [] || !IsWhitespace(s[|s| - 1]) then s else TrimEnd(s[..|s| - 1])
  }

  /** JavaScript's `String.prototype.trim`; `!s.trim()` holds exactly for the
      blank strings. */
  function Trim(s: string): (r: string)
    ensures r == [] <==> IsBlank(s)
  {
    TrimEnd(TrimStart(s))
  }

  /** `/^\d+$/.test(s)`: non-empty and made of the digits 0-9 only. */
  predicate IsDigits(s: string)
  {
    |s| > 0 && forall i :: 0 <= i < |s| ==> IsDigit(s[i])
  }

  /** `s.replace(/<from>/g, <to>)` for single characters. */
  function ReplaceAll(s: string, from: char, to: char): (r: string)
    ensures |r| == |s|
    ensures forall i :: 0 <= i < |s| ==> r[i] == (if s[i] == from then to else s[i])
  {
    if s == [] then [] else ReplaceAll(s[..|s| - 1], from, to) + [if s[|s| - 1] == from then to else s[|s| - 1]]
  }

  // ---------------------------------------------------------------------------
  // The e-mail test `/\S+@\S+\.\S+/.test(s)` (not anchored).

  /** A match of `\S+@\S+\.\S+` whose '@' is at `b` and whose '.' is at `c`;
      each `\S+` run can be shortened to one character next to the separator. */
  ghost predicate EmailShapeAt(s: string, b: int, c: int)
  {
    && 0 < b && b + 1 < c && c + 1 < |s|
    && !IsWhitespace(s[b - 1]) && s[b] == '@'
    && (forall k :: b < k < c ==> !IsWhitespace(s[k]))
    && s[c] == '.' && !IsWhitespace(s[c + 1])
  }

  ghost predicate ContainsEmailShape(s: string)
  {
    exists b, c :: EmailShapeAt(s, b, c)
  }

  /** A '.' at `c`, followed by a non-whitespace character, reached from `i`
      over non-whitespace characters only. */
  ghost predicate DotAt(s: string, i: int, c: int)
  {
    && 0 <= i <= c && c + 1 < |s|
    && (forall k :: i <= k < c ==> !IsWhitespace(s[k]))
    && s[c] == '.' && !IsWhitespace(s[c + 1])
  }

  /** From `i` on: a run of non-whitespace that reaches a '.' followed by a
      non-whitespace character. */
  function DotTail(s: string, i: nat): bool
    decreases |s| - i
  {
    if i + 1 >= |s| then false
    else if IsWhitespace(s[i]) then false
    else if s[i] == '.' && !IsWhitespace(s[i + 1]) then true
    else DotTail(s, i + 1)
  }

  /** Some '@' at position `b` or later starts a match. */
  function EmailFrom(s: string, b: nat): bool
    decreases |s| - b
  {
    if b + 1 >= |s| then false
    else
      (0 < b && s[b] == '@' && !IsWhitespace(s[b - 1]) && !IsWhitespace(s[b + 1]) && DotTail(s, b + 2))
      || EmailFrom(s, b + 1)
  }

  lemma {:induction false} DotTailSpec(s: string, i: nat)
    ensures DotTail(s, i) <==> exists c :: DotAt(s, i, c)
    decreases |s| - i
  {
    if i + 1 >= |s| {
    } else if IsWhitespace(s[i]) {
    } else if s[i] == '.' && !IsWhitespace(s[i + 1]) {
      assert DotAt(s, i, i);
    } else {
      DotTailSpec(s, i + 1);
      if DotTail(s, i + 1) {
        var c :| DotAt(s, i + 1, c);
        assert DotAt(s, i, c);
      }
      if exists c :: DotAt(s, i, c) {
        var c :| DotAt(s, i, c);
        assert DotAt(s, i + 1, c);
      }
    }
  }

  lemma {:induction false} EmailFromSpec(s: string, b0: nat)
    ensures EmailFrom(s, b0) <==> exists b, c :: b0 <= b && EmailShapeAt(s, b, c)
    decreases |s| - b0
  {
    if b0 + 1 < |s| {
      EmailFromSpec(s, b0 + 1);
      DotTailSpec(s, b0 + 2);
      var here := 0 < b0 && s[b0] == '@' && !IsWhitespace(s[b0 - 1]) && !IsWhitespace(s[b0 + 1]) && DotTail(s, b0 + 2);
      if here {
        var c :| DotAt(s, b0 + 2, c);
        assert EmailShapeAt(s, b0, c);
      }
      if exists b, c :: b0 <= b && EmailShapeAt(s, b, c) {
        var b, c :| b0 <= b && EmailShapeAt(s, b, c);
        if b == b0 {
          assert DotAt(s, b0 + 2, c);
        } else {
          assert b0 + 1 <= b;
        }
      }
    }
  }

  /** `/\S+@\S+\.\S+/.test(s)`, computed by a left-to-right scan. */
  function MatchesEmailPattern(s: string): (r: bool)
    ensures r <==> ContainsEmailShape(s)
  {
    EmailFromSpec(s, 0);
    EmailFrom(s, 0)
  }

  // ---------------------------------------------------------------------------
  // Ordering of strings by code point, as used to order ISO dates and codes.

  predicate LexLessEq(a: string, b: string)
    decreases |a|
  {
    a == [] || (b != [] && (a[0] < b[0] || (a[0] == b[0] && LexLessEq(a[1..], b[1..]))))
  }

  /** Any two strings are ordered one way or the other. */
  lemma {:induction false} LexTotal(a: string, b: string)
    ensures LexLessEq(a, b) || LexLessEq(b, a)
    decreases |a|
  {
    if a != [] && b != [] && a[0] == b[0] {
      LexTotal(a[1..], b[1..]);
    }
  }
}
