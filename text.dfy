/** The JavaScript string operations the adjuster relies on:
    `String.prototype.trim`, `toLowerCase` and `startsWith`. */
module Text {

  /** The characters `trim` strips from both ends: the ECMAScript WhiteSpace
      characters (tab, vertical tab, form feed, space, no-break space, byte
      order mark and the Unicode space separators) and the LineTerminator
      characters (line feed, carriage return, line and paragraph separator). */
  const Whitespace: set<char> :=
    {'\t', '\n', '\U{B}', '\U{C}', '\r', ' ', '\U{A0}', '\U{1680}',
     '\U{2000}', '\U{2001}', '\U{2002}', '\U{2003}', '\U{2004}', '\U{2005}',
     '\U{2006}', '\U{2007}', '\U{2008}', '\U{2009}', '\U{200A}',
     '\U{2028}', '\U{2029}', '\U{202F}', '\U{205F}', '\U{3000}', '\U{FEFF}'}

  predicate IsWhitespace(c: char)
  {
    c in Whitespace
  }

  predicate AllWhitespace(s: string)
  {
    forall i :: 0 <= i < |s| ==> IsWhitespace(s[i])
  }

  /** Neither end of `s` is whitespace: the shape of every string `trim` returns. */
  predicate Trimmed(s: string)
  {
    s == [] || (!IsWhitespace(s[0]) && !IsWhitespace(s[|s| - 1]))
  }

  /** The first position at or after `i` that does not hold whitespace,
      or `|s|` when there is none. */
  function SkipSpace(s: string, i: nat): (k: nat)
    requires i <= |s|
    ensures i <= k <= |s|
    ensures forall j :: i <= j < k ==> IsWhitespace(s[j])
    ensures k < |s| ==> !IsWhitespace(s[k])
    decreases |s| - i
  {
    if i < |s| && IsWhitespace(s[i]) then SkipSpace(s, i + 1) else i
  }

  /** The position just past the last non-whitespace character before `j`,
      or 0 when there is none. */
  function SkipSpaceBack(s: string, j: nat): (k: nat)
    requires j <= |s|
    ensures k <= j
    ensures forall i :: k <= i < j ==> IsWhitespace(s[i])
    ensures 0 < k ==> !IsWhitespace(s[k - 1])
  {
    if 0 < j && IsWhitespace(s[j - 1]) then SkipSpaceBack(s, j - 1) else j
  }

  /** `s.trim()`: `s` without the whitespace at both ends. It is empty
      exactly when `s` is all whitespace. */
  function Trim(s: string): (r: string)
    ensures Trimmed(r)
    ensures r == [] <==> AllWhitespace(s)
  {
    var a := SkipSpace(s, 0);
    if a == |s| then [] else s[a..SkipSpaceBack(s, |s|)]
  }

  /** What `trim` removes is whitespace at the two ends and nothing else:
      the result is the infix of `s` that starts at the first
      non-whitespace character. */
  lemma TrimIsInfix(s: string)
    ensures var a, r := SkipSpace(s, 0), Trim(s);
      && a + |r| <= |s| && r == s[a..a + |r|]
      && (forall i :: 0 <= i < a ==> IsWhitespace(s[i]))
      && (forall i :: a + |r| <= i < |s| ==> IsWhitespace(s[i]))
  {
  }

  /** Trimming a string that is already trimmed changes nothing, so `trim`
      is idempotent. */
  lemma TrimOfTrimmed(s: string)
    requires Trimmed(s)
    ensures Trim(s) == s
  {
  }

  lemma TrimIdempotent(s: string)
    ensures Trim(Trim(s)) == Trim(s)
  {
    TrimOfTrimmed(Trim(s));
  }

  /** `toLowerCase` of one character, on the ASCII letters. */
  function LowerChar(c: char): (d: char)
  {
    if 'A' <= c <= 'Z' then (c as int - 'A' as int + 'a' as int) as char else c
  }

  /** `s.toLowerCase()`, character by character. */
  function Lower(s: string): (r: string)
    ensures |r| == |s|
    ensures forall i :: 0 <= i < |s| ==> r[i] == LowerChar(s[i])
  {
    if s == [] then [] else [LowerChar(s[0])] + Lower(s[1..])
  }

  /** `s.startsWith(prefix)`. */
  predicate StartsWith(s: string, prefix: string)
  {
    |prefix| <= |s| && s[..|prefix|] == prefix
  }

  /** Lower-casing keeps whitespace and non-whitespace apart. */
  lemma LowerCharWhitespace(c: char)
    ensures IsWhitespace(LowerChar(c)) <==> IsWhitespace(c)
  {
  }

  lemma {:induction false} SkipSpaceLower(s: string, i: nat)
    requires i <= |s|
    ensures SkipSpace(Lower(s), i) == SkipSpace(s, i)
    decreases |s| - i
  {
    if i < |s| {
      LowerCharWhitespace(s[i]);
      if IsWhitespace(s[i]) {
        SkipSpaceLower(s, i + 1);
      }
    }
  }

  lemma {:induction false} SkipSpaceBackLower(s: string, j: nat)
    requires j <= |s|
    ensures SkipSpaceBack(Lower(s), j) == SkipSpaceBack(s, j)
  {
    if 0 < j {
      LowerCharWhitespace(s[j - 1]);
      if IsWhitespace(s[j - 1]) {
        SkipSpaceBackLower(s, j - 1);
      }
    }
  }

  /** Lower-casing a slice is slicing the lower-cased string. */
  lemma LowerSlice(s: string, a: nat, b: nat)
    requires a <= b <= |s|
    ensures Lower(s)[a..b] == Lower(s[a..b])
  {
    forall i | 0 <= i < b - a ensures Lower(s)[a..b][i] == Lower(s[a..b])[i] {
      assert Lower(s)[a + i] == LowerChar(s[a + i]);
    }
  }

  /** Trimming and lower-casing commute. */
  lemma TrimLower(s: string)
    ensures Trim(Lower(s)) == Lower(Trim(s))
  {
    SkipSpaceLower(s, 0);
    SkipSpaceBackLower(s, |s|);
    var a, b := SkipSpace(s, 0), SkipSpaceBack(s, |s|);
    if a < |s| {
      LowerSlice(s, a, b);
    }
  }

  lemma LowerIdempotent(s: string)
    ensures Lower(Lower(s)) == Lower(s)
  {
  }
}
