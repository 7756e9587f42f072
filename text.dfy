/** The few Kotlin string operations the app relies on: `trim`, `isBlank`,
    `contains(…, ignoreCase = true)` and `joinToString`. */
module Text {

  /** Kotlin's `Char.isWhitespace()`: Java whitespace or a Unicode space
      separator (tab to carriage return, the four information separators,
      the space separators and the line/paragraph separators). */
  predicate IsWhitespace(c: char)
  {
    || ('\U{9}' <= c <= '\U{D}')
    || ('\U{1C}' <= c <= '\U{20}')
    || c == '\U{A0}' || c == '\U{1680}'
    || ('\U{2000}' <= c <= '\U{200A}')
    || c == '\U{2028}' || c == '\U{2029}' || c == '\U{202F}' || c == '\U{205F}' || c == '\U{3000}'
  }

  /** Kotlin's `isBlank()`: empty or whitespace only. */
  predicate IsBlank(s: string)
  {
    forall i :: 0 <= i < |s| ==> IsWhitespace(s[i])
  }

  /** Drops leading whitespace. */
  function TrimStart(s: string): (r: string)
    ensures |r| <= |s|
  {
    if s != [] && IsWhitespace(s[0]) then TrimStart(s[1..]) else s
  }

  /** What `TrimStart` drops is a blank prefix, and what it keeps starts with a non-whitespace character. */
  lemma {:induction false} TrimStartShape(s: string)
    ensures var r := TrimStart(s);
      && r == s[|s| - |r|..]
      && (r == [] || !IsWhitespace(r[0]))
      && IsBlank(s[..|s| - |r|])
  {
    if s != [] && IsWhitespace(s[0]) {
      TrimStartShape(s[1..]);
      var r := TrimStart(s[1..]);
      assert s[1..][..|s| - 1 - |r|] == s[1..|s| - |r|];
    }
  }

  /** Drops trailing whitespace. */
  function TrimEnd(s: string): (r: string)
    ensures |r| <= |s|
  {
    if s != [] && IsWhitespace(s[|s| - 1]) then TrimEnd(s[..|s| - 1]) else s
  }

  /** What `TrimEnd` drops is a blank suffix, and what it keeps ends with a non-whitespace character. */
  lemma {:induction false} TrimEndShape(s: string)
    ensures var r := TrimEnd(s);
      && r == s[..|r|]
      && (r == [] || !IsWhitespace(r[|r| - 1]))
      && IsBlank(s[|r|..])
  {
    if s != [] && IsWhitespace(s[|s| - 1]) {
      TrimEndShape(s[..|s| - 1]);
      var r := TrimEnd(s[..|s| - 1]);
      assert s[|r|..] == s[..|s| - 1][|r|..] + [s[|s| - 1]];
    }
  }

  /** Kotlin's `trim()`: drops whitespace at both ends. */
  function Trim(s: string): (r: string)
    ensures |r| <= |s|
  {
    TrimEnd(TrimStart(s))
  }

  /** The trimmed text neither starts nor ends with whitespace. */
  lemma TrimShape(s: string)
    ensures var r := Trim(s); r == [] || (!IsWhitespace(r[0]) && !IsWhitespace(r[|r| - 1]))
  {
    var t := TrimStart(s);
    TrimStartShape(s);
    TrimEndShape(t);
    var r := TrimEnd(t);
    if r != [] {
      assert r[0] == t[0];
    }
  }

  /** The trimmed text is empty exactly when the text is blank. */
  lemma TrimEmptyIffBlank(s: string)
    ensures Trim(s) == [] <==> IsBlank(s)
  {
    var t := TrimStart(s);
    TrimStartShape(s);
    TrimEndShape(t);
    if t == [] {
      assert s[..|s|] == s;
    } else {
      assert t[0..] == t;
      assert t[0] == s[|s| - |t|];
    }
  }

  /** Trimming a trimmed text changes nothing. */
  lemma TrimIdempotent(s: string)
    ensures Trim(Trim(s)) == Trim(s)
  {
    var r := Trim(s);
    TrimShape(s);
    if r != [] {
      assert TrimStart(r) == r;
      assert TrimEnd(r) == r;
    }
  }

  /** ASCII lower-casing of one character. */
  function LowerChar(c: char): (r: char)
    ensures 'A' <= c <= 'Z' ==> 'a' <= r <= 'z'
    ensures !('A' <= c <= 'Z') ==> r == c
  {
    if 'A' <= c <= 'Z' then (c as int - 'A' as int + 'a' as int) as char else c
  }

  function Lower(s: string): (r: string)
    ensures |r| == |s|
    ensures forall i :: 0 <= i < |s| ==> r[i] == LowerChar(s[i])
  {
    if s == [] then [] else [LowerChar(s[0])] + Lower(s[1..])
  }

  /** `p` occurs as a contiguous piece of `s`. */
  predicate IsInfix(p: string, s: string)
    decreases |s|
  {
    p <= s || (s != [] && IsInfix(p, s[1..]))
  }

  /** Kotlin's `text.contains(query, ignoreCase = true)`, with case folded on ASCII letters. */
  predicate ContainsIgnoreCase(text: string, query: string)
  {
    IsInfix(Lower(query), Lower(text))
  }

  /** The empty query is contained in every text. */
  lemma EmptyQueryContained(text: string)
    ensures ContainsIgnoreCase(text, "")
  {
    assert Lower("") == [];
    assert [] <= Lower(text);
  }

  /** Kotlin's `joinToString(separator)`. */
  function Join(parts: seq<string>, sep: string): (r: string)
    ensures parts == [] ==> r == ""
    ensures |parts| == 1 ==> r == parts[0]
  {
    if parts == [] then ""
    else if |parts| == 1 then parts[0]
    else parts[0] + sep + Join(parts[1..], sep)
  }
}
