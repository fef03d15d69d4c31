/** The string operations the normalisers chain together: `normalize('NFD')` followed by
    removal of the combining marks U+0300..U+036F, `trim()`, `toUpperCase()` and
    `toLowerCase()`. Decomposition is modelled for the precomposed letters of Latin-1 and
    case mapping for ASCII and Latin-1; every other character is left as it is. */
module Text {

  /** The characters `String.prototype.trim` removes: white space and line terminators. */
  predicate IsJsWhitespace(c: char) {
    || c == '\t' || c == '\n' || c == '\U{B}' || c == '\U{C}' || c == '\r' || c == ' '
    || c == '\U{A0}' || c == '\U{1680}' || ('\U{2000}' <= c <= '\U{200A}')
    || c == '\U{2028}' || c == '\U{2029}' || c == '\U{202F}' || c == '\U{205F}'
    || c == '\U{3000}' || c == '\U{FEFF}'
  }

  predicate AllWhitespace(s: string) {
    forall i :: 0 <= i < |s| ==> IsJsWhitespace(s[i])
  }

  function TrimStart(s: string): string {
    if s != [] && IsJsWhitespace(s[0]) then TrimStart(s[1..]) else s
  }

  function TrimEnd(s: string): string {
    if s != [] && IsJsWhitespace(s[|s| - 1]) then TrimEnd(s[..|s| - 1]) else s
  }

  /** `trimStart` removes a white-space prefix and nothing else: what is left is a
      suffix of the input that does not start with white space. */
  lemma {:induction false} TrimStartShape(s: string)
    ensures |TrimStart(s)| <= |s| && TrimStart(s) == s[|s| - |TrimStart(s)|..]
    ensures AllWhitespace(s[..|s| - |TrimStart(s)|])
    ensures TrimStart(s) == [] || !IsJsWhitespace(TrimStart(s)[0])
  {
    if s != [] && IsJsWhitespace(s[0]) {
      TrimStartShape(s[1..]);
      assert s[1..][..|s| - 1 - |TrimStart(s)|] == s[1..|s| - |TrimStart(s)|];
    }
  }

  /** `trimEnd` removes a white-space suffix and nothing else. */
  lemma {:induction false} TrimEndShape(s: string)
    ensures |TrimEnd(s)| <= |s| && TrimEnd(s) == s[..|TrimEnd(s)|]
    ensures AllWhitespace(s[|TrimEnd(s)|..])
    ensures TrimEnd(s) == [] || !IsJsWhitespace(TrimEnd(s)[|TrimEnd(s)| - 1])
  {
    if s != [] && IsJsWhitespace(s[|s| - 1]) {
      var front := s[..|s| - 1];
      TrimEndShape(front);
      var n := |TrimEnd(s)|;
      forall i | n <= i < |s|
        ensures IsJsWhitespace(s[i])
      {
        if i < |s| - 1 {
          assert s[i] == front[n..][i - n];
        }
      }
    }
  }

  /** `s.trim()`. */
  function Trim(s: string): string {
    TrimEnd(TrimStart(s))
  }

  /** Applies a character-to-string mapping to every character and concatenates the results. */
  function FlatMap(f: char -> string, s: string): string {
    if s == [] then [] else f(s[0]) + FlatMap(f, s[1..])
  }

  lemma {:induction false} FlatMapAppend(f: char -> string, a: string, b: string)
    ensures FlatMap(f, a + b) == FlatMap(f, a) + FlatMap(f, b)
  {
    if a == [] {
      assert a + b == b;
    } else {
      assert (a + b)[1..] == a[1..] + b;
      FlatMapAppend(f, a[1..], b);
    }
  }

  /** A character no mapped piece contains is not in the concatenation either. */
  lemma {:induction false} FlatMapAvoids(f: char -> string, s: string, x: char)
    requires forall i :: 0 <= i < |s| ==> x !in f(s[i])
    ensures x !in FlatMap(f, s)
  {
    if s != [] {
      FlatMapAvoids(f, s[1..], x);
    }
  }

  /** Trimming only removes characters: everything it keeps comes from the input. */
  lemma TrimKeepsCharacters(s: string)
    ensures forall i :: 0 <= i < |Trim(s)| ==> Trim(s)[i] in s
  {
    var t := TrimStart(s);
    TrimStartShape(s);
    TrimEndShape(t);
    forall i | 0 <= i < |Trim(s)|
      ensures Trim(s)[i] in s
    {
      assert Trim(s)[i] == t[i] == s[|s| - |t| + i];
    }
  }

  /** The combining diacritical marks that `replace(/[\u0300-\u036f]/g, '')` removes. */
  predicate IsCombiningMark(c: char) {
    '\U{300}' <= c <= '\U{36F}'
  }

  /** The base letter of a Latin-1 precomposed letter, i.e. the first character of its
      canonical decomposition; every other character is its own base. */
  function BaseLetter(c: char): char {
    if '\U{C0}' <= c <= '\U{C5}' then 'A'
    else if c == '\U{C7}' then 'C'
    else if '\U{C8}' <= c <= '\U{CB}' then 'E'
    else if '\U{CC}' <= c <= '\U{CF}' then 'I'
    else if c == '\U{D1}' then 'N'
    else if '\U{D2}' <= c <= '\U{D6}' then 'O'
    else if '\U{D9}' <= c <= '\U{DC}' then 'U'
    else if c == '\U{DD}' then 'Y'
    else if '\U{E0}' <= c <= '\U{E5}' then 'a'
    else if c == '\U{E7}' then 'c'
    else if '\U{E8}' <= c <= '\U{EB}' then 'e'
    else if '\U{EC}' <= c <= '\U{EF}' then 'i'
    else if c == '\U{F1}' then 'n'
    else if '\U{F2}' <= c <= '\U{F6}' then 'o'
    else if '\U{F9}' <= c <= '\U{FC}' then 'u'
    else if c == '\U{FD}' || c == '\U{FF}' then 'y'
    else c
  }

  /** What NFD followed by mark removal leaves of one character. */
  function FoldAccent(c: char): string {
    if IsCombiningMark(c) then [] else [BaseLetter(c)]
  }

  /** `s.normalize('NFD').replace(/[\u0300-\u036f]/g, '')`. */
  function StripAccents(s: string): string {
    FlatMap(FoldAccent, s)
  }

  predicate IsAsciiLower(c: char) {
    'a' <= c <= 'z'
  }

  predicate IsAsciiUpper(c: char) {
    'A' <= c <= 'Z'
  }

  /** `toUpperCase()` of one character over ASCII and Latin-1: `ß` becomes "SS",
      `ÿ` becomes U+0178, `µ` becomes U+039C. */
  function UpperChar(c: char): string {
    if IsAsciiLower(c) then [(c as int - 32) as char]
    else if c == '\U{B5}' then ['\U{39C}']
    else if c == '\U{DF}' then "SS"
    else if '\U{E0}' <= c <= '\U{FE}' && c != '\U{F7}' then [(c as int - 32) as char]
    else if c == '\U{FF}' then ['\U{178}']
    else [c]
  }

  /** `s.toUpperCase()`. */
  function Upper(s: string): string {
    FlatMap(UpperChar, s)
  }

  /** `toLowerCase()` of one character over ASCII and Latin-1. */
  function LowerChar(c: char): char {
    if IsAsciiUpper(c) then (c as int + 32) as char
    else if '\U{C0}' <= c <= '\U{DE}' && c != '\U{D7}' then (c as int + 32) as char
    else c
  }

  /** `s.toLowerCase()`. */
  function Lower(s: string): (r: string)
    ensures |r| == |s| && forall i :: 0 <= i < |s| ==> r[i] == LowerChar(s[i])
  {
    if s == [] then [] else [LowerChar(s[0])] + Lower(s[1..])
  }

  /** Upper-casing keeps white space and never produces it from anything else. */
  lemma UpperCharWhitespace(c: char)
    ensures IsJsWhitespace(c) ==> UpperChar(c) == [c]
    ensures !IsJsWhitespace(c) ==> UpperChar(c) != [] && forall i :: 0 <= i < |UpperChar(c)| ==> !IsJsWhitespace(UpperChar(c)[i])
  {
  }

  lemma {:induction false} UpperAppend(a: string, b: string)
    ensures Upper(a + b) == Upper(a) + Upper(b)
  {
    FlatMapAppend(UpperChar, a, b);
  }

  lemma {:induction false} UpperTrimStart(u: string)
    ensures Upper(TrimStart(u)) == TrimStart(Upper(u))
  {
    if u != [] {
      UpperCharWhitespace(u[0]);
      var rest := Upper(u[1..]);
      assert Upper(u) == UpperChar(u[0]) + rest;
      if IsJsWhitespace(u[0]) {
        assert (UpperChar(u[0]) + rest)[1..] == rest;
        UpperTrimStart(u[1..]);
      } else {
        assert (UpperChar(u[0]) + rest)[0] == UpperChar(u[0])[0];
      }
    }
  }

  lemma {:induction false} UpperTrimEnd(u: string)
    ensures Upper(TrimEnd(u)) == TrimEnd(Upper(u))
  {
    if u != [] {
      var n := |u| - 1;
      UpperCharWhitespace(u[n]);
      assert u == u[..n] + [u[n]];
      UpperAppend(u[..n], [u[n]]);
      var front := Upper(u[..n]);
      assert [u[n]][1..] == [];
      assert Upper([u[n]]) == UpperChar(u[n]) + Upper([]);
      assert Upper(u) == front + UpperChar(u[n]);
      if IsJsWhitespace(u[n]) {
        assert (front + [u[n]])[..|front|] == front;
        UpperTrimEnd(u[..n]);
      } else {
        var w := UpperChar(u[n]);
        assert (front + w)[|front + w| - 1] == w[|w| - 1];
      }
    }
  }

  /** Trimming and upper-casing commute, so `s.trim().toUpperCase()` equals
      `s.toUpperCase().trim()`. */
  lemma UpperTrimCommute(u: string)
    ensures Upper(Trim(u)) == Trim(Upper(u))
  {
    UpperTrimEnd(TrimStart(u));
    UpperTrimStart(u);
  }

  /** Upper-casing leaves no ASCII lower-case letter behind. */
  lemma {:induction false} UpperHasNoAsciiLower(s: string)
    ensures forall i :: 0 <= i < |Upper(s)| ==> !IsAsciiLower(Upper(s)[i])
  {
    if s != [] {
      UpperHasNoAsciiLower(s[1..]);
      assert Upper(s) == UpperChar(s[0]) + Upper(s[1..]);
    }
  }

  /** Lower-casing leaves no ASCII upper-case letter behind. */
  lemma LowerHasNoAsciiUpper(s: string)
    ensures forall i :: 0 <= i < |Lower(s)| ==> !IsAsciiUpper(Lower(s)[i])
  {
  }

  /** The key the two task-status normalisers look up:
      `s.normalize('NFD').replace(/[\u0300-\u036f]/g, '').trim().toUpperCase()`. */
  function CanonicalUpper(s: string): string {
    Upper(Trim(StripAccents(s)))
  }

  /** The key the two info-type normalisers look up: `s.trim().toLowerCase()`. */
  function CanonicalLower(s: string): string {
    Lower(Trim(s))
  }

  /** Lower-case ASCII text is its own info-type key. */
  lemma PlainLowerIsCanonical(s: string)
    requires forall i :: 0 <= i < |s| ==> IsAsciiLower(s[i])
    ensures CanonicalLower(s) == s
  {
    assert TrimStart(s) == s;
    assert TrimEnd(s) == s;
    assert Lower(s) == s;
  }

  /** What accent stripping and upper-casing make of one character. */
  function CharKey(c: char): string {
    Upper(FoldAccent(c))
  }

  /** An ASCII letter keys to its upper-case form. */
  lemma AsciiLetterKey(c: char)
    requires IsAsciiLower(c) || IsAsciiUpper(c)
    ensures CharKey(c) == [if IsAsciiLower(c) then (c as int - 32) as char else c]
  {
    assert FoldAccent(c) == [c];
    assert [c][1..] == [];
    assert Upper([c]) == UpperChar(c) + Upper([]);
  }

  lemma {:induction false} TrimStartWhitespacePrefix(p: string, y: string)
    requires AllWhitespace(p)
    ensures TrimStart(p + y) == TrimStart(y)
  {
    if p != [] {
      assert (p + y)[0] == p[0];
      assert (p + y)[1..] == p[1..] + y;
      TrimStartWhitespacePrefix(p[1..], y);
    } else {
      assert p + y == y;
    }
  }

  lemma {:induction false} TrimEndWhitespaceSuffix(y: string, q: string)
    requires AllWhitespace(q)
    ensures TrimEnd(y + q) == TrimEnd(y)
  {
    if q != [] {
      var n := |q| - 1;
      assert (y + q)[|y + q| - 1] == q[n];
      assert (y + q)[..|y + q| - 1] == y + q[..n];
      TrimEndWhitespaceSuffix(y, q[..n]);
    } else {
      assert y + q == y;
    }
  }

  lemma TrimStartAllWhitespace(q: string)
    requires AllWhitespace(q)
    ensures TrimStart(q) == []
  {
    TrimStartWhitespacePrefix(q, []);
    assert q + [] == q;
  }

  lemma TrimStartSplit(x: string)
    ensures |TrimStart(x)| <= |x|
    ensures x == x[..|x| - |TrimStart(x)|] + TrimStart(x)
    ensures AllWhitespace(x[..|x| - |TrimStart(x)|])
    ensures TrimStart(x) == [] || !IsJsWhitespace(TrimStart(x)[0])
  {
    TrimStartShape(x);
  }

  lemma TrimStartKeepsNonWhitespaceHead(t: string, q: string)
    requires t != [] && !IsJsWhitespace(t[0])
    ensures TrimStart(t + q) == t + q
  {
    assert (t + q)[0] == t[0];
  }

  lemma {:induction false} TrimAppendWhitespace(x: string, q: string)
    requires AllWhitespace(q)
    ensures TrimEnd(TrimStart(x + q)) == TrimEnd(TrimStart(x))
  {
    TrimStartSplit(x);
    var t := TrimStart(x);
    var w := x[..|x| - |t|];
    assert x + q == w + (t + q);
    TrimStartWhitespacePrefix(w, t + q);
    if t == [] {
      assert t + q == q;
      TrimStartAllWhitespace(q);
    } else {
      TrimStartKeepsNonWhitespaceHead(t, q);
      TrimEndWhitespaceSuffix(t, q);
    }
  }

  /** Surrounding white space does not change what `trim()` returns. */
  lemma TrimIgnoresPadding(p: string, x: string, q: string)
    requires AllWhitespace(p) && AllWhitespace(q)
    ensures Trim(p + x + q) == Trim(x)
  {
    assert p + x + q == p + (x + q);
    TrimStartWhitespacePrefix(p, x + q);
    TrimAppendWhitespace(x, q);
  }

  lemma {:induction false} UpperStripAccents(s: string)
    ensures Upper(StripAccents(s)) == FlatMap(CharKey, s)
  {
    if s != [] {
      UpperStripAccents(s[1..]);
      UpperAppend(FoldAccent(s[0]), StripAccents(s[1..]));
    }
  }

  /** The status key is determined by the characters' accent-free upper-case forms:
      it is the trimmed concatenation of `CharKey` over the input. */
  lemma CanonicalUpperByChars(s: string)
    ensures CanonicalUpper(s) == Trim(FlatMap(CharKey, s))
  {
    UpperTrimCommute(StripAccents(s));
    UpperStripAccents(s);
  }

  lemma {:induction false} WhitespaceKeysItself(p: string)
    requires AllWhitespace(p)
    ensures FlatMap(CharKey, p) == p
  {
    if p != [] {
      UpperCharWhitespace(p[0]);
      assert FoldAccent(p[0]) == [p[0]];
      assert [p[0]][1..] == [];
      assert Upper([p[0]]) == UpperChar(p[0]) + Upper([]);
      WhitespaceKeysItself(p[1..]);
      assert p == [p[0]] + p[1..];
    }
  }

  /** Leading and trailing white space never change the status key. */
  lemma CanonicalUpperIgnoresPadding(p: string, s: string, q: string)
    requires AllWhitespace(p) && AllWhitespace(q)
    ensures CanonicalUpper(p + s + q) == CanonicalUpper(s)
  {
    CanonicalUpperByChars(p + s + q);
    CanonicalUpperByChars(s);
    FlatMapAppend(CharKey, p + s, q);
    FlatMapAppend(CharKey, p, s);
    WhitespaceKeysItself(p);
    WhitespaceKeysItself(q);
    TrimIgnoresPadding(p, FlatMap(CharKey, s), q);
  }

  /** Two inputs whose characters agree one by one up to case and accents have the
      same status key. */
  lemma {:induction false} CanonicalUpperCharwise(a: string, b: string)
    requires |a| == |b|
    requires forall i :: 0 <= i < |a| ==> CharKey(a[i]) == CharKey(b[i])
    ensures CanonicalUpper(a) == CanonicalUpper(b)
  {
    SameKeysSameFlatMap(a, b);
    CanonicalUpperByChars(a);
    CanonicalUpperByChars(b);
  }

  lemma {:induction false} SameKeysSameFlatMap(a: string, b: string)
    requires |a| == |b|
    requires forall i :: 0 <= i < |a| ==> CharKey(a[i]) == CharKey(b[i])
    ensures FlatMap(CharKey, a) == FlatMap(CharKey, b)
  {
    if a != [] {
      SameKeysSameFlatMap(a[1..], b[1..]);
    }
  }
}
