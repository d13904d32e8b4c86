/**
 * The ECMAScript string and regular-expression primitives the application
 * relies on: the whitespace set shared by `trim()` and `\s`, the ASCII
 * classes `\d`, `\w` and `[a-z]`, maximal runs of a class, literal
 * comparison (optionally ignoring ASCII case), substring search and `trim()`.
 */
module Text {

  /** WhiteSpace or LineTerminator in ECMAScript: what `trim()` strips and `\s` matches. */
  predicate IsSpace(c: char)
  {
    || c == '\t' || c == '\n' || c == '\U{000B}' || c == '\U{000C}' || c == '\r' || c == ' '
    || c == '\U{00A0}' || c == '\U{1680}' || ('\U{2000}' <= c <= '\U{200A}')
    || c == '\U{2028}' || c == '\U{2029}' || c == '\U{202F}' || c == '\U{205F}'
    || c == '\U{3000}' || c == '\U{FEFF}'
  }

  predicate IsDigit(c: char) { '0' <= c <= '9' }

  predicate IsAsciiLetter(c: char) { 'a' <= c <= 'z' || 'A' <= c <= 'Z' }

  predicate IsWordChar(c: char) { IsAsciiLetter(c) || IsDigit(c) || c == '_' }

  /**
   * The character classes the command patterns use: `\s`, `\S`, `\d`, `\w`,
   * and `[a-z]` and `[a-z0-9.-]` under the ignore-case flag (which without
   * the unicode flag admits exactly the ASCII letters of either case).
   */
  datatype CharClass = Space | NonSpace | Digit | Word | Letter | Host

  predicate InClass(c: char, k: CharClass)
  {
    match k
    case Space => IsSpace(c)
    case NonSpace => !IsSpace(c)
    case Digit => IsDigit(c)
    case Word => IsWordChar(c)
    case Letter => IsAsciiLetter(c)
    case Host => IsAsciiLetter(c) || IsDigit(c) || c == '.' || c == '-'
  }

  /** Every character of `s[i..j]` is in class `k`. */
  predicate AllIn(s: string, i: int, j: int, k: CharClass)
  {
    0 <= i <= j <= |s| && forall m | i <= m < j :: InClass(s[m], k)
  }

  /** A non-empty run: `k+` matches `s[i..j]`. */
  predicate RunOf(s: string, i: int, j: int, k: CharClass)
  {
    i < j && AllIn(s, i, j, k)
  }

  /** The end of the longest run of class `k` that starts at `i`. */
  function SpanFrom(s: string, i: nat, k: CharClass): (j: nat)
    requires i <= |s|
    ensures AllIn(s, i, j, k)
    ensures j == |s| || !InClass(s[j], k)
    decreases |s| - i
  {
    if i < |s| && InClass(s[i], k) then SpanFrom(s, i + 1, k) else i
  }

  /** No run of class `k` from `i` is longer than the one `SpanFrom` finds. */
  lemma SpanFromMaximal(s: string, i: nat, j: int, k: CharClass)
    requires i <= |s| && AllIn(s, i, j, k)
    ensures j <= SpanFrom(s, i, k)
  {
  }

  /** A run that stops before a character outside the class, or at the end, is the longest one. */
  lemma SpanFromExact(s: string, i: nat, j: int, k: CharClass)
    requires i <= |s| && AllIn(s, i, j, k) && (j == |s| || !InClass(s[j], k))
    ensures j == SpanFrom(s, i, k)
  {
    SpanFromMaximal(s, i, j, k);
  }

  /** ASCII lower-casing of one character. */
  function ToLower(c: char): char
  {
    if 'A' <= c <= 'Z' then (c as int + 32) as char else c
  }

  function Lower(s: string): (r: string)
    ensures |r| == |s|
    ensures forall i | 0 <= i < |r| :: !('A' <= r[i] <= 'Z')
    ensures forall i | 0 <= i < |s| && !('A' <= s[i] <= 'Z') :: r[i] == s[i]
  {
    seq(|s|, i requires 0 <= i < |s| => ToLower(s[i]))
  }

  /** Text without upper-case ASCII letters is its own lower-casing. */
  lemma LowerUnchanged(s: string)
    requires forall i | 0 <= i < |s| :: !('A' <= s[i] <= 'Z')
    ensures Lower(s) == s
  {
  }

  lemma LowerIdempotent(s: string)
    ensures Lower(Lower(s)) == Lower(s)
  {
  }

  lemma LowerConcat(a: string, b: string)
    ensures Lower(a + b) == Lower(a) + Lower(b)
  {
  }

  /** A character that no character of `s` lower-cases to is absent from `Lower(s)`. */
  lemma NotInLower(s: string, c: char)
    requires forall k | 0 <= k < |s| :: ToLower(s[k]) != c
    ensures c !in Lower(s)
  {
  }

  /** Equality of a subject character with a pattern character, with or without the ignore-case flag. */
  predicate CharMatches(c: char, p: char, ignoreCase: bool)
  {
    if ignoreCase then ToLower(c) == ToLower(p) else c == p
  }

  /** The literal `w` matches `s` at position `i`. */
  predicate LiteralAt(s: string, i: int, w: string, ignoreCase: bool)
  {
    0 <= i && i + |w| <= |s| && forall k | 0 <= k < |w| :: CharMatches(s[i + k], w[k], ignoreCase)
  }

  /** `needle` occurs in `hay` starting at `i`. */
  predicate OccursAt(hay: string, needle: string, i: int)
  {
    0 <= i && i + |needle| <= |hay| && hay[i..i + |needle|] == needle
  }

  /** `String.prototype.includes`. */
  predicate Contains(hay: string, needle: string)
    ensures Contains(hay, needle) ==> |needle| <= |hay|
    ensures OccursAt(hay, needle, 0) ==> Contains(hay, needle)
    ensures needle == [] ==> Contains(hay, needle)
  {
    assert needle == [] ==> OccursAt(hay, needle, 0);
    exists i | 0 <= i <= |hay| - |needle| :: OccursAt(hay, needle, i)
  }

  /** A needle holding a character that is absent from the haystack does not occur in it. */
  lemma NotContainsChar(hay: string, needle: string, j: nat)
    requires j < |needle| && needle[j] !in hay
    ensures !Contains(hay, needle)
  {
    forall i | 0 <= i <= |hay| - |needle|
      ensures !OccursAt(hay, needle, i)
    {
      assert hay[i..i + |needle|][j] == hay[i + j];
    }
  }

  /** The empty needle occurs in every haystack. */
  lemma ContainsEmpty(hay: string)
    ensures Contains(hay, [])
  {
    assert OccursAt(hay, [], 0);
  }

  /** Whatever contains a needle contains each prefix of it. */
  lemma ContainsPrefix(hay: string, needle: string, more: string)
    requires Contains(hay, needle + more)
    ensures Contains(hay, needle)
  {
    var i :| 0 <= i <= |hay| - |needle + more| && OccursAt(hay, needle + more, i);
    assert hay[i..i + |needle|] == hay[i..i + |needle + more|][..|needle|];
    assert OccursAt(hay, needle, i);
  }

  /** A needle found in the first of three joined strings is found in the whole at the same place. */
  lemma OccursInFirst(a: string, b: string, c: string, needle: string, i: int)
    requires OccursAt(a, needle, i)
    ensures OccursAt(a + b + c, needle, i)
  {
    assert (a + b + c)[i..i + |needle|] == a[i..i + |needle|];
  }

  /** A needle found in the last of three joined strings is found in the whole, shifted. */
  lemma OccursInLast(a: string, b: string, c: string, needle: string, i: int)
    requires OccursAt(c, needle, i)
    ensures OccursAt(a + b + c, needle, |a| + |b| + i)
  {
    assert (a + b + c)[|a| + |b| + i..|a| + |b| + i + |needle|] == c[i..i + |needle|];
  }

  /** A needle made of the end of the first of three joined strings and the whole second one is found across them. */
  lemma OccursAcross(a: string, b: string, c: string, i: nat)
    requires i <= |a|
    ensures OccursAt(a + b + c, a[i..] + b, i)
  {
    assert (a + b + c)[i..|a| + |b|] == a[i..] + b;
  }

  /** The end of `s[lo..j]` once its trailing whitespace is dropped. */
  function TrailingStart(s: string, lo: nat, j: nat): (e: nat)
    requires lo <= j <= |s|
    ensures lo <= e <= j && AllIn(s, e, j, Space)
    ensures e == lo || !IsSpace(s[e - 1])
    decreases j
  {
    if lo < j && IsSpace(s[j - 1]) then TrailingStart(s, lo, j - 1) else j
  }

  /** `r` is `s` with some whitespace prefix of length `i` and some whitespace suffix removed. */
  predicate Framed(s: string, i: int, r: string)
  {
    0 <= i && i + |r| <= |s| && s[i..i + |r|] == r
    && AllIn(s, 0, i, Space) && AllIn(s, i + |r|, |s|, Space)
  }

  predicate NoOuterSpace(r: string)
  {
    r == [] || (!IsSpace(r[0]) && !IsSpace(r[|r| - 1]))
  }

  /** `String.prototype.trim`: drop leading and trailing whitespace. */
  function Trim(s: string): (r: string)
    ensures NoOuterSpace(r)
    ensures exists i :: Framed(s, i, r)
    ensures r == [] <==> AllIn(s, 0, |s|, Space)
  {
    var i := SpanFrom(s, 0, Space);
    var j := TrailingStart(s, i, |s|);
    var r := s[i..j];
    assert Framed(s, i, r);
    assert i < j ==> !IsSpace(s[i]) || i == |s|;
    r
  }

  /** The outer whitespace removed, what is left is unique: `Trim` is the only such string. */
  lemma TrimUnique(s: string, i: int, r: string)
    requires Framed(s, i, r) && NoOuterSpace(r)
    ensures r == Trim(s)
  {
    var t := Trim(s);
    var i' :| Framed(s, i', t);
    if r == [] {
      assert AllIn(s, 0, |s|, Space) by {
        forall m | 0 <= m < |s| ensures IsSpace(s[m]) {
          assert InClass(s[m], Space);
        }
      }
    } else if t != [] {
      assert s[i] == r[0] && s[i'] == t[0];
      assert s[i + |r| - 1] == r[|r| - 1] && s[i' + |t| - 1] == t[|t| - 1];
    }
  }

  /** Trimming twice is trimming once. */
  lemma TrimIdempotent(s: string)
    ensures Trim(Trim(s)) == Trim(s)
  {
    var t := Trim(s);
    assert t[0..|t|] == t;
    TrimUnique(t, 0, t);
  }

  /** Lower-casing changes no character's class. */
  lemma ToLowerKeepsClass(c: char, k: CharClass)
    ensures InClass(ToLower(c), k) == InClass(c, k)
  {
  }

  lemma {:induction false} SpanFromLower(s: string, i: nat, k: CharClass)
    requires i <= |s|
    ensures SpanFrom(Lower(s), i, k) == SpanFrom(s, i, k)
    decreases |s| - i
  {
    if i < |s| {
      ToLowerKeepsClass(s[i], k);
      SpanFromLower(s, i + 1, k);
    }
  }

  /** A literal compared without regard to case matches the lower-cased subject where it matches the subject. */
  lemma LiteralAtLower(s: string, i: int, w: string)
    ensures LiteralAt(Lower(s), i, w, true) == LiteralAt(s, i, w, true)
  {
    if 0 <= i && i + |w| <= |s| {
      forall m | i <= m < i + |w| ensures ToLower(Lower(s)[m]) == ToLower(s[m]) {
      }
    }
  }
}
