/**
 * String primitives the source takes from JavaScript: ASCII `toLowerCase`,
 * `String.prototype.includes`, a regular-expression word-boundary matcher
 * for `/\b(w1|w2|...)\b/`, and the decimal rendering of integers used in
 * template literals.
 */
module Text {

  /** `toLowerCase` restricted to ASCII letters. */
  function LowerChar(c: char): char {
    if 'A' <= c <= 'Z' then (c as int + 32) as char else c
  }

  function Lower(s: string): (r: string)
    ensures |r| == |s|
  {
    if s == [] then [] else [LowerChar(s[0])] + Lower(s[1..])
  }

  /** Lower-casing works character by character. */
  lemma {:induction false} LowerAt(s: string)
    ensures forall i :: 0 <= i < |s| ==> Lower(s)[i] == LowerChar(s[i])
  {
    if s != [] {
      LowerAt(s[1..]);
      assert forall i :: 0 < i < |s| ==> Lower(s)[i] == Lower(s[1..])[i - 1];
    }
  }

  predicate IsLower(s: string) {
    forall i :: 0 <= i < |s| ==> !('A' <= s[i] <= 'Z')
  }

  lemma {:induction false} LowerOfLower(s: string)
    requires IsLower(s)
    ensures Lower(s) == s
  {
    if s != [] {
      LowerOfLower(s[1..]);
    }
  }

  lemma LowerIsLower(s: string)
    ensures IsLower(Lower(s))
  {
    LowerAt(s);
  }

  /** `sub` occurs in `s` at position `i`. */
  predicate OccursAt(s: string, sub: string, i: int) {
    0 <= i && i + |sub| <= |s| && s[i..i + |sub|] == sub
  }

  /** `s.includes(sub)`: a scan from the front, trying a prefix match at every position. */
  predicate Includes(s: string, sub: string)
    decreases |s|
  {
    (|sub| <= |s| && s[..|sub|] == sub) || (s != [] && Includes(s[1..], sub))
  }

  lemma {:induction false} IncludesHasOccurrence(s: string, sub: string) returns (i: int)
    requires Includes(s, sub)
    ensures OccursAt(s, sub, i)
    decreases |s|
  {
    if |sub| <= |s| && s[..|sub|] == sub {
      i := 0;
    } else {
      var j := IncludesHasOccurrence(s[1..], sub);
      assert s[j + 1..j + 1 + |sub|] == s[1..][j..j + |sub|];
      i := j + 1;
    }
  }

  lemma {:induction false} OccurrenceIncludes(s: string, sub: string, i: int)
    requires OccursAt(s, sub, i)
    ensures Includes(s, sub)
    decreases i
  {
    if i > 0 {
      assert s[1..][i - 1..i - 1 + |sub|] == s[i..i + |sub|];
      OccurrenceIncludes(s[1..], sub, i - 1);
    }
  }

  lemma IncludesIffOccurs(s: string, sub: string)
    ensures Includes(s, sub) <==> exists i :: OccursAt(s, sub, i)
  {
    if Includes(s, sub) {
      var i := IncludesHasOccurrence(s, sub);
    }
    if i :| OccursAt(s, sub, i) {
      OccurrenceIncludes(s, sub, i);
    }
  }

  /** The regular-expression class `\w` without the `u` flag: `[A-Za-z0-9_]`. */
  predicate IsWordChar(c: char) {
    'a' <= c <= 'z' || 'A' <= c <= 'Z' || '0' <= c <= '9' || c == '_'
  }

  /** `\b` at position `i`: exactly one of the characters on either side is a word character. */
  predicate BoundaryAt(s: string, i: int)
    requires 0 <= i <= |s|
  {
    (i > 0 && IsWordChar(s[i - 1])) != (i < |s| && IsWordChar(s[i]))
  }

  /** The alternative `w` of `\b(...)\b` matches at position `i`. */
  predicate WordAt(s: string, w: string, i: int) {
    OccursAt(s, w, i) && BoundaryAt(s, i) && BoundaryAt(s, i + |w|)
  }

  /** Some alternative among `words` matches at position `i`, tried left to right. */
  predicate SomeWordAt(s: string, words: seq<string>, i: int) {
    words != [] && (WordAt(s, words[0], i) || SomeWordAt(s, words[1..], i))
  }

  /** The search `s.match(/\b(words)\b/)` started at position `i` succeeds. */
  predicate MatchFrom(s: string, words: seq<string>, i: nat)
    decreases |s| - i
  {
    i <= |s| && (SomeWordAt(s, words, i) || (i < |s| && MatchFrom(s, words, i + 1)))
  }

  /** `s.match(/\b(words)\b/)` is not null. */
  predicate MatchesWord(s: string, words: seq<string>) {
    MatchFrom(s, words, 0)
  }

  lemma {:induction false} SomeWordAtIff(s: string, words: seq<string>, i: int)
    ensures SomeWordAt(s, words, i) <==> exists k :: 0 <= k < |words| && WordAt(s, words[k], i)
  {
    if words != [] {
      SomeWordAtIff(s, words[1..], i);
      if k :| 0 <= k < |words| && WordAt(s, words[k], i) {
        if k > 0 {
          assert words[1..][k - 1] == words[k];
        }
      }
    }
  }

  lemma {:induction false} MatchFromIff(s: string, words: seq<string>, i: nat)
    requires i <= |s|
    ensures MatchFrom(s, words, i) <==>
      exists j, k :: i <= j <= |s| && 0 <= k < |words| && WordAt(s, words[k], j)
    decreases |s| - i
  {
    SomeWordAtIff(s, words, i);
    if i < |s| {
      MatchFromIff(s, words, i + 1);
    }
  }

  /**
   * A title matches a word-rule exactly when some alternative occurs in it
   * with a word boundary on both sides.
   */
  lemma MatchesWordIff(s: string, words: seq<string>)
    ensures MatchesWord(s, words) <==>
      exists j, k :: 0 <= j <= |s| && 0 <= k < |words| && WordAt(s, words[k], j)
  {
    MatchFromIff(s, words, 0);
  }

  function DigitChar(d: int): char
    requires 0 <= d < 10
  {
    "0123456789"[d]
  }

  predicate IsDigit(c: char) {
    '0' <= c <= '9'
  }

  /** The decimal rendering of a non-negative integer, as a template literal prints it. */
  function NatToString(n: nat): (r: string)
    ensures |r| >= 1
    ensures n >= 10 ==> |r| >= 2
    ensures forall i :: 0 <= i < |r| ==> IsDigit(r[i])
  {
    if n < 10 then [DigitChar(n)] else NatToString(n / 10) + [DigitChar(n % 10)]
  }

  /** The decimal rendering of an integer, with a leading `-` when negative. */
  function IntToString(n: int): (r: string)
    ensures forall i :: 0 <= i < |r| ==> IsDigit(r[i]) || r[i] == '-'
  {
    if n < 0 then "-" + NatToString(-n) else NatToString(n)
  }

  lemma DigitCharInjective(a: int, b: int)
    requires 0 <= a < 10 && 0 <= b < 10
    requires DigitChar(a) == DigitChar(b)
    ensures a == b
  {
  }

  lemma {:induction false} NatToStringInjective(a: nat, b: nat)
    requires NatToString(a) == NatToString(b)
    ensures a == b
  {
    var sa, sb := NatToString(a), NatToString(b);
    if a < 10 && b < 10 {
      DigitCharInjective(a, b);
    } else if a >= 10 && b >= 10 {
      assert sa[..|sa| - 1] == NatToString(a / 10);
      assert sb[..|sb| - 1] == NatToString(b / 10);
      NatToStringInjective(a / 10, b / 10);
      assert sa[|sa| - 1] == DigitChar(a % 10);
      assert sb[|sb| - 1] == DigitChar(b % 10);
      DigitCharInjective(a % 10, b % 10);
    }
  }

  lemma IntToStringSign(n: int)
    ensures IntToString(n)[0] == '-' <==> n < 0
  {
  }

  /** Distinct integers never print alike. */
  lemma IntToStringInjective(a: int, b: int)
    requires IntToString(a) == IntToString(b)
    ensures a == b
  {
    var sa, sb := IntToString(a), IntToString(b);
    IntToStringSign(a);
    IntToStringSign(b);
    assert (a < 0) == (b < 0);
    if a < 0 {
      assert sa[1..] == NatToString(-a);
      assert sb[1..] == NatToString(-b);
      NatToStringInjective(-a, -b);
    } else {
      NatToStringInjective(a, b);
    }
  }

  /** Splitting `x + [sep] + y` at the first `sep` recovers `x` and `y`. */
  lemma {:induction false} SplitAtSeparator(x: string, y: string, x': string, y': string, sep: char)
    requires forall i :: 0 <= i < |x| ==> x[i] != sep
    requires forall i :: 0 <= i < |x'| ==> x'[i] != sep
    requires x + [sep] + y == x' + [sep] + y'
    ensures x == x' && y == y'
  {
    var s := x + [sep] + y;
    assert s[|x|] == sep && s[|x'|] == sep;
    assert |x| == |x'|;
    assert x == s[..|x|] == x';
    assert y == s[|x| + 1..] == y';
  }

  lemma CancelPrefix(p: string, x: string, y: string)
    requires p + x == p + y
    ensures x == y
  {
    assert x == (p + x)[|p|..];
    assert y == (p + y)[|p|..];
  }

  /**
   * A number printed before a separator that cannot occur in a number (no
   * digit, no minus sign) can be read back, and so can what follows it.
   */
  lemma NumberBeforeSeparator(a: int, b: int, u: string, v: string)
    requires u != [] && v != [] && u[0] == v[0] && !IsDigit(u[0]) && u[0] != '-'
    requires IntToString(a) + u == IntToString(b) + v
    ensures a == b && u == v
  {
    var sa, sb := IntToString(a), IntToString(b);
    assert sa + [u[0]] + u[1..] == sa + u;
    assert sb + [u[0]] + v[1..] == sb + v;
    SplitAtSeparator(sa, u[1..], sb, v[1..], u[0]);
    IntToStringInjective(a, b);
    assert u == [u[0]] + u[1..] && v == [v[0]] + v[1..];
  }
}
