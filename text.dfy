/**
 * The Foundation string operations the view-models rely on, over `string` (a sequence of
 * Unicode scalar values): trimming by a character set, `components(separatedBy:)`,
 * `split(separator:)`, `contains`, `replacingOccurrences(of:with: "")`, `lowercased()` and
 * the decimal rendering of an `Int` in string interpolation.
 */
module Text {

  // ---------------------------------------------------------------------------------------
  // Character sets
  // ---------------------------------------------------------------------------------------

  /** `CharacterSet.whitespaces`: Unicode general category Zs plus CHARACTER TABULATION. */
  predicate IsWhitespace(c: char)
  {
    c == '\t' || c == ' ' || c == '\U{A0}' || c == '\U{1680}' ||
    ('\U{2000}' <= c <= '\U{200A}') || c == '\U{202F}' || c == '\U{205F}' || c == '\U{3000}'
  }

  /** `CharacterSet.newlines`: U+000A to U+000D, U+0085, U+2028 and U+2029. */
  predicate IsNewline(c: char)
  {
    ('\n' <= c <= '\r') || c == '\U{85}' || c == '\U{2028}' || c == '\U{2029}'
  }

  /** `CharacterSet.whitespacesAndNewlines`. */
  predicate IsWhitespaceOrNewline(c: char)
  {
    IsWhitespace(c) || IsNewline(c)
  }

  predicate IsDigit(c: char)
  {
    '0' <= c <= '9'
  }

  predicate IsAsciiLetter(c: char)
  {
    ('A' <= c <= 'Z') || ('a' <= c <= 'z')
  }

  /** Every character of `s` is in the set `p`. */
  predicate AllSatisfy(s: string, p: char -> bool)
  {
    forall k :: 0 <= k < |s| ==> p(s[k])
  }

  /** No character of `s` is in the set `p`. */
  predicate NoneSatisfy(s: string, p: char -> bool)
  {
    forall k :: 0 <= k < |s| ==> !p(s[k])
  }

  // ---------------------------------------------------------------------------------------
  // trimmingCharacters(in:)
  // ---------------------------------------------------------------------------------------

  /** Drops the leading characters in `p`. */
  function TrimStart(s: string, p: char -> bool): (r: string)
    ensures |r| <= |s|
    decreases |s|
  {
    if |s| > 0 && p(s[0]) then TrimStart(s[1..], p) else s
  }

  /** What `TrimStart` leaves is the suffix of `s` after a run of characters in `p`. */
  lemma {:induction false} TrimStartFacts(s: string, p: char -> bool)
    ensures var r := TrimStart(s, p);
      r == s[|s| - |r|..] && (r == [] || !p(r[0])) &&
      forall k :: 0 <= k < |s| - |r| ==> p(s[k])
    decreases |s|
  {
    if |s| > 0 && p(s[0]) {
      TrimStartFacts(s[1..], p);
    }
  }

  /** Drops the trailing characters in `p`. */
  function TrimEnd(s: string, p: char -> bool): (r: string)
    ensures |r| <= |s|
    decreases |s|
  {
    if |s| > 0 && p(s[|s| - 1]) then TrimEnd(s[..|s| - 1], p) else s
  }

  /** What `TrimEnd` leaves is the prefix of `s` before a run of characters in `p`. */
  lemma {:induction false} TrimEndFacts(s: string, p: char -> bool)
    ensures var r := TrimEnd(s, p);
      r == s[..|r|] && (r == [] || !p(r[|r| - 1])) &&
      forall k :: |r| <= k < |s| ==> p(s[k])
    decreases |s|
  {
    if |s| > 0 && p(s[|s| - 1]) {
      TrimEndFacts(s[..|s| - 1], p);
    }
  }

  /**
   * `trimmingCharacters(in: p)`: the infix of `s` left after dropping the leading and the
   * trailing characters in `p`. It neither starts nor ends with a character in `p`, it is
   * empty exactly when every character of `s` is in `p`, and a string that already neither
   * starts nor ends with one is returned unchanged.
   */
  function Trim(s: string, p: char -> bool): (r: string)
    ensures var a := |s| - |TrimStart(s, p)|; a + |r| <= |s| && r == s[a..a + |r|]
    ensures r == [] || (!p(r[0]) && !p(r[|r| - 1]))
    ensures r == [] <==> AllSatisfy(s, p)
    ensures s == [] || (!p(s[0]) && !p(s[|s| - 1])) ==> r == s
    ensures forall k :: 0 <= k < |s| - |TrimStart(s, p)| ==> p(s[k])
    ensures forall k :: |s| - |TrimStart(s, p)| + |r| <= k < |s| ==> p(s[k])
  {
    TrimDropped(s, p);
    TrimIsInfix(s, p);
    TrimBoundaries(s, p);
    TrimEmpty(s, p);
    TrimUntouched(s, p);
    TrimEnd(TrimStart(s, p), p)
  }

  lemma TrimIsInfix(s: string, p: char -> bool)
    ensures var r := TrimEnd(TrimStart(s, p), p);
      r == s[|s| - |TrimStart(s, p)|..|s| - |TrimStart(s, p)| + |r|]
  {
    var t := TrimStart(s, p);
    var r := TrimEnd(t, p);
    var a := |s| - |t|;
    TrimStartFacts(s, p);
    TrimEndFacts(t, p);
    assert t == s[a..];
    assert r == t[..|r|];
    assert s[a..][..|r|] == s[a..a + |r|];
  }

  /** Everything trimming drops, before and after what it keeps, is in `p`. */
  lemma TrimDropped(s: string, p: char -> bool)
    ensures forall k :: 0 <= k < |s| - |TrimStart(s, p)| ==> p(s[k])
    ensures var a := |s| - |TrimStart(s, p)|;
      forall k :: a + |TrimEnd(TrimStart(s, p), p)| <= k < |s| ==> p(s[k])
  {
    var t := TrimStart(s, p);
    var r := TrimEnd(t, p);
    var a := |s| - |t|;
    TrimStartFacts(s, p);
    TrimEndFacts(t, p);
    forall k | a + |r| <= k < |s|
      ensures p(s[k])
    {
      assert s[k] == t[k - a];
    }
  }

  lemma TrimBoundaries(s: string, p: char -> bool)
    ensures var r := TrimEnd(TrimStart(s, p), p); r == [] || (!p(r[0]) && !p(r[|r| - 1]))
  {
    TrimStartFacts(s, p);
    TrimEndFacts(TrimStart(s, p), p);
    var t := TrimStart(s, p);
    var r := TrimEnd(t, p);
    if r != [] {
      assert r[0] == t[0];
    }
  }

  lemma TrimEmpty(s: string, p: char -> bool)
    ensures TrimEnd(TrimStart(s, p), p) == [] <==> AllSatisfy(s, p)
  {
    TrimStartFacts(s, p);
    TrimEndFacts(TrimStart(s, p), p);
    var t := TrimStart(s, p);
    if t != [] {
      assert t[0] == t[..|TrimEnd(t, p)|][0];
    }
  }

  lemma TrimUntouched(s: string, p: char -> bool)
    ensures s == [] || (!p(s[0]) && !p(s[|s| - 1])) ==> TrimEnd(TrimStart(s, p), p) == s
  {
    TrimStartFacts(s, p);
    TrimEndFacts(TrimStart(s, p), p);
    if s != [] && !p(s[0]) && !p(s[|s| - 1]) {
      assert TrimStart(s, p) == s;
      assert TrimEnd(s, p) == s;
    }
  }

  /** Trimming adds no character: one absent from `s` is absent from the result. */
  lemma TrimKeepsAbsent(s: string, p: char -> bool, q: char -> bool)
    requires NoneSatisfy(s, q)
    ensures NoneSatisfy(Trim(s, p), q)
  {
    var r := Trim(s, p);
    var a := |s| - |TrimStart(s, p)|;
    forall k | 0 <= k < |r| ensures !q(r[k]) {
      assert r[k] == s[a + k];
    }
  }

  /** `trimmingCharacters(in: .whitespaces)`. */
  function TrimSpaces(s: string): string
  {
    Trim(s, IsWhitespace)
  }

  /** `trimmingCharacters(in: .whitespacesAndNewlines)`. */
  function TrimWhitespaceAndNewlines(s: string): string
  {
    Trim(s, IsWhitespaceOrNewline)
  }

  /** `s.trimmingCharacters(in: .whitespaces).isEmpty`. */
  predicate IsBlank(s: string)
  {
    TrimSpaces(s) == []
  }

  // ---------------------------------------------------------------------------------------
  // components(separatedBy:) and split(separator:)
  // ---------------------------------------------------------------------------------------

  /** How many characters of `s` are in `p`. */
  function CountWhere(s: string, p: char -> bool): nat
    decreases |s|
  {
    if s == [] then 0 else (if p(s[0]) then 1 else 0) + CountWhere(s[1..], p)
  }

  /**
   * `components(separatedBy:)`: the pieces between separator characters, empty pieces
   * included; no piece holds a separator.
   */
  function Components(s: string, isSep: char -> bool): (parts: seq<string>)
    ensures |parts| >= 1
    ensures forall i :: 0 <= i < |parts| ==> NoneSatisfy(parts[i], isSep)
    decreases |s|
  {
    if s == [] then [[]]
    else
      var rest := Components(s[1..], isSep);
      if isSep(s[0]) then [[]] + rest
      else
        var first := [s[0]] + rest[0];
        assert NoneSatisfy(first, isSep) by {
          forall k | 0 < k < |first| ensures !isSep(first[k]) {
            assert first[k] == rest[0][k - 1];
          }
        }
        [first] + rest[1..]
  }

  /** There is one more piece than there are separators. */
  lemma {:induction false} ComponentsCount(s: string, isSep: char -> bool)
    ensures |Components(s, isSep)| == CountWhere(s, isSep) + 1
    decreases |s|
  {
    if s != [] {
      ComponentsCount(s[1..], isSep);
    }
  }

  /** A string without separators is one piece. */
  lemma {:induction false} ComponentsNoSeparator(s: string, isSep: char -> bool)
    requires NoneSatisfy(s, isSep)
    ensures Components(s, isSep) == [s]
    decreases |s|
  {
    if s != [] {
      ComponentsNoSeparator(s[1..], isSep);
      assert [s[0]] + s[1..] == s;
    }
  }

  /** A separator-free `a`, a separator, then `b`: the pieces are `a` and then those of `b`. */
  lemma {:induction false} ComponentsAfterFirst(a: string, c: char, b: string, isSep: char -> bool)
    requires NoneSatisfy(a, isSep) && isSep(c)
    ensures Components(a + [c] + b, isSep) == [a] + Components(b, isSep)
    decreases |a|
  {
    var s := a + [c] + b;
    if a == [] {
      assert s[1..] == b;
    } else {
      assert s[1..] == a[1..] + [c] + b;
      ComponentsAfterFirst(a[1..], c, b, isSep);
      assert [a[0]] + a[1..] == a;
    }
  }

  /** Joins pieces with the separator `sep` between consecutive pieces. */
  function Join(parts: seq<string>, sep: char): string
  {
    if parts == [] then []
    else if |parts| == 1 then parts[0]
    else parts[0] + [sep] + Join(parts[1..], sep)
  }

  /** Joining the pieces of a one-character split with that character gives the string back. */
  lemma {:induction false} JoinComponents(s: string, isSep: char -> bool, sep: char)
    requires forall c :: isSep(c) <==> c == sep
    ensures Join(Components(s, isSep), sep) == s
    decreases |s|
  {
    if s != [] {
      var rest := Components(s[1..], isSep);
      JoinComponents(s[1..], isSep, sep);
      if isSep(s[0]) {
        assert s[0] == sep;
        assert ([[]] + rest)[1..] == rest;
      } else {
        var parts := [[s[0]] + rest[0]] + rest[1..];
        assert parts[1..] == rest[1..];
        if |rest| > 1 {
          assert Join(rest, sep) == rest[0] + [sep] + Join(rest[1..], sep);
        }
      }
    }
  }

  /** The non-empty pieces, in order. */
  function NonEmpty(parts: seq<string>): (r: seq<string>)
    ensures |r| <= |parts|
    ensures forall i :: 0 <= i < |r| ==> r[i] != [] && r[i] in parts
  {
    if parts == [] then []
    else if parts[0] == [] then NonEmpty(parts[1..])
    else [parts[0]] + NonEmpty(parts[1..])
  }

  /**
   * `split(separator: sep)` with its default of omitting empty pieces: the non-empty pieces
   * of `components(separatedBy:)`, none of which holds `sep`.
   */
  function Split(s: string, sep: char): (r: seq<string>)
    ensures forall i :: 0 <= i < |r| ==> r[i] != [] && sep !in r[i]
  {
    var parts := Components(s, c => c == sep);
    var r := NonEmpty(parts);
    assert forall i :: 0 <= i < |r| ==> NoneSatisfy(r[i], c => c == sep) by {
      forall i | 0 <= i < |r| ensures NoneSatisfy(r[i], c => c == sep) {
        var j :| 0 <= j < |parts| && parts[j] == r[i];
      }
    }
    r
  }

  /** Splitting at one separator: the pieces of `a`, then the pieces of `b`. */
  lemma {:induction false} ComponentsConcat(a: string, c: char, b: string, isSep: char -> bool)
    requires isSep(c)
    ensures Components(a + [c] + b, isSep) == Components(a, isSep) + Components(b, isSep)
    decreases |a|
  {
    var s := a + [c] + b;
    if a == [] {
      assert s[1..] == b;
    } else {
      assert s[1..] == a[1..] + [c] + b;
      ComponentsConcat(a[1..], c, b, isSep);
      var front := Components(a[1..], isSep);
      var rest := Components(s[1..], isSep);
      assert rest == front + Components(b, isSep);
      assert s[0] == a[0];
      if isSep(a[0]) {
        assert Components(s, isSep) == [[]] + rest;
        assert Components(a, isSep) == [[]] + front;
      } else {
        assert Components(s, isSep) == [[a[0]] + rest[0]] + rest[1..];
        assert Components(a, isSep) == [[a[0]] + front[0]] + front[1..];
        assert rest[0] == front[0];
        assert rest[1..] == front[1..] + Components(b, isSep);
      }
    }
  }

  /** Dropping the empty pieces works piecewise over a concatenation. */
  lemma {:induction false} NonEmptyConcat(x: seq<string>, y: seq<string>)
    ensures NonEmpty(x + y) == NonEmpty(x) + NonEmpty(y)
    decreases |x|
  {
    if x != [] {
      assert (x + y)[1..] == x[1..] + y;
      NonEmptyConcat(x[1..], y);
    } else {
      assert x + y == y;
    }
  }

  /** The empty string has no lines. */
  lemma SplitEmpty(sep: char)
    ensures Split([], sep) == []
  {
    assert Components([], c => c == sep) == [[]];
  }

  /** A non-empty string without the separator is its only piece. */
  lemma SplitNoSeparator(s: string, sep: char)
    requires s != [] && sep !in s
    ensures Split(s, sep) == [s]
  {
    ComponentsNoSeparator(s, c => c == sep);
  }

  /** The pieces before a separator come first, then those after it, nothing lost or added. */
  lemma SplitConcat(a: string, b: string, sep: char)
    ensures Split(a + [sep] + b, sep) == Split(a, sep) + Split(b, sep)
  {
    ComponentsConcat(a, sep, b, c => c == sep);
    NonEmptyConcat(Components(a, c => c == sep), Components(b, c => c == sep));
  }

  // ---------------------------------------------------------------------------------------
  // contains, replacingOccurrences, lowercased
  // ---------------------------------------------------------------------------------------

  predicate StartsWith(s: string, pat: string)
  {
    |pat| <= |s| && s[..|pat|] == pat
  }

  /** `s.contains(pat)`: `pat` occurs in `s` as a contiguous block. */
  predicate Contains(s: string, pat: string)
    decreases |s|
  {
    StartsWith(s, pat) || (s != [] && Contains(s[1..], pat))
  }

  /** `pat` occurs in `s` starting at index `i`. */
  predicate OccursAt(s: string, pat: string, i: int)
  {
    0 <= i <= |s| - |pat| && s[i..i + |pat|] == pat
  }

  /** `Contains` agrees with "some index starts an occurrence". */
  lemma {:induction false} ContainsAt(s: string, pat: string)
    ensures Contains(s, pat) <==> exists i :: OccursAt(s, pat, i)
    decreases |s|
  {
    if s != [] {
      ContainsAt(s[1..], pat);
      if exists i :: OccursAt(s, pat, i) {
        var i :| OccursAt(s, pat, i);
        if i > 0 {
          assert s[1..][i - 1..i - 1 + |pat|] == pat;
          assert OccursAt(s[1..], pat, i - 1);
        }
      }
      if Contains(s[1..], pat) && !StartsWith(s, pat) {
        var i :| OccursAt(s[1..], pat, i);
        assert s[i + 1..i + 1 + |pat|] == pat;
        assert OccursAt(s, pat, i + 1);
      }
      if StartsWith(s, pat) {
        assert OccursAt(s, pat, 0);
      }
    } else if StartsWith(s, pat) {
      assert OccursAt(s, pat, 0);
    }
  }

  /**
   * A string with no occurrence of `pat` keeps none after a prefix that cannot start one
   * (no character of `u` is `pat`'s first character).
   */
  lemma {:induction false} ContainsAfterForeignPrefix(u: string, t: string, pat: string)
    requires |pat| > 0 && pat[0] !in u
    requires !Contains(t, pat)
    ensures !Contains(u + t, pat)
    decreases |u|
  {
    if u != [] {
      assert (u + t)[0] == u[0];
      assert (u + t)[1..] == u[1..] + t;
      ContainsAfterForeignPrefix(u[1..], t, pat);
    } else {
      assert u + t == t;
    }
  }

  /**
   * `s.replacingOccurrences(of: pat, with: "")`: scans left to right and deletes every
   * non-overlapping occurrence; a string without `pat` is returned unchanged.
   */
  function RemoveAll(s: string, pat: string): (r: string)
    requires |pat| > 0
    ensures |r| <= |s|
    ensures !Contains(s, pat) ==> r == s
    decreases |s|
  {
    if |s| < |pat| then s
    else if s[..|pat|] == pat then RemoveAll(s[|pat|..], pat)
    else [s[0]] + RemoveAll(s[1..], pat)
  }

  /** A string that starts with `pat` loses that occurrence first. */
  lemma RemoveAllLeading(pat: string, t: string)
    requires |pat| > 0
    ensures RemoveAll(pat + t, pat) == RemoveAll(t, pat)
  {
    assert (pat + t)[..|pat|] == pat;
    assert (pat + t)[|pat|..] == t;
  }

  /** An occurrence in the tail of `s` is an occurrence in `s`, one index later. */
  lemma OccursInTail(s: string, pat: string, i: int)
    requires s != [] && OccursAt(s[1..], pat, i)
    ensures OccursAt(s, pat, i + 1)
  {
    assert s[1..][i..i + |pat|] == s[i + 1..i + 1 + |pat|];
  }

  /**
   * Only occurrences are removed, left to right: when no occurrence of `pat` starts inside
   * `x`, the first one after `x` goes and `x` is kept as it is.
   */
  lemma {:induction false} RemoveAllAfter(x: string, pat: string, y: string)
    requires |pat| > 0
    requires forall i :: 0 <= i < |x| ==> !OccursAt(x + pat + y, pat, i)
    ensures RemoveAll(x + pat + y, pat) == x + RemoveAll(y, pat)
    decreases |x|
  {
    var s := x + pat + y;
    if x == [] {
      assert s == pat + y;
      RemoveAllLeading(pat, y);
    } else {
      var t := x[1..] + pat + y;
      assert s[1..] == t;
      assert !OccursAt(s, pat, 0);
      assert s[..|pat|] != pat;
      assert RemoveAll(s, pat) == [s[0]] + RemoveAll(t, pat);
      forall i | 0 <= i < |x| - 1
        ensures !OccursAt(t, pat, i)
      {
        if OccursAt(t, pat, i) {
          OccursInTail(s, pat, i);
        }
      }
      RemoveAllAfter(x[1..], pat, y);
      assert [x[0]] + x[1..] == x;
    }
  }

  /** ASCII case folding, the part of `lowercased()` that error descriptions rely on. */
  function LowerChar(c: char): (r: char)
    ensures 'A' <= c <= 'Z' ==> 'a' <= r <= 'z'
    ensures !('A' <= c <= 'Z') ==> r == c
  {
    if 'A' <= c <= 'Z' then (c as int + 32) as char else c
  }

  function ToLower(s: string): (r: string)
    ensures |r| == |s|
    ensures forall k :: 0 <= k < |s| ==> r[k] == LowerChar(s[k])
  {
    seq(|s|, k requires 0 <= k < |s| => LowerChar(s[k]))
  }

  // ---------------------------------------------------------------------------------------
  // Decimal rendering of Int ("\(count)")
  // ---------------------------------------------------------------------------------------

  function DigitChar(d: nat): (c: char)
    requires d < 10
    ensures IsDigit(c)
  {
    ('0' as int + d) as char
  }

  function DigitValue(c: char): (d: nat)
    requires IsDigit(c)
    ensures d < 10 && DigitChar(d) == c
  {
    c as int - '0' as int
  }

  /** The decimal digits of `n`, most significant first, without leading zeros. */
  function NatToDecimal(n: nat): (r: string)
    ensures |r| >= 1 && AllSatisfy(r, IsDigit)
    decreases n
  {
    if n < 10 then [DigitChar(n)]
    else
      var r := NatToDecimal(n / 10) + [DigitChar(n % 10)];
      assert forall k :: 0 <= k < |r| - 1 ==> r[k] == NatToDecimal(n / 10)[k];
      r
  }

  /** The value of a string of decimal digits. */
  function DecimalToNat(s: string): nat
    requires AllSatisfy(s, IsDigit)
    decreases |s|
  {
    if s == [] then 0
    else DecimalToNat(s[..|s| - 1]) * 10 + DigitValue(s[|s| - 1])
  }

  /** Reading the rendered digits back gives the number. */
  lemma {:induction false} DecimalRoundTrip(n: nat)
    ensures DecimalToNat(NatToDecimal(n)) == n
    decreases n
  {
    if n >= 10 {
      var s := NatToDecimal(n);
      assert s[..|s| - 1] == NatToDecimal(n / 10);
      DecimalRoundTrip(n / 10);
    }
  }

  /** Swift's rendering of an `Int`: a minus sign for negative values, then the digits. */
  function IntToDecimal(i: int): string
  {
    if i < 0 then "-" + NatToDecimal(-i) else NatToDecimal(i)
  }

  /** The rendering starts with a minus sign exactly for negative numbers. */
  lemma IntToDecimalSign(i: int)
    ensures IntToDecimal(i)[0] == '-' <==> i < 0
  {
    if i >= 0 {
      assert IsDigit(NatToDecimal(i)[0]);
    }
  }

  /** Different numbers render differently. */
  lemma IntToDecimalInjective(a: int, b: int)
    requires IntToDecimal(a) == IntToDecimal(b)
    ensures a == b
  {
    IntToDecimalSign(a);
    IntToDecimalSign(b);
    if a < 0 {
      assert NatToDecimal(-a) == IntToDecimal(a)[1..];
      assert NatToDecimal(-b) == IntToDecimal(b)[1..];
      DecimalRoundTrip(-a);
      DecimalRoundTrip(-b);
    } else {
      DecimalRoundTrip(a);
      DecimalRoundTrip(b);
    }
  }
}
