/** String primitives of the JavaScript runtime that the core leans on:
    `String.prototype.trim`, `length`, `Number.prototype.toString` on integers,
    `Array.prototype.join`, and a case fold used by the worked examples.
    Strings are sequences of Unicode scalar values. */
module Text {

  // ---------------------------------------------------------------------------
  // trim

  /** The characters `trim` removes: ECMAScript WhiteSpace and LineTerminator. */
  predicate IsJsSpace(c: char) {
    || c == '\t' || c == '\n' || c == '\U{0B}' || c == '\U{0C}' || c == '\r'
    || c == ' ' || c == '\U{A0}' || c == '\U{1680}'
    || ('\U{2000}' <= c <= '\U{200A}')
    || c == '\U{2028}' || c == '\U{2029}' || c == '\U{202F}' || c == '\U{205F}'
    || c == '\U{3000}' || c == '\U{FEFF}'
  }

  /** Everything in `s` is whitespace (so `s.trim()` is falsy). */
  predicate AllSpace(s: string) {
    forall k :: 0 <= k < |s| ==> IsJsSpace(s[k])
  }

  /** Number of whitespace characters at the front of `s`. */
  function LeadingSpaces(s: string): (n: nat)
    ensures n <= |s| && AllSpace(s[..n])
    ensures n < |s| ==> !IsJsSpace(s[n])
  {
    if s == [] || !IsJsSpace(s[0]) then 0
    else
      var m := LeadingSpaces(s[1..]);
      assert forall k :: 1 <= k < 1 + m ==> s[k] == s[1..][..m][k - 1];
      1 + m
  }

  /** Number of whitespace characters at the end of `s`. */
  function TrailingSpaces(s: string): (n: nat)
    ensures n <= |s| && AllSpace(s[|s| - n..])
    ensures n < |s| ==> !IsJsSpace(s[|s| - n - 1])
  {
    if s == [] || !IsJsSpace(s[|s| - 1]) then 0
    else
      var init := s[..|s| - 1];
      var m := TrailingSpaces(init);
      assert forall k :: |s| - 1 - m <= k < |s| - 1 ==> s[k] == init[|init| - m..][k - (|s| - 1 - m)];
      1 + m
  }

  /** Leading whitespace removed: a suffix of `s` that starts with a non-space. */
  function TrimStart(s: string): (r: string)
    ensures |r| <= |s| && r == s[|s| - |r|..]
    ensures AllSpace(s[..|s| - |r|])
    ensures r == [] || !IsJsSpace(r[0])
  {
    s[LeadingSpaces(s)..]
  }

  /** Trailing whitespace removed: a prefix of `s` that ends with a non-space. */
  function TrimEnd(s: string): (r: string)
    ensures |r| <= |s| && r == s[..|r|]
    ensures AllSpace(s[|r|..])
    ensures r == [] || !IsJsSpace(r[|r| - 1])
  {
    s[..|s| - TrailingSpaces(s)]
  }

  /** `s.trim()`. */
  function Trim(s: string): string {
    TrimEnd(TrimStart(s))
  }

  /** `trim` yields the empty string exactly when the input is all whitespace. */
  lemma TrimEmptyIff(s: string)
    ensures Trim(s) == [] <==> AllSpace(s)
  {
    var t := TrimStart(s);
    if Trim(s) == [] {
      assert AllSpace(t[|TrimEnd(t)|..]);
      assert t == [];
      assert s[..|s| - |t|] == s;
    } else {
      var r := Trim(s);
      assert r[0] == t[0];
      assert t[0] == s[|s| - |t|];
    }
  }

  // ---------------------------------------------------------------------------
  // length

  /** `s.length`: the number of UTF-16 code units, in which a character
      above U+FFFF takes two. */
  function Utf16Length(s: string): (n: nat)
    ensures |s| <= n <= 2 * |s|
  {
    if s == [] then 0 else (if s[0] >= '\U{10000}' then 2 else 1) + Utf16Length(s[1..])
  }

  /** On text inside the Basic Multilingual Plane, `length` is the number of
      characters. */
  lemma {:induction false} Utf16LengthBmp(s: string)
    requires forall k :: 0 <= k < |s| ==> s[k] < '\U{10000}'
    ensures Utf16Length(s) == |s|
  {
    if s != [] {
      Utf16LengthBmp(s[1..]);
    }
  }

  // ---------------------------------------------------------------------------
  // decimal rendering of integers

  function DigitChar(d: nat): (c: char)
    requires d < 10
    ensures '0' <= c <= '9'
  {
    ['0', '1', '2', '3', '4', '5', '6', '7', '8', '9'][d]
  }

  function DigitValue(c: char): (d: nat)
    requires '0' <= c <= '9'
    ensures d < 10 && DigitChar(d) == c
  {
    (c as int - '0' as int) as nat
  }

  predicate IsDigits(s: string) {
    forall k :: 0 <= k < |s| ==> '0' <= s[k] <= '9'
  }

  /** Shortest decimal numeral of `n` (`n.toString()` for a non-negative integer). */
  function NatToString(n: nat): (r: string)
    ensures |r| >= 1 && IsDigits(r)
    ensures r[0] == '0' ==> n == 0
  {
    if n < 10 then [DigitChar(n)] else NatToString(n / 10) + [DigitChar(n % 10)]
  }

  /** Value of a numeral. */
  function ParseDigits(s: string): nat
    requires IsDigits(s)
  {
    if s == [] then 0 else ParseDigits(s[..|s| - 1]) * 10 + DigitValue(s[|s| - 1])
  }

  /** Reading back a rendered numeral gives the number. */
  lemma {:induction false} ParseNatToString(n: nat)
    ensures ParseDigits(NatToString(n)) == n
  {
    if n >= 10 {
      var s := NatToString(n);
      assert s[..|s| - 1] == NatToString(n / 10);
      ParseNatToString(n / 10);
    }
  }

  /** Distinct numbers render as distinct numerals. */
  lemma NatToStringInjective(m: nat, n: nat)
    requires m != n
    ensures NatToString(m) != NatToString(n)
  {
    ParseNatToString(m);
    ParseNatToString(n);
  }

  /** `i.toString()` for an integer `i` (below 10^21, where JavaScript switches to exponent form). */
  function IntToString(i: int): (r: string)
    ensures i >= 0 ==> r == NatToString(i)
    ensures i < 0 ==> r == "-" + NatToString(-i)
  {
    if i < 0 then "-" + NatToString(-i) else NatToString(i)
  }

  // ---------------------------------------------------------------------------
  // join

  /** `parts.join(sep)`. */
  function Join(parts: seq<string>, sep: string): (r: string)
    ensures parts == [] ==> r == ""
    ensures |parts| == 1 ==> r == parts[0]
  {
    if |parts| == 0 then ""
    else if |parts| == 1 then parts[0]
    else Join(parts[..|parts| - 1], sep) + sep + parts[|parts| - 1]
  }

  /** `needle` occurs in `hay` at offset `k`. */
  predicate OccursAt(needle: string, hay: string, k: nat) {
    k + |needle| <= |hay| && hay[k..k + |needle|] == needle
  }

  /** Every part is listed verbatim in the joined text, and the parts appear
      in list order, each in its own place. */
  lemma {:induction false} JoinListsEveryPart(parts: seq<string>, sep: string, i: nat)
    requires i < |parts|
    ensures OccursAt(parts[i], Join(parts, sep), JoinOffset(parts, sep, i))
  {
    if |parts| > 1 {
      var init := parts[..|parts| - 1];
      var j := Join(init, sep);
      var r := Join(parts, sep);
      assert r == j + sep + parts[|parts| - 1];
      if i < |parts| - 1 {
        JoinListsEveryPart(init, sep, i);
        var k := JoinOffset(init, sep, i);
        assert init[i] == parts[i];
        assert r[k..k + |parts[i]|] == j[k..k + |parts[i]|];
      } else {
        assert r[|j| + |sep|..] == parts[i];
      }
    }
  }

  /** Where `parts[i]` starts inside `Join(parts, sep)`. */
  function JoinOffset(parts: seq<string>, sep: string, i: nat): nat
    requires i < |parts|
  {
    if i == |parts| - 1 then
      (if |parts| == 1 then 0 else |Join(parts[..|parts| - 1], sep)| + |sep|)
    else JoinOffset(parts[..|parts| - 1], sep, i)
  }

  // ---------------------------------------------------------------------------
  // a concrete case fold

  /** `toLowerCase` restricted to Basic Latin and Latin-1: A-Z and the
      accented capitals U+00C0..U+00DE (except the multiplication sign)
      move down by 32; every other character is left alone. */
  function LatinLowerChar(c: char): (d: char)
    ensures 'A' <= c <= 'Z' ==> d == (c as int + 32) as char
    ensures !('A' <= c <= 'Z') && !('\U{C0}' <= c <= '\U{DE}') ==> d == c
  {
    if ('A' <= c <= 'Z') || ('\U{C0}' <= c <= '\U{DE}' && c != '\U{D7}') then (c as int + 32) as char else c
  }

  function LatinLower(s: string): (r: string)
    ensures |r| == |s|
    ensures forall k :: 0 <= k < |s| ==> r[k] == LatinLowerChar(s[k])
  {
    if s == [] then [] else [LatinLowerChar(s[0])] + LatinLower(s[1..])
  }
}
