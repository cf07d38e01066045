/**
 * The PHP string primitives the library relies on: `strpos(...) !== false`,
 * `strtolower`, `trim`, `explode`, `(int)` and `(string)` casts, and the
 * end-of-subject rule of a PCRE `$` anchor.
 */
module Strings {

  predicate StartsWith(s: string, prefix: string)
  {
    |prefix| <= |s| && s[..|prefix|] == prefix
  }

  /** A string starts with anything it is built from by appending. */
  lemma StartsWithConcat(a: string, b: string)
    ensures StartsWith(a + b, a)
  {
    assert (a + b)[..|a|] == a;
  }

  /** `strpos($s, $sub) !== false` (the empty needle is found at 0). */
  predicate Contains(s: string, sub: string)
    decreases |s|
  {
    StartsWith(s, sub) || (|s| > 0 && Contains(s[1..], sub))
  }

  /** An occurrence at a known offset is found. */
  lemma {:induction false} ContainsAt(s: string, sub: string, i: nat)
    requires i + |sub| <= |s| && s[i..i + |sub|] == sub
    ensures Contains(s, sub)
    decreases i
  {
    if i == 0 {
      assert s[..|sub|] == s[i..i + |sub|];
    } else {
      assert s[1..][i - 1..i - 1 + |sub|] == s[i..i + |sub|];
      ContainsAt(s[1..], sub, i - 1);
    }
  }

  /** Every hit of `Contains` is an occurrence at some offset. */
  lemma {:induction false} ContainsWitness(s: string, sub: string) returns (i: nat)
    requires Contains(s, sub)
    ensures i + |sub| <= |s| && s[i..i + |sub|] == sub
    decreases |s|
  {
    if StartsWith(s, sub) {
      i := 0;
    } else {
      var j := ContainsWitness(s[1..], sub);
      assert s[1..][j..j + |sub|] == s[j + 1..j + 1 + |sub|];
      i := j + 1;
    }
  }

  /** A needle holding a character the haystack lacks is never found. */
  lemma NotContainsMissingChar(s: string, sub: string, c: char)
    requires c in sub && c !in s
    ensures !Contains(s, sub)
  {
    if Contains(s, sub) {
      var i := ContainsWitness(s, sub);
      assert false;
    }
  }

  /** A needle found in a prefix of the haystack is found in the haystack. */
  lemma ContainsInPrefix(s: string, t: string, sub: string)
    requires Contains(s, sub)
    ensures Contains(s + t, sub)
  {
    var i := ContainsWitness(s, sub);
    assert (s + t)[i..i + |sub|] == s[i..i + |sub|];
    ContainsAt(s + t, sub, i);
  }

  /** A needle found in a suffix of the haystack is found in the haystack. */
  lemma ContainsInSuffix(s: string, t: string, sub: string)
    requires Contains(t, sub)
    ensures Contains(s + t, sub)
  {
    var i := ContainsWitness(t, sub);
    assert (s + t)[|s| + i..|s| + i + |sub|] == t[i..i + |sub|];
    ContainsAt(s + t, sub, |s| + i);
  }

  /** A string without the separator is one piece. */
  lemma {:induction false} SplitWithoutSeparator(s: string, c: char)
    requires c !in s
    ensures Split(s, c) == [s]
    decreases |s|
  {
    if s != [] {
      SplitWithoutSeparator(s[1..], c);
      assert [s[0]] + s[1..] == s;
    }
  }

  /** The first piece ends at the first separator. */
  lemma {:induction false} SplitAtFirst(a: string, c: char, b: string)
    requires c !in a
    ensures Split(a + [c] + b, c) == [a] + Split(b, c)
    decreases |a|
  {
    var s := a + [c] + b;
    if a == [] {
      assert s[1..] == b;
    } else {
      assert s[1..] == a[1..] + [c] + b;
      SplitAtFirst(a[1..], c, b);
      assert [a[0]] + a[1..] == a;
    }
  }

  /** `strtolower` on one byte: only the ASCII letters A-Z change. */
  function LowerChar(c: char): char
  {
    if 'A' <= c <= 'Z' then (c as int + 32) as char else c
  }

  /** `strtolower` */
  function Lower(s: string): (r: string)
    ensures |r| == |s|
    ensures forall i :: 0 <= i < |s| ==> r[i] == LowerChar(s[i])
  {
    if s == [] then [] else [LowerChar(s[0])] + Lower(s[1..])
  }

  /** A lower-case letter is missing from `strtolower($s)` when neither case of it is in `$s`. */
  lemma LowerLacks(s: string, c: char)
    requires 'a' <= c <= 'z' && c !in s && (c as int - 32) as char !in s
    ensures c !in Lower(s)
  {
  }

  /** `ltrim($s, $c)` for a single character. */
  function TrimLeft(s: string, c: char): (r: string)
    ensures |r| <= |s| && r == s[|s| - |r|..]
    ensures r != [] ==> r[0] != c
    ensures forall i :: 0 <= i < |s| - |r| ==> s[i] == c
  {
    if s != [] && s[0] == c then TrimLeft(s[1..], c) else s
  }

  /** `rtrim($s, $c)` for a single character. */
  function TrimRight(s: string, c: char): (r: string)
    ensures |r| <= |s| && r == s[..|r|]
    ensures r != [] ==> r[|r| - 1] != c
    ensures forall i :: |r| <= i < |s| ==> s[i] == c
  {
    if s != [] && s[|s| - 1] == c then TrimRight(s[..|s| - 1], c) else s
  }

  /** `trim($s, $c)` for a single character: strips it from both ends. */
  function Trim(s: string, c: char): string
  {
    TrimRight(TrimLeft(s, c), c)
  }

  /** A string with neither end equal to `c` is its own trim. */
  lemma TrimOfTrimmed(s: string, c: char)
    requires s != [] ==> s[0] != c && s[|s| - 1] != c
    ensures Trim(s, c) == s
  {
  }

  /** A stretch starting with a character other than `c` is kept whole by `ltrim`. */
  lemma TrimLeftKeeps(s: string, c: char, i: nat, n: nat) returns (k: nat)
    requires i < |s| && i + n <= |s| && s[i] != c
    ensures k + n <= |TrimLeft(s, c)| && TrimLeft(s, c)[k..k + n] == s[i..i + n]
  {
    var left := TrimLeft(s, c);
    var cut := |s| - |left|;
    assert cut <= i;
    k := i - cut;
    assert left == s[cut..];
    assert left[k..k + n] == s[cut..][k..k + n] == s[i..i + n];
  }

  /** A stretch ending with a character other than `c` is kept whole by `rtrim`. */
  lemma TrimRightKeeps(s: string, c: char, j: nat, n: nat)
    requires 0 < n && j + n <= |s| && s[j + n - 1] != c
    ensures j + n <= |TrimRight(s, c)| && TrimRight(s, c)[j..j + n] == s[j..j + n]
  {
    var right := TrimRight(s, c);
    assert j + n <= |right|;
  }

  /** Trimming `c` keeps every pair of characters neither of which is `c`. */
  lemma TrimKeepsPair(s: string, c: char, i: nat) returns (k: nat)
    requires i + 1 < |s| && s[i] != c && s[i + 1] != c
    ensures k + 2 <= |Trim(s, c)| && Trim(s, c)[k..k + 2] == s[i..i + 2]
  {
    k := TrimLeftKeeps(s, c, i, 2);
    var left := TrimLeft(s, c);
    assert left[k + 1] == left[k..k + 2][1] == s[i + 1];
    TrimRightKeeps(left, c, k, 2);
  }

  /** A two-character needle without `c` survives trimming `c`. */
  lemma ContainsPairAfterTrim(s: string, c: char, sub: string)
    requires |sub| == 2 && sub[0] != c && sub[1] != c && Contains(s, sub)
    ensures Contains(Trim(s, c), sub)
  {
    var i := ContainsWitness(s, sub);
    var k := TrimKeepsPair(s, c, i);
    ContainsAt(Trim(s, c), sub, k);
  }

  /** The characters PHP's `trim` strips by default: " \t\n\r\0\x0B". */
  predicate IsTrimSpace(c: char)
  {
    c == ' ' || c == '\t' || c == '\n' || c == '\r' || c == '\0' || c == 11 as char
  }

  function TrimSpaceLeft(s: string): (r: string)
    ensures |r| <= |s| && r == s[|s| - |r|..]
  {
    if s != [] && IsTrimSpace(s[0]) then TrimSpaceLeft(s[1..]) else s
  }

  function TrimSpaceRight(s: string): (r: string)
    ensures |r| <= |s| && r == s[..|r|]
  {
    if s != [] && IsTrimSpace(s[|s| - 1]) then TrimSpaceRight(s[..|s| - 1]) else s
  }

  /** `trim($s)` with PHP's default character list. */
  function TrimSpace(s: string): string
  {
    TrimSpaceRight(TrimSpaceLeft(s))
  }

  /** `explode($c, $s)`: the pieces between occurrences of `c`. */
  function Split(s: string, c: char): (r: seq<string>)
    ensures |r| >= 1
    ensures c in s ==> |r| >= 2
  {
    if s == [] then [""]
    else if s[0] == c then [""] + Split(s[1..], c)
    else
      var rest := Split(s[1..], c);
      [[s[0]] + rest[0]] + rest[1..]
  }

  predicate IsDigit(c: char)
  {
    '0' <= c <= '9'
  }

  predicate AllDigits(s: string)
  {
    forall i :: 0 <= i < |s| ==> IsDigit(s[i])
  }

  /** A string of digits holds no other character. */
  lemma AllDigitsLacks(s: string, c: char)
    requires AllDigits(s) && !IsDigit(c)
    ensures c !in s
  {
  }

  /** The number written by a string of decimal digits ("" reads as 0). */
  function DigitsValue(s: string): (n: nat)
    requires AllDigits(s)
  {
    if s == [] then 0 else DigitsValue(s[..|s| - 1]) * 10 + (s[|s| - 1] as int - '0' as int)
  }

  /** The longest prefix of decimal digits. */
  function DigitPrefix(s: string): (r: string)
    ensures AllDigits(r) && |r| <= |s| && r == s[..|r|]
    ensures |r| < |s| ==> !IsDigit(s[|r|])
  {
    if s != [] && IsDigit(s[0]) then [s[0]] + DigitPrefix(s[1..]) else []
  }

  /** The white space PHP skips before a numeric string. */
  predicate IsNumericSpace(c: char)
  {
    c == ' ' || c == '\t' || c == '\n' || c == '\r' || c == 11 as char || c == 12 as char
  }

  function SkipNumericSpace(s: string): (r: string)
    ensures |r| <= |s| && r == s[|s| - |r|..]
  {
    if s != [] && IsNumericSpace(s[0]) then SkipNumericSpace(s[1..]) else s
  }

  /**
   * `(int)$s`: optional leading white space, an optional sign, then the
   * longest run of decimal digits; a string with no such run reads as 0.
   */
  function IntCast(s: string): int
  {
    var t := SkipNumericSpace(s);
    if t != [] && t[0] == '-' then 0 - DigitsValue(DigitPrefix(t[1..]))
    else if t != [] && t[0] == '+' then DigitsValue(DigitPrefix(t[1..]))
    else DigitsValue(DigitPrefix(t))
  }

  /** `(string)$n` for a non-negative integer. */
  function NatToString(n: nat): (r: string)
    ensures r != [] && AllDigits(r)
  {
    if n < 10 then [('0' as int + n) as char]
    else NatToString(n / 10) + [('0' as int + n % 10) as char]
  }

  /** `(string)$n`: decimal digits, with a leading '-' when negative. */
  function IntToString(n: int): (r: string)
    ensures r != []
    ensures n >= 0 ==> AllDigits(r)
    ensures n < 0 ==> r[0] == '-' && AllDigits(r[1..])
  {
    if n < 0 then "-" + NatToString(-n) else NatToString(n)
  }

  lemma {:induction false} NatToStringValue(n: nat)
    ensures DigitsValue(NatToString(n)) == n
  {
    if n >= 10 {
      var s := NatToString(n);
      assert s[..|s| - 1] == NatToString(n / 10);
      NatToStringValue(n / 10);
    }
  }

  lemma DigitPrefixOfDigits(s: string)
    requires AllDigits(s)
    ensures DigitPrefix(s) == s
  {
  }

  /** A string of digits is read as the number it writes. */
  lemma IntCastOfDigits(d: string)
    requires d != [] && AllDigits(d)
    ensures IntCast(d) == DigitsValue(d)
  {
    assert IsDigit(d[0]);
    assert SkipNumericSpace(d) == d;
    DigitPrefixOfDigits(d);
  }

  /** A '-' followed by digits is read as the negated number. */
  lemma IntCastOfNegatedDigits(d: string)
    requires AllDigits(d)
    ensures IntCast("-" + d) == 0 - DigitsValue(d)
  {
    var s := "-" + d;
    assert SkipNumericSpace(s) == s;
    assert s[1..] == d;
    DigitPrefixOfDigits(d);
  }

  /** Reading back what `(string)` wrote gives the number: `(int)(string)$n == $n`. */
  lemma IntCastOfIntToString(n: int)
    ensures IntCast(IntToString(n)) == n
  {
    var d := NatToString(if n < 0 then -n else n);
    NatToStringValue(if n < 0 then -n else n);
    if n < 0 {
      IntCastOfNegatedDigits(d);
      assert IntCast("-" + d) == n;
    } else {
      IntCastOfDigits(d);
      assert IntCast(d) == n;
    }
  }

  /** `(string)$n` of a non-zero number is neither "" nor "0": PHP counts it as non-empty. */
  lemma IntToStringNonEmpty(n: int)
    requires n != 0
    ensures IntToString(n) != "" && IntToString(n) != "0"
  {
    var s := IntToString(n);
    if n > 0 && n < 10 {
      assert s[0] != '0';
    } else if n >= 10 {
      assert |s| >= 2;
    } else {
      assert s[0] == '-';
    }
  }

  /**
   * The part of a subject that a pattern anchored as `^...$` must match:
   * without the D modifier, `$` also matches before one final newline.
   */
  function LineBody(s: string): (r: string)
    ensures r == s || (s == r + "\n")
  {
    if s != [] && s[|s| - 1] == '\n' then s[..|s| - 1] else s
  }
}
