/**
 * Character and string helpers shared by every stage: the four whitespace
 * characters the tokenizer knows, `trim`, ASCII `toUpperCase`, decimal digit
 * strings and their values, decimal rendering of integers, and the
 * code-unit lexicographic order JavaScript uses for `<` and `>` on strings.
 */
module Text {

  /** Space, tab, line feed and carriage return. */
  predicate IsWhitespace(c: char) {
    c == ' ' || c == '\t' || c == '\n' || c == '\r'
  }

  predicate IsDigit(c: char) {
    '0' <= c <= '9'
  }

  /** No whitespace character occurs in `s`. */
  predicate NoWhitespace(s: string) {
    forall i :: 0 <= i < |s| ==> !IsWhitespace(s[i])
  }

  /** Removes the leading whitespace of `s`. */
  function TrimStart(s: string): (r: string)
    ensures |r| <= |s| && r == s[|s| - |r|..]
    ensures r == [] || !IsWhitespace(r[0])
  {
    if s != [] && IsWhitespace(s[0]) then TrimStart(s[1..]) else s
  }

  /** Removes the trailing whitespace of `s`. */
  function TrimEnd(s: string): (r: string)
    ensures |r| <= |s| && r == s[..|r|]
    ensures r == [] || !IsWhitespace(r[|r| - 1])
  {
    if s != [] && IsWhitespace(s[|s| - 1]) then TrimEnd(s[..|s| - 1]) else s
  }

  /** Everything `TrimStart` removes is whitespace. */
  lemma {:induction false} TrimStartRemovesWhitespace(s: string)
    ensures forall i :: 0 <= i < |s| - |TrimStart(s)| ==> IsWhitespace(s[i])
  {
    if s != [] && IsWhitespace(s[0]) {
      TrimStartRemovesWhitespace(s[1..]);
      assert forall i :: 1 <= i < |s| - |TrimStart(s)| ==> s[i] == s[1..][i - 1];
    }
  }

  /** Everything `TrimEnd` removes is whitespace. */
  lemma {:induction false} TrimEndRemovesWhitespace(s: string)
    ensures forall i :: |TrimEnd(s)| <= i < |s| ==> IsWhitespace(s[i])
  {
    if s != [] && IsWhitespace(s[|s| - 1]) {
      TrimEndRemovesWhitespace(s[..|s| - 1]);
      assert forall i :: |TrimEnd(s)| <= i < |s| - 1 ==> s[i] == s[..|s| - 1][i];
    }
  }

  /** JavaScript's `String.prototype.trim`, restricted to the four whitespace characters. */
  function Trim(s: string): (r: string)
    ensures |r| <= |s|
    ensures r == [] || (!IsWhitespace(r[0]) && !IsWhitespace(r[|r| - 1]))
    ensures |r| <= |TrimStart(s)|
    ensures r == s[|s| - |TrimStart(s)|..|s| - |TrimStart(s)| + |r|]
  {
    TrimEnd(TrimStart(s))
  }

  /** Every character of `s` is whitespace. */
  predicate IsBlank(s: string) {
    s == [] || (IsWhitespace(s[0]) && IsBlank(s[1..]))
  }

  /** A string trims to nothing exactly when it is blank. */
  lemma {:induction false} BlankIffTrimEmpty(s: string)
    ensures IsBlank(s) <==> Trim(s) == ""
  {
    BlankIffTrimStartEmpty(s);
    var t := TrimStart(s);
    if t != [] {
      TrimEndRemovesWhitespace(t);
    }
  }

  lemma {:induction false} BlankIffTrimStartEmpty(s: string)
    ensures IsBlank(s) <==> TrimStart(s) == ""
  {
    if s != [] {
      BlankIffTrimStartEmpty(s[1..]);
    }
  }

  /** A string without leading or trailing whitespace is its own trim. */
  lemma TrimOfTrimmed(s: string)
    requires s == [] || (!IsWhitespace(s[0]) && !IsWhitespace(s[|s| - 1]))
    ensures Trim(s) == s
  {
  }

  function UpperChar(c: char): char {
    if 'a' <= c <= 'z' then (c as int - 32) as char else c
  }

  /** `toUpperCase` on the ASCII letters; every other character is unchanged. */
  function Upper(s: string): (r: string)
    ensures |r| == |s|
  {
    if s == [] then [] else [UpperChar(s[0])] + Upper(s[1..])
  }

  /**
   * Upper-casing turns each lower-case ASCII letter into its capital, leaves
   * no lower-case letter, and changes nothing else.
   */
  lemma {:induction false} UpperIsUpper(s: string)
    ensures forall i :: 0 <= i < |s| ==> !('a' <= Upper(s)[i] <= 'z')
    ensures forall i :: 0 <= i < |s| && 'a' <= s[i] <= 'z' ==> Upper(s)[i] as int == s[i] as int - 32
    ensures forall i :: 0 <= i < |s| && !('a' <= s[i] <= 'z') ==> Upper(s)[i] == s[i]
  {
    if s != [] {
      UpperIsUpper(s[1..]);
      assert forall i :: 1 <= i < |s| ==> Upper(s)[i] == Upper(s[1..])[i - 1];
    }
  }

  /** A non-empty string of ASCII digits (the source's `allDigits`). */
  predicate DigitString(s: string) {
    s != [] && forall i :: 0 <= i < |s| ==> IsDigit(s[i])
  }

  function DigitValue(c: char): nat
    requires IsDigit(c)
  {
    c as int - '0' as int
  }

  /** The decimal value of a string of digits, read from the left, most significant first. */
  function DecimalValue(s: string): nat
    requires forall i :: 0 <= i < |s| ==> IsDigit(s[i])
  {
    if s == [] then 0 else DecimalValue(s[..|s| - 1]) * 10 + DigitValue(s[|s| - 1])
  }

  function DigitChar(d: nat): char
    requires d < 10
  {
    ('0' as int + d) as char
  }

  /** The shortest decimal rendering of `n`, as `String(n)` gives it. */
  function NatToString(n: nat): (r: string)
    ensures r != [] && (forall i :: 0 <= i < |r| ==> IsDigit(r[i]))
    ensures DecimalValue(r) == n
  {
    if n < 10 then [DigitChar(n)]
    else
      var r := NatToString(n / 10) + [DigitChar(n % 10)];
      assert r[..|r| - 1] == NatToString(n / 10);
      r
  }

  /** `String(i)` for an integer. */
  function IntToString(i: int): string {
    if i < 0 then "-" + NatToString(-i) else NatToString(i)
  }

  /** `a < b` on JavaScript strings: lexicographic by character, a proper prefix first. */
  predicate Less(a: string, b: string) {
    if a == [] then b != []
    else if b == [] then false
    else if a[0] != b[0] then a[0] < b[0]
    else Less(a[1..], b[1..])
  }

  /** The order is irreflexive: a date equal to today is not later than today. */
  lemma {:induction false} LessIrreflexive(a: string)
    ensures !Less(a, a)
  {
    if a != [] {
      LessIrreflexive(a[1..]);
    }
  }

  /** Two different strings are ordered one way and not both. */
  lemma {:induction false} LessTrichotomy(a: string, b: string)
    ensures Less(a, b) ==> !Less(b, a)
    ensures a != b ==> Less(a, b) || Less(b, a)
  {
    if a != [] && b != [] && a[0] == b[0] {
      LessTrichotomy(a[1..], b[1..]);
      assert a == [a[0]] + a[1..] && b == [b[0]] + b[1..];
    }
  }

  /** `parts.join(sep)`. */
  function Join(parts: seq<string>, sep: string): string {
    if parts == [] then ""
    else if |parts| == 1 then parts[0]
    else parts[0] + sep + Join(parts[1..], sep)
  }
}
