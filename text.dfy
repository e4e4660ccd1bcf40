/**
 * String helpers shared by the pages: the whitespace class used by
 * `String.prototype.trim` and by `\s` in regular expressions, trimming,
 * case mapping, digit filtering (`replace(/\D/g, "")`), joining,
 * substring search (`includes`), decimal rendering of numbers and the
 * `local@domain.tld` e-mail pattern.
 */
module Text {

  /** The ECMAScript WhiteSpace and LineTerminator code points. */
  predicate IsWhitespace(c: char) {
    || c == ' ' || c == '\t' || c == '\n' || c == '\r'
    || c == '\U{000B}' || c == '\U{000C}' || c == '\U{00A0}' || c == '\U{1680}'
    || ('\U{2000}' <= c <= '\U{200A}')
    || c == '\U{2028}' || c == '\U{2029}' || c == '\U{202F}' || c == '\U{205F}'
    || c == '\U{3000}' || c == '\U{FEFF}'
  }

  predicate AllWhitespace(s: string) {
    forall i | 0 <= i < |s| :: IsWhitespace(s[i])
  }

  /** How many whitespace characters open `s`: the ones `trim` drops at the front. */
  function LeadingSpace(s: string): (n: nat)
    ensures n <= |s|
    ensures forall i | 0 <= i < n :: IsWhitespace(s[i])
    ensures n < |s| ==> !IsWhitespace(s[n])
  {
    if s == [] || !IsWhitespace(s[0]) then 0
    else
      var n := LeadingSpace(s[1..]);
      assert forall i | 1 <= i < n + 1 :: s[i] == s[1..][i - 1];
      n + 1
  }

  /** Where the whitespace closing `s[..hi]` begins, looking no further back than `lo`. */
  function TrailingStart(s: string, lo: nat, hi: nat): (n: nat)
    requires lo <= hi <= |s|
    ensures lo <= n <= hi
    ensures forall i | n <= i < hi :: IsWhitespace(s[i])
    ensures n > lo ==> !IsWhitespace(s[n - 1])
    decreases hi
  {
    if hi == lo || !IsWhitespace(s[hi - 1]) then hi else TrailingStart(s, lo, hi - 1)
  }

  /** `s.trim()`: the longest slice of `s` that neither starts nor ends with whitespace. */
  function Trim(s: string): (r: string)
    ensures LeadingSpace(s) + |r| <= |s|
    ensures r == s[LeadingSpace(s)..LeadingSpace(s) + |r|]
    ensures forall i | 0 <= i < LeadingSpace(s) :: IsWhitespace(s[i])
    ensures forall i | LeadingSpace(s) + |r| <= i < |s| :: IsWhitespace(s[i])
    ensures r == [] || (!IsWhitespace(r[0]) && !IsWhitespace(r[|r| - 1]))
  {
    var a := LeadingSpace(s);
    s[a..TrailingStart(s, a, |s|)]
  }

  /** A text is blank when trimming leaves nothing: exactly when it is all whitespace. */
  lemma TrimEmptyIffBlank(s: string)
    ensures Trim(s) == [] <==> AllWhitespace(s)
  {
    var r := Trim(s);
    if r != [] {
      assert s[LeadingSpace(s)] == r[0];
    }
  }

  function LowerChar(c: char): char {
    if 'A' <= c <= 'Z' then (c as int + 32) as char else c
  }

  function UpperChar(c: char): char {
    if 'a' <= c <= 'z' then (c as int - 32) as char else c
  }

  /** `toLowerCase()`, on the ASCII letters. */
  function ToLower(s: string): (r: string)
    ensures |r| == |s|
    ensures forall i | 0 <= i < |s| :: r[i] == LowerChar(s[i])
  {
    seq(|s|, i requires 0 <= i < |s| => LowerChar(s[i]))
  }

  /** `toUpperCase()`, on the ASCII letters. */
  function ToUpper(s: string): (r: string)
    ensures |r| == |s|
    ensures forall i | 0 <= i < |s| :: r[i] == UpperChar(s[i])
  {
    seq(|s|, i requires 0 <= i < |s| => UpperChar(s[i]))
  }

  /** `hay.includes(q)`. */
  predicate Includes(hay: string, q: string) {
    exists i | 0 <= i <= |hay| - |q| :: OccursAt(hay, q, i)
  }

  predicate OccursAt(hay: string, q: string, i: nat) {
    i + |q| <= |hay| && hay[i..i + |q|] == q
  }

  /** `parts.join(sep)`. */
  function Join(parts: seq<string>, sep: string): (r: string)
    ensures parts == [] ==> r == ""
    ensures |parts| == 1 ==> r == parts[0]
    ensures |parts| >= 1 ==> |r| == SumOfLengths(parts) + (|parts| - 1) * |sep|
    decreases |parts|
  {
    if |parts| == 0 then ""
    else if |parts| == 1 then parts[0]
    else parts[0] + sep + Join(parts[1..], sep)
  }

  /** The index of the first space in `s`, or `|s|` when there is none. */
  function FirstSpace(s: string): (i: nat)
    ensures i <= |s|
    ensures ' ' !in s[..i]
    ensures i < |s| ==> s[i] == ' '
  {
    if s == [] || s[0] == ' ' then 0
    else
      var i := 1 + FirstSpace(s[1..]);
      assert s[..i] == [s[0]] + s[1..][..i - 1];
      i
  }

  /** `s.split(" ")`: the pieces between single spaces, empty pieces included. */
  function SplitSpace(s: string): (pieces: seq<string>)
    ensures |pieces| >= 1
    ensures forall i | 0 <= i < |pieces| :: ' ' !in pieces[i]
    decreases |s|
  {
    var i := FirstSpace(s);
    if i == |s| then [s] else [s[..i]] + SplitSpace(s[i + 1..])
  }

  /** Splitting on single spaces undoes joining with single spaces, when no part holds a space. */
  lemma {:induction false} SplitJoin(parts: seq<string>)
    requires |parts| >= 1
    requires forall i | 0 <= i < |parts| :: ' ' !in parts[i]
    ensures SplitSpace(Join(parts, " ")) == parts
    decreases |parts|
  {
    if |parts| == 1 {
      assert parts[0][..|parts[0]|] == parts[0];
    } else {
      var p := parts[0];
      var rest := Join(parts[1..], " ");
      var s := p + " " + rest;
      assert Join(parts, " ") == s;
      FirstSpaceAfter(p, rest);
      assert s[..|p|] == p && s[|p| + 1..] == rest;
      SplitJoin(parts[1..]);
    }
  }

  lemma FirstSpaceAfter(p: string, rest: string)
    requires ' ' !in p
    ensures FirstSpace(p + " " + rest) == |p|
  {
    var s := p + " " + rest;
    assert s[|p|] == ' ';
    assert forall j | 0 <= j < |p| :: s[j] == p[j];
  }

  function SumOfLengths(parts: seq<string>): nat {
    if parts == [] then 0 else |parts[0]| + SumOfLengths(parts[1..])
  }

  predicate IsDigit(c: char) {
    '0' <= c <= '9'
  }

  predicate AllDigits(s: string) {
    forall i | 0 <= i < |s| :: IsDigit(s[i])
  }

  /** `s.replace(/\D/g, "")`: the decimal digits of `s`, in order. */
  function DigitsOnly(s: string): (r: string)
    ensures AllDigits(r)
    ensures |r| <= |s|
    ensures forall i | 0 <= i < |r| :: r[i] in s
    ensures AllDigits(s) ==> r == s
  {
    if s == [] then ""
    else if IsDigit(s[0]) then [s[0]] + DigitsOnly(s[1..])
    else DigitsOnly(s[1..])
  }

  lemma {:induction false} DigitsOnlyAppend(a: string, b: string)
    ensures DigitsOnly(a + b) == DigitsOnly(a) + DigitsOnly(b)
  {
    if a == [] {
      assert a + b == b;
    } else {
      assert (a + b)[0] == a[0] && (a + b)[1..] == a[1..] + b;
      DigitsOnlyAppend(a[1..], b);
    }
  }

  /** One character: a digit is kept, anything else contributes nothing. */
  lemma DigitsOnlyChar(c: char)
    ensures DigitsOnly([c]) == if IsDigit(c) then [c] else ""
  {
    assert [c][1..] == [];
  }

  lemma {:induction false} DigitsOnlyOfWhitespace(s: string)
    requires AllWhitespace(s)
    ensures DigitsOnly(s) == ""
  {
    if s != [] {
      assert IsWhitespace(s[0]);
      DigitsOnlyOfWhitespace(s[1..]);
    }
  }

  /** Trimming never changes which digits a text holds. */
  lemma DigitsOnlyTrim(s: string)
    ensures DigitsOnly(Trim(s)) == DigitsOnly(s)
  {
    var r := Trim(s);
    var a := LeadingSpace(s);
    var pre, post := s[..a], s[a + |r|..];
    assert AllWhitespace(pre) && AllWhitespace(post);
    assert s == (pre + r) + post;
    calc {
      DigitsOnly(s);
      { DigitsOnlyAppend(pre + r, post); }
      DigitsOnly(pre + r) + DigitsOnly(post);
      { DigitsOnlyOfWhitespace(post); }
      DigitsOnly(pre + r);
      { DigitsOnlyAppend(pre, r); DigitsOnlyOfWhitespace(pre); }
      DigitsOnly(r);
    }
  }

  function DigitChar(d: nat): char
    requires d < 10
  {
    ('0' as int + d) as char
  }

  /** The decimal rendering of a natural number, without leading zeros. */
  function NatToDecimal(n: nat): (r: string)
    ensures |r| >= 1 && AllDigits(r)
    ensures r[0] == '0' <==> n == 0
  {
    if n < 10 then [DigitChar(n)] else NatToDecimal(n / 10) + [DigitChar(n % 10)]
  }

  /** `String(n)` for an integer: a minus sign for negative numbers, then the digits. */
  function IntToDecimal(n: int): (r: string)
    ensures |r| >= 1
    ensures '/' !in r
    ensures r[0] == '-' <==> n < 0
  {
    if n < 0 then "-" + NatToDecimal(-n) else NatToDecimal(n)
  }

  function DigitValue(c: char): nat {
    if IsDigit(c) then c as int - '0' as int else 0
  }

  /** The number a string of decimal digits denotes. */
  function DecimalValue(s: string): nat {
    if s == [] then 0 else 10 * DecimalValue(s[..|s| - 1]) + DigitValue(s[|s| - 1])
  }

  /** The number a numeral with an optional leading minus sign denotes. */
  function SignedValue(s: string): int {
    if s != [] && s[0] == '-' then -(DecimalValue(s[1..]) as int) else DecimalValue(s)
  }

  /** The numeral reads back as the number it was written from. */
  lemma {:induction false} NatToDecimalValue(n: nat)
    ensures DecimalValue(NatToDecimal(n)) == n
  {
    if n >= 10 {
      NatToDecimalValue(n / 10);
      var r := NatToDecimal(n);
      assert r[..|r| - 1] == NatToDecimal(n / 10);
    }
  }

  /** The signed numeral reads back as the integer it was written from. */
  lemma IntToDecimalValue(n: int)
    ensures SignedValue(IntToDecimal(n)) == n
  {
    if n < 0 {
      NatToDecimalValue(-n);
      assert IntToDecimal(n)[1..] == NatToDecimal(-n);
    } else {
      NatToDecimalValue(n);
    }
  }

  /** No whitespace and no `@`: the class `[^\s@]`. */
  predicate NoSpaceOrAt(s: string) {
    forall i | 0 <= i < |s| :: !IsWhitespace(s[i]) && s[i] != '@'
  }

  /** `[^\s@]+\.[^\s@]+`: a dot with at least one allowed character on each side. */
  predicate DottedDomain(d: string) {
    NoSpaceOrAt(d) && exists j | 0 < j < |d| - 1 :: d[j] == '.'
  }

  /** The pattern `^[^\s@]+@[^\s@]+\.[^\s@]+$`. */
  predicate MatchesEmailPattern(s: string) {
    exists k | 0 < k < |s| :: s[k] == '@' && NoSpaceOrAt(s[..k]) && DottedDomain(s[k + 1..])
  }
}
