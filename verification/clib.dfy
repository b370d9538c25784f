/** The small part of the C library that the logger relies on, stated over
    Dafny values: `isspace`, the NUL-terminated string view that `strlen`
    measures, `%d` rendering, `atoi`/`atol`, and the `unsigned char` type. */
module CLib {

  /** `unsigned char`, the type of the backup count. */
  type UInt8 = x: int | 0 <= x < 256

  const NUL: char := 0 as char

  /** A pointer result that may be NULL. */
  datatype Option<T> = None | Some(value: T)

  /** `isspace` in the C locale. */
  predicate IsSpace(c: char)
  {
    c == ' ' || c == '\t' || c == '\n' || c == 11 as char || c == 12 as char || c == '\r'
  }

  /** The longest prefix of `s` that does not contain `c`. */
  function TakeUntil(s: string, c: char): (r: string)
    ensures |r| <= |s| && r == s[..|r|]
    ensures c !in r
    ensures |r| < |s| ==> s[|r|] == c
    ensures c !in s ==> r == s
  {
    if s == [] || s[0] == c then [] else [s[0]] + TakeUntil(s[1..], c)
  }

  /** Any prefix that stops at the first `c` (or at the end) is the one TakeUntil finds. */
  lemma {:induction false} TakeUntilAt(s: string, c: char, j: nat)
    requires j <= |s| && c !in s[..j]
    requires j == |s| || s[j] == c
    ensures TakeUntil(s, c) == s[..j]
  {
    if j > 0 {
      assert s[0] == s[..j][0];
      assert s[1..][..j - 1] == s[1..j];
      TakeUntilAt(s[1..], c, j - 1);
    }
  }

  /** Text free of `c` is kept whole, and the search goes on past it. */
  lemma TakeUntilAppend(a: string, b: string, c: char)
    requires c !in a
    ensures TakeUntil(a + b, c) == a + TakeUntil(b, c)
  {
    var t := TakeUntil(b, c);
    assert (a + b)[..|a| + |t|] == a + t;
    TakeUntilAt(a + b, c, |a| + |t|);
  }

  /** The C string held at the start of a buffer: everything before the first NUL. */
  function CStr(buf: seq<char>): string
  {
    TakeUntil(buf, NUL)
  }

  /** `strlen` of the buffer, which must hold a NUL. */
  function CLen(buf: seq<char>): (n: nat)
    requires NUL in buf
    ensures n < |buf| && buf[n] == NUL && NUL !in buf[..n]
  {
    |TakeUntil(buf, NUL)|
  }

  /** `strncpy(dst, src, n)` followed by a terminator at index n, and `%.ns`:
      at most the first n characters survive. */
  function Truncate(s: string, n: nat): (r: string)
    ensures |r| <= n && |r| <= |s| && r == s[..|r|]
    ensures |s| <= n ==> r == s
  {
    if |s| <= n then s else s[..n]
  }

  predicate IsDigit(c: char)
  {
    '0' <= c <= '9'
  }

  predicate AllDigits(s: string)
  {
    forall k :: 0 <= k < |s| ==> IsDigit(s[k])
  }

  function DigitChar(d: nat): (c: char)
    requires d < 10
    ensures IsDigit(c)
  {
    ('0' as int + d) as char
  }

  function DigitValue(c: char): (d: nat)
    requires IsDigit(c)
    ensures d < 10
  {
    c as int - '0' as int
  }

  /** `%d` of a non-negative number: its digits, most significant first,
      without sign or leading zero. */
  function DecimalString(n: nat): (s: string)
    ensures 1 <= |s| && AllDigits(s)
    ensures n >= 10 ==> s[0] != '0'
    decreases n
  {
    if n < 10 then [DigitChar(n)] else DecimalString(n / 10) + [DigitChar(n % 10)]
  }

  /** The number a string of decimal digits denotes. */
  function DigitsValue(s: string): nat
    requires AllDigits(s)
  {
    if s == [] then 0 else DigitsValue(s[..|s| - 1]) * 10 + DigitValue(s[|s| - 1])
  }

  /** Reading back what `%d` printed gives the number again. */
  lemma {:induction false} DigitsValueOfDecimal(n: nat)
    ensures DigitsValue(DecimalString(n)) == n
    decreases n
  {
    if n >= 10 {
      var s := DecimalString(n / 10);
      var t := s + [DigitChar(n % 10)];
      assert t == DecimalString(n);
      assert t[..|t| - 1] == s;
      DigitsValueOfDecimal(n / 10);
    }
  }

  /** Distinct numbers print differently. */
  lemma DecimalStringInjective(a: nat, b: nat)
    requires DecimalString(a) == DecimalString(b)
    ensures a == b
  {
    DigitsValueOfDecimal(a);
    DigitsValueOfDecimal(b);
  }

  /** Up to 99 a number prints in at most two digits; 100..999 take three. */
  lemma {:induction false} DecimalStringLength(n: nat)
    ensures n < 100 ==> |DecimalString(n)| <= 2
    ensures 100 <= n < 1000 ==> |DecimalString(n)| == 3
  {
    if n >= 10 {
      DecimalStringLength(n / 10);
    }
  }

  /** The leading run of decimal digits of `s`. */
  function LeadingDigits(s: string): (r: string)
    ensures AllDigits(r) && |r| <= |s| && r == s[..|r|]
    ensures |r| < |s| ==> !IsDigit(s[|r|])
  {
    if s == [] || !IsDigit(s[0]) then [] else [s[0]] + LeadingDigits(s[1..])
  }

  /** The string after its leading white space. */
  function SkipSpaces(s: string): (r: string)
    ensures |r| <= |s| && r == s[|s| - |r|..]
    ensures r == [] || !IsSpace(r[0])
    ensures forall k :: 0 <= k < |s| - |r| ==> IsSpace(s[k])
  {
    if s != [] && IsSpace(s[0]) then SkipSpaces(s[1..]) else s
  }

  /** `atoi`/`atol`: leading white space, an optional sign, then the longest run
      of digits; 0 when there are none. Overflow, undefined in C, is not
      modelled: the result is the unbounded value. Without a minus sign the
      result is never negative, and text that does not start with a sign or a
      digit reads as 0. */
  function Atoi(s: string): (n: int)
    ensures var t := SkipSpaces(s); t == [] || t[0] != '-' ==> n >= 0
    ensures var t := SkipSpaces(s); t == [] || (t[0] != '-' && t[0] != '+' && !IsDigit(t[0])) ==> n == 0
  {
    var t := SkipSpaces(s);
    if t != [] && t[0] == '-' then 0 - DigitsValue(LeadingDigits(t[1..])) as int
    else if t != [] && t[0] == '+' then DigitsValue(LeadingDigits(t[1..]))
    else DigitsValue(LeadingDigits(t))
  }

  lemma {:induction false} AllDigitsLeading(s: string)
    requires AllDigits(s)
    ensures LeadingDigits(s) == s
  {
    if s != [] {
      AllDigitsLeading(s[1..]);
    }
  }

  /** `atoi` reads back every number `%d` prints, with or without a minus sign. */
  lemma AtoiOfDecimal(n: nat)
    ensures Atoi(DecimalString(n)) == n
    ensures Atoi("-" + DecimalString(n)) == 0 - n as int
  {
    var d := DecimalString(n);
    assert !IsSpace(d[0]);
    assert SkipSpaces(d) == d;
    AllDigitsLeading(d);
    DigitsValueOfDecimal(n);
    var m := "-" + d;
    assert !IsSpace(m[0]);
    assert SkipSpaces(m) == m;
    assert m[1..] == d;
  }
}
