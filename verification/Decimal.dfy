/** Decimal numerals: shared by the version parser and the bus's subscriber ids. */
module Decimal {
  import opened GoStrings

  const MAX_INT := 0x7fff_ffff_ffff_ffff
  const MIN_INT := -0x8000_0000_0000_0000

  predicate IsDigit(c: char) {
    '0' <= c <= '9'
  }

  predicate AllDigits(s: string) {
    forall k | 0 <= k < |s| :: IsDigit(s[k])
  }

  function DigitChar(d: nat): (c: char)
    requires d < 10
    ensures IsDigit(c) && c as int == '0' as int + d
  {
    (d + '0' as int) as char
  }

  /** The number a digit string denotes, most significant digit first. */
  function Value(s: string): (v: int)
    requires AllDigits(s)
    ensures v >= 0
  {
    if s == "" then 0 else 10 * Value(s[..|s| - 1]) + (s[|s| - 1] as int - '0' as int)
  }

  function Print(n: nat): (s: string)
    ensures AllDigits(s) && s != ""
    ensures Value(s) == n
    ensures n > 0 ==> s[0] != '0'
    decreases n
  {
    if n < 10 then
      assert [DigitChar(n)][..0] == "";
      [DigitChar(n)]
    else
      var s := Print(n / 10);
      assert (s + [DigitChar(n % 10)])[..|s|] == s;
      s + [DigitChar(n % 10)]
  }

  /** Different numbers print differently. */
  lemma PrintInjective(m: nat, n: nat)
    requires Print(m) == Print(n)
    ensures m == n
  {
    assert Value(Print(m)) == Value(Print(n));
  }

  function Power10(k: nat): nat {
    if k == 0 then 1 else 10 * Power10(k - 1)
  }

  lemma {:induction false} PrintLength(n: nat, k: nat)
    requires k > 0 && n < Power10(k)
    ensures |Print(n)| <= k
    decreases k
  {
    if n >= 10 {
      PrintLength(n / 10, k - 1);
    }
  }

  /** A non-negative 64-bit int needs at most 19 digits. */
  lemma PrintFits(n: nat)
    requires n <= MAX_INT
    ensures |Print(n)| <= 19
  {
    assert Power10(4) == 10000;
    assert Power10(8) == Power10(4) * 10000;
    assert Power10(12) == Power10(8) * 10000;
    assert Power10(16) == Power10(12) * 10000;
    assert Power10(19) == Power10(16) * 1000;
    PrintLength(n, 19);
  }

  /** strconv.Atoi: an optional sign, then digits only, within the range of a 64-bit int. */
  function Atoi(s: string): Option<int> {
    var negative := s != "" && s[0] == '-';
    var digits := if s != "" && (s[0] == '-' || s[0] == '+') then s[1..] else s;
    if digits == "" || !AllDigits(digits) then None
    else
      var v: int := if negative then -Value(digits) else Value(digits);
      if MIN_INT <= v <= MAX_INT then Some(v) else None
  }

  lemma AtoiSigned(sign: char, s: string)
    requires s != "" && AllDigits(s) && (sign == '+' || sign == '-')
    ensures var v := if sign == '-' then -Value(s) else Value(s);
      Atoi([sign] + s) == if MIN_INT <= v <= MAX_INT then Some(v) else None
  {
    var t := [sign] + s;
    assert t[0] == sign && t[1..] == s;
  }

  lemma AtoiUnsigned(s: string)
    requires s != "" && AllDigits(s)
    ensures Atoi(s) == if Value(s) <= MAX_INT then Some(Value(s)) else None
  {
    assert IsDigit(s[0]);
  }

  /**
   What strconv.Atoi accepts and what it makes of it: digits, at least one, after at most one
   sign, with a value between -2^63 and 2^63 - 1; nothing else.
   */
  lemma AtoiExactly(s: string)
    requires s != "" && forall k | 0 <= k < |s| :: '0' <= s[k] <= '9'
    ensures Atoi(s) == if Value(s) <= 0x7fff_ffff_ffff_ffff then Some(Value(s)) else None
    ensures Atoi(['+'] + s) == if Value(s) <= 0x7fff_ffff_ffff_ffff then Some(Value(s)) else None
    ensures Atoi(['-'] + s) == if Value(s) <= 0x8000_0000_0000_0000 then Some(-Value(s)) else None
  {
    AtoiUnsigned(s);
    AtoiSigned('+', s);
    AtoiSigned('-', s);
  }

  lemma AtoiRejects(s: string)
    requires |s| == 0 || (|s| == 1 && !('0' <= s[0] <= '9'))
             || (!('0' <= s[0] <= '9') && s[0] != '+' && s[0] != '-')
             || exists k :: 1 <= k < |s| && !('0' <= s[k] <= '9')
    ensures Atoi(s) == None
  {
    if k :| 1 <= k < |s| && !('0' <= s[k] <= '9') {
      assert !IsDigit(s[k]) && s[1..][k - 1] == s[k];
    } else if s != "" {
      assert !IsDigit(s[0]);
    }
  }

  /** Digits are read most significant first, in base ten. */
  lemma ValueReads(s: string, c: char)
    requires AllDigits(s) && '0' <= c <= '9'
    ensures AllDigits(s + [c]) && Value(s + [c]) == 10 * Value(s) + (c as int - '0' as int)
    ensures Value("") == 0
  {
    assert (s + [c])[..|s|] == s;
  }

  lemma AtoiDigits(s: string)
    requires s != "" && AllDigits(s) && Value(s) <= MAX_INT
    ensures Atoi(s) == Some(Value(s))
  {
    AtoiUnsigned(s);
  }
}
