/** The Python built-ins the assessment relies on: str.strip() (with no
    argument), str.lower() on button labels, int() applied to a stripped
    answer string, and int() applied to a float. */
module Builtins {
  import opened Wrappers

  /** Python's str.isspace() on one character: the ASCII whitespace and
      separator controls and the Unicode space characters. */
  predicate IsSpace(c: char) {
    var n := c as int;
    (9 <= n <= 13) || (28 <= n <= 32) || n == 0x85 || n == 0xA0 || n == 0x1680
    || (0x2000 <= n <= 0x200A) || n == 0x2028 || n == 0x2029 || n == 0x202F
    || n == 0x205F || n == 0x3000
  }

  predicate AllSpace(s: string) {
    forall i :: 0 <= i < |s| ==> IsSpace(s[i])
  }

  /** s with its leading whitespace removed: a suffix of s. */
  function StripLeft(s: string): (r: string)
    ensures |r| <= |s| && r == s[|s| - |r|..]
    ensures AllSpace(s[..|s| - |r|])
    ensures r == [] || !IsSpace(r[0])
  {
    if |s| > 0 && IsSpace(s[0]) then
      var r := StripLeft(s[1..]);
      assert s[..|s| - |r|] == [s[0]] + s[1..][..|s| - 1 - |r|];
      r
    else s
  }

  /** s with its trailing whitespace removed: a prefix of s. */
  function StripRight(s: string): (r: string)
    ensures |r| <= |s| && r == s[..|r|]
    ensures AllSpace(s[|r|..])
    ensures r == [] || !IsSpace(r[|r| - 1])
  {
    if |s| > 0 && IsSpace(s[|s| - 1]) then
      var front := s[..|s| - 1];
      var r := StripRight(front);
      assert s[|r|..] == front[|r|..] + [s[|s| - 1]];
      r
    else s
  }

  /** str.strip(): s with its leading and trailing whitespace removed. The
      result is empty exactly when s is all whitespace, and otherwise
      starts and ends with a non-whitespace character. */
  function Strip(s: string): (r: string)
    ensures exists i, j :: 0 <= i <= j <= |s| && r == s[i..j] && AllSpace(s[..i]) && AllSpace(s[j..])
    ensures r == [] <==> AllSpace(s)
    ensures r != [] ==> !IsSpace(r[0]) && !IsSpace(r[|r| - 1])
  {
    StripLeftEmpty(s);
    StripRightEmpty(StripLeft(s));
    StripIsSlice(s);
    StripRight(StripLeft(s))
  }

  /** Stripping both ends keeps a slice of s, with whitespace on both sides. */
  lemma StripIsSlice(s: string)
    ensures var r := StripRight(StripLeft(s));
            exists i, j :: 0 <= i <= j <= |s| && r == s[i..j] && AllSpace(s[..i]) && AllSpace(s[j..])
  {
    SliceWitness(s, StripLeft(s), StripRight(StripLeft(s)));
  }

  /** A prefix r of a suffix l of s, with whitespace cut on both sides, is
      such a slice. */
  lemma SliceWitness(s: string, l: string, r: string)
    requires |l| <= |s| && l == s[|s| - |l|..] && AllSpace(s[..|s| - |l|])
    requires |r| <= |l| && r == l[..|r|] && AllSpace(l[|r|..])
    ensures exists i, j :: 0 <= i <= j <= |s| && r == s[i..j] && AllSpace(s[..i]) && AllSpace(s[j..])
  {
    var i := |s| - |l|;
    assert r == s[i..i + |r|];
    assert s[i + |r|..] == l[|r|..];
  }

  lemma StripLeftEmpty(s: string)
    ensures StripLeft(s) == [] <==> AllSpace(s)
  {
    var l := StripLeft(s);
    if l == [] {
      assert s[..|s|] == s;
    }
  }

  lemma StripRightEmpty(s: string)
    ensures StripRight(s) == [] <==> AllSpace(s)
  {
    var r := StripRight(s);
    if r == [] {
      assert s[|r|..] == s;
    }
  }

  predicate IsDigit(c: char) {
    '0' <= c <= '9'
  }

  function DigitValue(c: char): nat
    requires IsDigit(c)
  {
    c as int - '0' as int
  }

  function DigitChar(d: nat): (c: char)
    requires d < 10
    ensures IsDigit(c) && DigitValue(c) == d
  {
    ('0' as int + d) as char
  }

  /** The digit part that int() accepts: decimal digits, with single
      underscores allowed between two digits. */
  predicate IsDigitRun(s: string) {
    && DigitsOrUnderscores(s)
    && |s| > 0
    && IsDigit(s[0])
    && IsDigit(s[|s| - 1])
    && forall i :: 0 <= i < |s| ==> IsDigit(s[i]) || (s[i] == '_' && i + 1 < |s| && IsDigit(s[i + 1]))
  }

  predicate DigitsOrUnderscores(s: string) {
    forall i :: 0 <= i < |s| ==> IsDigit(s[i]) || s[i] == '_'
  }

  /** The number a run of digits denotes, underscores ignored. */
  function RunValue(s: string): nat
    requires DigitsOrUnderscores(s)
  {
    if s == [] then 0
    else if s[|s| - 1] == '_' then RunValue(s[..|s| - 1])
    else RunValue(s[..|s| - 1]) * 10 + DigitValue(s[|s| - 1])
  }

  /** The longest decimal numeral int() converts: longer ones raise
      ValueError (CPython's default int_max_str_digits). */
  const MAX_STR_DIGITS: nat := 4300

  /** The number of digits in a digit run, underscores not counted. */
  function DigitCount(s: string): (k: nat)
    ensures k <= |s|
  {
    if s == [] then 0
    else DigitCount(s[..|s| - 1]) + (if s[|s| - 1] == '_' then 0 else 1)
  }

  /** An optional sign followed by a digit run of at most MAX_STR_DIGITS
      digits. */
  function ParseRun(s: string, negative: bool): Option<int> {
    if IsDigitRun(s) && DigitsOrUnderscores(s) && DigitCount(s) <= MAX_STR_DIGITS then
      var v: int := RunValue(s);
      Some(if negative then -v else v)
    else None
  }

  /** int(s) on a string without surrounding whitespace: an optional sign
      followed by a digit run of at most MAX_STR_DIGITS digits; anything
      else raises ValueError (None). */
  function ParseInt(s: string): (r: Option<int>)
    ensures r.Some? ==> s != [] && IsDigit(s[|s| - 1])
    ensures r.Some? && r.value < 0 ==> s[0] == '-'
    ensures r.Some? && s[0] != '+' && s[0] != '-' ==> IsDigitRun(s)
    ensures r.Some? && (s[0] == '+' || s[0] == '-') ==> IsDigitRun(s[1..])
  {
    if |s| > 0 && (s[0] == '+' || s[0] == '-') then ParseRun(s[1..], s[0] == '-')
    else ParseRun(s, false)
  }

  /** A numeral with more digits than the limit is refused, with or
      without a sign (k is the length of the sign). */
  lemma ParseTooLong(s: string, k: nat)
    requires k <= 1 && k <= |s| && (k == 1 ==> s[0] == '+' || s[0] == '-')
    requires IsDigitRun(s[k..]) && DigitCount(s[k..]) > MAX_STR_DIGITS
    ensures ParseInt(s) == None
  {
    if k == 0 {
      assert s[k..] == s;
    }
  }

  /** A numeral within the limit, signed or not (k is the length of the
      sign), is read as the value of its digits, negated after a '-'. */
  lemma ParseAccepts(s: string, k: nat)
    requires k <= 1 && k <= |s| && (k == 1 ==> s[0] == '+' || s[0] == '-')
    requires IsDigitRun(s[k..]) && DigitCount(s[k..]) <= MAX_STR_DIGITS
    ensures ParseInt(s) == Some(if k == 1 && s[0] == '-' then -(RunValue(s[k..]) as int) else RunValue(s[k..]) as int)
  {
    if k == 0 {
      assert s[k..] == s;
    }
  }

  /** The number of decimal digits of n. */
  function NumDigits(n: nat): (k: nat)
    ensures k >= 1
  {
    if n < 10 then 1 else 1 + NumDigits(n / 10)
  }

  function Abs(n: int): nat {
    if n < 0 then -n else n
  }

  /** The decimal numeral of a natural number. */
  function ShowNat(n: nat): (s: string)
    ensures |s| == NumDigits(n)
    ensures forall i :: 0 <= i < |s| ==> IsDigit(s[i])
  {
    if n < 10 then [DigitChar(n)] else ShowNat(n / 10) + [DigitChar(n % 10)]
  }

  /** The numeral a participant types for n: "-" and digits when negative. */
  function Show(n: int): string {
    if n < 0 then "-" + ShowNat(-n) else ShowNat(n)
  }

  lemma {:induction false} RunValueShowNat(n: nat)
    ensures DigitsOrUnderscores(ShowNat(n)) && RunValue(ShowNat(n)) == n
  {
    var s := ShowNat(n);
    if n >= 10 {
      RunValueShowNat(n / 10);
      assert s[..|s| - 1] == ShowNat(n / 10);
    }
  }

  /** Reading back a numeral gives the number: a typed answer "n" is the
      integer n, including the negative answers some patterns produce, as
      long as it has no more digits than int() accepts. */
  lemma ParseShow(n: int)
    requires NumDigits(Abs(n)) <= MAX_STR_DIGITS
    ensures ParseInt(Show(n)) == Some(n)
  {
    var m: nat := Abs(n);
    var digits := ShowNat(m);
    RunValueShowNat(m);
    DigitsAreRun(digits);
    DigitCountOfDigits(digits);
    if n < 0 {
      var s := "-" + digits;
      assert s[0] == '-' && s[1..] == digits;
    } else {
      assert digits[0] != '+' && digits[0] != '-';
    }
  }

  lemma {:induction false} DigitCountOfDigits(s: string)
    requires forall i :: 0 <= i < |s| ==> IsDigit(s[i])
    ensures DigitCount(s) == |s|
  {
    if s != [] {
      DigitCountOfDigits(s[..|s| - 1]);
    }
  }

  lemma DigitsAreRun(s: string)
    requires |s| > 0 && forall i :: 0 <= i < |s| ==> IsDigit(s[i])
    ensures IsDigitRun(s)
  {
  }

  /** An answer typed with surrounding whitespace still reads as its
      numeral once stripped. */
  lemma PaddedNumeral(pre: string, n: int, post: string)
    requires AllSpace(pre) && AllSpace(post)
    ensures Strip(pre + Show(n) + post) == Show(n)
  {
    var s := Show(n);
    assert !IsSpace(s[0]);
    assert !IsSpace(s[|s| - 1]);
    var t := pre + s + post;
    StripLeftPad(pre, s + post);
    assert pre + s + post == pre + (s + post);
    StripRightPad(s, post);
  }

  lemma {:induction false} StripLeftPad(pre: string, s: string)
    requires AllSpace(pre) && s != [] && !IsSpace(s[0])
    ensures StripLeft(pre + s) == s
  {
    if pre != [] {
      assert (pre + s)[1..] == pre[1..] + s;
      StripLeftPad(pre[1..], s);
    }
  }

  lemma {:induction false} StripRightPad(s: string, post: string)
    requires AllSpace(post) && s != [] && !IsSpace(s[|s| - 1])
    ensures StripRight(s + post) == s
  {
    if post != [] {
      assert (s + post)[..|s + post| - 1] == s + post[..|post| - 1];
      StripRightPad(s, post[..|post| - 1]);
    }
  }

  /** str.lower() restricted to ASCII letters (the button labels are ASCII). */
  function LowerChar(c: char): char {
    if 'A' <= c <= 'Z' then (c as int + 32) as char else c
  }

  /** str.lower(): every uppercase ASCII letter becomes its lowercase
      letter, every other character is kept. */
  function Lower(s: string): (r: string)
    ensures |r| == |s|
    ensures forall i :: 0 <= i < |s| ==> !('A' <= r[i] <= 'Z')
    ensures forall i :: 0 <= i < |s| && !('A' <= s[i] <= 'Z') ==> r[i] == s[i]
    ensures forall i :: 0 <= i < |s| && 'A' <= s[i] <= 'Z' ==> r[i] as int == s[i] as int + 32
  {
    seq(|s|, i requires 0 <= i < |s| => LowerChar(s[i]))
  }

  /** int() on a float: truncation toward zero, so the result is the
      largest integer not above x when x >= 0 and the smallest not below
      x when x < 0. */
  function Trunc(x: real): (t: int)
    ensures x >= 0.0 ==> t >= 0 && t as real <= x < t as real + 1.0
    ensures x < 0.0 ==> t <= 0 && t as real - 1.0 < x <= t as real
  {
    if x >= 0.0 then x.Floor else -((-x).Floor)
  }

  lemma TruncOfInt(n: int)
    ensures Trunc(n as real) == n
  {
  }

  /** The truncated value is at most 0 exactly when x is below 1. */
  lemma TruncAtMostZero(x: real)
    ensures Trunc(x) <= 0 <==> x < 1.0
  {
    if x >= 0.0 {
      assert x.Floor as real <= x < x.Floor as real + 1.0;
    } else {
      assert (-x).Floor >= 0;
    }
  }
}
