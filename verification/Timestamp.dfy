/**
 * The liveness timestamp: an instant in nanoseconds is written in decimal and
 * cut in the middle; the reader takes the two pieces for seconds and nanoseconds.
 */
module Timestamp {
  import opened AppConfig

  const NANO: nat := 1_000_000_000
  const UINT32: nat := 0x1_0000_0000

  function Pow10(k: nat): (p: nat)
    ensures p >= 1
  {
    if k == 0 then 1 else 10 * Pow10(k - 1)
  }

  function DigitOf(d: nat): (c: char)
    requires d < 10
    ensures Digit(c) && c as int - '0' as int == d
  {
    ('0' as int + d) as char
  }

  /** An instant after the epoch in decimal. */
  function Format(n: nat): (s: string)
    ensures |s| >= 1
  {
    (if n < 10 then "" else Format(n / 10)) + [DigitOf(n % 10)]
  }

  predicate Digit(c: char) {
    '0' <= c <= '9'
  }

  predicate Decimal(s: string) {
    forall i :: 0 <= i < |s| ==> Digit(s[i])
  }

  function Value(s: string): nat
    requires Decimal(s)
  {
    if |s| == 0 then 0 else 10 * Value(s[..|s| - 1]) + (s[|s| - 1] as int - '0' as int)
  }

  /** An unsigned number of 32 bits in decimal, or an error. */
  function ParseUint32(s: string): Option<nat> {
    if s == "" || !Decimal(s) || Value(s) >= UINT32 then None else Some(Value(s))
  }

  /** Where the written instant is cut. */
  function Cut(length: nat): nat {
    length / 2 + 1
  }

  function Seconds(n: nat): string {
    var s := Format(n);
    s[..Cut(|s|)]
  }

  function Nanoseconds(n: nat): string {
    var s := Format(n);
    s[Cut(|s|)..]
  }

  /** How many digits lie behind the cut. */
  function Behind(length: nat): nat
    requires length >= 1
  {
    length - Cut(length)
  }

  lemma {:induction false} FormatIsDecimal(n: nat)
    ensures Decimal(Format(n)) && Value(Format(n)) == n
  {
    hide DigitOf;
    var front := if n < 10 then "" else Format(n / 10);
    if n >= 10 {
      FormatIsDecimal(n / 10);
    }
    Appended(front, n % 10);
    assert Value(front) == n / 10;
  }

  lemma Appended(front: string, d: nat)
    requires Decimal(front) && d < 10
    ensures Decimal(front + [DigitOf(d)]) && Value(front + [DigitOf(d)]) == 10 * Value(front) + d
  {
  }

  /** The length of the decimal form brackets the number. */
  lemma {:induction false} LengthIs(n: nat)
    ensures n < Pow10(|Format(n)|)
    ensures n > 0 ==> Pow10(|Format(n)| - 1) <= n
  {
    if n >= 10 {
      LengthIs(n / 10);
    } else {
      assert Pow10(1) == 10;
    }
  }

  lemma Regroup(a: nat, p: nat)
    ensures a * (10 * p) == 10 * (a * p)
  {
  }

  lemma LessTimes(a: nat, b: nat, d: nat)
    requires a < b
    ensures a * d + d <= b * d
  {
    assert b * d == a * d + (b - a) * d;
    assert (b - a - 1) * d >= 0;
  }

  lemma {:induction false} Split(s: string, i: nat)
    requires Decimal(s) && i <= |s|
    ensures Value(s) == Value(s[..i]) * Pow10(|s| - i) + Value(s[i..]) && Value(s[i..]) < Pow10(|s| - i)
  {
    if i == |s| {
      assert s[..i] == s;
    } else {
      var t := s[..|s| - 1];
      Split(t, i);
      assert t[..i] == s[..i] && t[i..] == s[i..][..|s| - i - 1];
      assert s[i..][|s| - i - 1] == s[|s| - 1];
      Regroup(Value(s[..i]), Pow10(|t| - i));
    }
  }

  lemma QuotientIs(n: nat, q: nat, d: nat, r: nat)
    requires n == q * d + r && r < d
    ensures n / d == q && n % d == r
  {
    var q', r' := n / d, n % d;
    assert n == q' * d + r' by { DivMod(n, d); }
    if q < q' {
      LessTimes(q, q', d);
    } else if q' < q {
      LessTimes(q', q, d);
    }
  }

  lemma DivMod(n: nat, d: nat)
    requires d > 0
    ensures n == (n / d) * d + n % d
  {
  }

  /** The pieces are quotient and remainder by the power of ten that the cut leaves behind. */
  lemma PiecesAre(n: nat)
    ensures Decimal(Seconds(n)) && Decimal(Nanoseconds(n))
    ensures Value(Seconds(n)) == n / Pow10(Behind(|Format(n)|))
    ensures Value(Nanoseconds(n)) == n % Pow10(Behind(|Format(n)|))
  {
    hide Format, Value, Pow10, Digit;
    var s := Format(n);
    var c := Cut(|s|);
    FormatIsDecimal(n);
    Split(s, c);
    QuotientIs(n, Value(s[..c]), Pow10(|s| - c), Value(s[c..]));
  }

  lemma Pow10Nine()
    ensures Pow10(9) == NANO
  {
    assert Pow10(3) == 1000;
    assert Pow10(6) == 1000000;
  }

  lemma {:induction false} Pow10Grows(i: nat, j: nat)
    requires i < j
    ensures 10 * Pow10(i) <= Pow10(j)
    decreases j
  {
    if i < j - 1 {
      Pow10Grows(i, j - 1);
    }
  }

  lemma CancelFactor(q: nat, a: nat, b: nat)
    requires q >= 1 && q * a == q * b
    ensures a == b
  {
  }

  lemma SamePieces(n: nat, k: nat)
    requires Pow10(k) <= n && n / Pow10(k) == n / NANO && n % Pow10(k) == n % NANO
    ensures k == 9
  {
    var p := Pow10(k);
    DivMod(n, p);
    DivMod(n, NANO);
    assert n / p >= 1;
    CancelFactor(n / p, p, NANO);
    Pow10Nine();
    if k < 9 {
      Pow10Grows(k, 9);
    } else if 9 < k {
      Pow10Grows(9, k);
    }
  }

  /** The two pieces are the seconds and the nanoseconds of the instant. */
  predicate CutIsRight(n: nat) {
    && Decimal(Seconds(n)) && Value(Seconds(n)) == n / NANO
    && Decimal(Nanoseconds(n)) && Value(Nanoseconds(n)) == n % NANO
  }

  /** The cut falls between seconds and nanoseconds if and only if the instant has 19 or 20 digits. */
  lemma CutIsRightIff(n: nat)
    requires n > 0
    ensures CutIsRight(n) <==> 19 <= |Format(n)| <= 20
  {
    hide Format, Seconds, Nanoseconds, Value, Pow10;
    var length := |Format(n)|;
    PiecesAre(n);
    Pow10Nine();
    if Value(Seconds(n)) == n / NANO && Value(Nanoseconds(n)) == n % NANO {
      LengthIs(n);
      if Behind(length) < length - 1 {
        Pow10Grows(Behind(length), length - 1);
      }
      SamePieces(n, Behind(length));
    }
  }

  /** The clock's range: from the first instant of 19 digits, in 2001, to the last of a signed 64-bit number. */
  predicate Nineteen(n: nat) {
    1_000_000_000 * NANO <= n < 0x8000_0000_0000_0000
  }

  lemma NineteenDigits(n: nat)
    requires 0 < n < 0x8000_0000_0000_0000
    ensures |Format(n)| <= 19
    ensures |Format(n)| == 19 <==> Nineteen(n)
  {
    var length := |Format(n)|;
    LengthIs(n);
    Pow10Nine();
    assert Pow10(18) == 1_000_000_000 * NANO by {
      assert Pow10(12) == 1_000 * Pow10(9);
      assert Pow10(15) == 1_000 * Pow10(12);
    }
    if length > 19 {
      Pow10Grows(18, length - 1);
    } else if length < 18 {
      Pow10Grows(length, 18);
    }
  }

  /** The reader: two 32-bit numbers, or an error. */
  function Read(seconds: string, nanoseconds: string): Option<(nat, nat)> {
    if ParseUint32(seconds).None? || ParseUint32(nanoseconds).None? then None
    else Some((ParseUint32(seconds).value, ParseUint32(nanoseconds).value))
  }

  /** What the reader gets back: quotient and remainder while the seconds fit in 32 bits, an error after that. */
  lemma ReadBack(n: nat)
    requires Nineteen(n)
    ensures var seconds, rest := n / 1_000_000_000, n % 1_000_000_000;
      Read(Seconds(n), Nanoseconds(n)) == if seconds < 4_294_967_296 then Some((seconds, rest)) else None
  {
    NineteenDigits(n);
    CutIsRightIff(n);
  }

  /** An instant that the clock gives is cut rightly if and only if it has 19 digits. */
  lemma ClockIsCutRightIff(n: nat)
    requires 0 < n < 0x8000_0000_0000_0000
    ensures CutIsRight(n) <==> Nineteen(n)
  {
    NineteenDigits(n);
    CutIsRightIff(n);
  }
}
