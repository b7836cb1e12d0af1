/** Decimal numbers as the daemon reads and prints them: strconv.Atoi, strconv.ParseInt(s, 10, 64),
    strconv.FormatInt(n, 10) and the hand-written itoaPositive. */
module Numbers {
  import opened Prelude

  const MAX_INT64 := 0x7FFF_FFFF_FFFF_FFFF
  const MIN_INT64 := -0x8000_0000_0000_0000

  /** Go's int and int64 on the 64-bit platforms the daemon runs on. */
  type Int64 = n: int | MIN_INT64 <= n <= MAX_INT64

  predicate AllDigits(s: string) {
    forall i :: 0 <= i < |s| ==> IsDigit(s[i])
  }

  function DigitValue(c: char): nat
    requires IsDigit(c)
  {
    c as nat - '0' as nat
  }

  function DigitChar(d: nat): (c: char)
    requires d < 10
    ensures IsDigit(c) && DigitValue(c) == d
  {
    ('0' as nat + d) as char
  }

  /** The number written by a run of digits. */
  function NatOf(s: string): nat
    requires AllDigits(s)
  {
    if s == "" then 0 else 10 * NatOf(s[..|s| - 1]) + DigitValue(s[|s| - 1])
  }

  /** The shortest decimal form of a natural number. */
  function FormatNat(n: nat): (s: string)
    ensures |s| > 0 && AllDigits(s)
  {
    if n < 10 then [DigitChar(n)] else FormatNat(n / 10) + [DigitChar(n % 10)]
  }

  function FormatInt(n: int): string {
    if n < 0 then "-" + FormatNat(-n) else FormatNat(n)
  }

  /** strconv.Atoi and strconv.ParseInt with base 10 and 64 bits: an optional sign, at least one
      digit, and a value that fits. */
  function ParseInt(s: string): Option<Int64> {
    if s == "" then None
    else
      var signed := s[0] == '+' || s[0] == '-';
      var digits := if signed then s[1..] else s;
      if digits == "" || !AllDigits(digits) then None
      else
        var magnitude: int := NatOf(digits);
        var v: int := if s[0] == '-' then -magnitude else magnitude;
        if MIN_INT64 <= v <= MAX_INT64 then Some(v) else None
  }

  lemma {:induction false} FormatNatValue(n: nat)
    ensures NatOf(FormatNat(n)) == n
  {
    if n < 10 {
      assert FormatNat(n)[..0] == "";
    } else {
      var s := FormatNat(n);
      assert s[..|s| - 1] == FormatNat(n / 10);
      FormatNatValue(n / 10);
    }
  }

  /** Printing a 64-bit integer and reading it back gives the same integer. */
  lemma ParseFormat(n: Int64)
    ensures ParseInt(FormatInt(n)) == Some(n)
  {
    var s := FormatInt(n);
    if n < 0 {
      var magnitude: int := n;
      FormatNatValue(-magnitude);
      assert s[1..] == FormatNat(-magnitude);
    } else {
      FormatNatValue(n);
      assert IsDigit(s[0]);
    }
  }

  function Pow10(k: nat): nat {
    if k == 0 then 1 else 10 * Pow10(k - 1)
  }

  lemma EveryInt64Fits(n: Int64)
    ensures n < Pow10(20) && 0 < Pow10(20)
  {
    assert Pow10(4) == 10000;
    assert Pow10(8) == 10000 * Pow10(4);
    assert Pow10(12) == 10000 * Pow10(8);
    assert Pow10(16) == 10000 * Pow10(12);
    assert Pow10(20) == 10000 * Pow10(16);
  }

  /** The digits of `rest` in front of what is already written; nothing for zero. */
  function Digits(rest: nat, tail: string): string {
    if rest == 0 then tail else FormatNat(rest) + tail
  }

  lemma NextDigit(rest: nat, tail: string, i: nat)
    requires 0 < rest < Pow10(i)
    ensures i > 0 && rest / 10 < Pow10(i - 1)
    ensures Digits(rest / 10, [DigitChar(rest % 10)] + tail) == Digits(rest, tail)
  {
    if rest >= 10 {
      Assoc(FormatNat(rest / 10), [DigitChar(rest % 10)], tail);
    }
  }

  lemma NoDigits(n: Int64)
    ensures FormatNat(0) == "0"
    ensures n > 0 ==> Digits(n, "") == FormatNat(n)
  {
    if n > 0 {
      assert FormatNat(n) + "" == FormatNat(n);
    }
  }

  /** The digit loop of itoaPositive: it fills a 20-byte buffer from the right. Every int64 fits, and a
      negative one gives nothing. */
  method ItoaPositive(n: Int64) returns (s: string)
    ensures s == if n < 0 then "" else FormatNat(n)
  {
    hide Pow10, FormatNat;
    NoDigits(n);
    if n == 0 {
      return "0";
    }
    var buf := new char[20];
    var i := 20;
    var rest: nat := if n < 0 then 0 else n;
    EveryInt64Fits(n);
    assert buf[20..] == "" && Digits(rest, "") == if n < 0 then "" else FormatNat(n);
    while rest > 0
      invariant 0 <= i <= 20
      invariant rest < Pow10(i)
      invariant Digits(rest, buf[i..]) == if n < 0 then "" else FormatNat(n)
    {
      ghost var tail := buf[i..];
      NextDigit(rest, tail, i);
      i := i - 1;
      buf[i] := DigitChar(rest % 10);
      assert buf[i + 1..] == tail && buf[i..] == [DigitChar(rest % 10)] + tail;
      rest := rest / 10;
    }
    s := buf[i..];
  }
}
