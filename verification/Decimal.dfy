/** Decimal text of event ids: the relay's printer formatUint and the parser the consumers use. */
module Decimal {

  const MAX_UINT64: int := 0xFFFF_FFFF_FFFF_FFFF

  function Digit(d: nat): char
    requires d < 10
  {
    '0' + d as char
  }

  /** The decimal text of a number, most significant digit first. */
  function Digits(v: nat): (s: string)
    ensures 0 < |s|
  {
    if v < 10 then [Digit(v)] else Digits(v / 10) + [Digit(v % 10)]
  }

  predicate IsDigit(c: char) { '0' <= c <= '9' }

  function DigitValue(c: char): nat
    requires IsDigit(c)
  {
    (c - '0') as nat
  }

  /** The number a digit string denotes, by Horner's rule. */
  function Value(s: string): nat
    requires forall i :: 0 <= i < |s| ==> IsDigit(s[i])
  {
    if |s| == 0 then 0 else 10 * Value(s[..|s| - 1]) + DigitValue(s[|s| - 1])
  }

  /** `strconv.ParseUint(s, 10, 64)`, with 0 for every error as in extractEventID. */
  function ParseEventId(s: string): nat {
    if |s| > 0 && (forall i :: 0 <= i < |s| ==> IsDigit(s[i])) && Value(s) <= MAX_UINT64 then Value(s) else 0
  }

  lemma {:induction false} DigitsRoundTrip(v: nat)
    ensures forall i :: 0 <= i < |Digits(v)| ==> IsDigit(Digits(v)[i])
    ensures Value(Digits(v)) == v
    ensures v > 0 ==> Digits(v)[0] != '0'
  {
    if v >= 10 {
      DigitsRoundTrip(v / 10);
      var s := Digits(v);
      assert s[..|s| - 1] == Digits(v / 10);
    }
  }

  lemma DigitsInjective(v: nat, u: nat)
    ensures Digits(v) == Digits(u) ==> v == u
  {
    DigitsRoundTrip(v);
    DigitsRoundTrip(u);
  }

  function Pow10(n: nat): (p: nat)
    ensures p > 0
  {
    if n == 0 then 1 else 10 * Pow10(n - 1)
  }

  lemma {:induction false} DigitsLength(v: nat, n: nat)
    requires n > 0 && v < Pow10(n)
    ensures |Digits(v)| <= n
  {
    if v >= 10 {
      assert n > 1;
      DigitsLength(v / 10, n - 1);
    }
  }

  lemma EventIdFitsBuffer(v: nat)
    requires v <= MAX_UINT64
    ensures |Digits(v)| <= 20
  {
    assert Pow10(5) == 100000 by {
      assert Pow10(3) == 1000;
    }
    assert Pow10(10) == 100000 * Pow10(5) by {
      assert Pow10(8) == 1000 * Pow10(5);
    }
    assert Pow10(15) == 100000 * Pow10(10) by {
      assert Pow10(13) == 1000 * Pow10(10);
    }
    assert Pow10(20) == 100000 * Pow10(15) by {
      assert Pow10(18) == 1000 * Pow10(15);
    }
    DigitsLength(v, 20);
  }

  /** Printing an event id and parsing it back returns it. Ids start at 1, so a printed id is
      never mistaken for the missing id 0. */
  lemma EventIdRoundTrip(v: nat)
    requires v <= MAX_UINT64
    ensures ParseEventId(Digits(v)) == v
    ensures v > 0 ==> Digits(v)[0] != '0' && ParseEventId(Digits(v)) != 0
  {
    DigitsRoundTrip(v);
  }

  /** What is still to be printed: formatUint's loop stops at 0 and prints nothing for it. */
  function Pending(u: nat): string {
    if u == 0 then "" else Digits(u)
  }

  lemma PendingStep(u: nat, printed: string)
    requires u > 0
    ensures Pending(u / 10) + ([Digit(u % 10)] + printed) == Pending(u) + printed
    ensures |Pending(u / 10)| + 1 == |Pending(u)|
  {
    assert Pending(u) == Pending(u / 10) + [Digit(u % 10)];
  }

  /** formatUint: fills a 20-byte buffer from the end. The array accesses are in bounds for every
      64-bit value, so the buffer is never underrun. */
  method FormatUint(v: nat) returns (s: string)
    requires v <= MAX_UINT64
    ensures s == Digits(v) && |s| <= 20
  {
    EventIdFitsBuffer(v);
    if v == 0 {
      return "0";
    }
    var buf := new char[20];
    var i := 20;
    var u := v;
    while u > 0
      invariant 0 <= i <= 20
      invariant |Pending(u)| <= i
      invariant Digits(v) == Pending(u) + buf[i..]
      decreases u
    {
      ghost var printed := buf[i..];
      PendingStep(u, printed);
      i := i - 1;
      buf[i] := Digit(u % 10);
      assert buf[i..] == [Digit(u % 10)] + printed;
      u := u / 10;
    }
    return buf[i..];
  }
}
