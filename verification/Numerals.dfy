/** Unsigned decimal numbers as `str::parse` reads them, against the ways to write them down. */
module Numerals {
  import opened Prelude

  function Zeros(n: nat): (s: string)
    ensures |s| == n && forall c | c in s :: c == '0'
  {
    if n == 0 then "" else Zeros(n - 1) + "0"
  }

  predicate Digits(s: string) {
    forall c | c in s :: IsDigit(c)
  }

  lemma ValueSnoc(s: string, c: char)
    requires Digits(s) && IsDigit(c)
    ensures Digits(s + [c]) && DecimalValue(s + [c]) == DecimalValue(s) * 10 + DigitValue(c)
  {
    assert (s + [c])[..|s|] == s;
  }

  lemma {:induction false} ZerosInFront(n: nat, s: string)
    requires Digits(s)
    ensures Digits(Zeros(n) + s) && DecimalValue(Zeros(n) + s) == DecimalValue(s)
    decreases |s|
  {
    if s == "" {
      assert Zeros(n) + s == Zeros(n);
      ZerosAreZero(n);
    } else {
      var front, last := s[..|s| - 1], s[|s| - 1];
      ZerosInFront(n, front);
      ValueSnoc(Zeros(n) + front, last);
      assert Zeros(n) + s == Zeros(n) + front + [last];
    }
  }

  lemma {:induction false} ZerosAreZero(n: nat)
    ensures Digits(Zeros(n)) && DecimalValue(Zeros(n)) == 0
  {
    if n > 0 {
      ZerosAreZero(n - 1);
      ValueSnoc(Zeros(n - 1), '0');
    }
  }

  /** Digits without leading zeros are what their value is written as. */
  lemma {:induction false} ValueWritten(s: string)
    requires Digits(s) && s != "" && (s[0] != '0' || |s| == 1)
    ensures Decimal(DecimalValue(s)) == s
    ensures |s| > 1 ==> DecimalValue(s) > 0
  {
    var front, last := s[..|s| - 1], s[|s| - 1];
    assert s == front + [last];
    assert last == Digit(DigitValue(last));
    if front == "" {
      assert DecimalValue(s) == DigitValue(last) && s == [last];
    } else {
      ValuePositive(front);
      ValueWritten(front);
      assert DecimalValue(s) / 10 == DecimalValue(front) && DecimalValue(s) % 10 == DigitValue(last);
    }
  }

  lemma {:induction false} ValuePositive(s: string)
    requires Digits(s) && s != "" && s[0] != '0'
    ensures DecimalValue(s) > 0
  {
    if |s| > 1 {
      ValuePositive(s[..|s| - 1]);
    } else {
      assert s[..0] == "" && DigitValue(s[0]) > 0;
    }
  }

  /** All digits are leading zeros followed by a number written without any. */
  lemma {:induction false} DigitsAreWritten(s: string) returns (zeros: nat)
    requires Digits(s) && s != ""
    ensures s == Zeros(zeros) + Decimal(DecimalValue(s))
  {
    if s[0] != '0' || |s| == 1 {
      ValueWritten(s);
      zeros := 0;
    } else {
      zeros := DigitsAreWritten(s[1..]);
      assert s == Zeros(1) + s[1..];
      ZerosInFront(1, s[1..]);
      ZerosJoin(1, zeros);
      zeros := zeros + 1;
    }
  }

  lemma {:induction false} ZerosJoin(m: nat, n: nat)
    ensures Zeros(m) + Zeros(n) == Zeros(m + n)
  {
    if n > 0 { ZerosJoin(m, n - 1); }
  }
}
