/** Natural numbers as decimal text, and back. */
module Decimal {

  function Digit(d: nat): char
    requires d < 10
  {
    "0123456789"[d]
  }

  predicate IsDigit(c: char) {
    '0' <= c <= '9'
  }

  function DigitValue(c: char): nat
    requires IsDigit(c)
  {
    c as int - '0' as int
  }

  ghost predicate AllDigits(s: string) {
    forall c <- s :: IsDigit(c)
  }

  function Digits(n: nat): string {
    if n < 10 then [Digit(n)] else Digits(n / 10) + [Digit(n % 10)]
  }

  function Read(s: string): nat
    requires forall c <- s :: IsDigit(c)
    decreases |s|
  {
    if s == "" then 0 else 10 * Read(s[..|s| - 1]) + DigitValue(s[|s| - 1])
  }

  function Zeros(k: nat): (r: string)
    ensures |r| == k
  {
    if k == 0 then "" else "0" + Zeros(k - 1)
  }

  /** Canonical text: at least one digit, no superfluous leading zero. */
  predicate Canonical(s: string) {
    s != "" && (forall c <- s :: IsDigit(c)) && (s[0] == '0' ==> |s| == 1)
  }

  lemma DigitKnown(d: nat)
    requires d < 10
    ensures IsDigit(Digit(d)) && DigitValue(Digit(d)) == d
  {
    assert d in {0, 1, 2, 3, 4, 5, 6, 7, 8, 9};
  }

  lemma {:induction false} ReadDigits(n: nat)
    ensures Canonical(Digits(n))
    ensures Read(Digits(n)) == n
    ensures n > 0 ==> Digits(n)[0] != '0'
  {
    DigitKnown(n % 10);
    if n >= 10 {
      ReadDigits(n / 10);
      assert Digits(n)[..|Digits(n)| - 1] == Digits(n / 10);
    } else {
      assert Digits(n)[..0] == "";
    }
  }

  /** Canonical text is the only text of its value. */
  lemma {:induction false} DigitsRead(s: string)
    requires Canonical(s)
    ensures Digits(Read(s)) == s
    ensures s[0] != '0' ==> Read(s) > 0
    decreases |s|
  {
    var front, last := s[..|s| - 1], DigitValue(s[|s| - 1]);
    DigitKnown(last);
    if front != "" {
      DigitsRead(front);
      assert Read(s) / 10 == Read(front) && Read(s) % 10 == last;
    }
  }

  lemma {:induction false} ReadZeros(k: nat, s: string)
    requires AllDigits(s)
    ensures AllDigits(Zeros(k) + s) && Read(Zeros(k) + s) == Read(s)
    decreases k + |s|
  {
    if s != "" {
      ReadZeros(k, s[..|s| - 1]);
      assert (Zeros(k) + s)[..|Zeros(k) + s| - 1] == Zeros(k) + s[..|s| - 1];
    } else if k > 0 {
      ReadZeros(k - 1, s);
      assert Zeros(k) + s == Zeros(k);
      assert Zeros(k - 1) + s == Zeros(k - 1);
      ZerosSnoc(k - 1);
      assert Zeros(k)[..|Zeros(k)| - 1] == Zeros(k - 1);
    }
  }

  lemma {:induction false} ZerosSnoc(k: nat)
    ensures Zeros(k) + "0" == Zeros(k + 1)
  {
    if k > 0 {
      ZerosSnoc(k - 1);
    }
  }
}
