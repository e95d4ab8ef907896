/** Minor units rendered as decimal text with the currency's own exponent. */
module Currencies {
  import opened Wrappers
  import opened Decimal
  import opened Model

  const ZERO_DECIMAL: set<string> :=
    {"BIF", "CLP", "DJF", "GNF", "ISK", "JPY", "KMF", "KRW", "PYG", "RWF", "UGX", "VND", "VUV", "XAF", "XOF", "XPF"}

  const THREE_DECIMAL: set<string> := {"BHD", "IQD", "JOD", "KWD", "LYD", "OMR", "TND"}

  datatype InvalidCurrency = InvalidCurrency

  predicate ValidCurrency(currency: string) {
    |currency| == 3 && forall c <- currency :: 'A' <= c <= 'Z'
  }

  function Exponent(currency: string): Result<nat, InvalidCurrency> {
    if !ValidCurrency(currency) then Failure(InvalidCurrency)
    else if currency in ZERO_DECIMAL then Success(0)
    else if currency in THREE_DECIMAL then Success(3)
    else Success(2)
  }

  /** The table: which codes are codes at all, the sixteen without a minor unit, the seven with three digits,
      and two digits for every other. */
  lemma ExponentTable(currency: string)
    ensures Exponent(currency).Failure? <==> |currency| != 3 || exists c <- currency :: c < 'A' || c > 'Z'
    ensures Exponent(currency) == Success(0) <==>
            currency in {"BIF", "CLP", "DJF", "GNF", "ISK", "JPY", "KMF", "KRW", "PYG", "RWF", "UGX", "VND", "VUV",
                         "XAF", "XOF", "XPF"}
    ensures Exponent(currency) == Success(3) <==> currency in {"BHD", "IQD", "JOD", "KWD", "LYD", "OMR", "TND"}
    ensures Exponent(currency).Success? ==> Exponent(currency).value in {0, 2, 3}
  {
    assert ZERO_DECIMAL !! THREE_DECIMAL;
    assert forall code <- ZERO_DECIMAL + THREE_DECIMAL :: ValidCurrency(code);
  }

  function Abs(n: int): nat {
    if n < 0 then -n else n
  }

  function Signed(negative: bool, n: int): int {
    if negative then -n else n
  }

  function RightJustified(s: string, width: nat): (r: string)
    ensures |r| >= width && |r| >= |s|
  {
    if |s| >= width then s else Zeros(width - |s|) + s
  }

  function FormatMajor(m: Money): Result<string, InvalidCurrency> {
    match Exponent(m.currency)
    case Failure(e) => Failure(e)
    case Success(places) => Success(WithPlaces(m, places))
  }

  function WithPlaces(m: Money, places: nat): string {
    var sign := if m.minor < 0 then "-" else "";
    var digits := RightJustified(Digits(Abs(m.minor)), places + 1);
    var split := |digits| - places;
    if places == 0 then sign + digits + " " + m.currency
    else sign + digits[..split] + "." + digits[split..] + " " + m.currency
  }

  // ---------------------------------------------------------------- reading back

  /** A rendered amount, taken apart at its sign, its point and its currency. */
  datatype Rendered = Rendered(negative: bool, whole: string, fraction: string, currency: string) {
    function Text(): string {
      (if negative then "-" else "") + whole + (if fraction == "" then "" else "." + fraction) + " " + currency
    }

    predicate WellFormed() {
      && whole != "" && |currency| == 3
      && (forall c <- whole :: IsDigit(c)) && (forall c <- fraction :: IsDigit(c))
    }
  }

  function WithoutPoint(s: string): string {
    if s == "" then ""
    else if s[0] == '.' then WithoutPoint(s[1..])
    else [s[0]] + WithoutPoint(s[1..])
  }

  /** Strip the currency, the sign and the point, and read the digits that are left. */
  function ReadAmount(text: string): Option<Money> {
    if |text| < 5 || text[|text| - 4] != ' ' then None
    else
      var body, currency := text[..|text| - 4], text[|text| - 3..];
      var negative := body[0] == '-';
      var digits := WithoutPoint(if negative then body[1..] else body);
      if exists c <- digits :: !IsDigit(c) then None
      else Some(Money(Signed(negative, Read(digits)), currency))
  }

  lemma {:induction false} DigitsKept(digits: string)
    requires AllDigits(digits)
    ensures WithoutPoint(digits) == digits
  {
    if digits != "" {
      assert digits[0] in digits && digits == [digits[0]] + digits[1..];
      DigitsKept(digits[1..]);
    }
  }

  lemma {:induction false} PointRemoved(whole: string, fraction: string)
    requires AllDigits(whole) && AllDigits(fraction)
    ensures WithoutPoint(whole + "." + fraction) == whole + fraction
  {
    var s := whole + "." + fraction;
    if whole == "" {
      DigitsKept(fraction);
      assert s[1..] == fraction;
    } else {
      assert whole[0] in whole;
      PointRemoved(whole[1..], fraction);
      assert s[1..] == whole[1..] + "." + fraction;
      assert s[0] == whole[0];
      assert whole + fraction == [whole[0]] + (whole[1..] + fraction);
    }
  }

  lemma {:induction false} NumberReads(r: Rendered, number: string)
    requires r.WellFormed()
    requires number == r.whole + (if r.fraction == "" then "" else "." + r.fraction)
    ensures WithoutPoint(number) == r.whole + r.fraction
    ensures number != "" && number[0] != '-'
  {
    assert r.whole[0] in r.whole && number[0] == r.whole[0];
    if r.fraction == "" {
      DigitsKept(r.whole);
      assert number == r.whole == r.whole + r.fraction;
    } else {
      assert number == r.whole + "." + r.fraction;
      PointRemoved(r.whole, r.fraction);
    }
  }

  function NumberOf(r: Rendered): string {
    r.whole + (if r.fraction == "" then "" else "." + r.fraction)
  }

  /** A rendering is its sign, its number, and its currency after a blank. */
  lemma TextParts(r: Rendered)
    ensures r.Text() == ((if r.negative then "-" else "") + NumberOf(r)) + " " + r.currency
  {
  }

  lemma RenderedReads(r: Rendered)
    requires r.WellFormed() && AllDigits(r.whole + r.fraction)
    ensures ReadAmount(r.Text()) ==
            Some(Money(Signed(r.negative, Read(r.whole + r.fraction)), r.currency))
  {
    TextParts(r);
    NumberReads(r, NumberOf(r));
    hide NumberOf, ReadAmount, WithoutPoint, Read, Signed, AllDigits;
    BodyReads((if r.negative then "-" else "") + NumberOf(r), r.currency, r.negative, NumberOf(r));
  }

  lemma {:induction false} BodyReads(body: string, currency: string, negative: bool, number: string)
    requires |currency| == 3 && number != "" && number[0] != '-'
    requires body == (if negative then "-" else "") + number
    requires AllDigits(WithoutPoint(number))
    ensures ReadAmount(body + " " + currency) == Some(Money(Signed(negative, Read(WithoutPoint(number))), currency))
  {
    BodyOf(body, currency);
    assert body[0] == '-' <==> negative;
    assert (if negative then body[1..] else body) == number;
  }

  lemma BodyOf(body: string, currency: string)
    requires |currency| == 3
    ensures
      var text := body + " " + currency;
      |text| == |body| + 4 && text[..|text| - 4] == body && text[|text| - 3..] == currency && text[|text| - 4] == ' '
  {
  }

  lemma {:induction false} Padded(n: nat, width: nat)
    requires width > 0
    ensures
      var digits := RightJustified(Digits(n), width);
      AllDigits(digits) && Read(digits) == n && (|digits| > width ==> digits[0] != '0')
  {
    hide Read;
    var shown := Digits(n);
    ReadDigits(n);
    if |shown| < width {
      ReadZeros(width - |shown|, shown);
    }
  }

  /** Where the point goes: the last places digits are the fraction. */
  lemma PointAt(negative: bool, digits: string, places: nat, currency: string)
    requires places < |digits|
    ensures
      var split := |digits| - places;
      var sign := if negative then "-" else "";
      Rendered(negative, digits[..split], digits[split..], currency).Text() ==
      if places == 0 then sign + digits + " " + currency
      else sign + digits[..split] + "." + digits[split..] + " " + currency
  {
    var split := |digits| - places;
    var sign := if negative then "-" else "";
    if places == 0 {
      assert digits[..split] == digits && digits[split..] == "";
      assert digits + "" == digits;
    } else {
      assert (sign + digits[..split]) + "." + digits[split..] == sign + digits[..split] + ("." + digits[split..]);
    }
  }

  lemma SplitDigits(digits: string, split: nat)
    requires AllDigits(digits) && split <= |digits|
    ensures forall c <- digits[..split] :: IsDigit(c)
    ensures forall c <- digits[split..] :: IsDigit(c)
    ensures digits[..split] + digits[split..] == digits
  {
    assert forall c <- digits[..split] :: c in digits;
    assert forall c <- digits[split..] :: c in digits;
  }

  lemma LayoutAt(m: Money, places: nat, digits: string) returns (r: Rendered)
    requires |m.currency| == 3
    requires digits == RightJustified(Digits(Abs(m.minor)), places + 1) && AllDigits(digits)
    ensures r.WellFormed() && WithPlaces(m, places) == r.Text()
    ensures r.negative == (m.minor < 0) && r.currency == m.currency
    ensures r.whole + r.fraction == digits && |r.fraction| == places
  {
    var split := |digits| - places;
    r := Rendered(m.minor < 0, digits[..split], digits[split..], m.currency);
    SplitDigits(digits, split);
    PointAt(m.minor < 0, digits, places, m.currency);
    hide Rendered.Text, RightJustified, Digits, AllDigits, IsDigit;
  }

  /** How an amount is laid out: the currency's own number of fractional digits, at least one digit
      before the point, a sign exactly for negative amounts, and digits worth the amount. */
  lemma Layout(m: Money) returns (r: Rendered)
    requires ValidCurrency(m.currency)
    ensures r.WellFormed() && FormatMajor(m) == Success(r.Text())
    ensures |r.fraction| == Exponent(m.currency).value
    ensures r.negative == (m.minor < 0) && r.currency == m.currency
    ensures AllDigits(r.whole + r.fraction) && Read(r.whole + r.fraction) == Abs(m.minor)
    ensures |r.whole| > 1 ==> r.whole[0] != '0'
  {
    var places := Exponent(m.currency).value;
    Padded(Abs(m.minor), places + 1);
    var digits := RightJustified(Digits(Abs(m.minor)), places + 1);
    r := LayoutAt(m, places, digits);
    assert digits[0] == r.whole[0];
  }

  /** Reading a rendered amount gives back exactly that amount. */
  lemma FormatRoundTrip(m: Money)
    requires ValidCurrency(m.currency)
    ensures FormatMajor(m).Success? && ReadAmount(FormatMajor(m).value) == Some(m)
  {
    var r := Layout(m);
    RenderedReads(r);
  }

  /** So no two amounts share a rendering. */
  lemma FormatInjective(m: Money, n: Money)
    requires ValidCurrency(m.currency) && ValidCurrency(n.currency)
    requires FormatMajor(m) == FormatMajor(n)
    ensures m == n
  {
    FormatRoundTrip(m);
    FormatRoundTrip(n);
  }
}
