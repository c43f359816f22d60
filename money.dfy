/** The revenue string of the statistics: `"$" + revenue.toFixed(2)`, for a
    revenue counted exactly in cents, and a reader for it that shows the
    string keeps the whole amount. */
module Money {
  import opened JsValues

  function DigitChar(d: nat): (c: char)
    requires d < 10
    ensures '0' <= c <= '9' && c as int - '0' as int == d
  {
    ('0' as int + d) as char
  }

  predicate IsDigits(s: string) {
    forall i :: 0 <= i < |s| ==> '0' <= s[i] <= '9'
  }

  /** The decimal numeral of `n`, without leading zeros. */
  function Decimal(n: nat): (r: string)
    ensures |r| >= 1 && IsDigits(r)
    ensures n >= 10 ==> r[0] != '0'
  {
    if n < 10 then [DigitChar(n)] else Decimal(n / 10) + [DigitChar(n % 10)]
  }

  /** The number a string of digits denotes. */
  function DecimalValue(s: string): nat
    requires IsDigits(s)
  {
    if s == [] then 0 else DecimalValue(s[..|s| - 1]) * 10 + (s[|s| - 1] as int - '0' as int)
  }

  lemma {:induction false} DecimalRoundTrip(n: nat)
    ensures DecimalValue(Decimal(n)) == n
  {
    if n >= 10 {
      DecimalRoundTrip(n / 10);
      var r := Decimal(n);
      assert r[..|r| - 1] == Decimal(n / 10);
    }
  }

  /** `m / 100`, for `m` cents, with exactly two decimals. */
  function FixedMagnitude(m: nat): (r: string)
    ensures |r| >= 4 && '0' <= r[0] <= '9'
  {
    var d := m % 100;
    Decimal(m / 100) + "." + [DigitChar(d / 10), DigitChar(d % 10)]
  }

  /** `(cents / 100).toFixed(2)`: a minus sign for a negative amount, then the magnitude. */
  function ToFixed2(cents: int): (r: string) {
    if cents < 0 then "-" + FixedMagnitude(-cents) else FixedMagnitude(cents)
  }

  /** The `revenue` field (server/storage.ts:320); a NaN revenue reads "$NaN". */
  function RevenueText(revenue: Num): string {
    "$" + match revenue
          case NaN => "NaN"
          case Finite(cents) => ToFixed2(cents)
  }

  /** Reads digits, "." and two digits as a number of cents. */
  function ParseMagnitude(body: string): Option<nat> {
    var n := |body|;
    if n < 4 || body[n - 3] != '.' || !IsDigits(body[..n - 3]) || !IsDigits(body[n - 2..]) then None
    else Some(DecimalValue(body[..n - 3]) * 100 + DecimalValue(body[n - 2..]))
  }

  /** Reads "$", an optional "-" and a magnitude back into cents. */
  function ParseRevenue(s: string): Option<int> {
    if |s| < 2 || s[0] != '$' then None
    else if s[1] == '-' then
      match ParseMagnitude(s[2..])
      case None => None
      case Some(mag) => Some(-(mag as int))
    else
      match ParseMagnitude(s[1..])
      case None => None
      case Some(mag) => Some(mag)
  }

  /** Where the pieces of `whole + "." + frac` sit. */
  lemma FixedPieces(whole: string, frac: string)
    requires |frac| == 2
    ensures var body := whole + "." + frac;
      |body| == |whole| + 3 && body[|body| - 3] == '.'
      && body[..|body| - 3] == whole && body[|body| - 2..] == frac
  {
    var body := whole + "." + frac;
    assert body[..|whole|] == whole;
    assert body[|whole| + 1..] == frac;
  }

  lemma ParseMagnitudeFixed(whole: string, frac: string)
    requires |whole| >= 1 && IsDigits(whole) && |frac| == 2 && IsDigits(frac)
    ensures ParseMagnitude(whole + "." + frac) == Some(DecimalValue(whole) * 100 + DecimalValue(frac))
  {
    FixedPieces(whole, frac);
  }

  lemma TwoDigitsValue(d: nat)
    requires d < 100
    ensures IsDigits([DigitChar(d / 10), DigitChar(d % 10)])
    ensures DecimalValue([DigitChar(d / 10), DigitChar(d % 10)]) == d
  {
    var frac := [DigitChar(d / 10), DigitChar(d % 10)];
    assert frac[..1] == [DigitChar(d / 10)];
    assert [DigitChar(d / 10)][..0] == [];
    assert DecimalValue([DigitChar(d / 10)]) == d / 10;
    assert DecimalValue(frac) == DecimalValue(frac[..1]) * 10 + d % 10;
  }

  /** The text after "$" and the sign reads back as the magnitude. */
  lemma MagnitudeText(m: nat)
    ensures ParseMagnitude(FixedMagnitude(m)) == Some(m)
  {
    DecimalRoundTrip(m / 100);
    TwoDigitsValue(m % 100);
    ParseMagnitudeFixed(Decimal(m / 100), [DigitChar(m % 100 / 10), DigitChar(m % 100 % 10)]);
  }

  lemma NegativeText(m: nat)
    requires m > 0
    ensures ParseRevenue("$" + ("-" + FixedMagnitude(m))) == Some(-(m as int))
  {
    var body := FixedMagnitude(m);
    var t := "$" + ("-" + body);
    MagnitudeText(m);
    assert t[0] == '$' && t[1] == '-';
    assert t[2..] == body;
  }

  lemma NonNegativeText(m: nat)
    ensures ParseRevenue("$" + FixedMagnitude(m)) == Some(m)
  {
    var body := FixedMagnitude(m);
    var t := "$" + body;
    MagnitudeText(m);
    assert t[0] == '$' && t[1] == body[0];
    assert t[1..] == body;
  }

  /** "NaN" is too short to be an amount. */
  lemma NaNText()
    ensures ParseRevenue("$NaN") == None
  {
    var s := "$NaN";
    assert s[1] == 'N' && s[1..] == "NaN";
  }

  lemma NegativeRoundTrip(c: int)
    requires c < 0
    ensures ParseRevenue(RevenueText(Finite(c))) == Some(c)
  {
    var m: nat := -c;
    NegativeText(m);
    assert ToFixed2(c) == "-" + FixedMagnitude(m);
    assert RevenueText(Finite(c)) == "$" + ToFixed2(c);
  }

  lemma NonNegativeRoundTrip(c: int)
    requires c >= 0
    ensures ParseRevenue(RevenueText(Finite(c))) == Some(c)
  {
    NonNegativeText(c);
    assert RevenueText(Finite(c)) == "$" + FixedMagnitude(c);
  }

  /** The revenue string gives back the exact revenue, and a NaN revenue
      gives a string that reads as no amount at all. */
  lemma RevenueTextRoundTrip(revenue: Num)
    ensures ParseRevenue(RevenueText(revenue)) == if revenue.NaN? then None else Some(revenue.v)
  {
    match revenue
    case NaN =>
      NaNText();
    case Finite(c) =>
      if c < 0 {
        NegativeRoundTrip(c);
      } else {
        NonNegativeRoundTrip(c);
      }
  }
}
