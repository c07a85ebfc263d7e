/** One apprenticeship posting as the dataset delivers it, and the string form
    of its ZIP code that the canton filter looks up. */
module Postings {
  import opened JsCore

  /** `locationZipCode` is a JSON number or a JSON string; the filter coerces
      it with `String(...)`. */
  datatype ZipCode = ZipNumber(n: nat) | ZipText(text: string)

  /** One entry of `apprenticeshipPlaceSchoolYears`. */
  datatype SchoolYear = SchoolYear(year: Option<int>, email: Option<string>, url: Option<string>)

  datatype Posting = Posting(
    professionNameDeMf: string,
    locationName: string,
    locationStreet: string,
    locationHouseNumber: string,
    locationZipCode: ZipCode,
    locationLocalityNameDe: string,
    apprenticeshipPlaceSchoolYears: Option<seq<SchoolYear>>,
    applicationPersonFirstname: Option<string>,
    applicationPersonLastname: Option<string>,
    locationContactPersonFirstname: Option<string>,
    locationContactPersonLastname: Option<string>,
    applicationEmail: Option<string>,
    locationEmail: Option<string>,
    applicationBusinessPhone: Option<string>,
    locationBusinessPhone: Option<string>,
    applicationUrl: Option<string>,
    locationUrl: Option<string>
  )

  function DigitChar(d: nat): char
    requires d < 10
  {
    ('0' as int + d) as char
  }

  function DigitValue(c: char): nat
    requires IsDigit(c)
  {
    c as int - '0' as int
  }

  /** `String(n)` for a non-negative integer: its decimal digits, without
      leading zeros. */
  function Decimal(n: nat): (s: string)
    ensures |s| >= 1
    ensures forall i :: 0 <= i < |s| ==> IsDigit(s[i])
    ensures |s| > 1 <==> n >= 10
    decreases n
  {
    if n < 10 then [DigitChar(n)] else Decimal(n / 10) + [DigitChar(n % 10)]
  }

  /** The number a string of decimal digits denotes. */
  function DecimalValue(s: string): nat
    requires forall i :: 0 <= i < |s| ==> IsDigit(s[i])
  {
    if s == [] then 0 else DecimalValue(s[..|s| - 1]) * 10 + DigitValue(s[|s| - 1])
  }

  /** Reading back the decimal form of a number gives the number. */
  lemma {:induction false} DecimalRoundTrip(n: nat)
    ensures DecimalValue(Decimal(n)) == n
    decreases n
  {
    var s := Decimal(n);
    if n >= 10 {
      DecimalRoundTrip(n / 10);
      assert s[..|s| - 1] == Decimal(n / 10);
    }
  }

  /** Distinct numeric ZIP codes have distinct string forms. */
  lemma DecimalInjective(a: nat, b: nat)
    ensures Decimal(a) == Decimal(b) ==> a == b
  {
    DecimalRoundTrip(a);
    DecimalRoundTrip(b);
  }

  /** `String(item.locationZipCode)`. */
  function ZipString(z: ZipCode): string
  {
    match z
    case ZipNumber(n) => Decimal(n)
    case ZipText(text) => text
  }
}
