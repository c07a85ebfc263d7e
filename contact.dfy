/** The contact details of the overlay in src/js/components/Modal.js: which
    name, e-mail address, phone number and web address are shown, and how a
    phone number is normalised to a Swiss `+41` number. */
module Contact {
  import opened JsCore
  import opened Sequences
  import opened Postings

  /** The first candidate that is truthy, or None when there is none: the
      value a chain `a || b || ...` shows. */
  function Preferred(candidates: seq<Option<string>>): (r: Option<string>)
    ensures r.None? <==> forall i :: 0 <= i < |candidates| ==> !Truthy(candidates[i])
    ensures r.Some? ==> exists i :: 0 <= i < |candidates| && candidates[i] == r && Truthy(r)
                                   && forall j :: 0 <= j < i ==> !Truthy(candidates[j])
  {
    if candidates == [] then None
    else if Truthy(candidates[0]) then candidates[0]
    else
      var r := Preferred(candidates[1..]);
      assert forall i :: 1 <= i < |candidates| ==> candidates[i] == candidates[1..][i - 1];
      r
  }

  /** A chain of three `||` shows what `Preferred` picks. */
  lemma PreferredOfThree(a: Option<string>, b: Option<string>, c: Option<string>)
    ensures Preferred([a, b, c]) == Shown(OrElse(OrElse(a, b), c))
  {
    assert Preferred([c]) == Shown(c) by {
      assert [c][1..] == [];
    }
    assert Preferred([b, c]) == if Truthy(b) then b else Shown(c) by {
      assert [b, c][1..] == [c];
    }
    assert [a, b, c][1..] == [b, c];
  }

  /** What is shown for a chained value: the value when it is truthy,
      otherwise nothing. */
  function Shown(o: Option<string>): Option<string>
  {
    if Truthy(o) then o else None
  }

  /** `item.apprenticeshipPlaceSchoolYears?.[0]`: the first entry, if the
      list is present and not empty. */
  function FirstSchoolYear(item: Posting): Option<SchoolYear>
  {
    match item.apprenticeshipPlaceSchoolYears
    case None => None
    case Some(years) => if |years| == 0 then None else Some(years[0])
  }

  /** `item.apprenticeshipPlaceSchoolYears?.[0]?.email`. */
  function SchoolYearEmail(item: Posting): Option<string>
  {
    match FirstSchoolYear(item)
    case None => None
    case Some(year) => year.email
  }

  /** `item.apprenticeshipPlaceSchoolYears?.[0]?.url`. */
  function SchoolYearUrl(item: Posting): Option<string>
  {
    match FirstSchoolYear(item)
    case None => None
    case Some(year) => year.url
  }

  /** `renderContactName`: first and last name are each taken from the
      application person, else from the location's contact person; the name
      shown is "first last" when both exist, else whichever exists. */
  function ContactName(item: Posting): (name: Option<string>)
    ensures var first := Preferred([item.applicationPersonFirstname, item.locationContactPersonFirstname]);
            var last := Preferred([item.applicationPersonLastname, item.locationContactPersonLastname]);
            name == if first.Some? && last.Some? then Some(first.value + " " + last.value)
                    else if first.Some? then first
                    else last
  {
    var contactFirstName := OrElse(item.applicationPersonFirstname, item.locationContactPersonFirstname);
    var contactLastName := OrElse(item.applicationPersonLastname, item.locationContactPersonLastname);
    var contactName :=
      if Truthy(contactFirstName) && Truthy(contactLastName)
      then Some(contactFirstName.value + " " + contactLastName.value)
      else OrElse(contactFirstName, contactLastName);
    Shown(contactName)
  }

  /** `renderEmail`: the first school year's address, else the application
      address, else the location address, else nothing. */
  function Email(item: Posting): (email: Option<string>)
    ensures email == Preferred([SchoolYearEmail(item), item.applicationEmail, item.locationEmail])
  {
    PreferredOfThree(SchoolYearEmail(item), item.applicationEmail, item.locationEmail);
    Shown(OrElse(OrElse(SchoolYearEmail(item), item.applicationEmail), item.locationEmail))
  }

  /** The phone number `renderPhone` formats: the application phone, else
      the location phone, else none (and then no phone line is shown). */
  function PhoneToFormat(item: Posting): (phone: Option<string>)
    ensures phone == Preferred([item.applicationBusinessPhone, item.locationBusinessPhone])
  {
    Shown(OrElse(item.applicationBusinessPhone, item.locationBusinessPhone))
  }

  /** The link `renderURL` shows: its target and its text, the location name. */
  datatype UrlLink = UrlLink(href: string, text: string)

  /** `renderURL`: the first school year's URL, else the application URL,
      else the location URL, else nothing. */
  function Url(item: Posting): (link: Option<UrlLink>)
    ensures var url := Preferred([SchoolYearUrl(item), item.applicationUrl, item.locationUrl]);
            link == if url.Some? then Some(UrlLink(url.value, item.locationName)) else None
  {
    var url := OrElse(OrElse(SchoolYearUrl(item), item.applicationUrl), item.locationUrl);
    PreferredOfThree(SchoolYearUrl(item), item.applicationUrl, item.locationUrl);
    if Truthy(url) then Some(UrlLink(url.value, item.locationName)) else None
  }

  // ---------------------------------------------------------------------
  // Phone numbers

  /** The `tel:` target and the text of a phone link. */
  datatype PhoneLink = PhoneLink(href: string, formatted: string)

  /** `s.replace(/\D/g, '')`: the decimal digits of `s`, in order. */
  function DigitsOnly(s: string): string
  {
    Filter(s, IsDigit)
  }

  /** The digits after one leading `0041`, else one leading `41`, else one
      leading `0`. */
  function NationalDigits(digits: string): string
  {
    if "0041" <= digits then digits[4..]
    else if "41" <= digits then digits[2..]
    else if "0" <= digits then digits[1..]
    else digits
  }

  /** The replacement of the first nine digits by `+41 $1 $2 $3 $4`: nine or
      more digits are grouped 2-3-2-2 after `+41 `, with any further digits
      following; fewer are left as they are. */
  function Grouped(national: string): string
  {
    if |national| >= 9 then
      "+41 " + national[..2] + " " + national[2..5] + " " + national[5..7] + " " + national[7..9] + national[9..]
    else national
  }

  /** The link that `formatPhoneNumber` builds for a phone number. */
  function PhoneLinkOf(phoneNumber: string): PhoneLink
  {
    var national := NationalDigits(DigitsOnly(phoneNumber));
    PhoneLink("+41" + national, Grouped(national))
  }

  /** `formatPhoneNumber`: keep the digits, drop exactly one Swiss prefix
      (`0041`, else `41`, else `0`), dial `+41` and the rest, and show the rest
      grouped 2-3-2-2 when it has at least nine digits. */
  method FormatPhoneNumber(phoneNumber: string) returns (link: PhoneLink)
    ensures link == PhoneLinkOf(phoneNumber)
  {
    var digits := DigitsOnly(phoneNumber);
    if "0041" <= digits {
      digits := digits[4..];
    } else if "41" <= digits {
      digits := digits[2..];
    } else if "0" <= digits {
      digits := digits[1..];
    }
    var formatted := digits;
    if |digits| >= 9 {
      formatted := "+41 " + digits[..2] + " " + digits[2..5] + " " + digits[5..7] + " " + digits[7..9] + digits[9..];
    }
    link := PhoneLink("+41" + digits, formatted);
  }

  /** The national digits are the input's digits with the first matching
      prefix among `0041`, `41` and `0` dropped (none when none matches). */
  lemma NationalDigitsDropPrefix(d: string)
    ensures var dropped := if "0041" <= d then "0041" else if "41" <= d then "41" else if "0" <= d then "0" else "";
            d == dropped + NationalDigits(d)
  {
    if "0041" <= d {
      assert d == d[..4] + d[4..];
    } else if "41" <= d {
      assert d == d[..2] + d[2..];
    } else if "0" <= d {
      assert d == d[..1] + d[1..];
    }
  }

  /** The dialled number is `+41` followed by digits only, and those digits
      are the input's digits less at most one prefix `0041`, `41` or `0`. */
  lemma PhoneHref(phoneNumber: string)
    ensures var href := PhoneLinkOf(phoneNumber).href;
            |href| >= 3 && href[..3] == "+41"
            && forall i :: 3 <= i < |href| ==> IsDigit(href[i])
    ensures var d := DigitsOnly(phoneNumber);
            var national := PhoneLinkOf(phoneNumber).href[3..];
            d == national || d == "0" + national || d == "41" + national || d == "0041" + national
  {
    var d := DigitsOnly(phoneNumber);
    var national := NationalDigits(d);
    assert PhoneLinkOf(phoneNumber).href[3..] == national;
    NationalDigitsDropPrefix(d);
  }

  /** The shown text has the dialled digits after a `41` when there are at
      least nine national digits, and is the national digits alone otherwise. */
  lemma PhoneFormatted(phoneNumber: string)
    ensures var national := PhoneLinkOf(phoneNumber).href[3..];
            var formatted := PhoneLinkOf(phoneNumber).formatted;
            && (|national| >= 9 ==> DigitsOnly(formatted) == "41" + national)
            && (|national| < 9 ==> formatted == national)
  {
    var national := NationalDigits(DigitsOnly(phoneNumber));
    assert PhoneLinkOf(phoneNumber).href[3..] == national;
    if |national| >= 9 {
      GroupedDigits(national);
    }
  }

  /** `renderPhone`: the chosen phone number, formatted; nothing when the
      item has no phone number. */
  method RenderPhone(item: Posting) returns (link: Option<PhoneLink>)
    ensures link.None? <==> forall i :: 0 <= i < 2 ==> !Truthy([item.applicationBusinessPhone, item.locationBusinessPhone][i])
    ensures link.Some? ==> link.value == PhoneLinkOf(PhoneToFormat(item).value)
  {
    var phone := PhoneToFormat(item);
    if phone.Some? {
      var phoneData := FormatPhoneNumber(phone.value);
      link := Some(phoneData);
    } else {
      link := None;
    }
  }

  lemma DigitsOnlyOfDigits(s: string)
    requires forall i :: 0 <= i < |s| ==> IsDigit(s[i])
    ensures DigitsOnly(s) == s
  {
    FilterKeepsAll(s, IsDigit);
  }

  /** Appending a run of digits appends it to the digits. */
  lemma AppendRun(acc: string, piece: string)
    requires forall i :: 0 <= i < |piece| ==> IsDigit(piece[i])
    ensures DigitsOnly(acc + piece) == DigitsOnly(acc) + piece
  {
    FilterKeepsAll(piece, IsDigit);
    FilterConcat(acc, piece, IsDigit);
  }

  /** Appending a space and a run of digits appends just that run to the
      digits. */
  lemma AppendGroup(acc: string, piece: string)
    requires forall i :: 0 <= i < |piece| ==> IsDigit(piece[i])
    ensures DigitsOnly(acc + " " + piece) == DigitsOnly(acc) + piece
  {
    var head := acc + " ";
    FilterRejectsAll(" ", IsDigit);
    FilterConcat(acc, " ", IsDigit);
    assert Filter(head, IsDigit) == Filter(acc, IsDigit);
    AppendRun(head, piece);
  }

  /** The country code in front of the first group adds `41` to the digits. */
  lemma CountryCodeDigits(first: string)
    requires forall i :: 0 <= i < |first| ==> IsDigit(first[i])
    ensures DigitsOnly("+41 " + first) == "41" + first
  {
    assert DigitsOnly("+") == "" by { FilterRejectsAll("+", IsDigit); }
    AppendRun("+", "41");
    AppendGroup("+41", first);
    assert "+41" + " " + first == "+41 " + first;
  }

  /** The five groups of a number of at least nine digits put back together. */
  lemma RejoinGroups(n: string)
    requires |n| >= 9
    ensures "41" + n[..2] + n[2..5] + n[5..7] + n[7..9] + n[9..] == "41" + n
  {
    assert "41" + n[..2] + n[2..5] == "41" + n[..5] by { assert n[..2] + n[2..5] == n[..5]; }
    assert "41" + n[..5] + n[5..7] == "41" + n[..7] by { assert n[..5] + n[5..7] == n[..7]; }
    assert "41" + n[..7] + n[7..9] == "41" + n[..9] by { assert n[..7] + n[7..9] == n[..9]; }
    assert n[..9] + n[9..] == n;
  }

  /** The digits of a grouped number are `41` followed by the national
      digits: grouping only inserts the country code and spaces. */
  lemma GroupedDigits(national: string)
    requires |national| >= 9
    requires forall i :: 0 <= i < |national| ==> IsDigit(national[i])
    ensures DigitsOnly(Grouped(national)) == "41" + national
  {
    var n := national;
    var g0 := "+41 " + n[..2];
    CountryCodeDigits(n[..2]);
    var g1 := g0 + " " + n[2..5];
    AppendGroup(g0, n[2..5]);
    var g2 := g1 + " " + n[5..7];
    AppendGroup(g1, n[5..7]);
    var g3 := g2 + " " + n[7..9];
    AppendGroup(g2, n[7..9]);
    var g4 := g3 + n[9..];
    AppendRun(g3, n[9..]);
    assert g4 == Grouped(n);
    assert DigitsOnly(g4) == "41" + n[..2] + n[2..5] + n[5..7] + n[7..9] + n[9..];
    RejoinGroups(n);
  }

  /** Formatting the shown text of a grouped number again dials the same
      number and shows the same text: the display form is a fixed point. */
  lemma {:induction false} FormattedNumberIsFixpoint(phoneNumber: string)
    requires |NationalDigits(DigitsOnly(phoneNumber))| >= 9
    ensures PhoneLinkOf(PhoneLinkOf(phoneNumber).formatted) == PhoneLinkOf(phoneNumber)
  {
    var d := DigitsOnly(phoneNumber);
    var national := NationalDigits(d);
    assert forall i :: 0 <= i < |national| ==> IsDigit(national[i]);
    GroupedDigits(national);
    var again := "41" + national;
    assert again[0] == '4';
    assert !("0041" <= again);
    assert "41" <= again;
    assert again[2..] == national;
  }
}
