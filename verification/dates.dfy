/** The two Carbon date formats the client uses. Only the calendar date of a
    Carbon instance is read by either format; the time of day in both is the
    literal text "+00:00:00". */
module Dates {
  import opened Wrappers
  import opened Text

  /** The calendar date of a Carbon instance, in that instance's own time zone. */
  datatype Date = Date(year: nat, month: nat, day: nat)

  /** A range-checked date: a year of at most four digits, a month 1-12 and a
      day 1-31. It is not a calendar check (31 February passes), only what the
      fixed-width formats need to read back. */
  predicate InFormatRange(d: Date) {
    d.year <= 9999 && 1 <= d.month <= 12 && 1 <= d.day <= 31
  }

  const Midnight: string := "+00:00:00"

  /** Carbon's `format('Y - m - d\+00:00:00')`, used for filters. */
  function FilterFormat(d: Date): string {
    PadNat(d.year, 4) + " - " + PadNat(d.month, 2) + " - " + PadNat(d.day, 2) + Midnight
  }

  /** Carbon's `format('Y-m-d\+00:00:00')`, used for query arguments. */
  function QueryFormat(d: Date): string {
    PadNat(d.year, 4) + "-" + PadNat(d.month, 2) + "-" + PadNat(d.day, 2) + Midnight
  }

  /** Reads back a date written by `FilterFormat`. */
  function ParseFilterFormat(s: string): Option<Date> {
    if |s| == 23 && AllDigits(s[..4]) && s[4..7] == " - " && AllDigits(s[7..9])
       && s[9..12] == " - " && AllDigits(s[12..14]) && s[14..] == Midnight
    then Some(Date(ParseNat(s[..4]), ParseNat(s[7..9]), ParseNat(s[12..14])))
    else None
  }

  lemma FixedWidths(d: Date)
    requires InFormatRange(d)
    ensures |PadNat(d.year, 4)| == 4 && |PadNat(d.month, 2)| == 2 && |PadNat(d.day, 2)| == 2
  {
    NatToStringLength(d.year, 4);
    NatToStringLength(d.month, 2);
    NatToStringLength(d.day, 2);
  }

  /** A filter-formatted date of a valid date is 23 characters long and reads back to the date. */
  lemma ParseFilterFormatOfFilterFormat(d: Date)
    requires InFormatRange(d)
    ensures |FilterFormat(d)| == 23
    ensures ParseFilterFormat(FilterFormat(d)) == Some(d)
  {
    FixedWidths(d);
    var y, m, dd := PadNat(d.year, 4), PadNat(d.month, 2), PadNat(d.day, 2);
    var s := FilterFormat(d);
    assert s == y + " - " + m + " - " + dd + Midnight;
    assert s[..4] == y;
    assert s[4..7] == " - ";
    assert s[7..9] == m;
    assert s[9..12] == " - ";
    assert s[12..14] == dd;
    assert s[14..] == Midnight;
  }

  /** The two formats never produce the same text: only the filter format has spaces. */
  lemma FormatsDiffer(d: Date, e: Date)
    ensures ' ' in FilterFormat(d)
    ensures ' ' !in QueryFormat(e)
    ensures FilterFormat(d) != QueryFormat(e)
  {
    var y := PadNat(d.year, 4);
    assert FilterFormat(d)[|y|] == ' ';
    var q := QueryFormat(e);
    forall i | 0 <= i < |q|
      ensures q[i] != ' '
    {
    }
  }
}
