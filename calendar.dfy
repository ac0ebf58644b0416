/**
 * Calendar days and Go's `day.Format("2006-01-02")`, the spelling used for the
 * provider's `dia` form field and for every cache key.
 */
module Calendar {
  import opened Text

  type Year = y: int | 0 <= y <= 9999
  type Month = m: int | 1 <= m <= 12 witness 1
  type DayOfMonth = d: int | 1 <= d <= 31 witness 1

  datatype Date = Date(year: Year, month: Month, day: DayOfMonth)

  /** `YYYY-MM-DD`, zero-padded. */
  function Format(d: Date): (r: string)
    ensures |r| == 10 && r[4] == '-' && r[7] == '-'
  {
    PadDecimalValue(d.year, 4);
    PadDecimalValue(d.month, 2);
    PadDecimalValue(d.day, 2);
    PadDecimal(d.year, 4) + "-" + PadDecimal(d.month, 2) + "-" + PadDecimal(d.day, 2)
  }

  /** Different days never share a spelling, so keys built from them never collide. */
  lemma FormatInjective(a: Date, b: Date)
    requires Format(a) == Format(b)
    ensures a == b
  {
    FieldsOf(a);
    FieldsOf(b);
  }

  /** The three digit groups of `Format(d)` read back as the year, the month and the day. */
  lemma FieldsOf(d: Date)
    ensures AllDigits(Format(d)[..4]) && Value(Format(d)[..4]) == d.year
    ensures AllDigits(Format(d)[5..7]) && Value(Format(d)[5..7]) == d.month
    ensures AllDigits(Format(d)[8..]) && Value(Format(d)[8..]) == d.day
  {
    PadDecimalValue(d.year, 4);
    PadDecimalValue(d.month, 2);
    PadDecimalValue(d.day, 2);
    var y, m, dd := PadDecimal(d.year, 4), PadDecimal(d.month, 2), PadDecimal(d.day, 2);
    var f := y + "-" + m + "-" + dd;
    assert Format(d) == f;
    assert f[..4] == y;
    assert f[5..7] == m;
    assert f[8..] == dd;
  }
}
