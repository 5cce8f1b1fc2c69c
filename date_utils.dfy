// `formatDateDisplay` of the NovaManager front end: the naive ISO date or
// date-time the back end sends, shown as day/month/year without going
// through a `Date` object.
module DateUtils {
  import opened Prelude
  import opened JsText

  /** `s.split('T')[0]`: the text before the first `T`. */
  function DatePart(s: string): (r: string)
    ensures 'T' !in r
  {
    SplitShape(s, 'T');
    Split(s, 'T')[0]
  }

  /**
   * `formatDateDisplay(dateStr)`: "-" for a missing or empty value; the
   * input itself when the date part does not have three non-empty
   * dash-separated fields; otherwise "DD/MM/YYYY" from the first three.
   * The dash placeholder comes out only for a missing or empty value, or
   * for the text "-" itself.
   */
  function FormatDateDisplay(dateStr: Option<string>): (r: string)
    ensures r == "-" <==> dateStr.None? || dateStr.value == "" || dateStr.value == "-"
  {
    if dateStr.None? || dateStr.value == "" then "-"
    else
      var s := dateStr.value;
      var parts := Split(DatePart(s), '-');
      if |parts| < 3 || parts[0] == "" || parts[1] == "" || parts[2] == "" then s
      else parts[2] + "/" + parts[1] + "/" + parts[0]
  }

  /** A date field: non-empty, with neither a dash nor a `T`. */
  predicate Field(f: string)
  {
    f != "" && '-' !in f && 'T' !in f
  }

  /** Whatever follows the date: nothing, or a time introduced by `T`. */
  predicate TimeSuffix(rest: string)
  {
    rest == "" || rest[0] == 'T'
  }

  /** The time part is cut off at the first `T`. */
  lemma DropsTime(date: string, rest: string)
    requires 'T' !in date && TimeSuffix(rest)
    ensures DatePart(date + rest) == date
  {
    if rest == "" {
      assert date + rest == date;
      SplitNoSeparator(date, 'T');
    } else {
      assert date + rest == date + ['T'] + rest[1..];
      SplitAtSeparator(date, rest[1..], 'T');
    }
  }

  /** "YYYY-MM-DD", with or without a time, becomes "DD/MM/YYYY". */
  lemma FormatsIsoDate(y: string, m: string, d: string, rest: string)
    requires Field(y) && Field(m) && Field(d) && TimeSuffix(rest)
    ensures FormatDateDisplay(Some(y + "-" + m + "-" + d + rest)) == d + "/" + m + "/" + y
  {
    var date := y + "-" + m + "-" + d;
    assert date == Join([y, m, d], '-') by {
      assert [y, m, d][1..] == [m, d];
      assert [m, d][1..] == [d];
      assert Join([d], '-') == d;
      assert Join([m, d], '-') == m + "-" + d;
      assert Join([y, m, d], '-') == y + "-" + (m + "-" + d);
    }
    assert 'T' !in date;
    DropsTime(date, rest);
    SplitJoin([y, m, d], '-');
    assert date + rest != "";
  }

  /** A formatted date holds neither a dash nor a `T`. */
  lemma FormattedHasNoSeparators(dateStr: Option<string>)
    requires dateStr.Some? && dateStr.value != ""
    requires var parts := Split(DatePart(dateStr.value), '-');
      |parts| >= 3 && parts[0] != "" && parts[1] != "" && parts[2] != ""
    ensures var r := FormatDateDisplay(dateStr); '-' !in r && 'T' !in r
  {
    var dp := DatePart(dateStr.value);
    var parts := Split(dp, '-');
    var r := FormatDateDisplay(dateStr);
    assert r == parts[2] + "/" + parts[1] + "/" + parts[0];
    forall x | x in r
      ensures x != '-' && x != 'T'
    {
      if x != '/' {
        var i :| 0 <= i < 3 && x in parts[i];
        SplitPartsFrom(dp, '-', i, x);
      }
    }
  }

  /** Formatting an already formatted value changes nothing, whatever the input. */
  lemma FormatIdempotent(dateStr: Option<string>)
    ensures FormatDateDisplay(Some(FormatDateDisplay(dateStr))) == FormatDateDisplay(dateStr)
  {
    var r := FormatDateDisplay(dateStr);
    if dateStr.None? || dateStr.value == "" {
      assert r == "-";
      SplitNoSeparator("-", 'T');
      assert Split("-", '-') == ["", ""] by {
        assert "-"[1..] == "";
      }
    } else {
      var parts := Split(DatePart(dateStr.value), '-');
      if !(|parts| < 3 || parts[0] == "" || parts[1] == "" || parts[2] == "") {
        FormattedHasNoSeparators(dateStr);
        SplitNoSeparator(r, 'T');
        SplitNoSeparator(r, '-');
      }
    }
  }
}
