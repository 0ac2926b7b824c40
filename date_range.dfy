/** The browser's default reporting window (frontend/src/hooks/useDateRange.ts):
    from the first of the current month to today, as `YYYY-MM-DD` strings.
    The clock is read by the caller, which passes the local year, the
    0-based month and the day of the month. */
module DateRange {
  import opened Text
  import Calendar

  datatype DateRange = DateRange(since: string, until: string)

  function GetDefaultDateRange(year: nat, month0: nat, day: nat): (r: DateRange)
    requires month0 < 12 && 1 <= day <= 31
  {
    var prefix := Dec(year) + "-" + Pad2(Dec(month0 + 1)) + "-";
    DateRange(prefix + "01", prefix + Pad2(Dec(day)))
  }

  /** `since` renders the first of the month and `until` renders today,
      exactly as the back end's `%Y-%m-%d` does. */
  lemma DefaultRangeDates(year: nat, month0: nat, day: nat)
    requires month0 < 12 && 1 <= day <= 31
    ensures GetDefaultDateRange(year, month0, day).since == Calendar.Iso(Calendar.Date(year, month0 + 1, 1))
    ensures GetDefaultDateRange(year, month0, day).until == Calendar.Iso(Calendar.Date(year, month0 + 1, day))
  {
    assert Pad2(Dec(1)) == "01";
  }

  /** For four-digit years both strings are ten characters, they share the
      `YYYY-MM-` prefix, and `since` never sorts after `until`. */
  lemma DefaultRangeShape(year: nat, month0: nat, day: nat)
    requires month0 < 12 && 1 <= day <= 31 && 1000 <= year <= 9999
    ensures var r := GetDefaultDateRange(year, month0, day);
      && |r.since| == 10 && |r.until| == 10
      && r.since[..8] == r.until[..8]
      && r.since[8..] == "01" && r.until[8..] == Pad2(Dec(day))
      && OrdinalLessEq(r.since, r.until)
  {
    Calendar.Dec4(year);
    Calendar.Pad2Dec(month0 + 1);
    Calendar.Pad2Dec(day);
    var prefix := Dec(year) + "-" + Pad2(Dec(month0 + 1)) + "-";
    var dd := Pad2(Dec(day));
    assert |prefix| == 8;
    assert (prefix + "01")[..8] == prefix && (prefix + dd)[..8] == prefix;
    assert (prefix + "01")[8..] == "01" && (prefix + dd)[8..] == dd;
    FirstDayFirst(day);
    OrdinalPrefix(prefix, "01", dd);
  }

  /** The first of the month sorts no later than any other day. */
  lemma FirstDayFirst(day: nat)
    requires 1 <= day <= 31
    ensures OrdinalLessEq("01", Pad2(Dec(day)))
  {
    Calendar.Pad2Dec(day);
    var dd := Pad2(Dec(day));
    if day < 10 {
      assert dd == ['0', Digit(day)];
      assert ("01")[1..] == "1" && dd[1..] == [Digit(day)];
      if day > 1 {
        assert "1"[1..] == [] && [Digit(day)][1..] == [];
        assert OrdinalLess("1", [Digit(day)]);
      }
    } else {
      assert dd == [Digit(day / 10), Digit(day % 10)];
    }
  }
}
