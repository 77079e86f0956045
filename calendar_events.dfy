/**
 * The content-calendar event routes (backend/app/api/v1/calendar.py) once
 * the database is given: the date range a `month` filter selects, the fields
 * an update writes, and the outcome of a delete.
 */
module CalendarEvents {

  import opened Wrappers
  import opened Text

  /** Months counted from year 0: January of `year` is `12 * year`. */
  function MonthIndex(year: nat, mo: nat): int {
    12 * year + mo - 1
  }

  /**
   * The rollover in `list_events`: the month number goes up by one, and past
   * 12 it becomes 1 of the following year. The month is not checked, so 0
   * leads to January and anything above 11 to January of the next year.
   */
  function NextMonth(year: nat, mo: nat): (r: (nat, nat))
    ensures 1 <= r.1 <= 12
    ensures r.0 == year || r.0 == year + 1
  {
    if mo + 1 > 12 then (year + 1, 1) else (year, mo + 1)
  }

  /** For a real month, the rollover is the calendar's next month. */
  lemma NextMonthIsNext(year: nat, mo: nat)
    requires 1 <= mo <= 12
    ensures MonthIndex(NextMonth(year, mo).0, NextMonth(year, mo).1) == MonthIndex(year, mo) + 1
    ensures mo < 12 ==> NextMonth(year, mo) == (year, mo + 1)
    ensures mo == 12 ==> NextMonth(year, mo) == (year + 1, 1)
  {
  }

  /** What a `month` query parameter does to the listing query. */
  datatype MonthFilter =
    | NoMonth                              // no parameter (or an empty one): no date filter
    | BadMonth                             // not "<year>-<month>" with numeric parts: the request fails
    | MonthRange(start: string, end: string)  // `start <= scheduled_at < end`

  /**
   * The month filter of `list_events`: split "YYYY-MM" at "-", roll the month
   * over, and select from the first of the month up to, not including, the
   * first of the next month. `month` is "" when the parameter is absent.
   */
  function ListEventsRange(month: string): (r: MonthFilter)
    ensures r.NoMonth? <==> month == ""
    ensures r.MonthRange? ==> r.start == month + "-01"
  {
    if month == "" then NoMonth
    else
      var parts := Split(month, '-');
      if |parts| != 2 then BadMonth
      else
        match (ParseNat(parts[0]), ParseNat(parts[1]))
        case (Some(year), Some(mo)) =>
          var next := NextMonth(year, mo);
          MonthRange(month + "-01", NatToString(next.0) + "-" + PadTwo(next.1) + "-01")
        case _ => BadMonth
  }

  /** Splitting text without the separator gives the text back as the only word. */
  lemma {:induction false} SplitNoSeparator(s: string, sep: char)
    requires sep !in s
    ensures Split(s, sep) == [s]
  {
    if s != [] {
      assert sep !in s[1..] by {
        assert forall c :: c in s[1..] ==> c in s;
      }
      SplitNoSeparator(s[1..], sep);
      assert [s[0]] + s[1..] == s;
    }
  }

  /** A separator after a word without one splits off that word. */
  lemma {:induction false} SplitAtFirst(a: string, b: string, sep: char)
    requires sep !in a
    ensures Split(a + [sep] + b, sep) == [a] + Split(b, sep)
  {
    if a == [] {
      assert a + [sep] + b == [sep] + b;
    } else {
      assert sep !in a[1..] by {
        assert forall c :: c in a[1..] ==> c in a;
      }
      SplitAtFirst(a[1..], b, sep);
      var whole := a + [sep] + b;
      assert whole[0] == a[0] && whole[1..] == a[1..] + [sep] + b;
      var rest := Split(whole[1..], sep);
      assert rest == [a[1..]] + Split(b, sep);
      assert Split(whole, sep) == [[a[0]] + rest[0]] + rest[1..];
      assert [a[0]] + a[1..] == a;
    }
  }

  lemma DigitsHaveNoDash(s: string)
    requires AllDigits(s)
    ensures '-' !in s
  {
  }

  /**
   * For a month written as `str(year) + "-" + f"{mo:02d}"`, the filter runs
   * from its first day to the first day of the next month: the same year
   * with the month one higher and zero-padded, or January of the next year
   * after December.
   */
  lemma {:induction false} ListEventsRangeCanonical(year: nat, mo: nat)
    requires 1 <= mo <= 12
    ensures var month := NatToString(year) + "-" + PadTwo(mo);
            && (mo < 12 ==> ListEventsRange(month) == MonthRange(month + "-01", NatToString(year) + "-" + PadTwo(mo + 1) + "-01"))
            && (mo == 12 ==> ListEventsRange(month) == MonthRange(month + "-01", NatToString(year + 1) + "-01-01"))
  {
    var y, m := NatToString(year), PadTwo(mo);
    SplitMonth(y, m);
    NatToStringRoundTrip(year);
    ListEventsRangeParsed(y, m, year, mo);
    if mo == 12 {
      assert PadTwo(1) == "01";
    }
  }

  /** A month that splits into two numerals selects up to the first day of the rolled-over month. */
  lemma ListEventsRangeParsed(y: string, m: string, year: nat, mo: nat)
    requires Split(y + "-" + m, '-') == [y, m]
    requires ParseNat(y) == Some(year) && ParseNat(m) == Some(mo)
    ensures var next := NextMonth(year, mo);
            ListEventsRange(y + "-" + m) == MonthRange(y + "-" + m + "-01", NatToString(next.0) + "-" + PadTwo(next.1) + "-01")
  {
  }

  lemma SplitMonth(y: string, m: string)
    requires AllDigits(y) && AllDigits(m)
    ensures Split(y + "-" + m, '-') == [y, m]
  {
    DigitsHaveNoDash(y);
    DigitsHaveNoDash(m);
    SplitAtFirst(y, m, '-');
    SplitNoSeparator(m, '-');
  }

  /**
   * `update_event`'s payload, filled field by field: a status and a
   * scheduled time are written only when given (non-empty).
   */
  method UpdateData(status: string, scheduledAt: string) returns (data: map<string, string>)
    ensures data.Keys <= {"status", "scheduled_at"}
    ensures "status" in data <==> status != ""
    ensures "scheduled_at" in data <==> scheduledAt != ""
    ensures "status" in data ==> data["status"] == status
    ensures "scheduled_at" in data ==> data["scheduled_at"] == scheduledAt
  {
    data := map[];
    if status != "" {
      data := data["status" := status];
    }
    if scheduledAt != "" {
      data := data["scheduled_at" := scheduledAt];
    }
  }

  /** An event row after an update with `data`: the given columns replaced, every other column kept. */
  function Updated(row: map<string, string>, data: map<string, string>): (r: map<string, string>)
    ensures r.Keys == row.Keys + data.Keys
    ensures forall k :: k in data ==> r[k] == data[k]
    ensures forall k :: k in row && k !in data ==> r[k] == row[k]
  {
    row + data
  }

  /** An update never writes the row's identity, its owner, or any column other than the two it may take. */
  lemma UpdateKeepsOtherColumns(row: map<string, string>, data: map<string, string>, column: string)
    requires data.Keys <= {"status", "scheduled_at"}
    requires column in row && column != "status" && column != "scheduled_at"
    ensures column in Updated(row, data) && Updated(row, data)[column] == row[column]
  {
  }

  /** What the delete query produced: it raised, or it returned some rows. */
  datatype DeleteQuery = Raised | Returned(rows: nat)

  /** The response of `delete_event`. */
  datatype DeleteResult = Deleted(eventId: string) | NotFound404 | ServerError500

  /** `delete_event`: no deleted row is a 404, a failing query a 500. */
  function DeleteEvent(eventId: string, query: DeleteQuery): (r: DeleteResult)
    ensures r.Deleted? <==> query.Returned? && query.rows > 0
    ensures r.Deleted? ==> r.eventId == eventId
    ensures query == Returned(0) <==> r == NotFound404
    ensures query == Raised <==> r == ServerError500
  {
    match query
    case Raised => ServerError500
    case Returned(n) => if n == 0 then NotFound404 else Deleted(eventId)
  }
}
