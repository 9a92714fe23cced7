/**
  The date windows of `DateFieldListFilter` in
  `django/contrib/admin/filters.py`: from the current local date it builds
  the links "Any date", "Today", "Past 7 days", "This month" and "This
  year", each a pair of `__gte` / `__lt` query parameters. Dates are
  proleptic Gregorian (year, month, day) triples in Python's range of
  years 1 to 9999, and Python's day ordinal is the reference the calendar
  steps are proved against.
 */
module AdminDateFilter {
  import opened Common

  datatype Date = Date(year: nat, month: nat, day: nat)

  predicate IsLeap(y: int) {
    y % 4 == 0 && (y % 100 != 0 || y % 400 == 0)
  }

  function DaysInMonth(y: int, m: int): int {
    if m == 2 then (if IsLeap(y) then 29 else 28)
    else if m == 4 || m == 6 || m == 9 || m == 11 then 30
    else 31
  }

  function DaysInYear(y: int): int {
    if IsLeap(y) then 366 else 365
  }

  /** A date `datetime.date` accepts. */
  predicate ValidDate(d: Date) {
    1 <= d.year <= 9999 && 1 <= d.month <= 12 && 1 <= d.day <= DaysInMonth(d.year, d.month)
  }

  // ---- the reference: days since 0001-01-01, as `date.toordinal` ----

  function DaysBeforeYear(y: int): (r: int)
    requires y >= 1
    ensures r >= 365 * (y - 1)
    decreases y
  {
    if y == 1 then 0 else DaysBeforeYear(y - 1) + DaysInYear(y - 1)
  }

  function DaysBeforeMonth(y: int, m: int): int
    requires 1 <= m <= 12
  {
    [0, 31, 59, 90, 120, 151, 181, 212, 243, 273, 304, 334][m - 1] + (if m > 2 && IsLeap(y) then 1 else 0)
  }

  function Ordinal(d: Date): int
    requires d.year >= 1 && 1 <= d.month <= 12
  {
    DaysBeforeYear(d.year) + DaysBeforeMonth(d.year, d.month) + d.day
  }

  lemma YearStep(y: int)
    requires y >= 1
    ensures DaysBeforeYear(y + 1) == DaysBeforeYear(y) + DaysInYear(y)
  {
  }

  lemma MonthStep(y: int, m: int)
    requires 1 <= m < 12
    ensures DaysBeforeMonth(y, m + 1) == DaysBeforeMonth(y, m) + DaysInMonth(y, m)
  {
  }

  lemma LastMonth(y: int)
    ensures DaysBeforeMonth(y, 12) + DaysInMonth(y, 12) == DaysInYear(y)
  {
  }

  // ---- calendar steps ----

  datatype DateError = OverflowError(msg: string) | ValueError(msg: string)

  const MsgDateOutOfRange: string := "date value out of range"

  function MsgYearOutOfRange(y: int): string {
    "year " + IntToString(y) + " is out of range"
  }

  /** The last day of month `m` is followed by the first of month `m + 1`. */
  lemma StepAcrossMonth(y: int, m: int)
    requires 1 <= y <= 9999 && 1 <= m < 12
    ensures ValidDate(Date(y, m, DaysInMonth(y, m))) && ValidDate(Date(y, m + 1, 1))
    ensures Ordinal(Date(y, m + 1, 1)) == Ordinal(Date(y, m, DaysInMonth(y, m))) + 1
  {
    MonthStep(y, m);
  }

  /** December 31 of year `y` is followed by January 1 of year `y + 1`. */
  lemma StepAcrossYear(y: int)
    requires 1 <= y < 9999
    ensures ValidDate(Date(y, 12, 31)) && ValidDate(Date(y + 1, 1, 1))
    ensures Ordinal(Date(y + 1, 1, 1)) == Ordinal(Date(y, 12, 31)) + 1
  {
    YearStep(y);
    LastMonth(y);
  }

  /** `d + timedelta(days=1)` */
  function NextDay(d: Date): (r: Result<Date, DateError>)
    requires ValidDate(d)
    ensures r.Ok? <==> d != Date(9999, 12, 31)
    ensures r.Err? ==> r.error == OverflowError(MsgDateOutOfRange)
    ensures r.Ok? ==> ValidDate(r.value) && Ordinal(r.value) == Ordinal(d) + 1
  {
    if d.day < DaysInMonth(d.year, d.month) then Ok(Date(d.year, d.month, d.day + 1))
    else if d.month < 12 then
      StepAcrossMonth(d.year, d.month);
      Ok(Date(d.year, d.month + 1, 1))
    else if d.year < 9999 then
      StepAcrossYear(d.year);
      Ok(Date(d.year + 1, 1, 1))
    else Err(OverflowError(MsgDateOutOfRange))
  }

  /** `d - timedelta(days=1)` */
  function PrevDay(d: Date): (r: Result<Date, DateError>)
    requires ValidDate(d)
    ensures r.Ok? <==> d != Date(1, 1, 1)
    ensures r.Err? ==> r.error == OverflowError(MsgDateOutOfRange)
    ensures r.Ok? ==> ValidDate(r.value) && Ordinal(r.value) == Ordinal(d) - 1
  {
    if d.day > 1 then Ok(Date(d.year, d.month, d.day - 1))
    else if d.month > 1 then
      StepAcrossMonth(d.year, d.month - 1);
      assert d == Date(d.year, d.month - 1 + 1, 1);
      Ok(Date(d.year, d.month - 1, DaysInMonth(d.year, d.month - 1)))
    else if d.year > 1 then
      StepAcrossYear(d.year - 1);
      assert d == Date(d.year - 1 + 1, 1, 1);
      Ok(Date(d.year - 1, 12, 31))
    else Err(OverflowError(MsgDateOutOfRange))
  }

  /** `d - timedelta(days=n)`, which fails when it would go before 0001-01-01. */
  function MinusDays(d: Date, n: nat): (r: Result<Date, DateError>)
    requires ValidDate(d)
    ensures r.Ok? <==> Ordinal(d) - n >= 1
    ensures r.Err? ==> r.error == OverflowError(MsgDateOutOfRange)
    ensures r.Ok? ==> ValidDate(r.value) && Ordinal(r.value) == Ordinal(d) - n
    decreases n
  {
    if n == 0 then Ok(d)
    else
      match PrevDay(d)
      case Err(e) =>
        FirstDay(d);
        Err(e)
      case Ok(p) => MinusDays(p, n - 1)
  }

  /** 0001-01-01 is the only valid date with ordinal 1, and none is smaller. */
  lemma FirstDay(d: Date)
    requires ValidDate(d)
    ensures Ordinal(d) >= 1
    ensures Ordinal(d) == 1 <==> d == Date(1, 1, 1)
  {
    if d.year > 1 {
      assert DaysBeforeYear(d.year) >= 365;
    }
  }

  /** `d.replace(day=1)` */
  function FirstOfMonth(d: Date): (r: Date)
    requires ValidDate(d)
    ensures ValidDate(r) && r.day == 1 && r.month == d.month && r.year == d.year
    ensures Ordinal(d) - Ordinal(r) == d.day - 1
  {
    Date(d.year, d.month, 1)
  }

  /** `d.replace(month=1, day=1)` */
  function FirstOfYear(d: Date): (r: Date)
    requires ValidDate(d)
    ensures ValidDate(r) && r.day == 1 && r.month == 1 && r.year == d.year
    ensures Ordinal(r) == DaysBeforeYear(d.year) + 1
  {
    Date(d.year, 1, 1)
  }

  /**
    The first of the following month: December rolls over to January of the
    next year, which `replace` refuses past year 9999.
   */
  function NextMonth(d: Date): (r: Result<Date, DateError>)
    requires ValidDate(d)
    ensures r.Ok? <==> d.month < 12 || d.year < 9999
    ensures r.Err? ==> r.error == ValueError(MsgYearOutOfRange(10000))
    ensures r.Ok? ==> (ValidDate(r.value) && r.value.day == 1
      && Ordinal(r.value) == Ordinal(FirstOfMonth(d)) + DaysInMonth(d.year, d.month))
  {
    if d.month == 12 then
      if d.year + 1 > 9999 then Err(ValueError(MsgYearOutOfRange(d.year + 1)))
      else
        YearStep(d.year);
        LastMonth(d.year);
        Ok(Date(d.year + 1, 1, 1))
    else
      MonthStep(d.year, d.month);
      Ok(Date(d.year, d.month + 1, 1))
  }

  /** January 1 of the next year. */
  function NextYear(d: Date): (r: Result<Date, DateError>)
    requires ValidDate(d)
    ensures r.Ok? <==> d.year < 9999
    ensures r.Err? ==> r.error == ValueError(MsgYearOutOfRange(10000))
    ensures r.Ok? ==> (ValidDate(r.value) && r.value.month == 1 && r.value.day == 1
      && Ordinal(r.value) == Ordinal(FirstOfYear(d)) + DaysInYear(d.year))
  {
    if d.year + 1 > 9999 then Err(ValueError(MsgYearOutOfRange(d.year + 1)))
    else
      YearStep(d.year);
      Ok(Date(d.year + 1, 1, 1))
  }

  // ---- the links ----

  function Pad(n: nat, width: nat): (r: string)
    ensures |r| >= width
    decreases width
  {
    var s := NatToString(n);
    if |s| >= width then s else "0" + Pad(n, width - 1)
  }

  /**
    `str(today)` and friends: `YYYY-MM-DD` for a `DateField`; for a
    `DateTimeField` the value is midnight, followed by the UTC offset when
    the current time is aware.
   */
  datatype FieldKind = DateOnly | DateTimeAt(utcOffset: Option<string>)

  function Str(d: Date, kind: FieldKind): string {
    var date := Pad(d.year, 4) + "-" + Pad(d.month, 2) + "-" + Pad(d.day, 2);
    match kind
    case DateOnly => date
    case DateTimeAt(offset) => date + " 00:00:00" + offset.GetOr("")
  }

  /** The first and last day of a window: `[since, until)` as dates. */
  datatype Window = Window(since: Date, until: Date)

  /**
    The dates whose four windows stay in the calendar: before the last year,
    and not in the first week of 0001-01.
   */
  predicate HasWindows(d: Date) {
    d.year <= 9998 && !(d.year == 1 && d.month == 1 && d.day <= 7)
  }

  /**
    The four date windows in the order `__init__` computes what they need:
    tomorrow first, then the next month and the next year, and the day a
    week ago while the links are built. The first failing step is the
    error raised.
   */
  function Windows(today: Date): (r: Result<seq<Window>, DateError>)
    requires ValidDate(today)
    ensures r.Ok? <==> today.year <= 9998 && Ordinal(today) >= 8
    ensures r.Ok? ==> |r.value| == 4
    ensures r.Err? ==> r.error == (if today == Date(9999, 12, 31) || today.year < 9999
                                   then OverflowError(MsgDateOutOfRange)
                                   else ValueError(MsgYearOutOfRange(10000)))
  {
    var tomorrow := NextDay(today);
    var nextMonth := NextMonth(today);
    var nextYear := NextYear(today);
    var weekAgo := MinusDays(today, 7);
    if tomorrow.Err? then Err(tomorrow.error)
    else if nextMonth.Err? then Err(nextMonth.error)
    else if nextYear.Err? then Err(nextYear.error)
    else if weekAgo.Err? then Err(weekAgo.error)
    else
      Ok([Window(today, tomorrow.value), Window(weekAgo.value, tomorrow.value),
          Window(FirstOfMonth(today), nextMonth.value), Window(FirstOfYear(today), nextYear.value)])
  }

  /** Only the first week of the calendar has an ordinal below eight. */
  lemma FirstWeekOrdinal(d: Date)
    requires ValidDate(d)
    ensures Ordinal(d) >= 8 <==> !(d.year == 1 && d.month == 1 && d.day <= 7)
  {
    if d.year == 1 {
      assert DaysBeforeYear(1) == 0;
    }
  }

  /** The windows exist exactly for the dates `HasWindows` describes. */
  lemma WindowsOkIff(today: Date)
    requires ValidDate(today)
    ensures Windows(today).Ok? <==> HasWindows(today)
  {
    FirstWeekOrdinal(today);
  }

  /** `w` is made of valid dates, `d` among them: `since <= d < until`. */
  predicate Contains(w: Window, d: Date) {
    ValidDate(w.since) && ValidDate(w.until) && ValidDate(d)
    && Ordinal(w.since) <= Ordinal(d) < Ordinal(w.until)
  }

  /** The number of days in a window of valid dates. */
  function Length(w: Window): int
    requires ValidDate(w.since) && ValidDate(w.until)
  {
    Ordinal(w.until) - Ordinal(w.since)
  }

  /**
    Every window contains today, and their lengths are one day, eight days
    (the past seven plus today), the month and the year.
   */
  lemma WindowsContainToday(today: Date)
    requires ValidDate(today) && HasWindows(today)
    ensures Windows(today).Ok?
    ensures var ws := Windows(today).value;
      && Contains(ws[0], today) && Length(ws[0]) == 1
      && Contains(ws[1], today) && Length(ws[1]) == 8
      && Contains(ws[2], today) && Length(ws[2]) == DaysInMonth(today.year, today.month)
      && Contains(ws[3], today) && Length(ws[3]) == DaysInYear(today.year)
  {
    WindowsOkIff(today);
    var ws := Windows(today).value;
    var tomorrow := NextDay(today).value;
    var nextMonth := NextMonth(today).value;
    var nextYear := NextYear(today).value;
    var weekAgo := MinusDays(today, 7).value;
    assert ws == [Window(today, tomorrow), Window(weekAgo, tomorrow),
                  Window(FirstOfMonth(today), nextMonth), Window(FirstOfYear(today), nextYear)];
    MonthWindowContainsToday(today, nextMonth);
    YearWindowContainsToday(today, nextYear);
  }

  lemma MonthWindowContainsToday(today: Date, nextMonth: Date)
    requires ValidDate(today) && NextMonth(today) == Ok(nextMonth)
    ensures Contains(Window(FirstOfMonth(today), nextMonth), today)
    ensures Length(Window(FirstOfMonth(today), nextMonth)) == DaysInMonth(today.year, today.month)
  {
  }

  lemma YearWindowContainsToday(today: Date, nextYear: Date)
    requires ValidDate(today) && NextYear(today) == Ok(nextYear)
    ensures Contains(Window(FirstOfYear(today), nextYear), today)
    ensures Length(Window(FirstOfYear(today), nextYear)) == DaysInYear(today.year)
  {
    LastMonthBound(today);
  }

  /** Every window is made of valid dates. */
  lemma WindowsValid(today: Date)
    requires ValidDate(today) && HasWindows(today)
    ensures Windows(today).Ok?
    ensures var ws := Windows(today).value;
      && |ws| == 4
      && ValidDate(ws[0].since) && ValidDate(ws[0].until) && ValidDate(ws[1].since) && ValidDate(ws[1].until)
      && ValidDate(ws[2].since) && ValidDate(ws[2].until) && ValidDate(ws[3].since) && ValidDate(ws[3].until)
  {
    WindowsContainToday(today);
  }

  lemma LastMonthBound(d: Date)
    requires ValidDate(d)
    ensures DaysBeforeMonth(d.year, d.month) + d.day <= DaysInYear(d.year)
  {
  }

  datatype Link = Link(title: string, params: map<string, string>)

  /**
    `self.links`: "Any date" with no parameters, then one link per window
    with `<path>__gte` and `<path>__lt`.
   */
  function Links(fieldPath: string, today: Date, kind: FieldKind): (r: Result<seq<Link>, DateError>)
    requires ValidDate(today)
    ensures r.Ok? <==> Windows(today).Ok?
    ensures r.Err? ==> r.error == Windows(today).error
    ensures r.Ok? ==> (|r.value| == 5 && r.value[0] == Link("Any date", map[])
      && forall i :: 1 <= i < 5 ==> WindowParams(r.value[i], fieldPath))
    ensures r.Ok? ==> forall i :: 1 <= i < 5 ==>
      LinkFor(r.value[i], WindowTitles[i - 1], fieldPath, Windows(today).value[i - 1], kind)
  {
    var w := Windows(today);
    if w.Err? then Err(w.error)
    else
      Ok(LinksOf(fieldPath, w.value, kind))
  }

  const WindowTitles: seq<string> := ["Today", "Past 7 days", "This month", "This year"]

  /** The five links for four windows. */
  function LinksOf(fieldPath: string, ws: seq<Window>, kind: FieldKind): (r: seq<Link>)
    requires |ws| == 4
    ensures |r| == 5 && r[0] == Link("Any date", map[])
    ensures forall i :: 1 <= i < 5 ==> WindowParams(r[i], fieldPath)
    ensures forall i :: 1 <= i < 5 ==> LinkFor(r[i], WindowTitles[i - 1], fieldPath, ws[i - 1], kind)
  {
    [Link("Any date", map[])] + seq(4, i requires 0 <= i < 4 => WindowLink(WindowTitles[i], fieldPath, ws[i], kind))
  }

  /** A window's link sets exactly the two parameters `<path>__gte` and `<path>__lt`. */
  predicate WindowParams(l: Link, fieldPath: string) {
    l.params.Keys == {fieldPath + "__gte", fieldPath + "__lt"}
  }

  /**
    `l` is the link titled `title` for window `w`: it sets exactly
    `<path>__gte` to the window's first day and `<path>__lt` to the day
    after its last.
   */
  predicate LinkFor(l: Link, title: string, fieldPath: string, w: Window, kind: FieldKind) {
    && l.title == title && WindowParams(l, fieldPath)
    && l.params[fieldPath + "__gte"] == Str(w.since, kind)
    && l.params[fieldPath + "__lt"] == Str(w.until, kind)
  }

  /** One window's link: `<path>__gte` is its first day, `<path>__lt` the day after its last. */
  function WindowLink(title: string, fieldPath: string, w: Window, kind: FieldKind): (r: Link)
    ensures LinkFor(r, title, fieldPath, w, kind)
  {
    var since := fieldPath + "__gte";
    var until := fieldPath + "__lt";
    assert since != until by {
      assert since[|fieldPath| + 2] == 'g' && until[|fieldPath| + 2] == 'l';
    }
    Link(title, map[since := Str(w.since, kind), until := Str(w.until, kind)])
  }

  /** `date_params`: the request's parameters that start with `<path>__`. */
  function DateParams(fieldPath: string, params: map<string, string>): (r: map<string, string>)
    ensures forall k :: k in r <==> k in params && StartsWith(k, fieldPath + "__")
    ensures forall k :: k in r ==> r[k] == params[k]
  {
    map k | k in params && StartsWith(k, fieldPath + "__") :: params[k]
  }

  /** Which links `choices` marks selected: those whose parameters equal the date parameters. */
  function Selected(fieldPath: string, params: map<string, string>, links: seq<Link>): (r: seq<bool>)
    ensures |r| == |links|
    ensures forall i :: 0 <= i < |links| ==> (r[i] <==> DateParams(fieldPath, params) == links[i].params)
  {
    seq(|links|, i requires 0 <= i < |links| => DateParams(fieldPath, params) == links[i].params)
  }

  /** "Any date" is selected exactly when the request has no parameter under the field's path. */
  lemma AnyDateSelectedIff(fieldPath: string, params: map<string, string>, today: Date, kind: FieldKind)
    requires ValidDate(today) && Links(fieldPath, today, kind).Ok?
    ensures Selected(fieldPath, params, Links(fieldPath, today, kind).value)[0]
      <==> forall k :: k in params ==> !StartsWith(k, fieldPath + "__")
  {
    var dp := DateParams(fieldPath, params);
    if dp != map[] {
      var k :| k in dp;
      assert k in params && StartsWith(k, fieldPath + "__");
    }
  }
}
