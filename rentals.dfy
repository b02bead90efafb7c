/** Listings and their price rows, the three price-resolution rules the
    services use, the date-string parser of the listing service, the
    analytics start-date filter and the placement and moderation-check
    queries (src/apps/houserent). */
module Rentals {
  import opened Common

  /** A settlement or region of the placement tree; `level` is its depth in the tree. */
  datatype Placement = Placement(id: Id, name: string, level: nat, isDeleted: bool)

  /** A property (hotel, guest house) in a placement. */
  datatype Location = Location(id: Id, name: string, placement: Id, isDeleted: bool)

  /** A rentable unit of a location, owned by a vendor. `vendorEmail` is the owner's
      login as the delivery tasks address it. */
  datatype LocationObject = LocationObject(
    id: Id, location: Id, vendor: Id, vendorEmail: Email, name: string,
    objectType: Id, objectKind: Id, isDeleted: bool)

  /** One row of a listing's price list: `price` per night between two dates. */
  datatype ObjectPrice = ObjectPrice(id: Id, objectId: Id, start: Date, end: Date, price: int, isDeleted: bool)

  /** The moderation states a listing check can record. */
  datatype CheckChoice = Created | Updated | Other(name: string)

  /** A moderation check of a listing: created on creation and on every accepted update. */
  datatype ObjectCheck = ObjectCheck(id: Id, objectId: Id, choice: CheckChoice, isChecked: bool, isDeclined: bool)

  // ---------------------------------------------------------------------------
  // Earliest-start selection: `.filter(...).order_by("start_date").values("price")[:1]`

  /** The qualifying row with the smallest start date; among equal starts, the first in table order. */
  function Earliest(rows: seq<ObjectPrice>, ok: ObjectPrice -> bool): (r: Option<ObjectPrice>)
    ensures r.None? <==> forall i :: 0 <= i < |rows| ==> !ok(rows[i])
    ensures r.Some? ==> r.value in rows && ok(r.value)
    ensures r.Some? ==> forall i :: 0 <= i < |rows| && ok(rows[i]) ==> DateLe(r.value.start, rows[i].start)
  {
    if rows == [] then None
    else
      var rest := Earliest(rows[1..], ok);
      assert forall i :: 1 <= i < |rows| ==> rows[i] == rows[1..][i - 1];
      if !ok(rows[0]) then rest
      else if rest.Some? && DateLt(rest.value.start, rows[0].start) then rest
      else Some(rows[0])
  }

  // ---------------------------------------------------------------------------
  // Rule 1: month/day containment, the listing's current price (houserent/services.py)

  /** Both ends of the row lie in the query month and the day is between their days. The
      year is not compared. */
  predicate CoversMonthDay(p: ObjectPrice, objectId: Id, month: int, day: int) {
    p.objectId == objectId && p.start.month == month && p.start.day <= day
    && p.end.month == month && p.end.day >= day
  }

  function CurrentPrice(rows: seq<ObjectPrice>, objectId: Id, month: int, day: int): (r: Option<int>)
    ensures r.None? <==> forall i :: 0 <= i < |rows| ==> !CoversMonthDay(rows[i], objectId, month, day)
    ensures r.Some? ==> exists i :: (0 <= i < |rows| && CoversMonthDay(rows[i], objectId, month, day) && rows[i].price == r.value
        && forall j :: 0 <= j < |rows| && CoversMonthDay(rows[j], objectId, month, day) ==> DateLe(rows[i].start, rows[j].start))
  {
    var e := Earliest(rows, p => CoversMonthDay(p, objectId, month, day));
    if e.Some? then
      var i :| 0 <= i < |rows| && rows[i] == e.value;
      Some(e.value.price)
    else None
  }

  /** A price row spanning a month boundary is never a current price. */
  lemma CurrentPriceNeedsOneMonth(rows: seq<ObjectPrice>, objectId: Id, month: int, day: int)
    requires forall i :: 0 <= i < |rows| ==> rows[i].start.month != rows[i].end.month
    ensures CurrentPrice(rows, objectId, month, day).None?
  {
  }

  /** The year of the query date plays no part: two rows that differ only in their years
      qualify for the same (month, day). */
  lemma CurrentPriceIgnoresYear(p: ObjectPrice, y1: int, y2: int, objectId: Id, month: int, day: int)
    ensures CoversMonthDay(p, objectId, month, day)
        == CoversMonthDay(p.(start := p.start.(year := y1), end := p.end.(year := y2)), objectId, month, day)
  {
  }

  // ---------------------------------------------------------------------------
  // Rule 2: loose OR test on the travel end date (travels/services.py, vendors/services.py)

  predicate LooseEndMatch(p: ObjectPrice, objectId: Id, travelEnd: Date) {
    p.objectId == objectId && (DateLe(p.start, travelEnd) || DateLe(travelEnd, p.end))
  }

  function LooseMatchedPrice(rows: seq<ObjectPrice>, objectId: Id, travelEnd: Date): (r: Option<int>)
    ensures r.None? <==> forall i :: 0 <= i < |rows| ==> !LooseEndMatch(rows[i], objectId, travelEnd)
    ensures r.Some? ==> exists i :: (0 <= i < |rows| && LooseEndMatch(rows[i], objectId, travelEnd) && rows[i].price == r.value
        && forall j :: 0 <= j < |rows| && LooseEndMatch(rows[j], objectId, travelEnd) ==> DateLe(rows[i].start, rows[j].start))
  {
    var e := Earliest(rows, p => LooseEndMatch(p, objectId, travelEnd));
    if e.Some? then
      var i :| 0 <= i < |rows| && rows[i] == e.value;
      Some(e.value.price)
    else None
  }

  /** On a row whose start does not follow its end the loose test holds for every date:
      if the start is after the travel end, so is the end. */
  lemma LooseMatchOnOrderedRow(p: ObjectPrice, objectId: Id, travelEnd: Date)
    requires p.objectId == objectId && DateLe(p.start, p.end)
    ensures LooseEndMatch(p, objectId, travelEnd)
  {
    DateLeTotalOrder(p.start, travelEnd, p.end);
    DateLeTotalOrder(travelEnd, p.start, p.end);
  }

  /** Hence, on a listing whose price rows are all ordered, the loose matched price does not
      depend on the travel date at all: it is the price of the listing's earliest row. */
  lemma {:induction false} LooseMatchedPriceIgnoresDate(rows: seq<ObjectPrice>, objectId: Id, d1: Date, d2: Date)
    requires forall i :: 0 <= i < |rows| && rows[i].objectId == objectId ==> DateLe(rows[i].start, rows[i].end)
    ensures LooseMatchedPrice(rows, objectId, d1) == LooseMatchedPrice(rows, objectId, d2)
  {
    var ok1 := (p: ObjectPrice) => LooseEndMatch(p, objectId, d1);
    var ok2 := (p: ObjectPrice) => LooseEndMatch(p, objectId, d2);
    forall i | 0 <= i < |rows|
      ensures ok1(rows[i]) == ok2(rows[i])
    {
      if rows[i].objectId == objectId {
        LooseMatchOnOrderedRow(rows[i], objectId, d1);
        LooseMatchOnOrderedRow(rows[i], objectId, d2);
      }
    }
    EarliestAgrees(rows, ok1, ok2);
  }

  /** Two qualification tests that agree on every row select the same row. */
  lemma {:induction false} EarliestAgrees(rows: seq<ObjectPrice>, ok1: ObjectPrice -> bool, ok2: ObjectPrice -> bool)
    requires forall i :: 0 <= i < |rows| ==> ok1(rows[i]) == ok2(rows[i])
    ensures Earliest(rows, ok1) == Earliest(rows, ok2)
  {
    if rows != [] {
      assert forall i :: 0 <= i < |rows[1..]| ==> rows[1..][i] == rows[i + 1];
      EarliestAgrees(rows[1..], ok1, ok2);
    }
  }

  // ---------------------------------------------------------------------------
  // Rule 3: strict containment of the travel end date (vendors/services.py, tasks/broker.py)

  predicate StrictEndMatch(p: ObjectPrice, objectId: Id, travelEnd: Date) {
    p.objectId == objectId && DateLe(p.start, travelEnd) && DateLe(travelEnd, p.end)
  }

  function StrictMatchedPrice(rows: seq<ObjectPrice>, objectId: Id, travelEnd: Date): (r: Option<int>)
    ensures r.None? <==> forall i :: 0 <= i < |rows| ==> !StrictEndMatch(rows[i], objectId, travelEnd)
    ensures r.Some? ==> exists i :: (0 <= i < |rows| && StrictEndMatch(rows[i], objectId, travelEnd) && rows[i].price == r.value
        && forall j :: 0 <= j < |rows| && StrictEndMatch(rows[j], objectId, travelEnd) ==> DateLe(rows[i].start, rows[j].start))
  {
    var e := Earliest(rows, p => StrictEndMatch(p, objectId, travelEnd));
    if e.Some? then
      var i :| 0 <= i < |rows| && rows[i] == e.value;
      Some(e.value.price)
    else None
  }

  /** Whenever the strict rule finds a price, so does the loose one. */
  lemma StrictImpliesLoose(rows: seq<ObjectPrice>, objectId: Id, travelEnd: Date)
    ensures StrictMatchedPrice(rows, objectId, travelEnd).Some? ==> LooseMatchedPrice(rows, objectId, travelEnd).Some?
  {
    if StrictMatchedPrice(rows, objectId, travelEnd).Some? {
      var i :| 0 <= i < |rows| && StrictEndMatch(rows[i], objectId, travelEnd);
      assert LooseEndMatch(rows[i], objectId, travelEnd);
    }
  }

  /** The rules really differ: one row priced from March to April, a travel ending in May.
      The strict rule finds nothing, the loose rule prices it, the month/day rule sees no May row. */
  lemma RulesDiffer()
    ensures var row := ObjectPrice(1, 7, Date(2024, 3, 1), Date(2024, 4, 30), 100, false);
      StrictMatchedPrice([row], 7, Date(2024, 5, 10)) == None
      && LooseMatchedPrice([row], 7, Date(2024, 5, 10)) == Some(100)
      && CurrentPrice([row], 7, 5, 10) == None
  {
    var row := ObjectPrice(1, 7, Date(2024, 3, 1), Date(2024, 4, 30), 100, false);
    assert !StrictEndMatch(row, 7, Date(2024, 5, 10));
    assert LooseEndMatch([row][0], 7, Date(2024, 5, 10));
    assert !CoversMonthDay(row, 7, 5, 10);
  }

  // ---------------------------------------------------------------------------
  // LocationObjectService.parse_date: `strptime(s, "%Y-%m-%d")`, or today when the text is empty

  predicate IsDigit(c: char) { '0' <= c <= '9' }

  predicate IsLeapYear(y: int) { y % 4 == 0 && (y % 100 != 0 || y % 400 == 0) }

  function DaysInMonth(y: int, m: int): int
    requires 1 <= m <= 12
  {
    if m == 2 then (if IsLeapYear(y) then 29 else 28)
    else if m == 4 || m == 6 || m == 9 || m == 11 then 30
    else 31
  }

  /** A date the calendar (and Python's `date`) accepts. */
  predicate ValidDate(d: Date) {
    1 <= d.year <= 9999 && 1 <= d.month <= 12 && 1 <= d.day <= DaysInMonth(d.year, d.month)
  }

  /** A numeric token read from the front of a string: its value and its length. */
  datatype Token = Token(value: int, length: nat)

  /** `%m`: the first of the alternatives `1[0-2]`, `0[1-9]`, `[1-9]` that matches. */
  function MonthToken(t: string): (r: Option<Token>)
    ensures r.Some? ==> 1 <= r.value.length <= 2 && r.value.length <= |t| && 1 <= r.value.value <= 12
  {
    if |t| >= 2 && t[0] == '1' && '0' <= t[1] <= '2' then Some(Token(10 + DigitValue(t[1]), 2))
    else if |t| >= 2 && t[0] == '0' && '1' <= t[1] <= '9' then Some(Token(DigitValue(t[1]), 2))
    else if |t| >= 1 && '1' <= t[0] <= '9' then Some(Token(DigitValue(t[0]), 1))
    else None
  }

  /** `%d`: the first of `3[01]`, `[12]\d`, `0[1-9]`, `[1-9]`, ` [1-9]` that matches. */
  function DayToken(t: string): (r: Option<Token>)
    ensures r.Some? ==> 1 <= r.value.length <= 2 && r.value.length <= |t| && 1 <= r.value.value <= 31
  {
    if |t| >= 2 && t[0] == '3' && '0' <= t[1] <= '1' then Some(Token(30 + DigitValue(t[1]), 2))
    else if |t| >= 2 && '1' <= t[0] <= '2' && IsDigit(t[1]) then Some(Token(10 * DigitValue(t[0]) + DigitValue(t[1]), 2))
    else if |t| >= 2 && t[0] == '0' && '1' <= t[1] <= '9' then Some(Token(DigitValue(t[1]), 2))
    else if |t| >= 1 && '1' <= t[0] <= '9' then Some(Token(DigitValue(t[0]), 1))
    else if |t| >= 2 && t[0] == ' ' && '1' <= t[1] <= '9' then Some(Token(DigitValue(t[1]), 2))
    else None
  }

  /** `%Y`: exactly four digits. */
  function YearToken(t: string): (r: Option<Token>)
    ensures r.Some? ==> r.value.length == 4 <= |t| && 0 <= r.value.value <= 9999
  {
    if |t| >= 4 && IsDigit(t[0]) && IsDigit(t[1]) && IsDigit(t[2]) && IsDigit(t[3]) then
      Some(Token(1000 * DigitValue(t[0]) + 100 * DigitValue(t[1]) + 10 * DigitValue(t[2]) + DigitValue(t[3]), 4))
    else None
  }

  /** `datetime.strptime(s, "%Y-%m-%d").date()`; None where it raises ValueError (no match,
      unconverted data left over, or a day the month does not have). */
  function ParseIsoDate(s: string): (r: Option<Date>)
    ensures r.Some? ==> ValidDate(r.value)
  {
    match YearToken(s)
    case None => None
    case Some(y) =>
      if |s| <= 4 || s[4] != '-' then None
      else
        var afterYear := s[5..];
        match MonthToken(afterYear)
        case None => None
        case Some(m) =>
          var rest := afterYear[m.length..];
          if |rest| == 0 || rest[0] != '-' then None
          else
            var dayText := rest[1..];
            match DayToken(dayText)
            case None => None
            case Some(d) =>
              if d.length != |dayText| then None
              else
                var date := Date(y.value, m.value, d.value);
                if ValidDate(date) then Some(date) else None
  }

  function TwoDigits(n: int): (s: string)
    requires 0 <= n < 100
    ensures |s| == 2 && IsDigit(s[0]) && IsDigit(s[1])
  {
    [DigitChar(n / 10), DigitChar(n % 10)]
  }

  /** `date.isoformat()`: YYYY-MM-DD with zero padding. */
  function FormatIsoDate(d: Date): string
    requires ValidDate(d)
  {
    TwoDigits(d.year / 100) + TwoDigits(d.year % 100) + "-" + TwoDigits(d.month) + "-" + TwoDigits(d.day)
  }

  lemma MonthOfTwoDigits(m: int, rest: string)
    requires 1 <= m <= 12
    ensures MonthToken(TwoDigits(m) + rest) == Some(Token(m, 2))
  {
    var t := TwoDigits(m) + rest;
    assert t[0] == DigitChar(m / 10) && t[1] == DigitChar(m % 10);
  }

  lemma DayOfTwoDigits(d: int)
    requires 1 <= d <= 31
    ensures DayToken(TwoDigits(d)) == Some(Token(d, 2))
  {
  }

  /** Every calendar date from year 1000 on is read back from its ISO text. */
  lemma ParseFormatRoundTrip(d: Date)
    requires ValidDate(d) && d.year >= 1000
    ensures ParseIsoDate(FormatIsoDate(d)) == Some(d)
  {
    var s := FormatIsoDate(d);
    var yt := TwoDigits(d.year / 100) + TwoDigits(d.year % 100);
    assert s == yt + "-" + TwoDigits(d.month) + "-" + TwoDigits(d.day);
    assert YearToken(s) == Some(Token(d.year, 4));
    assert s[4] == '-';
    var afterYear := s[5..];
    assert afterYear == TwoDigits(d.month) + ("-" + TwoDigits(d.day));
    MonthOfTwoDigits(d.month, "-" + TwoDigits(d.day));
    var rest := afterYear[2..];
    assert rest == "-" + TwoDigits(d.day);
    assert rest[1..] == TwoDigits(d.day);
    DayOfTwoDigits(d.day);
  }

  /** The parser also takes unpadded month and day, as `strptime` does. */
  lemma ParseUnpadded()
    ensures ParseIsoDate("2024-3-7") == Some(Date(2024, 3, 7))
    ensures ParseIsoDate("2024-02-30") == None
    ensures ParseIsoDate("2024-3-75") == None
  {
    assert "2024-3-7"[5..] == "3-7";
    assert "3-7"[1..] == "-7";
    assert "-7"[1..] == "7";
    assert "2024-02-30"[5..] == "02-30";
    assert "02-30"[2..] == "-30";
    assert "-30"[1..] == "30";
    assert "2024-3-75"[5..] == "3-75";
    assert "3-75"[1..] == "-75";
    assert "-75"[1..] == "75";
  }

  /** A parsed query date: the date with its month and its day. */
  datatype QueryDate = QueryDate(date: Date, month: int, day: int)

  /** `parse_date(date_str)`: an absent or empty text means today. */
  function ParseDate(dateText: Option<string>, today: Date): (r: Result<QueryDate>)
    ensures (dateText.None? || dateText == Some("")) ==> r == Ok(QueryDate(today, today.month, today.day))
    ensures dateText.Some? && dateText.value != "" ==>
      match ParseIsoDate(dateText.value)
      case Some(d) => r == Ok(QueryDate(d, d.month, d.day))
      case None => r.Err? && r.fault.Crash?
  {
    if dateText.None? || dateText.value == "" then Ok(QueryDate(today, today.month, today.day))
    else
      match ParseIsoDate(dateText.value)
      case Some(d) => Ok(QueryDate(d, d.month, d.day))
      case None => Err(Crash("ValueError: time data does not match format '%Y-%m-%d'"))
  }

  // ---------------------------------------------------------------------------
  // get_start_date_from_filter (times are seconds)

  const Day := 86400

  function StartDateFromFilter(filter: string, now: int): (r: Option<int>)
    ensures filter == "week" ==> r == Some(now - 7 * Day)
    ensures filter == "month" ==> r == Some(now - 30 * Day)
    ensures filter == "half_year" ==> r == Some(now - 182 * Day)
    ensures r.None? <==> filter !in {"week", "month", "half_year"}
  {
    if filter == "week" then Some(now - 7 * Day)
    else if filter == "month" then Some(now - 30 * Day)
    else if filter == "half_year" then Some(now - 182 * Day)
    else None
  }

  /** The longer the window, the earlier its start; every window starts before now. */
  lemma StartDatesNest(now: int)
    ensures StartDateFromFilter("half_year", now).value < StartDateFromFilter("month", now).value
        < StartDateFromFilter("week", now).value < now
  {
  }

  // ---------------------------------------------------------------------------
  // PlacementService.get_queryset and ObjectCheckService.get_queryset

  /** Placements that are cities (their name contains "город") or second-level regions,
      narrowed by the `name` parameter when given. */
  function PlacementQuery(rows: seq<Placement>, name: Option<string>): (r: seq<Placement>)
    ensures forall p :: p in r <==> (p in rows && (ContainsIgnoringCase(p.name, "город") || p.level == 2)
        && (name.Some? ==> ContainsIgnoringCase(p.name, name.value)))
  {
    var base := Filter(rows, (p: Placement) => ContainsIgnoringCase(p.name, "город") || p.level == 2);
    if name.Some? then Filter(base, (p: Placement) => ContainsIgnoringCase(p.name, name.value)) else base
  }

  /** Checks narrowed to one choice when the `choice` parameter is given. */
  function CheckQuery(rows: seq<ObjectCheck>, choice: Option<CheckChoice>): (r: seq<ObjectCheck>)
    ensures choice.None? ==> r == rows
    ensures choice.Some? ==> forall c :: c in r <==> c in rows && c.choice == choice.value
  {
    if choice.Some? then Filter(rows, (c: ObjectCheck) => c.choice == choice.value) else rows
  }

  /** The `is_checked` annotation: no unchecked check of the listing exists. */
  predicate IsModerated(checks: seq<ObjectCheck>, objectId: Id) {
    forall i :: 0 <= i < |checks| && checks[i].objectId == objectId ==> checks[i].isChecked
  }
}
