/**
 * The dates of HTTP headers: IMF-fixdate, section 5.6.7 of RFC 9110, as crates/ai/src/http.rs reads it. A text is a
 * sequence of bytes, shown as characters.
 */
module HttpDates {
  import opened Options

  datatype Date = Date(year: nat, month: nat, day: nat)

  datatype Time = Time(hour: nat, minute: nat, second: nat)

  predicate IsLeap(year: nat) {
    Divides(4, year) && (!Divides(100, year) || Divides(400, year))
  }

  predicate Divides(k: int, y: int)
    requires k > 0
  {
    y % k == 0
  }

  function Quot(y: int, k: int): int
    requires k > 0
  {
    y / k
  }

  function DaysInMonth(year: nat, month: nat): (days: nat)
    ensures 28 <= days <= 31
  {
    if month == 2 then (if IsLeap(year) then 29 else 28)
    else if month == 4 || month == 6 || month == 9 || month == 11 then 30
    else 31
  }

  /** The days from 1970-01-01 to a date. The year of this count starts in March. */
  function DaysFromCivil(date: Date): int {
    var y := date.year - if date.month <= 2 then 1 else 0;
    EraDays(y) + MonthShift(date.month) + date.day - 1 - 719_468
  }

  /** The days before a year of this count: whole eras of 400 years, and the years of the last era. */
  function EraDays(y: int): int {
    var era := Quot(y, 400);
    var yoe := y - era * 400;
    era * 146_097 + yoe * 365 + Quot(yoe, 4) - Quot(yoe, 100)
  }

  /** The days of this count before a month. */
  function MonthShift(month: nat): int {
    Quot(153 * (if month > 2 then month - 3 else month + 9) + 2, 5)
  }

  // The naive count: years, then months, then days.

  predicate ValidDate(date: Date) {
    1 <= date.month <= 12 && 1 <= date.day <= DaysInMonth(date.year, date.month)
  }

  /** The days of the first `months` months of a year. */
  function DaysOfMonths(year: nat, months: nat): nat {
    if months == 0 then 0 else DaysOfMonths(year, months - 1) + DaysInMonth(year, months)
  }

  /** The days from 1970-01-01 to the start of a year, counted year by year. */
  function DaysToYear(year: nat): int
    decreases if year >= 1970 then year - 1970 else 1970 - year
  {
    if year == 1970 then 0
    else if year > 1970 then DaysToYear(year - 1) + DaysOfMonths(year - 1, 12)
    else DaysToYear(year + 1) - DaysOfMonths(year, 12)
  }

  function NaiveDays(date: Date): int
    requires ValidDate(date)
  {
    DaysToYear(date.year) + DaysOfMonths(date.year, date.month - 1) + date.day - 1
  }

  /** The days before a month, from the table of a calendar. */
  function MonthStart(leap: nat, month: nat): nat
    requires 1 <= month <= 13
  {
    match month
    case 1 => 0
    case 2 => 31
    case 3 => 59 + leap
    case 4 => 90 + leap
    case 5 => 120 + leap
    case 6 => 151 + leap
    case 7 => 181 + leap
    case 8 => 212 + leap
    case 9 => 243 + leap
    case 10 => 273 + leap
    case 11 => 304 + leap
    case 12 => 334 + leap
    case _ => 365 + leap
  }

  function LeapDays(year: nat): nat {
    if IsLeap(year) then 1 else 0
  }

  lemma {:induction false} MonthTable(year: nat, month: nat)
    requires 1 <= month <= 13
    ensures DaysOfMonths(year, month - 1) == MonthStart(LeapDays(year), month)
  {
    hide IsLeap;
    if month > 1 {
      MonthTable(year, month - 1);
    }
  }

  /** The days before year `y` of the March count, without eras. */
  function MarchDays(y: int): int {
    365 * y + Quot(y, 4) - Quot(y, 100) + Quot(y, 400)
  }

  lemma ErasCancel(y: int)
    ensures EraDays(y) == MarchDays(y)
  {
    var era := y / 400;
    var yoe := y - era * 400;
    assert yoe / 4 == y / 4 - 100 * era;
    assert yoe / 100 == y / 100 - 4 * era;
  }

  lemma MonthShifts(leap: nat, month: nat)
    requires 1 <= month <= 12
    ensures MonthShift(month) ==
      if month > 2 then MonthStart(leap, month) - 59 - leap else MonthStart(leap, month) + 306
  {
  }

  lemma DivStep(y: int, k: int)
    requires k > 0
    ensures Quot(y, k) - Quot(y - 1, k) == if Divides(k, y) then 1 else 0
  {
    var q, m := (y - 1) / k, (y - 1) % k;
    assert y == k * q + m + 1;
    if m + 1 == k {
      assert y == k * (q + 1);
      assert y / k == q + 1 && y % k == 0 by { Quotient(y, k, q + 1, 0); }
    } else {
      Quotient(y, k, q, m + 1);
    }
  }

  lemma Quotient(y: int, k: int, q: int, m: int)
    requires k > 0 && y == k * q + m && 0 <= m < k
    ensures y / k == q && y % k == m
  {
    var e := y / k - q;
    assert k * e == m - y % k;
    assert -k < k * e < k;
  }

  lemma Multiples(y: int)
    ensures Divides(400, y) ==> Divides(100, y)
    ensures Divides(100, y) ==> Divides(4, y)
  {
  }

  /** One more year has 366 days exactly when the year that it reaches is a leap year. */
  lemma MarchStep(year: nat)
    ensures MarchDays(year) - MarchDays(year - 1) == 365 + LeapDays(year)
  {
    hide Quot, Divides;
    DivStep(year, 4);
    DivStep(year, 100);
    DivStep(year, 400);
    Multiples(year);
  }

  lemma {:induction false} YearsAreMarchDays(year: nat)
    ensures DaysToYear(year) == MarchDays(year - 1) + 306 - 719_468
    decreases if year >= 1970 then year - 1970 else 1970 - year
  {
    if year > 1970 {
      YearsAreMarchDays(year - 1);
      MarchStep(year - 1);
      MonthTable(year - 1, 13);
    } else if year < 1970 {
      YearsAreMarchDays(year + 1);
      MarchStep(year);
      MonthTable(year, 13);
    }
  }

  /** The count by eras equals the naive count for every date, across months, leap years, and eras. */
  lemma CivilIsNaive(date: Date)
    requires ValidDate(date)
    ensures DaysFromCivil(date) == NaiveDays(date)
  {
    hide IsLeap, MarchDays, EraDays, MonthShift, MonthStart, DaysToYear, DaysOfMonths;
    YearsAreMarchDays(date.year);
    MonthTable(date.year, date.month);
    MonthShifts(LeapDays(date.year), date.month);
    MarchStep(date.year);
    ErasCancel(date.year);
    ErasCancel(date.year - 1);
  }

  lemma {:induction false} YearStep(year: nat)
    ensures DaysToYear(year + 1) == DaysToYear(year) + DaysOfMonths(year, 12)
  {
    hide DaysOfMonths;
  }

  /** The next day of the calendar. */
  function NextDay(date: Date): (next: Date)
    requires ValidDate(date)
    ensures ValidDate(next)
  {
    if date.day < DaysInMonth(date.year, date.month) then date.(day := date.day + 1)
    else if date.month < 12 then Date(date.year, date.month + 1, 1)
    else Date(date.year + 1, 1, 1)
  }

  lemma NextDayCounts(date: Date)
    requires ValidDate(date)
    ensures NaiveDays(NextDay(date)) == NaiveDays(date) + 1
  {
    hide DaysToYear, DaysInMonth;
    YearStep(date.year);
    assert DaysOfMonths(date.year, date.month)
        == DaysOfMonths(date.year, date.month - 1) + DaysInMonth(date.year, date.month);
    assert DaysOfMonths(date.year + 1, 0) == 0;
  }

  /** The next day of the calendar adds one, across month ends, leap years, and eras. */
  lemma NextDayAddsOne(date: Date)
    requires ValidDate(date)
    ensures DaysFromCivil(NextDay(date)) == DaysFromCivil(date) + 1
  {
    hide DaysFromCivil, NaiveDays, NextDay;
    CivilIsNaive(date);
    CivilIsNaive(NextDay(date));
    NextDayCounts(date);
  }

  predicate Earlier(a: Date, b: Date) {
    a.year < b.year || (a.year == b.year && (a.month < b.month || (a.month == b.month && a.day < b.day)))
  }

  lemma {:induction false} YearsAscend(a: nat, b: nat)
    requires a < b
    ensures DaysToYear(a) + DaysOfMonths(a, 12) <= DaysToYear(b)
    decreases b - a
  {
    YearStep(a);
    if a + 1 < b {
      YearsAscend(a + 1, b);
    }
  }

  lemma {:induction false} MonthsAscend(year: nat, a: nat, b: nat)
    requires a <= b
    ensures DaysOfMonths(year, a) <= DaysOfMonths(year, b)
    decreases b
  {
    if a < b {
      MonthsAscend(year, a, b - 1);
    }
  }

  /** A later date has a larger count, so no two dates share one. */
  lemma CivilAscends(a: Date, b: Date)
    requires ValidDate(a) && ValidDate(b) && Earlier(a, b)
    ensures DaysFromCivil(a) < DaysFromCivil(b)
  {
    hide DaysFromCivil, DaysInMonth, DaysToYear;
    CivilIsNaive(a);
    CivilIsNaive(b);
    if a.year < b.year {
      YearsAscend(a.year, b.year);
      MonthsAscend(a.year, a.month, 12);
      MonthsAscend(b.year, 0, b.month - 1);
    } else if a.month < b.month {
      MonthsAscend(a.year, a.month, b.month - 1);
    }
  }

  /** The date `n` days behind 1970-01-01, day by day. */
  function DateAfter(n: nat): (date: Date)
    ensures ValidDate(date)
  {
    if n == 0 then Date(1970, 1, 1) else NextDay(DateAfter(n - 1))
  }

  /** The count is the number of days that lead to a date, and it leads to every date since 1970. */
  lemma {:induction false} CivilCountsDays(n: nat)
    ensures DaysFromCivil(DateAfter(n)) == n
  {
    hide DaysFromCivil, NextDay;
    if n == 0 {
      EpochIsZero();
    } else {
      CivilCountsDays(n - 1);
      NextDayAddsOne(DateAfter(n - 1));
    }
  }

  lemma EpochIsZero()
    ensures DaysFromCivil(Date(1970, 1, 1)) == 0
  {
  }

  lemma EveryDateIsReached(date: Date)
    requires ValidDate(date) && date.year >= 1970
    ensures DaysFromCivil(date) >= 0 && DateAfter(DaysFromCivil(date)) == date
  {
    hide DaysFromCivil, DateAfter;
    EpochIsZero();
    if date != Date(1970, 1, 1) {
      CivilAscends(Date(1970, 1, 1), date);
    }
    var other := DateAfter(DaysFromCivil(date));
    CivilCountsDays(DaysFromCivil(date));
    if Earlier(other, date) {
      CivilAscends(other, date);
    } else if Earlier(date, other) {
      CivilAscends(date, other);
    }
  }

  // The text of a date.

  const DAYS := ["Mon", "Tue", "Wed", "Thu", "Fri", "Sat", "Sun"]
  const MONTHS := ["Jan", "Feb", "Mar", "Apr", "May", "Jun", "Jul", "Aug", "Sep", "Oct", "Nov", "Dec"]

  /** The index of the first name that equals `text`. */
  function Position(names: seq<string>, text: string): (position: Option<nat>)
    ensures position.Some? ==> position.value < |names| && names[position.value] == text
    ensures position.None? ==> text !in names
    decreases |names|
  {
    if |names| == 0 then None
    else if names[0] == text then Some(0)
    else
      match Position(names[1..], text)
      case None => None
      case Some(position) => Some(position + 1)
  }

  predicate IsDigit(c: char) {
    '0' <= c <= '9'
  }

  /** The value of decimal digits, or None for another byte. */
  function Digits(text: string): Option<nat> {
    if |text| == 0 then Some(0)
    else
      var last := text[|text| - 1];
      match Digits(text[..|text| - 1])
      case None => None
      case Some(value) => if IsDigit(last) then Some(10 * value + (last as int - '0' as int)) else None
  }

  /** A number as the standard library of the source parses it: a plus sign can come first. No range here overflows. */
  function Number(text: string): Option<nat> {
    var digits := if |text| > 1 && text[0] == '+' then text[1..] else text;
    if digits == "" then None else Digits(digits)
  }

  /** The date and the time of a text, or None. The name of the weekday is read but not compared with the date. */
  function ImfFields(text: string): Option<(Date, Time)> {
    if |text| != 29 || text[3..5] != ", " || text[25..] != " GMT" then None
    else if text[7] != ' ' || text[11] != ' ' || text[16] != ' ' || text[19] != ':' || text[22] != ':' then None
    else if text[0..3] !in DAYS then None
    else
      var month := Position(MONTHS, text[8..11]);
      var day, year := Number(text[5..7]), Number(text[12..16]);
      var hour, minute, second := Number(text[17..19]), Number(text[20..22]), Number(text[23..25]);
      if month.None? || day.None? || year.None? || hour.None? || minute.None? || second.None? then None
      else
        var date := Date(year.value, month.value + 1, day.value);
        var time := Time(hour.value, minute.value, second.value);
        if date.day == 0 || date.day > DaysInMonth(date.year, date.month) || !ValidTime(time) then None
        else Some((date, time))
  }

  /** A leap second is valid. */
  predicate ValidTime(time: Time) {
    time.hour <= 23 && time.minute <= 59 && time.second <= 60
  }

  function EpochSecond(date: Date, time: Time): int {
    DaysFromCivil(date) * 86_400 + time.hour * 3600 + time.minute * 60 + time.second
  }

  function ImfFixdate(text: string): Option<int> {
    match ImfFields(text)
    case None => None
    case Some((date, time)) => Some(EpochSecond(date, time))
  }

  // The printed form.

  function DigitChar(n: nat): (c: char)
    requires n < 10
    ensures IsDigit(c) && c as int - '0' as int == n
  {
    ('0' as int + n) as char
  }

  function Two(n: nat): (text: string)
    requires n < 100
    ensures |text| == 2
  {
    [DigitChar(n / 10), DigitChar(n % 10)]
  }

  function Four(n: nat): (text: string)
    requires n < 10_000
    ensures |text| == 4
  {
    Two(n / 100) + Two(n % 100)
  }

  /** The fields of a date in their places. */
  function Assemble(weekday: string, day: string, month: string, year: string, hour: string, minute: string,
                    second: string): (text: string)
  {
    weekday + ", " + day + " " + month + " " + year + " " + hour + ":" + minute + ":" + second + " GMT"
  }

  predicate Sized(weekday: string, day: string, month: string, year: string, hour: string, minute: string,
                  second: string)
  {
    |weekday| == 3 && |day| == 2 && |month| == 3 && |year| == 4 && |hour| == 2 && |minute| == 2 && |second| == 2
  }

  lemma AssembledFields(weekday: string, day: string, month: string, year: string, hour: string, minute: string,
                        second: string)
    requires Sized(weekday, day, month, year, hour, minute, second)
    ensures var text := Assemble(weekday, day, month, year, hour, minute, second);
      && |text| == 29 && text[0..3] == weekday && text[3..5] == ", " && text[5..7] == day && text[7] == ' '
      && text[8..11] == month && text[11] == ' ' && text[12..16] == year && text[16] == ' '
      && text[17..19] == hour && text[19] == ':' && text[20..22] == minute && text[22] == ':'
      && text[23..25] == second && text[25..] == " GMT"
  {
  }

  /** A text with the separators of a date is the assembly of its fields. */
  lemma FieldsAssemble(text: string)
    requires |text| == 29 && text[3..5] == ", " && text[25..] == " GMT"
    requires text[7] == ' ' && text[11] == ' ' && text[16] == ' ' && text[19] == ':' && text[22] == ':'
    ensures text
      == Assemble(text[0..3], text[5..7], text[8..11], text[12..16], text[17..19], text[20..22], text[23..25])
  {
    assert text[3..5][0] == ',' && text[3..5][1] == ' ';
    assert forall k :: 0 <= k < 4 ==> text[25 + k] == " GMT"[k];
    AssembledFields(text[0..3], text[5..7], text[8..11], text[12..16], text[17..19], text[20..22], text[23..25]);
  }

  /** The IMF-fixdate of a date and a time, with any weekday. */
  function PrintDate(weekday: nat, date: Date, time: Time): (text: string)
    requires weekday < 7 && ValidDate(date) && date.year < 10_000 && ValidTime(time)
  {
    Assemble(DAYS[weekday], Two(date.day), MONTHS[date.month - 1], Four(date.year),
             Two(time.hour), Two(time.minute), Two(time.second))
  }

  lemma DigitsNext(text: string, c: char)
    ensures Digits(text + [c]) == if Digits(text).Some? && IsDigit(c)
      then Some(10 * Digits(text).value + (c as int - '0' as int)) else None
  {
    assert (text + [c])[..|text|] == text;
  }

  lemma TwoReads(n: nat)
    requires n < 100
    ensures Number(Two(n)) == Some(n)
  {
    var text := Two(n);
    assert text == [] + [text[0]] + [text[1]];
    DigitsNext([], text[0]);
    DigitsNext([] + [text[0]], text[1]);
  }

  lemma FourReads(n: nat)
    requires n < 10_000
    ensures Number(Four(n)) == Some(n)
  {
    var text := Four(n);
    assert text == [] + [text[0]] + [text[1]] + [text[2]] + [text[3]];
    DigitsNext([], text[0]);
    DigitsNext([] + [text[0]], text[1]);
    DigitsNext([] + [text[0]] + [text[1]], text[2]);
    DigitsNext([] + [text[0]] + [text[1]] + [text[2]], text[3]);
  }

  lemma TwoPrints(text: string)
    requires |text| == 2 && Digits(text).Some?
    ensures Digits(text).value < 100 && Two(Digits(text).value) == text
  {
    assert text == [] + [text[0]] + [text[1]];
    DigitsNext([], text[0]);
    DigitsNext([] + [text[0]], text[1]);
  }

  lemma DigitsJoin(a: string, b: string)
    requires |b| == 2
    ensures Digits(a + b) == if Digits(a).Some? && Digits(b).Some?
      then Some(100 * Digits(a).value + Digits(b).value) else None
  {
    hide Digits;
    assert a + b == a + [b[0]] + [b[1]] && b == [] + [b[0]] + [b[1]];
    DigitsNext(a, b[0]);
    DigitsNext(a + [b[0]], b[1]);
    DigitsNext([], b[0]);
    DigitsNext([] + [b[0]], b[1]);
    NoDigits();
  }

  lemma NoDigits()
    ensures Digits("") == Some(0)
  {
  }

  lemma FourPrints(text: string)
    requires |text| == 4 && Digits(text).Some?
    ensures Digits(text).value < 10_000 && Four(Digits(text).value) == text
  {
    hide Digits, Two;
    var a, b := text[..2], text[2..];
    assert text == a + b;
    DigitsJoin(a, b);
    TwoPrints(a);
    TwoPrints(b);
    var x, y := Digits(a).value, Digits(b).value;
    assert (100 * x + y) / 100 == x && (100 * x + y) % 100 == y;
  }

  lemma MonthPosition(month: nat)
    requires month < 12
    ensures Position(MONTHS, MONTHS[month]) == Some(month)
  {
    assert forall i, j :: 0 <= i < j < 12 ==> MONTHS[i] != MONTHS[j];
  }

  /** A printed date reads as its own date and time, and so as its epoch second. */
  lemma PrintedDateReads(weekday: nat, date: Date, time: Time)
    requires weekday < 7 && ValidDate(date) && date.year < 10_000 && ValidTime(time)
    ensures ImfFields(PrintDate(weekday, date, time)) == Some((date, time))
    ensures ImfFixdate(PrintDate(weekday, date, time)) == Some(NaiveDays(date) * 86_400
      + time.hour * 3600 + time.minute * 60 + time.second)
  {
    hide Assemble, Two, Four, Number, Position, DaysFromCivil, NaiveDays;
    AssembledFields(DAYS[weekday], Two(date.day), MONTHS[date.month - 1], Four(date.year),
                    Two(time.hour), Two(time.minute), Two(time.second));
    TwoReads(date.day);
    FourReads(date.year);
    TwoReads(time.hour);
    TwoReads(time.minute);
    TwoReads(time.second);
    MonthPosition(date.month - 1);
    CivilIsNaive(date);
  }

  /** No number starts with a plus sign. */
  predicate NoPlus(text: string)
    requires |text| == 29
  {
    text[5] != '+' && text[12] != '+' && text[17] != '+' && text[20] != '+' && text[23] != '+'
  }

  /** The weekday of a date, from Monday as 0. The first of January 1970 was a Thursday. */
  function Weekday(date: Date): (weekday: nat)
    ensures weekday < 7
  {
    (DaysFromCivil(date) + 3) % 7
  }

  /** The weekdays follow each other day by day. */
  lemma WeekdaysFollow(date: Date)
    requires ValidDate(date)
    ensures Weekday(Date(1970, 1, 1)) == 3
    ensures Weekday(NextDay(date)) == if Weekday(date) == 6 then 0 else Weekday(date) + 1
  {
    hide DaysFromCivil;
    EpochIsZero();
    NextDayAddsOne(date);
  }

  /** The text prints its own date in full: no plus sign, and the weekday of the date. */
  predicate Canonical(text: string, date: Date)
    requires |text| == 29
  {
    NoPlus(text) && text[0..3] == DAYS[Weekday(date)]
  }

  lemma NumberOfTwo(text: string)
    requires |text| == 2 && Number(text).Some?
    ensures Number(text).value < 100
    ensures Two(Number(text).value) == text <==> text[0] != '+'
  {
    if text[0] == '+' {
      assert text[1..] == [] + [text[1]];
      DigitsNext([], text[1]);
    } else {
      TwoPrints(text);
    }
  }

  lemma NumberOfFour(text: string)
    requires |text| == 4 && Number(text).Some?
    ensures Number(text).value < 10_000
    ensures Four(Number(text).value) == text <==> text[0] != '+'
  {
    if text[0] == '+' {
      var digits := text[1..];
      assert digits == [] + [digits[0]] + [digits[1]] + [digits[2]];
      DigitsNext([], digits[0]);
      DigitsNext([] + [digits[0]], digits[1]);
      DigitsNext([] + [digits[0]] + [digits[1]], digits[2]);
      assert Four(Number(text).value)[0] != '+';
    } else {
      FourPrints(text);
    }
  }

  /**
   * A text that reads as a date is the IMF-fixdate of that date and time exactly when no number in it starts with a
   * plus sign and it names the weekday of the date.
   */
  lemma ReadsPrintedDates(text: string)
    requires ImfFields(text).Some?
    ensures |text| == 29
    ensures var (date, time) := ImfFields(text).value;
      && ValidDate(date) && date.year < 10_000 && ValidTime(time)
      && (text == PrintDate(Weekday(date), date, time) <==> Canonical(text, date))
  {
    hide Assemble, Two, Four, Number, Position, Weekday;
    var (date, time) := ImfFields(text).value;
    NumberOfTwo(text[5..7]);
    NumberOfFour(text[12..16]);
    NumberOfTwo(text[17..19]);
    NumberOfTwo(text[20..22]);
    NumberOfTwo(text[23..25]);
    FieldsAssemble(text);
    AssembledFields(DAYS[Weekday(date)], Two(date.day), MONTHS[date.month - 1], Four(date.year),
                    Two(time.hour), Two(time.minute), Two(time.second));
  }

  /** Two texts that read as a date and are not its printed form: one names another weekday, one has a plus sign. */
  lemma LooseDateReads()
    ensures Weekday(Date(1994, 11, 6)) == 6
    ensures ImfFixdate("Mon, 06 Nov 1994 08:49:37 GMT") == Some(784_111_777)
    ensures ImfFixdate("Sun, +6 Nov 1994 08:49:37 GMT") == Some(784_111_777)
  {
    hide Number, DaysFromCivil, Assemble, Position;
    var date, time := Date(1994, 11, 6), Time(8, 49, 37);
    LooseTexts();
    LooseNumbers();
    AssembledFields("Mon", "06", "Nov", "1994", "08", "49", "37");
    AssembledFields("Sun", "+6", "Nov", "1994", "08", "49", "37");
    MonthPosition(10);
    assert "Mon" == DAYS[0] && "Sun" == DAYS[6];
    assert EpochSecond(date, time) == 784_111_777;
  }

  lemma LooseTexts()
    ensures "Mon, 06 Nov 1994 08:49:37 GMT" == Assemble("Mon", "06", "Nov", "1994", "08", "49", "37")
    ensures "Sun, +6 Nov 1994 08:49:37 GMT" == Assemble("Sun", "+6", "Nov", "1994", "08", "49", "37")
  {
  }

  lemma LooseNumbers()
    ensures Number("+6") == Number("06") == Some(6) && Number("1994") == Some(1994)
    ensures Number("08") == Some(8) && Number("49") == Some(49) && Number("37") == Some(37)
    ensures DaysFromCivil(Date(1994, 11, 6)) == 9075
  {
    DigitsNext("", '6');
    assert "+6"[1..] == "" + ['6'];
    TwoReads(6);
    TwoReads(8);
    TwoReads(49);
    TwoReads(37);
    FourReads(1994);
    assert Two(6) == "06" && Two(8) == "08" && Two(49) == "49" && Two(37) == "37" && Four(1994) == "1994";
  }

  // The delay that a server asks for.

  const U64_MAX: nat := 0xFFFF_FFFF_FFFF_FFFF

  /**
   * The delay in milliseconds of a retry-after value. `decimal` is its reading as a number of seconds, if it is one.
   */
  function RetryAfterMs(decimal: Option<nat>, text: string, now: int): Option<nat> {
    match decimal
    case Some(ms) => Some(ms)
    case None =>
      match ImfFixdate(text)
      case None => None
      case Some(at) =>
        if at <= now then Some(0)
        else Some(if (at - now) * 1000 <= U64_MAX then (at - now) * 1000 else U64_MAX)
  }

  /** A client that waits as a printed date asks does not repeat before that date, and waits no second longer. */
  lemma DateDelayReachesDate(weekday: nat, date: Date, time: Time, now: int)
    requires weekday < 7 && ValidDate(date) && date.year < 10_000 && ValidTime(time) && now >= 0
    ensures RetryAfterMs(None, PrintDate(weekday, date, time), now).Some?
    ensures var delay := RetryAfterMs(None, PrintDate(weekday, date, time), now).value;
      now * 1000 + delay == if EpochSecond(date, time) <= now then now * 1000 else EpochSecond(date, time) * 1000
  {
    hide PrintDate, DaysFromCivil;
    PrintedDateReads(weekday, date, time);
    CivilIsNaive(date);
    LateDates(date);
  }

  lemma LateDates(date: Date)
    requires ValidDate(date) && date.year < 10_000
    ensures DaysFromCivil(date) < 3_000_000
  {
    CivilIsNaive(date);
    YearsAreMarchDays(date.year);
    MonthsAscend(date.year, date.month - 1, 12);
    MonthTable(date.year, 13);
  }
}
