/**
 The text in which times are stored and compared by the claim query: `datetime.isoformat()` of a UTC
 instant, which leaves the fraction out when it is zero.
 */
module Timestamps {

  // ----- instants -----

  datatype Instant = Instant(year: nat, month: nat, day: nat, hour: nat, minute: nat, second: nat, micro: nat) {
    predicate Valid() {
      && 1 <= year <= 9999 && 1 <= month <= 12 && 1 <= day <= DaysInMonth(year, month)
      && hour < 24 && minute < 60 && second < 60 && micro < 1_000_000
    }
  }

  predicate LeapYear(year: nat) {
    year % 4 == 0 && (year % 100 != 0 || year % 400 == 0)
  }

  function DaysInMonth(year: nat, month: nat): nat {
    if month == 2 then (if LeapYear(year) then 29 else 28)
    else if month == 4 || month == 6 || month == 9 || month == 11 then 30
    else 31
  }

  /** Days of the year before the first of the month. */
  function DaysBeforeMonth(year: nat, month: nat): nat {
    if month <= 1 then 0 else DaysBeforeMonth(year, month - 1) + DaysInMonth(year, month - 1)
  }

  /** Days before the first of January. */
  function DaysBeforeYear(year: nat): nat {
    if year <= 1 then 0 else DaysBeforeYear(year - 1) + DaysBeforeMonth(year - 1, 13)
  }

  function DayNumber(i: Instant): nat {
    DaysBeforeYear(i.year) + DaysBeforeMonth(i.year, i.month) + i.day
  }

  /** Microseconds on the UTC time line. */
  function Micros(i: Instant): nat {
    (((DayNumber(i) * 24 + i.hour) * 60 + i.minute) * 60 + i.second) * 1_000_000 + i.micro
  }

  // ----- text -----

  function Digit(n: nat): char
    requires n < 10
  {
    ['0', '1', '2', '3', '4', '5', '6', '7', '8', '9'][n]
  }

  function Digits(n: nat, width: nat): (s: string)
    ensures |s| == width
  {
    if width == 0 then "" else Digits(n / 10, width - 1) + [Digit(n % 10)]
  }

  function Fraction(micro: nat): string {
    (if micro == 0 then "" else "." + Digits(micro, 6)) + "+00:00"
  }

  function IsoFormat(i: Instant): string {
    Digits(i.year, 4) + ("-" + (Digits(i.month, 2) + ("-" + (Digits(i.day, 2) + ("T" +
      (Digits(i.hour, 2) + (":" + (Digits(i.minute, 2) + (":" + (Digits(i.second, 2) + Fraction(i.micro)))))))))))
  }

  /** The number that decimal digits show. */
  function ReadNumber(s: string): int {
    if s == "" then 0 else 10 * ReadNumber(s[..|s| - 1]) + (s[|s| - 1] as int - '0' as int)
  }

  lemma {:induction false} DigitsShowTheNumber(n: nat, width: nat)
    requires n < PowerOfTen(width)
    ensures ReadNumber(Digits(n, width)) == n
    ensures forall c | c in Digits(n, width) :: '0' <= c <= '9'
  {
    if width > 0 {
      DigitsShowTheNumber(n / 10, width - 1);
      var s := Digits(n, width);
      assert s[..width - 1] == Digits(n / 10, width - 1) && s[width - 1] == Digit(n % 10);
    }
  }

  /** Three numbers of widths n, 2 and 2 with separators between them, and the rest. */
  lemma PlacesOfThree(a: string, b: string, c: string, x: char, rest: string)
    requires |b| == 2 && |c| == 2
    ensures var n := |a|;
            var text := a + ([x] + (b + ([x] + (c + rest))));
            && |text| == n + 6 + |rest|
            && text[..n] == a && text[n] == x && text[n + 1..n + 3] == b && text[n + 3] == x && text[n + 4..n + 6] == c
            && text[n + 6..] == rest
  {
  }

  /** The date is in front, the clock after the tenth character, the fraction and the offset after the nineteenth. */
  lemma PartsOfText(i: Instant)
    ensures var text := IsoFormat(i);
            && |text| == 19 + |Fraction(i.micro)|
            && text[..4] == Digits(i.year, 4) && text[4] == '-' && text[5..7] == Digits(i.month, 2)
            && text[7] == '-' && text[8..10] == Digits(i.day, 2) && text[10] == 'T'
            && text[11..13] == Digits(i.hour, 2) && text[13] == ':' && text[14..16] == Digits(i.minute, 2)
            && text[16] == ':' && text[17..19] == Digits(i.second, 2) && text[19..] == Fraction(i.micro)
  {
    hide Digits, Fraction;
    var text := IsoFormat(i);
    var clock := Digits(i.hour, 2) + ([':'] + (Digits(i.minute, 2) + ([':'] + (Digits(i.second, 2) + Fraction(i.micro)))));
    PlacesOfThree(Digits(i.year, 4), Digits(i.month, 2), Digits(i.day, 2), '-', "T" + clock);
    PlacesOfThree(Digits(i.hour, 2), Digits(i.minute, 2), Digits(i.second, 2), ':', Fraction(i.micro));
    assert text[10..] == "T" + clock;
    assert text[10] == text[10..][0];
    assert text[11..] == clock by {
      assert text[11..] == text[10..][1..];
    }
    AfterPlace(text, 11, clock);
  }

  lemma AfterPlace(text: string, n: nat, rest: string)
    requires n <= |text| && text[n..] == rest && |rest| >= 8
    ensures text[n..n + 2] == rest[..2] && text[n + 2] == rest[2] && text[n + 3..n + 5] == rest[3..5]
    ensures text[n + 5] == rest[5] && text[n + 6..n + 8] == rest[6..8] && text[n + 8..] == rest[8..]
  {
    assert forall k | 0 <= k < |rest| :: rest[k] == text[n + k];
  }

  lemma FractionShows(micro: nat)
    requires 0 < micro < 1_000_000
    ensures var text := Fraction(micro);
            |text| == 13 && text[0] == '.' && ReadNumber(text[1..7]) == micro && text[7..] == "+00:00"
  {
    hide Digits, ReadNumber;
    assert PowerOfTen(6) == 1_000_000;
    DigitsShowTheNumber(micro, 6);
    assert Fraction(micro)[1..7] == Digits(micro, 6);
  }

  /** Every field of the instant can be read off its place; a fraction is there unless it is zero. */
  lemma TextShowsTheInstant(i: Instant)
    requires i.Valid()
    ensures var text := IsoFormat(i);
            && |text| == (if i.micro == 0 then 25 else 32)
            && text[4] == '-' && text[7] == '-' && text[10] == 'T' && text[13] == ':' && text[16] == ':'
            && ReadNumber(text[..4]) == i.year && ReadNumber(text[5..7]) == i.month && ReadNumber(text[8..10]) == i.day
            && ReadNumber(text[11..13]) == i.hour && ReadNumber(text[14..16]) == i.minute
            && ReadNumber(text[17..19]) == i.second
            && (if i.micro == 0 then text[19..] == "+00:00"
                else text[19] == '.' && ReadNumber(text[19..][1..7]) == i.micro && text[19..][7..] == "+00:00")
  {
    hide ReadNumber, Digits, IsoFormat;
    assert PowerOfTen(2) == 100 && PowerOfTen(4) == 10_000;
    PartsOfText(i);
    DigitsShowTheNumber(i.year, 4);
    DigitsShowTheNumber(i.month, 2);
    DigitsShowTheNumber(i.day, 2);
    DigitsShowTheNumber(i.hour, 2);
    DigitsShowTheNumber(i.minute, 2);
    DigitsShowTheNumber(i.second, 2);
    if i.micro == 0 {
      assert Fraction(0) == "+00:00";
    } else {
      FractionShows(i.micro);
      assert IsoFormat(i)[19] == IsoFormat(i)[19..][0];
    }
  }

  /** The order in which the database compares texts. */
  predicate TextLess(a: string, b: string) {
    if b == "" then false
    else if a == "" then true
    else if a[0] != b[0] then a[0] < b[0]
    else TextLess(a[1..], b[1..])
  }

  // ----- comparing texts piece by piece -----

  lemma {:induction false} TextLessPieces(p: string, q: string, x: string, y: string)
    requires |p| == |q|
    ensures TextLess(p + x, q + y) <==> TextLess(p, q) || (p == q && TextLess(x, y))
  {
    if p == "" {
      assert p + x == x && q + y == y;
    } else {
      assert (p + x)[1..] == p[1..] + x && (q + y)[1..] == q[1..] + y;
      TextLessPieces(p[1..], q[1..], x, y);
      assert p == q <==> p[0] == q[0] && p[1..] == q[1..];
    }
  }

  function PowerOfTen(n: nat): nat {
    if n == 0 then 1 else 10 * PowerOfTen(n - 1)
  }

  /** Digits of a fixed width are ordered like the numbers they show. */
  lemma {:induction false} DigitsOrdered(m: nat, n: nat, width: nat)
    requires m < PowerOfTen(width) && n < PowerOfTen(width)
    ensures TextLess(Digits(m, width), Digits(n, width)) <==> m < n
    ensures Digits(m, width) == Digits(n, width) <==> m == n
  {
    if width > 0 {
      DigitsOrdered(m / 10, n / 10, width - 1);
      var a, b := [Digit(m % 10)], [Digit(n % 10)];
      TextLessPieces(Digits(m / 10, width - 1), Digits(n / 10, width - 1), a, b);
      assert TextLess(a, b) <==> m % 10 < n % 10;
      assert Digits(m, width)[..width - 1] == Digits(m / 10, width - 1) && Digits(m, width)[width - 1] == a[0];
      assert Digits(n, width)[..width - 1] == Digits(n / 10, width - 1) && Digits(n, width)[width - 1] == b[0];
    }
  }

  lemma Piece(m: nat, n: nat, width: nat, x: string, y: string)
    requires m < PowerOfTen(width) && n < PowerOfTen(width)
    ensures TextLess(Digits(m, width) + x, Digits(n, width) + y) <==> m < n || (m == n && TextLess(x, y))
  {
    DigitsOrdered(m, n, width);
    TextLessPieces(Digits(m, width), Digits(n, width), x, y);
  }

  lemma {:induction false} NotLessThanItself(s: string)
    ensures !TextLess(s, s)
  {
    if s != "" {
      NotLessThanItself(s[1..]);
    }
  }

  lemma SeparatedPiece(m: nat, n: nat, separator: char, width: nat, x: string, y: string)
    requires m < PowerOfTen(width) && n < PowerOfTen(width)
    ensures TextLess([separator] + (Digits(m, width) + x), [separator] + (Digits(n, width) + y)) <==> m < n || (m == n && TextLess(x, y))
  {
    Piece(m, n, width, x, y);
    TextLessPieces([separator], [separator], Digits(m, width) + x, Digits(n, width) + y);
    NotLessThanItself([separator]);
  }

  lemma FractionText(n: nat)
    requires n > 0
    ensures Fraction(n) == ['.'] + (Digits(n, 6) + "+00:00")
  {
    assert "." + Digits(n, 6) + "+00:00" == ['.'] + (Digits(n, 6) + "+00:00");
  }

  /** The omitted fraction sorts first because '+' comes before '.'. */
  lemma FractionOrdered(m: nat, n: nat)
    requires m < 1_000_000 && n < 1_000_000
    ensures TextLess(Fraction(m), Fraction(n)) <==> m < n
  {
    hide Digits;
    assert PowerOfTen(6) == 1_000_000;
    assert Fraction(0) == "+00:00";
    if m > 0 { FractionText(m); }
    if n > 0 { FractionText(n); }
    if m > 0 && n > 0 {
      SeparatedPiece(m, n, '.', 6, "+00:00", "+00:00");
    }
    NotLessThanItself("+00:00");
  }

  /** Field by field, most significant first. */
  predicate FieldsLess(a: Instant, b: Instant) {
    || a.year < b.year
    || (a.year == b.year && (a.month < b.month
    || (a.month == b.month && (a.day < b.day
    || (a.day == b.day && (a.hour < b.hour
    || (a.hour == b.hour && (a.minute < b.minute
    || (a.minute == b.minute && (a.second < b.second
    || (a.second == b.second && a.micro < b.micro)))))))))))
  }

  function ClockText(i: Instant): string {
    "T" + (Digits(i.hour, 2) + (":" + (Digits(i.minute, 2) + (":" + (Digits(i.second, 2) + Fraction(i.micro))))))
  }

  lemma ClockTextOrdered(a: Instant, b: Instant)
    requires a.Valid() && b.Valid()
    ensures TextLess(ClockText(a), ClockText(b)) <==>
            a.hour < b.hour || (a.hour == b.hour && (a.minute < b.minute
            || (a.minute == b.minute && (a.second < b.second || (a.second == b.second && a.micro < b.micro)))))
  {
    assert PowerOfTen(2) == 100;
    FractionOrdered(a.micro, b.micro);
    SeparatedPiece(a.second, b.second, ':', 2, Fraction(a.micro), Fraction(b.micro));
    var sa, sb := ":" + (Digits(a.second, 2) + Fraction(a.micro)), ":" + (Digits(b.second, 2) + Fraction(b.micro));
    SeparatedPiece(a.minute, b.minute, ':', 2, sa, sb);
    SeparatedPiece(a.hour, b.hour, 'T', 2, ":" + (Digits(a.minute, 2) + sa), ":" + (Digits(b.minute, 2) + sb));
  }

  lemma TextOrderIsFieldOrder(a: Instant, b: Instant)
    requires a.Valid() && b.Valid()
    ensures TextLess(IsoFormat(a), IsoFormat(b)) <==> FieldsLess(a, b)
  {
    hide TextLess, Digits, Fraction;
    assert PowerOfTen(2) == 100 && PowerOfTen(4) == 10_000;
    ClockTextOrdered(a, b);
    SeparatedPiece(a.day, b.day, '-', 2, ClockText(a), ClockText(b));
    var da, db := "-" + (Digits(a.day, 2) + ClockText(a)), "-" + (Digits(b.day, 2) + ClockText(b));
    SeparatedPiece(a.month, b.month, '-', 2, da, db);
    Piece(a.year, b.year, 4, "-" + (Digits(a.month, 2) + da), "-" + (Digits(b.month, 2) + db));
  }

  // ----- the calendar -----

  lemma {:induction false} MonthsInOrder(year: nat, m: nat, n: nat)
    requires 1 <= m < n
    ensures DaysBeforeMonth(year, m) + DaysInMonth(year, m) <= DaysBeforeMonth(year, n)
    decreases n
  {
    if m < n - 1 {
      MonthsInOrder(year, m, n - 1);
    }
  }

  lemma {:induction false} YearsInOrder(y: nat, z: nat)
    requires 1 <= y < z
    ensures DaysBeforeYear(y) + DaysBeforeMonth(y, 13) <= DaysBeforeYear(z)
    decreases z
  {
    hide DaysBeforeMonth;
    if y < z - 1 {
      YearsInOrder(y, z - 1);
    }
  }

  /** The days of a date lie between the starts of its month and the next, of its year and the next. */
  lemma DayInYear(a: Instant)
    requires a.Valid()
    ensures DaysBeforeYear(a.year) < DayNumber(a) <= DaysBeforeYear(a.year) + DaysBeforeMonth(a.year, 13)
  {
    MonthsInOrder(a.year, a.month, 13);
  }

  predicate DateLess(a: Instant, b: Instant) {
    a.year < b.year || (a.year == b.year && (a.month < b.month || (a.month == b.month && a.day < b.day)))
  }

  lemma EarlierDate(a: Instant, b: Instant)
    requires a.Valid() && b.Valid() && DateLess(a, b)
    ensures DayNumber(a) < DayNumber(b)
  {
    if a.year < b.year {
      DayInYear(a);
      DayInYear(b);
      YearsInOrder(a.year, b.year);
    } else if a.month < b.month {
      MonthsInOrder(a.year, a.month, b.month);
    }
  }

  lemma DateOrder(a: Instant, b: Instant)
    requires a.Valid() && b.Valid()
    ensures DayNumber(a) < DayNumber(b) <==> DateLess(a, b)
    ensures DayNumber(a) == DayNumber(b) <==> a.year == b.year && a.month == b.month && a.day == b.day
  {
    if DateLess(a, b) {
      EarlierDate(a, b);
    } else if DateLess(b, a) {
      EarlierDate(b, a);
    }
  }

  /** Text order is time order, for all instants. */
  lemma TextOrderIsTimeOrder(a: Instant, b: Instant)
    requires a.Valid() && b.Valid()
    ensures TextLess(IsoFormat(a), IsoFormat(b)) <==> Micros(a) < Micros(b)
  {
    hide TextLess, IsoFormat, DayNumber;
    TextOrderIsFieldOrder(a, b);
    DateOrder(a, b);
  }
}
