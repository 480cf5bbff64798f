/**
 The directory's order is that of the calendar and the clock, and the text of a cursor
 is what RFC 3339 and RFC 4648 say it is.
 */
module CursorOrder {

  import opened Basics
  import opened Cursor

  // ---------------------------------------------------------- chronological

  /** The first field that differs is smaller. */
  predicate Earlier(a: Stamp, b: Stamp) {
    if a.year != b.year then a.year < b.year
    else if a.month != b.month then a.month < b.month
    else if a.day != b.day then a.day < b.day
    else if a.hour != b.hour then a.hour < b.hour
    else if a.minute != b.minute then a.minute < b.minute
    else if a.second != b.second then a.second < b.second
    else a.nanos < b.nanos
  }

  /** The ids first differ in a smaller byte, or the one goes on where the other ends. */
  ghost predicate Lower(a: seq<byte>, b: seq<byte>) {
    exists k: nat :: SplitAt(a, b, k)
  }

  predicate SplitAt(a: seq<byte>, b: seq<byte>, k: nat) {
    && k <= |a| && k < |b| && a[..k] == b[..k]
    && (k < |a| ==> a[k] < b[k])
  }

  function DayNumber(s: Stamp): nat { (s.year * 13 + s.month) * 32 + s.day }

  function MinuteNumber(s: Stamp): nat { (DayNumber(s) * 24 + s.hour) * 60 + s.minute }

  lemma DaysInOrder(a: Stamp, b: Stamp)
    requires ValidStamp(a) && ValidStamp(b)
    ensures DayNumber(a) < DayNumber(b) <==>
            a.year < b.year || (a.year == b.year && (a.month < b.month || (a.month == b.month && a.day < b.day)))
    ensures DayNumber(a) == DayNumber(b) <==> a.year == b.year && a.month == b.month && a.day == b.day
  {
    assert a.day < 32 && b.day < 32;
  }

  lemma MinutesInOrder(a: Stamp, b: Stamp)
    requires ValidStamp(a) && ValidStamp(b)
    ensures MinuteNumber(a) < MinuteNumber(b) <==>
            DayNumber(a) < DayNumber(b)
            || (DayNumber(a) == DayNumber(b) && (a.hour < b.hour || (a.hour == b.hour && a.minute < b.minute)))
    ensures MinuteNumber(a) == MinuteNumber(b) <==>
              DayNumber(a) == DayNumber(b) && a.hour == b.hour && a.minute == b.minute
  {
  }

  lemma InstantsInOrder(a: Stamp, b: Stamp)
    requires ValidStamp(a) && ValidStamp(b)
    ensures Instant(a) < Instant(b) <==> Earlier(a, b)
  {
    DaysInOrder(a, b);
    MinutesInOrder(a, b);
    var x, y := a.second * 1_000_000_000 + a.nanos, b.second * 1_000_000_000 + b.nanos;
    assert x < 60_000_000_000 && y < 60_000_000_000;
    assert Instant(a) == MinuteNumber(a) * 60_000_000_000 + x && Instant(b) == MinuteNumber(b) * 60_000_000_000 + y;
  }

  lemma StartsAlike(a: seq<byte>, b: seq<byte>, k: nat)
    requires SplitAt(a, b, k)
    ensures if k == 0 then a != [] ==> a[0] < b[0] else a[0] == b[0]
  {
    assert k > 0 ==> a[..k][0] == a[0] && b[..k][0] == b[0];
  }

  lemma {:induction false} LessIsLower(a: seq<byte>, b: seq<byte>)
    ensures Less(a, b) <==> Lower(a, b)
  {
    if a == [] || b == [] {
      assert b != [] ==> SplitAt(a, b, 0);
    } else if a[0] != b[0] {
      assert a[0] < b[0] ==> SplitAt(a, b, 0);
      if Lower(a, b) {
        var k: nat :| SplitAt(a, b, k);
        StartsAlike(a, b, k);
      }
    } else {
      LessIsLower(a[1..], b[1..]);
      if Less(a, b) {
        var k: nat :| SplitAt(a[1..], b[1..], k);
        assert a[..k + 1] == [a[0]] + a[1..][..k] && b[..k + 1] == [b[0]] + b[1..][..k];
        assert SplitAt(a, b, k + 1);
      }
      if Lower(a, b) {
        var k: nat :| SplitAt(a, b, k);
        assert a[..k][1..] == a[1..][..k - 1] && b[..k][1..] == b[1..][..k - 1];
        assert SplitAt(a[1..], b[1..], k - 1);
      }
    }
  }

  /** A row belongs after the cursor exactly if it is the earlier by the first of year,
      month, day, hour, minute, second and nanosecond that differs, and at the same
      instant if its id is the lower one. */
  lemma BeforeIsEarlier(row: Keyset, cursor: Keyset)
    requires ValidStamp(row.at) && ValidStamp(cursor.at)
    ensures Before(row, cursor) <==>
              if row.at != cursor.at then Earlier(row.at, cursor.at) else Lower(row.id, cursor.id)
  {
    InstantsInOrder(row.at, cursor.at);
    InstantsInOrder(cursor.at, row.at);
    if Instant(row.at) == Instant(cursor.at) {
      InstantInjective(row.at, cursor.at);
      LessIsLower(row.id, cursor.id);
    }
  }

  // ------------------------------------------------------------ the calendar

  function DaysTo(month: nat, year: nat): nat {
    if month <= 1 then 0 else DaysTo(month - 1, year) + DaysIn(month - 1, year)
  }

  function DaysBefore(year: nat): nat {
    if year == 0 then 0 else DaysBefore(year - 1) + DaysTo(13, year - 1)
  }

  /** From March on the months have 153 days in every five. */
  lemma MonthLengths(month: nat, year: nat)
    requires 1 <= month <= 12 && month != 2
    ensures var n := (month + 9) % 12; DaysIn(month, year) == (153 * (n + 1) + 2) / 5 - (153 * n + 2) / 5
  {
  }

  lemma YearLength(year: nat)
    ensures DaysTo(13, year) == 337 + DaysIn(2, year)
  {
    assert DaysTo(1, year) == 0 && DaysTo(2, year) == 31 && DaysTo(3, year) == 31 + DaysIn(2, year);
    assert DaysTo(4, year) == DaysTo(3, year) + 31;
    assert DaysTo(5, year) == DaysTo(4, year) + 30;
    assert DaysTo(6, year) == DaysTo(5, year) + 31;
    assert DaysTo(7, year) == DaysTo(6, year) + 30;
    assert DaysTo(8, year) == DaysTo(7, year) + 31;
    assert DaysTo(9, year) == DaysTo(8, year) + 31;
    assert DaysTo(10, year) == DaysTo(9, year) + 30;
    assert DaysTo(11, year) == DaysTo(10, year) + 31;
    assert DaysTo(12, year) == DaysTo(11, year) + 30;
    assert DaysTo(13, year) == DaysTo(12, year) + 31;
  }

  /** A year in four, save a year in a hundred, unless it is the one in four hundred. */
  function LeapsBefore(year: nat): int { (year + 3) / 4 - (year + 99) / 100 + (year + 399) / 400 }

  ghost predicate Regular(year: nat) { DaysBefore(year) == 365 * year + LeapsBefore(year) }

  lemma NextRegular(year: nat)
    requires Regular(year)
    ensures Regular(year + 1)
  {
    YearLength(year);
    LeapDays(year);
  }

  lemma {:induction false} YearLengths(year: nat)
    ensures Regular(year)
  {
    if year > 0 {
      YearLengths(year - 1);
      NextRegular(year - 1);
    }
  }

  lemma LeapDays(year: nat)
    ensures LeapsBefore(year + 1) == LeapsBefore(year) + DaysIn(2, year) - 28
  {
    Fours(year);
    Hundreds(year);
    FourHundreds(year);
    Divides(year);
    assert DaysIn(2, year) == 28 + if Leap(year) then 1 else 0;
  }

  lemma Divides(n: nat)
    ensures n % 400 == 0 ==> n % 100 == 0
    ensures n % 100 == 0 ==> n % 4 == 0
  {
    var q, r := n / 400, n / 100;
    assert n % 400 == 0 ==> n == 100 * (4 * q);
    assert n % 100 == 0 ==> n == 4 * (25 * r);
  }

  lemma Fours(n: nat)
    ensures (n + 4) / 4 == (n + 3) / 4 + if n % 4 == 0 then 1 else 0
  {
  }

  lemma Hundreds(n: nat)
    ensures (n + 100) / 100 == (n + 99) / 100 + if n % 100 == 0 then 1 else 0
  {
  }

  lemma FourHundreds(n: nat)
    ensures (n + 400) / 400 == (n + 399) / 400 + if n % 400 == 0 then 1 else 0
  {
  }

  // ----------------------------------------------------------- the two texts

  lemma FormatPieces(s: Stamp)
    ensures var text := Format(s);
      && |text| >= 20 && text[..10] == Date(s) && text[10] == 'T' as int && text[11..19] == Clock(s)
      && text[19..|text| - 1] == Fraction(s.nanos) && text[|text| - 1] == 'Z' as int
  {
    var text := Format(s);
    assert text == Date(s) + ([TEE] + (Clock(s) + (Fraction(s.nanos) + [ZULU])));
  }

  lemma SliceOf(text: seq<byte>, from: nat, piece: seq<byte>, a: nat, b: nat)
    requires from + |piece| <= |text| && text[from..from + |piece|] == piece && a <= b <= |piece|
    ensures text[from + a..from + b] == piece[a..b]
  {
    forall i | a <= i < b ensures text[from + i] == piece[i] {
      assert text[from..from + |piece|][i] == text[from + i];
    }
  }

  lemma DateColumns(s: Stamp)
    requires ValidStamp(s)
    ensures var text := Format(s);
      && |text| >= 20 && text[4] == text[7] == '-' as int
      && AllDigits(text[..4]) && Value(text[..4]) == s.year
      && AllDigits(text[5..7]) && Value(text[5..7]) == s.month
      && AllDigits(text[8..10]) && Value(text[8..10]) == s.day
  {
    var text, date := Format(s), Date(s);
    FormatPieces(s);
    DateRoundTrip(s);
    assert text[0..0 + |date|] == date;
    SliceOf(text, 0, date, 0, 4);
    assert text[0 + 0..0 + 4] == text[..4] && date[0..4] == date[..4] && date[8..10] == date[8..];
    SliceOf(text, 0, date, 5, 7);
    SliceOf(text, 0, date, 8, 10);
    assert text[..10][4] == text[4] && text[..10][7] == text[7];
  }

  lemma ClockColumns(s: Stamp)
    requires ValidStamp(s)
    ensures var text := Format(s);
      && |text| >= 20 && text[13] == text[16] == ':' as int
      && AllDigits(text[11..13]) && Value(text[11..13]) == s.hour
      && AllDigits(text[14..16]) && Value(text[14..16]) == s.minute
      && AllDigits(text[17..19]) && Value(text[17..19]) == s.second
  {
    var text, clock := Format(s), Clock(s);
    FormatPieces(s);
    ClockRoundTrip(s);
    SliceOf(text, 11, clock, 0, 2);
    SliceOf(text, 11, clock, 3, 5);
    SliceOf(text, 11, clock, 6, 8);
    assert text[11..19][2] == text[13] && text[11..19][5] == text[16];
  }

  /** A stamp is written year first, each field in its columns, with the fraction, if
      there is one, behind a point, and the mark of UTC at the end. */
  lemma StampColumns(s: Stamp)
    requires ValidStamp(s)
    ensures var text := Format(s);
      && |text| >= 20 && text[4] == text[7] == '-' as int && text[10] == 'T' as int
      && text[13] == text[16] == ':' as int && text[|text| - 1] == 'Z' as int
      && AllDigits(text[..4]) && Value(text[..4]) == s.year
      && AllDigits(text[5..7]) && Value(text[5..7]) == s.month
      && AllDigits(text[8..10]) && Value(text[8..10]) == s.day
      && AllDigits(text[11..13]) && Value(text[11..13]) == s.hour
      && AllDigits(text[14..16]) && Value(text[14..16]) == s.minute
      && AllDigits(text[17..19]) && Value(text[17..19]) == s.second
      && (if s.nanos > 0 then text[19] == '.' as int else |text| == 20)
  {
    DateColumns(s);
    ClockColumns(s);
    FormatPieces(s);
    var text := Format(s);
    assert s.nanos > 0 ==> text[19..|text| - 1][0] == text[19];
  }

  lemma {:induction false} DigitsOfValue(digits: seq<byte>)
    requires AllDigits(digits)
    ensures Digits(Value(digits), |digits|) == digits
  {
    if digits != [] {
      var n := |digits| - 1;
      DigitsOfValue(digits[..n]);
      var d := digits[n] as int - 48;
      assert Value(digits) / 10 == Value(digits[..n]) && Value(digits) % 10 == d;
      assert digits == digits[..n] + [digits[n]];
    }
  }

  lemma DateRead(text: seq<byte>, s: Stamp)
    requires DateShaped(text) && s.year == Value(text[..4]) && s.month == Value(text[5..7]) && s.day == Value(text[8..])
    ensures Date(s) == text
  {
    DigitsOfValue(text[..4]);
    DigitsOfValue(text[5..7]);
    DigitsOfValue(text[8..]);
    assert text == text[..4] + [text[4]] + text[5..7] + [text[7]] + text[8..];
  }

  lemma ClockRead(text: seq<byte>, s: Stamp)
    requires ClockShaped(text)
    requires s.hour == Value(text[..2]) && s.minute == Value(text[3..5]) && s.second == Value(text[6..])
    ensures Clock(s) == text
  {
    DigitsOfValue(text[..2]);
    DigitsOfValue(text[3..5]);
    DigitsOfValue(text[6..]);
    assert text == text[..2] + [text[2]] + text[3..5] + [text[5]] + text[6..];
  }

  /** What reads as a stamp is a day of the calendar and a time of that day, written as
      the encoder writes it up to the end of the fraction. */
  lemma ReadStamps(text: seq<byte>)
    requires ParseStamp(text).Some?
    ensures var s := ParseStamp(text).value;
      && ValidStamp(s) && |text| >= 20 && text[..19] == Format(s)[..19] && text[|text| - 1] == 'Z' as int
      && (|text| > 20 ==> text[19] == '.' as int && |text| <= 30 && AllDigits(text[20..|text| - 1]))
  {
    var s, date, clock := ParseStamp(text).value, text[..10], text[11..19];
    DateRead(date, s);
    ClockRead(clock, s);
    FormatPieces(s);
    assert text[..19] == date + [TEE] + clock;
    assert Format(s)[..19] == Format(s)[..10] + [TEE] + Format(s)[11..19];
    var fraction := text[19..|text| - 1];
    assert fraction != [] ==> fraction[0] == text[19] && fraction[1..] == text[20..|text| - 1];
  }

  /** The url-safe alphabet of section 5 of RFC 4648: the capitals, the small letters and
      the digits, each in their order, and then the hyphen and the low line. */
  lemma Alphabet(v: sextet)
    ensures SextetChar(0) == 'A' && SextetChar(25) == 'Z' && SextetChar(26) == 'a' && SextetChar(51) == 'z'
    ensures SextetChar(52) == '0' && SextetChar(61) == '9' && SextetChar(62) == '-' && SextetChar(63) == '_'
    ensures v < 61 && v != 25 && v != 51 ==> SextetChar(v + 1) as int == SextetChar(v) as int + 1
  {
  }

  /** The first three test vectors of section 10 of RFC 4648, `f`, `fo` and `foo`, whose
      padding is left off, and one that meets the two letters the url-safe alphabet has
      to itself. */
  lemma TestVectors()
    ensures Encode64([102]) == "Zg" && Encode64([102, 111]) == "Zm8" && Encode64([102, 111, 111]) == "Zm9v"
    ensures Encode64([251, 240]) == "-_A"
  {
    assert Sextets([102]) == [25, 32];
    assert Sextets([102, 111]) == [25, 38, 60];
    assert Sextets([102, 111, 111]) == [25, 38, 61, 47] by {
      assert [102, 111, 111][3..] == [];
    }
    assert Sextets([251, 240]) == [62, 63, 0];
    assert SextetChar(25) == 'Z' && SextetChar(32) == 'g' && SextetChar(38) == 'm' && SextetChar(60) == '8';
    assert SextetChar(61) == '9' && SextetChar(47) == 'v' && SextetChar(0) == 'A';
    assert Encode64([102]) == "Zg" && Encode64([102, 111]) == "Zm8";
    assert Encode64([102, 111, 111]) == "Zm9v";
    assert Encode64([251, 240]) == "-_A";
  }
}
