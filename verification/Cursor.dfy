/**
 The directory's cursor: its order over (instant, thread id), and the text it
 travels as, an RFC 3339 stamp and an id behind a bar in base64url.

 A stamp is held by its UTC fields, which compare as the instants do. Ids are
 bytes, compared bytewise.
 */
module Cursor {

  import opened Basics

  type byte = n: int | 0 <= n < 256

  // --------------------------------------------------------------- the order

  datatype Stamp = Stamp(year: nat, month: nat, day: nat, hour: nat, minute: nat, second: nat, nanos: nat)

  predicate Leap(year: nat) { year % 4 == 0 && (year % 100 != 0 || year % 400 == 0) }

  function DaysIn(month: nat, year: nat): nat {
    if month == 2 then (if Leap(year) then 29 else 28) else if month in {4, 6, 9, 11} then 30 else 31
  }

  predicate ValidStamp(s: Stamp) {
    && s.year <= 9999 && 1 <= s.month <= 12 && 1 <= s.day <= DaysIn(s.month, s.year)
    && s.hour < 24 && s.minute < 60 && s.second < 60 && s.nanos < 1_000_000_000
  }

  /** A whole number that grows with the instant. */
  function Instant(s: Stamp): nat {
    var day := (s.year * 13 + s.month) * 32 + s.day;
    ((day * 24 + s.hour) * 60 + s.minute) * 60 * 1_000_000_000 + s.second * 1_000_000_000 + s.nanos
  }

  datatype Keyset = Keyset(at: Stamp, id: seq<byte>)

  /** Bytewise order of strings. */
  predicate Less(a: seq<byte>, b: seq<byte>) {
    b != [] && (a == [] || a[0] < b[0] || (a[0] == b[0] && Less(a[1..], b[1..])))
  }

  /** Whether `row` belongs on a page after `cursor`. */
  predicate Before(row: Keyset, cursor: Keyset) {
    if Instant(row.at) != Instant(cursor.at) then Instant(row.at) < Instant(cursor.at) else Less(row.id, cursor.id)
  }

  lemma {:induction false} LessTransitive(a: seq<byte>, b: seq<byte>, c: seq<byte>)
    requires Less(a, b) && Less(b, c)
    ensures Less(a, c)
  {
    if a != [] && a[0] == b[0] == c[0] {
      LessTransitive(a[1..], b[1..], c[1..]);
    }
  }

  lemma {:induction false} LessIrreflexive(a: seq<byte>)
    ensures !Less(a, a)
  {
    if a != [] {
      LessIrreflexive(a[1..]);
    }
  }

  lemma {:induction false} LessTotal(a: seq<byte>, b: seq<byte>)
    ensures Less(a, b) || Less(b, a) || a == b
  {
    if a != [] && b != [] && a[0] == b[0] {
      LessTotal(a[1..], b[1..]);
      assert a == [a[0]] + a[1..] && b == [b[0]] + b[1..];
    }
  }

  lemma InstantInjective(a: Stamp, b: Stamp)
    requires ValidStamp(a) && ValidStamp(b) && Instant(a) == Instant(b)
    ensures a == b
  {
    var x, y := (a.year * 13 + a.month) * 32 + a.day, (b.year * 13 + b.month) * 32 + b.day;
    assert a.day < 32 && b.day < 32;
    var p, q := (x * 24 + a.hour) * 60 + a.minute, (y * 24 + b.hour) * 60 + b.minute;
    assert a.second * 1_000_000_000 + a.nanos < 60 * 1_000_000_000;
    assert b.second * 1_000_000_000 + b.nanos < 60 * 1_000_000_000;
    assert p == q;
    assert x == y;
  }

  lemma BeforeTransitive(a: Keyset, b: Keyset, c: Keyset)
    requires Before(a, b) && Before(b, c)
    ensures Before(a, c)
  {
    if Instant(a.at) == Instant(b.at) == Instant(c.at) {
      LessTransitive(a.id, b.id, c.id);
    }
  }

  lemma BeforeIrreflexive(a: Keyset)
    ensures !Before(a, a)
  {
    LessIrreflexive(a.id);
  }

  lemma BeforeTotal(a: Keyset, b: Keyset)
    requires ValidStamp(a.at) && ValidStamp(b.at)
    ensures Before(a, b) || Before(b, a) || a == b
  {
    if Instant(a.at) == Instant(b.at) {
      InstantInjective(a.at, b.at);
      LessTotal(a.id, b.id);
    }
  }

  // ------------------------------------------------- RFC 3339, section 5.6

  const BAR: byte := 124
  const DASH: byte := 45
  const COLON: byte := 58
  const DOT: byte := 46
  const TEE: byte := 84
  const ZULU: byte := 90

  predicate IsDigit(b: byte) { 48 <= b < 58 }

  function Pow10(n: nat): nat { if n == 0 then 1 else 10 * Pow10(n - 1) }

  /** A number with `zeros` more digits, all zero. */
  function Shifted(n: nat, zeros: nat): nat { if zeros == 0 then n else 10 * Shifted(n, zeros - 1) }

  /** The last `width` decimal digits of a number. */
  function Digits(n: nat, width: nat): (r: seq<byte>)
    ensures |r| == width && AllDigits(r)
  {
    if width == 0 then [] else Digits(n / 10, width - 1) + [48 + n % 10]
  }

  predicate AllDigits(text: seq<byte>) { forall i | 0 <= i < |text| :: IsDigit(text[i]) }

  function Value(digits: seq<byte>): nat
    requires AllDigits(digits)
  {
    if digits == [] then 0 else 10 * Value(digits[..|digits| - 1]) + digits[|digits| - 1] as int - 48
  }

  lemma {:induction false} DigitsValue(n: nat, width: nat)
    requires n < Pow10(width)
    ensures Value(Digits(n, width)) == n
  {
    if width > 0 {
      DigitsValue(n / 10, width - 1);
      assert Digits(n, width)[..width - 1] == Digits(n / 10, width - 1);
    }
  }

  function TrimZeros(digits: seq<byte>): (r: seq<byte>)
    ensures r <= digits
  {
    if digits != [] && digits[|digits| - 1] == 48 then TrimZeros(digits[..|digits| - 1]) else digits
  }

  lemma ValueSnoc(digits: seq<byte>, d: byte)
    requires AllDigits(digits) && IsDigit(d)
    ensures Value(digits + [d]) == 10 * Value(digits) + d as int - 48
  {
    assert (digits + [d])[..|digits|] == digits;
  }

  /** Dropping trailing zeros of a fraction is undone by shifting them back in. */
  lemma {:induction false} TrimmedValue(digits: seq<byte>)
    requires AllDigits(digits)
    ensures Shifted(Value(TrimZeros(digits)), |digits| - |TrimZeros(digits)|) == Value(digits)
  {
    if digits != [] && digits[|digits| - 1] == 48 {
      var shorter := digits[..|digits| - 1];
      TrimmedValue(shorter);
      ValueSnoc(shorter, 48);
      assert digits == shorter + [48];
    }
  }

  /** Nanoseconds without their trailing zeros, and no point when there are none. */
  function Fraction(nanos: nat): seq<byte> {
    if nanos == 0 then [] else [DOT] + TrimZeros(Digits(nanos, 9))
  }

  function ParseFraction(text: seq<byte>): Option<nat> {
    if text == [] then Some(0)
    else if text[0] == DOT && 2 <= |text| <= 10 && AllDigits(text[1..])
    then Some(Shifted(Value(text[1..]), 10 - |text|))
    else None
  }

  function Date(s: Stamp): (r: seq<byte>)
    ensures |r| == 10
  {
    Digits(s.year, 4) + [DASH] + Digits(s.month, 2) + [DASH] + Digits(s.day, 2)
  }

  function Clock(s: Stamp): (r: seq<byte>)
    ensures |r| == 8
  {
    Digits(s.hour, 2) + [COLON] + Digits(s.minute, 2) + [COLON] + Digits(s.second, 2)
  }

  function Format(s: Stamp): seq<byte> { Date(s) + [TEE] + Clock(s) + Fraction(s.nanos) + [ZULU] }

  predicate DateShaped(text: seq<byte>) {
    && |text| == 10 && AllDigits(text[..4]) && text[4] == DASH
    && AllDigits(text[5..7]) && text[7] == DASH && AllDigits(text[8..])
  }

  predicate ClockShaped(text: seq<byte>) {
    && |text| == 8 && AllDigits(text[..2]) && text[2] == COLON
    && AllDigits(text[3..5]) && text[5] == COLON && AllDigits(text[6..])
  }

  /** Reads a stamp of the form written above; other texts, and fields out of
      range, give nothing. */
  function ParseStamp(text: seq<byte>): Option<Stamp> {
    if |text| < 20 || text[10] != TEE || text[|text| - 1] != ZULU then None
    else
      var date, clock, fraction := text[..10], text[11..19], ParseFraction(text[19..|text| - 1]);
      if !DateShaped(date) || !ClockShaped(clock) || fraction.None? then None
      else
        var s := Stamp(Value(date[..4]), Value(date[5..7]), Value(date[8..]),
                       Value(clock[..2]), Value(clock[3..5]), Value(clock[6..]), fraction.value);
        if ValidStamp(s) then Some(s) else None
  }

  lemma FractionRoundTrip(nanos: nat)
    requires nanos < 1_000_000_000
    ensures ParseFraction(Fraction(nanos)) == Some(nanos)
  {
    if nanos != 0 {
      var digits := Digits(nanos, 9);
      assert Pow10(9) == 1_000_000_000 by {
        assert Pow10(3) == 1000;
        assert Pow10(6) == 1_000_000;
      }
      DigitsValue(nanos, 9);
      TrimmedValue(digits);
      assert Fraction(nanos)[1..] == TrimZeros(digits);
    }
  }

  lemma DateRoundTrip(s: Stamp)
    requires ValidStamp(s)
    ensures DateShaped(Date(s))
    ensures Value(Date(s)[..4]) == s.year && Value(Date(s)[5..7]) == s.month && Value(Date(s)[8..]) == s.day
  {
    var d := Date(s);
    assert d[..4] == Digits(s.year, 4) && d[5..7] == Digits(s.month, 2) && d[8..] == Digits(s.day, 2);
    DateValues(s);
  }

  lemma DateValues(s: Stamp)
    requires ValidStamp(s)
    ensures Value(Digits(s.year, 4)) == s.year && Value(Digits(s.month, 2)) == s.month
            && Value(Digits(s.day, 2)) == s.day
  {
    assert Pow10(2) == 100 && Pow10(4) == 10000;
    DigitsValue(s.year, 4);
    DigitsValue(s.month, 2);
    DigitsValue(s.day, 2);
  }

  lemma ClockRoundTrip(s: Stamp)
    requires ValidStamp(s)
    ensures ClockShaped(Clock(s))
    ensures Value(Clock(s)[..2]) == s.hour && Value(Clock(s)[3..5]) == s.minute && Value(Clock(s)[6..]) == s.second
  {
    var c := Clock(s);
    assert c[..2] == Digits(s.hour, 2) && c[3..5] == Digits(s.minute, 2) && c[6..] == Digits(s.second, 2);
    assert Pow10(2) == 100;
    DigitsValue(s.hour, 2);
    DigitsValue(s.minute, 2);
    DigitsValue(s.second, 2);
  }

  lemma StampRoundTrip(s: Stamp)
    requires ValidStamp(s)
    ensures ParseStamp(Format(s)) == Some(s)
  {
    var text := Format(s);
    assert text[..10] == Date(s) && text[11..19] == Clock(s) && text[19..|text| - 1] == Fraction(s.nanos);
    DateRoundTrip(s);
    ClockRoundTrip(s);
    FractionRoundTrip(s.nanos);
  }

  lemma NoBarInStamp(s: Stamp)
    ensures BAR !in Format(s)
  {
    forall b | b in Format(s) ensures b != BAR {
      if b in Fraction(s.nanos) && b != DOT {
        assert b in Digits(s.nanos, 9);
      }
    }
  }

  // ---------------------------------------- base64url, RFC 4648, section 5

  type sextet = n: int | 0 <= n < 64

  function Group(a: byte, b: byte, c: byte): (r: seq<sextet>)
    ensures |r| == 4
  {
    [a / 4, a % 4 * 16 + b / 16, b % 16 * 4 + c / 64, c % 64]
  }

  /** Three bytes in four sextets; a last group of one or two fills up with zero
      bits and takes no padding. */
  function Sextets(bytes: seq<byte>): (r: seq<sextet>)
    ensures |r| % 4 != 1
  {
    if |bytes| == 0 then []
    else if |bytes| == 1 then [bytes[0] / 4, bytes[0] % 4 * 16]
    else if |bytes| == 2 then [bytes[0] / 4, bytes[0] % 4 * 16 + bytes[1] / 16, bytes[1] % 16 * 4]
    else Group(bytes[0], bytes[1], bytes[2]) + Sextets(bytes[3..])
  }

  /** Bits left over in a last group are dropped, whatever they are. */
  function Bytes(sextets: seq<sextet>): seq<byte>
  {
    if |sextets| < 2 then []
    else
      var a: int, b: int := sextets[0], sextets[1];
      if |sextets| == 2 then [a * 4 + b / 16]
      else
        var c: int := sextets[2];
        if |sextets| == 3 then [a * 4 + b / 16, b % 16 * 16 + c / 4]
        else [a * 4 + b / 16, b % 16 * 16 + c / 4, c % 4 * 64 + sextets[3] as int] + Bytes(sextets[4..])
  }

  lemma {:induction false} BytesOfSextets(bytes: seq<byte>)
    ensures Bytes(Sextets(bytes)) == bytes
  {
    if |bytes| >= 3 {
      BytesOfSextets(bytes[3..]);
      assert Sextets(bytes)[4..] == Sextets(bytes[3..]);
      assert bytes == bytes[..3] + bytes[3..];
    }
  }

  function SextetChar(v: sextet): char
  {
    if v < 26 then (v + 'A' as int) as char
    else if v < 52 then (v - 26 + 'a' as int) as char
    else if v < 62 then (v - 52 + '0' as int) as char
    else if v == 62 then '-'
    else '_'
  }

  function CharSextet(c: char): (r: Option<sextet>)
    ensures r.Some? ==> SextetChar(r.value) == c
    ensures forall v: sextet :: SextetChar(v) == c ==> r == Some(v)
  {
    if 'A' <= c <= 'Z' then Some(c as int - 'A' as int)
    else if 'a' <= c <= 'z' then Some(c as int - 'a' as int + 26)
    else if '0' <= c <= '9' then Some(c as int - '0' as int + 52)
    else if c == '-' then Some(62)
    else if c == '_' then Some(63)
    else None
  }

  function Spelled(sextets: seq<sextet>): (r: string)
    ensures |r| == |sextets| && forall i | 0 <= i < |r| :: r[i] == SextetChar(sextets[i])
  {
    if sextets == [] then [] else [SextetChar(sextets[0])] + Spelled(sextets[1..])
  }

  /** Line ends are skipped, any other character outside the alphabet is an
      error. */
  function Read(text: string): Option<seq<sextet>>
  {
    if text == [] then Some([])
    else
      var rest := Read(text[1..]);
      if text[0] == '\n' || text[0] == '\r' then rest
      else if CharSextet(text[0]).None? || rest.None? then None
      else Some([CharSextet(text[0]).value] + rest.value)
  }

  lemma {:induction false} ReadSpelled(sextets: seq<sextet>)
    ensures Read(Spelled(sextets)) == Some(sextets)
  {
    if sextets != [] {
      ReadSpelled(sextets[1..]);
      var c := SextetChar(sextets[0]);
      assert c != '\n' && c != '\r' && CharSextet(c) == Some(sextets[0]);
      assert Spelled(sextets) == [c] + Spelled(sextets[1..]);
      assert sextets == [sextets[0]] + sextets[1..];
    }
  }

  function Encode64(bytes: seq<byte>): string { Spelled(Sextets(bytes)) }

  function Decode64(text: string): Option<seq<byte>> {
    var sextets := Read(text);
    if sextets.None? || |sextets.value| % 4 == 1 then None else Some(Bytes(sextets.value))
  }

  lemma Base64RoundTrip(bytes: seq<byte>)
    ensures Decode64(Encode64(bytes)) == Some(bytes)
  {
    ReadSpelled(Sextets(bytes));
    BytesOfSextets(bytes);
  }

  // --------------------------------------------------------------- the cursor

  /** `Elsewhere` is a stamp outside the form the encoder writes, such as one
      with an offset, which is for the time library to read or refuse. */
  datatype Parsed = At(keyset: Keyset) | CursorInvalid | Elsewhere(stamp: seq<byte>, id: seq<byte>)

  function TrimRight(text: string): (r: string)
    ensures r <= text
  {
    if text != [] && text[|text| - 1] == '=' then TrimRight(text[..|text| - 1]) else text
  }

  /** Splits at the first bar. */
  function Cut(raw: seq<byte>): Option<(seq<byte>, seq<byte>)> {
    if raw == [] then None
    else if raw[0] == BAR then Some(([], raw[1..]))
    else
      var rest := Cut(raw[1..]);
      if rest.None? then None else Some(([raw[0]] + rest.value.0, rest.value.1))
  }

  function Encode(k: Keyset): string { Encode64(Format(k.at) + [BAR] + k.id) }

  function ParseKeyset(cursor: string): Parsed {
    var raw := Decode64(TrimRight(cursor));
    if raw.None? then CursorInvalid
    else
      var parts := Cut(raw.value);
      if parts.None? then CursorInvalid
      else
        var at := ParseStamp(parts.value.0);
        if at.None? then Elsewhere(parts.value.0, parts.value.1) else At(Keyset(at.value, parts.value.1))
  }

  lemma {:induction false} CutAtBar(stamp: seq<byte>, id: seq<byte>)
    requires BAR !in stamp
    ensures Cut(stamp + [BAR] + id) == Some((stamp, id))
  {
    var raw := stamp + [BAR] + id;
    if stamp == [] {
      assert raw[1..] == id;
    } else {
      CutAtBar(stamp[1..], id);
      assert raw[1..] == stamp[1..] + [BAR] + id;
      assert stamp == [stamp[0]] + stamp[1..];
    }
  }

  lemma {:induction false} TrimRightPadded(text: string, pad: nat)
    requires '=' !in text
    ensures TrimRight(text + seq(pad, _ => '=')) == text
  {
    var padded := text + seq(pad, _ => '=');
    if pad == 0 {
      assert padded == text;
    } else {
      TrimRightPadded(text, pad - 1);
      assert padded[..|padded| - 1] == text + seq(pad - 1, _ => '=');
    }
  }

  /** A cursor read back, with or without padding, is the keyset it was made
      from. */
  lemma {:induction false} CursorRoundTrip(k: Keyset, pad: nat)
    requires ValidStamp(k.at)
    ensures ParseKeyset(Encode(k) + seq(pad, _ => '=')) == At(k)
  {
    var raw := Format(k.at) + [BAR] + k.id;
    TrimRightPadded(Encode(k), pad);
    Base64RoundTrip(raw);
    NoBarInStamp(k.at);
    CutAtBar(Format(k.at), k.id);
    StampRoundTrip(k.at);
  }
}
