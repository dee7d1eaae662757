/**
  Fixed-width UTC timestamps, `YYYY-MM-DDTHH:MM:SS.sssZ`: they read back to
  the instant they were written from, and sort in its order.
 */
module Timestamps {
  import opened Calendar
  import opened Records
  import opened Text

  // ---------------------------------------------------------------------
  // Zero-padded numbers
  // ---------------------------------------------------------------------

  function Digit(n: nat): char
    requires n < 10
  {
    ('0' as int + n) as char
  }

  predicate IsDigit(c: char) {
    '0' <= c <= '9'
  }

  predicate AllDigits(s: string) {
    forall i :: 0 <= i < |s| ==> IsDigit(s[i])
  }

  /** `n` in decimal, with zeros in front up to `width` digits. */
  function Pad(n: nat, width: nat): string
    decreases n + width
  {
    if n == 0 && width == 0 then ""
    else Pad(n / 10, if width > 0 then width - 1 else 0) + [Digit(n % 10)]
  }

  /** The number a string of digits names. */
  function Value(s: string): nat
    requires AllDigits(s)
  {
    if s == "" then 0 else 10 * Value(s[..|s| - 1]) + (s[|s| - 1] as int - '0' as int)
  }

  function Power10(width: nat): nat {
    if width == 0 then 1 else 10 * Power10(width - 1)
  }

  lemma {:induction false} PadReads(n: nat, width: nat)
    ensures AllDigits(Pad(n, width)) && Value(Pad(n, width)) == n
    decreases n + width
  {
    if n != 0 || width != 0 {
      var w := if width > 0 then width - 1 else 0;
      PadReads(n / 10, w);
      assert Pad(n, width)[..|Pad(n, width)| - 1] == Pad(n / 10, w);
    }
  }

  lemma {:induction false} PadWidth(n: nat, width: nat)
    ensures |Pad(n, width)| >= width
    ensures n < Power10(width) ==> |Pad(n, width)| == width
    decreases n + width
  {
    if n != 0 || width != 0 {
      PadWidth(n / 10, if width > 0 then width - 1 else 0);
    }
  }

  /** Digits are the padding of the number they name. */
  lemma {:induction false} ValuePads(s: string)
    requires AllDigits(s)
    ensures Value(s) < Power10(|s|) && Pad(Value(s), |s|) == s
  {
    if s != "" {
      var init := s[..|s| - 1];
      ValuePads(init);
      assert Value(s) / 10 == Value(init);
      assert s == init + [s[|s| - 1]];
    }
  }

  /** Numbers of one width sort as they count. */
  lemma {:induction false} PadAscends(a: nat, b: nat, width: nat)
    requires a < b < Power10(width)
    ensures Less(Pad(a, width), Pad(b, width))
  {
    PadWidth(a / 10, width - 1);
    PadWidth(b / 10, width - 1);
    var x, y := Pad(a / 10, width - 1), Pad(b / 10, width - 1);
    if a / 10 == b / 10 {
      LessAtFirstDifference(x, [Digit(a % 10)], [Digit(b % 10)]);
    } else {
      PadAscends(a / 10, b / 10, width - 1);
      LessIrreflexive(x);
      LessFixedWidth(x, y, [Digit(a % 10)], [Digit(b % 10)]);
    }
  }

  // ---------------------------------------------------------------------
  // Formatting
  // ---------------------------------------------------------------------

  const MS_PER_DAY: nat := 86_400_000
  const MS_PER_HOUR: nat := 3_600_000
  const MS_PER_MINUTE: nat := 60_000

  /** 9999-12-31T23:59:59.999Z. */
  const MAX_MS: nat := 253_402_300_799_999

  function DatePart(year: nat, month: nat, day: nat): string {
    Pad(year, 4) + "-" + Pad(month, 2) + "-" + Pad(day, 2)
  }

  function TimePart(hour: nat, minute: nat, second: nat, millis: nat): string {
    Pad(hour, 2) + ":" + Pad(minute, 2) + ":" + Pad(second, 2) + "." + Pad(millis, 3) + "Z"
  }

  function DateString(date: Date): string
    requires IsDate(date) && date.year >= 0
  {
    DatePart(date.year, date.month, date.day)
  }

  function TimeString(msOfDay: nat): string {
    TimePart(msOfDay / MS_PER_HOUR, msOfDay / MS_PER_MINUTE % 60, msOfDay / 1000 % 60, msOfDay % 1000)
  }

  /** From the epoch on, years are positive. */
  lemma DateIsModern(days: nat)
    ensures IsDate(CivilFromDays(days)) && CivilFromDays(days).year >= 1970
  {
    DaysRoundTrip(days);
    ModernDate(CivilFromDays(days));
  }

  lemma ModernDate(date: Date)
    requires IsDate(date) && DaysFromCivil(date) >= 0
    ensures date.year >= 1970
  {
    var first := Date(1970, 1, 1);
    EpochIsDayZero();
    if DateLess(date, first) { DatesAscend(date, first); }
  }

  lemma EpochIsDayZero()
    ensures DaysFromCivil(Date(1970, 1, 1)) == 0
  {
  }

  function Format(epochMs: nat): string {
    DateIsModern(epochMs / MS_PER_DAY);
    DateString(CivilFromDays(epochMs / MS_PER_DAY)) + "T" + TimeString(epochMs % MS_PER_DAY)
  }

  // ---------------------------------------------------------------------
  // Parsing
  // ---------------------------------------------------------------------

  /** An unsigned number as the program reads one: a leading `+` is accepted. */
  function ParseUnsigned(s: string): Option<nat> {
    var digits := if s != "" && s[0] == '+' then s[1..] else s;
    if digits != "" && AllDigits(digits) then Some(Value(digits)) else None
  }

  /** A signed number: `-` is accepted too. */
  function ParseSigned(s: string): Option<int> {
    if s != "" && s[0] == '-' then
      if |s| > 1 && AllDigits(s[1..]) then var v: int := Value(s[1..]); Some(-v) else None
    else
      var n := ParseUnsigned(s);
      if n.Some? then Some(n.value) else None
  }

  predicate HasShape(s: string) {
    && |s| == 24
    && s[4] == '-' && s[7] == '-' && s[10] == 'T' && s[13] == ':' && s[16] == ':' && s[19] == '.' && s[23] == 'Z'
  }

  function Parse(s: string): Option<nat> {
    if !HasShape(s) then None
    else
      var year := ParseSigned(s[0..4]);
      var month := ParseUnsigned(s[5..7]);
      var day := ParseUnsigned(s[8..10]);
      var hour := ParseUnsigned(s[11..13]);
      var minute := ParseUnsigned(s[14..16]);
      var second := ParseUnsigned(s[17..19]);
      var millis := ParseUnsigned(s[20..23]);
      if year.None? || month.None? || day.None? || hour.None? || minute.None? || second.None? || millis.None? then None
      else FromFields(Date(year.value, month.value, day.value), hour.value, minute.value, second.value, millis.value)
  }

  /** The instant the fields name, if they name one since the epoch. */
  function FromFields(date: Date, hour: nat, minute: nat, second: nat, millis: nat): Option<nat> {
    if !IsDate(date) || hour > 23 || minute > 59 || second > 59 then None
    else if DaysFromCivil(date) < 0 then None
    else Some(DaysFromCivil(date) * MS_PER_DAY + hour * MS_PER_HOUR + minute * MS_PER_MINUTE + second * 1000 + millis)
  }

  // ---------------------------------------------------------------------
  // What was written reads back
  // ---------------------------------------------------------------------

  lemma PadParses(n: nat, width: nat)
    requires width > 0
    ensures ParseUnsigned(Pad(n, width)) == Some(n) && ParseSigned(Pad(n, width)) == Some(n)
  {
    PadReads(n, width);
    PadWidth(n, width);
    assert IsDigit(Pad(n, width)[0]);
  }

  lemma Powers()
    ensures Power10(2) == 100 && Power10(3) == 1000 && Power10(4) == 10_000
  {
    assert Power10(1) == 10;
  }

  lemma DateSlices(y: string, m: string, d: string)
    requires |y| == 4 && |m| == 2 && |d| == 2
    ensures var s := y + "-" + m + "-" + d;
            |s| == 10 && s[4] == '-' && s[7] == '-' && s[0..4] == y && s[5..7] == m && s[8..10] == d
  {
  }

  lemma TimeSlices(h: string, m: string, sec: string, ms: string)
    requires |h| == 2 && |m| == 2 && |sec| == 2 && |ms| == 3
    ensures var s := h + ":" + m + ":" + sec + "." + ms + "Z";
            && |s| == 13 && s[2] == ':' && s[5] == ':' && s[8] == '.' && s[12] == 'Z'
            && s[0..2] == h && s[3..5] == m && s[6..8] == sec && s[9..12] == ms
  {
  }

  lemma JoinedSlices(a: string, b: string)
    requires |a| == 10 && |b| == 13
    ensures var s := a + "T" + b;
            && |s| == 24 && s[10] == 'T'
            && s[4] == a[4] && s[7] == a[7] && s[0..4] == a[0..4] && s[5..7] == a[5..7] && s[8..10] == a[8..10]
            && s[13] == b[2] && s[16] == b[5] && s[19] == b[8] && s[23] == b[12]
            && s[11..13] == b[0..2] && s[14..16] == b[3..5] && s[17..19] == b[6..8] && s[20..23] == b[9..12]
  {
  }

  /** A timestamp's fields are found where they were put. */
  lemma FieldsFound(date: Date, h: nat, mi: nat, sec: nat, ms: nat)
    requires IsDate(date) && 0 <= date.year <= 9999 && h < 100 && mi < 100 && sec < 100 && ms < 1000
    ensures var s := DateString(date) + "T" + TimePart(h, mi, sec, ms);
            && HasShape(s)
            && s[0..4] == Pad(date.year, 4) && s[5..7] == Pad(date.month, 2) && s[8..10] == Pad(date.day, 2)
            && s[11..13] == Pad(h, 2) && s[14..16] == Pad(mi, 2) && s[17..19] == Pad(sec, 2) && s[20..23] == Pad(ms, 3)
  {
    Powers();
    PadWidth(date.year, 4);
    PadWidth(date.month, 2);
    PadWidth(date.day, 2);
    PadWidth(h, 2);
    PadWidth(mi, 2);
    PadWidth(sec, 2);
    PadWidth(ms, 3);
    DateSlices(Pad(date.year, 4), Pad(date.month, 2), Pad(date.day, 2));
    TimeSlices(Pad(h, 2), Pad(mi, 2), Pad(sec, 2), Pad(ms, 3));
    JoinedSlices(DateString(date), TimePart(h, mi, sec, ms));
  }

  lemma ParseOfFields(date: Date, h: nat, mi: nat, sec: nat, ms: nat, r: Option<nat>)
    requires r == FromFields(date, h, mi, sec, ms)
    requires IsDate(date) && 0 <= date.year <= 9999 && h < 100 && mi < 100 && sec < 100 && ms < 1000
    ensures |DateString(date) + "T" + TimePart(h, mi, sec, ms)| == 24
    ensures Parse(DateString(date) + "T" + TimePart(h, mi, sec, ms)) == r
  {
    FieldsFound(date, h, mi, sec, ms);
    PadParses(date.year, 4);
    PadParses(date.month, 2);
    PadParses(date.day, 2);
    PadParses(h, 2);
    PadParses(mi, 2);
    PadParses(sec, 2);
    PadParses(ms, 3);
  }

  lemma LastDay()
    ensures IsDate(Date(9999, 12, 31)) && DaysFromCivil(Date(9999, 12, 31)) == 2_932_896
  {
  }

  /** Up to the last day of 9999 the year has four digits, and not a day longer. */
  lemma FourDigitYears(date: Date)
    requires IsDate(date)
    ensures date.year <= 9999 <==> DaysFromCivil(date) <= 2_932_896
  {
    LastDay();
    if DateLess(date, Date(9999, 12, 31)) {
      DatesAscend(date, Date(9999, 12, 31));
    } else if DateLess(Date(9999, 12, 31), date) {
      DatesAscend(Date(9999, 12, 31), date);
    }
  }

  lemma ClockAddsUp(t: nat)
    requires t < MS_PER_DAY
    ensures var h, mi, sec, ms := t / MS_PER_HOUR, t / MS_PER_MINUTE % 60, t / 1000 % 60, t % 1000;
            h <= 23 && mi <= 59 && sec <= 59 && ms <= 999 && h * MS_PER_HOUR + mi * MS_PER_MINUTE + sec * 1000 + ms == t
  {
    assert t / MS_PER_MINUTE == (t / 1000) / 60;
    assert t / MS_PER_HOUR == (t / MS_PER_MINUTE) / 60;
  }

  lemma DayAndTime(epochMs: nat)
    ensures epochMs / MS_PER_DAY * MS_PER_DAY + epochMs % MS_PER_DAY == epochMs
    ensures epochMs <= MAX_MS <==> epochMs / MS_PER_DAY <= 2_932_896
  {
  }

  /** The date a timestamp shows. */
  lemma ShownDate(epochMs: nat) returns (date: Date)
    ensures IsDate(date) && date.year >= 1970 && DaysFromCivil(date) == epochMs / MS_PER_DAY
    ensures Format(epochMs) == DateString(date) + "T" + TimeString(epochMs % MS_PER_DAY)
  {
    date := CivilFromDays(epochMs / MS_PER_DAY);
    DateIsModern(epochMs / MS_PER_DAY);
    DaysRoundTrip(epochMs / MS_PER_DAY);
  }

  lemma FieldsSum(date: Date, h: nat, mi: nat, sec: nat, ms: nat, epochMs: nat)
    requires IsDate(date) && 0 <= DaysFromCivil(date) && h <= 23 && mi <= 59 && sec <= 59
    requires epochMs == DaysFromCivil(date) * MS_PER_DAY + h * MS_PER_HOUR + mi * MS_PER_MINUTE + sec * 1000 + ms
    ensures FromFields(date, h, mi, sec, ms) == Some(epochMs)
  {
  }

  lemma StampReads(date: Date, h: nat, mi: nat, sec: nat, ms: nat, epochMs: nat)
    requires IsDate(date) && 0 <= date.year <= 9999 && 0 <= DaysFromCivil(date)
    requires h <= 23 && mi <= 59 && sec <= 59 && ms <= 999
    requires epochMs == DaysFromCivil(date) * MS_PER_DAY + h * MS_PER_HOUR + mi * MS_PER_MINUTE + sec * 1000 + ms
    ensures |DateString(date) + "T" + TimePart(h, mi, sec, ms)| == 24
    ensures Parse(DateString(date) + "T" + TimePart(h, mi, sec, ms)) == Some(epochMs)
  {
    FieldsSum(date, h, mi, sec, ms, epochMs);
    ParseOfFields(date, h, mi, sec, ms, Some(epochMs));
  }

  /** Every instant up to year 9999 is written in 24 bytes and read back exactly. */
  lemma FormatRoundTrip(epochMs: nat)
    requires epochMs <= MAX_MS
    ensures |Format(epochMs)| == 24 && Parse(Format(epochMs)) == Some(epochMs)
  {
    var date := ShownDate(epochMs);
    DayAndTime(epochMs);
    FourDigitYears(date);
    var t := epochMs % MS_PER_DAY;
    ClockAddsUp(t);
    StampReads(date, t / MS_PER_HOUR, t / MS_PER_MINUTE % 60, t / 1000 % 60, t % 1000, epochMs);
  }

  // ---------------------------------------------------------------------
  // What is read was written so, but for a sign
  // ---------------------------------------------------------------------

  predicate DigitFields(s: string)
    requires |s| == 24
  {
    && AllDigits(s[0..4]) && AllDigits(s[5..7]) && AllDigits(s[8..10]) && AllDigits(s[11..13])
    && AllDigits(s[14..16]) && AllDigits(s[17..19]) && AllDigits(s[20..23])
  }

  lemma DigitsParse(s: string)
    requires AllDigits(s) && s != ""
    ensures ParseUnsigned(s) == Some(Value(s)) && ParseSigned(s) == Some(Value(s))
    ensures Value(s) < Power10(|s|) && Pad(Value(s), |s|) == s
  {
    assert IsDigit(s[0]);
    ValuePads(s);
  }

  lemma Rejoined(s: string)
    requires HasShape(s)
    ensures s == s[0..4] + "-" + s[5..7] + "-" + s[8..10] + "T"
                 + (s[11..13] + ":" + s[14..16] + ":" + s[17..19] + "." + s[20..23] + "Z")
  {
  }

  /** A clock reading determines its fields. */
  lemma ClockFields(h: nat, mi: nat, sec: nat, ms: nat, t: nat)
    requires h <= 23 && mi <= 59 && sec <= 59 && ms <= 999
    requires t == h * MS_PER_HOUR + mi * MS_PER_MINUTE + sec * 1000 + ms
    ensures t < MS_PER_DAY
    ensures t / MS_PER_HOUR == h && t / MS_PER_MINUTE % 60 == mi && t / 1000 % 60 == sec && t % 1000 == ms
  {
    assert t == 1000 * (3600 * h + 60 * mi + sec) + ms;
    assert t / 1000 == 3600 * h + 60 * mi + sec;
    assert t / MS_PER_MINUTE == 60 * h + mi;
  }

  lemma DayOf(days: nat, t: nat)
    requires t < MS_PER_DAY
    ensures (days * MS_PER_DAY + t) / MS_PER_DAY == days && (days * MS_PER_DAY + t) % MS_PER_DAY == t
  {
  }

  /** The instant with these fields is formatted from them. */
  lemma FormatOfFields(date: Date, h: nat, mi: nat, sec: nat, ms: nat, epochMs: nat)
    requires ms <= 999 && FromFields(date, h, mi, sec, ms) == Some(epochMs) && date.year >= 0
    ensures Format(epochMs) == DateString(date) + "T" + TimePart(h, mi, sec, ms)
  {
    var t := h * MS_PER_HOUR + mi * MS_PER_MINUTE + sec * 1000 + ms;
    ClockFields(h, mi, sec, ms, t);
    DayOf(DaysFromCivil(date), t);
    FormatOfParts(date, t, epochMs);
  }

  lemma FormatOfParts(date: Date, t: nat, epochMs: nat)
    requires IsDate(date) && date.year >= 0 && 0 <= DaysFromCivil(date)
    requires epochMs / MS_PER_DAY == DaysFromCivil(date) && epochMs % MS_PER_DAY == t
    ensures Format(epochMs) == DateString(date) + "T" + TimeString(t)
  {
    DateRoundTrip(date);
  }

  /** What a string of digit fields is read as. */
  lemma DigitsAreRead(s: string, epochMs: nat)
    requires Parse(s) == Some(epochMs) && DigitFields(s)
    ensures HasShape(s) && Value(s[20..23]) <= 999
    ensures FromFields(Date(Value(s[0..4]), Value(s[5..7]), Value(s[8..10])),
                       Value(s[11..13]), Value(s[14..16]), Value(s[17..19]), Value(s[20..23])) == Some(epochMs)
  {
    DateDigitsParse(s);
    ClockDigitsParse(s);
  }

  lemma DateDigitsParse(s: string)
    requires |s| == 24 && DigitFields(s)
    ensures ParseSigned(s[0..4]) == Some(Value(s[0..4])) && Pad(Value(s[0..4]), 4) == s[0..4]
    ensures ParseUnsigned(s[5..7]) == Some(Value(s[5..7])) && Pad(Value(s[5..7]), 2) == s[5..7]
    ensures ParseUnsigned(s[8..10]) == Some(Value(s[8..10])) && Pad(Value(s[8..10]), 2) == s[8..10]
  {
    DigitsParse(s[0..4]);
    DigitsParse(s[5..7]);
    DigitsParse(s[8..10]);
  }

  lemma ClockDigitsParse(s: string)
    requires |s| == 24 && DigitFields(s)
    ensures ParseUnsigned(s[11..13]) == Some(Value(s[11..13])) && Pad(Value(s[11..13]), 2) == s[11..13]
    ensures ParseUnsigned(s[14..16]) == Some(Value(s[14..16])) && Pad(Value(s[14..16]), 2) == s[14..16]
    ensures ParseUnsigned(s[17..19]) == Some(Value(s[17..19])) && Pad(Value(s[17..19]), 2) == s[17..19]
    ensures ParseUnsigned(s[20..23]) == Some(Value(s[20..23])) && Pad(Value(s[20..23]), 3) == s[20..23] && Value(s[20..23]) <= 999
  {
    Powers();
    DigitsParse(s[11..13]);
    DigitsParse(s[14..16]);
    DigitsParse(s[17..19]);
    DigitsParse(s[20..23]);
  }

  lemma DigitsRoundTrip(s: string, epochMs: nat)
    requires Parse(s) == Some(epochMs) && DigitFields(s)
    ensures Format(epochMs) == s
  {
    DigitsAreRead(s, epochMs);
    var date := Date(Value(s[0..4]), Value(s[5..7]), Value(s[8..10]));
    FormatOfFields(date, Value(s[11..13]), Value(s[14..16]), Value(s[17..19]), Value(s[20..23]), epochMs);
    DateDigitsParse(s);
    ClockDigitsParse(s);
    Rejoined(s);
  }

  lemma ShortYear(date: Date, t: nat)
    requires IsDate(date) && date.year >= 0 && t < MS_PER_DAY && |DateString(date) + "T" + TimeString(t)| == 24
    ensures date.year <= 9999
  {
    Powers();
    ClockAddsUp(t);
    PadWidth(date.month, 2);
    PadWidth(date.day, 2);
    PadWidth(t / MS_PER_HOUR, 2);
    PadWidth(t / MS_PER_MINUTE % 60, 2);
    PadWidth(t / 1000 % 60, 2);
    PadWidth(t % 1000, 3);
    PadReads(date.year, 4);
    ValuePads(Pad(date.year, 4));
    assert |Pad(date.year, 4)| == 4;
  }

  lemma FieldsAreDigits(date: Date, h: nat, mi: nat, sec: nat, ms: nat)
    requires IsDate(date) && 0 <= date.year <= 9999 && h < 100 && mi < 100 && sec < 100 && ms < 1000
    ensures var s := DateString(date) + "T" + TimePart(h, mi, sec, ms); HasShape(s) && DigitFields(s)
  {
    FieldsFound(date, h, mi, sec, ms);
    PadReads(date.year, 4);
    PadReads(date.month, 2);
    PadReads(date.day, 2);
    PadReads(h, 2);
    PadReads(mi, 2);
    PadReads(sec, 2);
    PadReads(ms, 3);
  }

  lemma WrittenInDigits(epochMs: nat)
    requires |Format(epochMs)| == 24
    ensures DigitFields(Format(epochMs))
  {
    var date := ShownDate(epochMs);
    var t := epochMs % MS_PER_DAY;
    ShortYear(date, t);
    ClockAddsUp(t);
    FieldsAreDigits(date, t / MS_PER_HOUR, t / MS_PER_MINUTE % 60, t / 1000 % 60, t % 1000);
  }

  /** A string that is read is written the same way exactly when its fields are digits only. */
  lemma ParseRoundTrip(s: string, epochMs: nat)
    requires Parse(s) == Some(epochMs)
    ensures Format(epochMs) == s <==> DigitFields(s)
  {
    if DigitFields(s) {
      DigitsRoundTrip(s, epochMs);
    } else if Format(epochMs) == s {
      WrittenInDigits(epochMs);
    }
  }

  lemma Slice2(s: string, i: nat)
    requires i + 2 <= |s|
    ensures s[i..i + 2] == [s[i], s[i + 1]]
  {
  }

  lemma SignedFieldSlices(s: string)
    requires s == "1970-01-01T+5:00:00.000Z"
    ensures HasShape(s) && s[0..4] == "1970" && s[5..7] == "01" && s[8..10] == "01" && s[11..13] == "+5"
    ensures s[14..16] == "00" && s[17..19] == "00" && s[20..23] == "000" && !IsDigit(s[11..13][0])
  {
    Slice2(s, 5);
    Slice2(s, 8);
    Slice2(s, 11);
    Slice2(s, 14);
    Slice2(s, 17);
    assert s[0..4] == [s[0], s[1], s[2], s[3]];
    assert s[20..23] == [s[20], s[21], s[22]];
  }

  lemma SignedFieldParses(s: string)
    requires HasShape(s) && s[0..4] == "1970" && s[5..7] == "01" && s[8..10] == "01" && s[11..13] == "+5"
    requires s[14..16] == "00" && s[17..19] == "00" && s[20..23] == "000"
    ensures Parse(s) == Some(18_000_000)
  {
    SmallNumbers();
    FiveOnTheFirstDay();
  }

  lemma FiveOnTheFirstDay()
    ensures FromFields(Date(1970, 1, 1), 5, 0, 0, 0) == Some(18_000_000)
  {
    assert DaysFromCivil(Date(1970, 1, 1)) == 0;
  }

  /** The exception is real: a signed field is read, and written without the sign. */
  lemma SignedFieldIsRead()
    ensures Parse("1970-01-01T+5:00:00.000Z") == Some(18_000_000)
    ensures Format(18_000_000) != "1970-01-01T+5:00:00.000Z"
  {
    var s := "1970-01-01T+5:00:00.000Z";
    SignedFieldSlices(s);
    SignedFieldParses(s);
    ParseRoundTrip(s, 18_000_000);
  }

  lemma SmallNumbers()
    ensures ParseSigned("1970") == Some(1970) && ParseUnsigned("01") == Some(1) && ParseUnsigned("+5") == Some(5)
    ensures ParseUnsigned("00") == Some(0) && ParseUnsigned("000") == Some(0)
  {
    assert "1970"[..3] == "197" && "197"[..2] == "19" && "19"[..1] == "1" && "1"[..0] == "";
    assert Value("1") == 1 && Value("19") == 19 && Value("197") == 197 && Value("1970") == 1970;
    assert "01"[..1] == "0" && "0"[..0] == "" && "00"[..1] == "0" && "000"[..2] == "00";
    assert Value("0") == 0 && Value("01") == 1 && Value("00") == 0 && Value("000") == 0;
    assert "+5"[1..] == "5" && "5"[..0] == "" && Value("5") == 5;
  }

  // ---------------------------------------------------------------------
  // String order is time order
  // ---------------------------------------------------------------------

  /** A field decides the order, or leaves it to what follows. */
  lemma FieldOrder(a: nat, b: nat, width: nat, u: string, v: string)
    requires a <= b < Power10(width) && (a == b ==> Less(u, v))
    ensures Less(Pad(a, width) + u, Pad(b, width) + v)
  {
    if a == b {
      LessAtFirstDifference(Pad(a, width), u, v);
    } else {
      PadAscends(a, b, width);
      PadWidth(a, width);
      PadWidth(b, width);
      LessIrreflexive(Pad(a, width));
      LessFixedWidth(Pad(a, width), Pad(b, width), u, v);
    }
  }

  lemma DateNested(date: Date, u: string)
    requires IsDate(date) && date.year >= 0
    ensures DateString(date) + u == Pad(date.year, 4) + ("-" + (Pad(date.month, 2) + ("-" + (Pad(date.day, 2) + u))))
  {
  }

  /** Earlier dates sort first, and equal ones leave it to the time. */
  lemma DateOrder(a: Date, b: Date, u: string, v: string)
    requires IsDate(a) && IsDate(b) && 0 <= a.year && 0 <= b.year <= 9999
    requires DateLess(a, b) || (a == b && Less(u, v))
    ensures Less(DateString(a) + u, DateString(b) + v)
  {
    Powers();
    DateNested(a, u);
    DateNested(b, v);
    var du, dv := Pad(a.day, 2) + u, Pad(b.day, 2) + v;
    if a.year == b.year && a.month == b.month { FieldOrder(a.day, b.day, 2, u, v); }
    LessAtFirstDifference("-", du, dv);
    var mu, mv := Pad(a.month, 2) + ("-" + du), Pad(b.month, 2) + ("-" + dv);
    if a.year == b.year { FieldOrder(a.month, b.month, 2, "-" + du, "-" + dv); }
    LessAtFirstDifference("-", mu, mv);
    FieldOrder(a.year, b.year, 4, "-" + mu, "-" + mv);
  }

  lemma TimeNested(h: nat, mi: nat, sec: nat, ms: nat)
    ensures TimePart(h, mi, sec, ms)
              == Pad(h, 2) + (":" + (Pad(mi, 2) + (":" + (Pad(sec, 2) + ("." + (Pad(ms, 3) + "Z"))))))
  {
  }

  lemma TimeOrder(h: nat, mi: nat, sec: nat, ms: nat, h': nat, mi': nat, sec': nat, ms': nat)
    requires h' <= 23 && mi <= 59 && mi' <= 59 && sec <= 59 && sec' <= 59 && ms <= 999 && ms' <= 999
    requires h < h' || (h == h' && (mi < mi' || (mi == mi' && (sec < sec' || (sec == sec' && ms < ms')))))
    ensures Less(TimePart(h, mi, sec, ms), TimePart(h', mi', sec', ms'))
  {
    Powers();
    TimeNested(h, mi, sec, ms);
    TimeNested(h', mi', sec', ms');
    var u, v := Pad(ms, 3) + "Z", Pad(ms', 3) + "Z";
    if ms < ms' { FieldOrder(ms, ms', 3, "Z", "Z"); }
    LessAtFirstDifference(".", u, v);
    var su, sv := Pad(sec, 2) + ("." + u), Pad(sec', 2) + ("." + v);
    if sec < sec' || (sec == sec' && ms < ms') { FieldOrder(sec, sec', 2, "." + u, "." + v); }
    LessAtFirstDifference(":", su, sv);
    var mu, mv := Pad(mi, 2) + (":" + su), Pad(mi', 2) + (":" + sv);
    if mi < mi' || (mi == mi' && (sec < sec' || (sec == sec' && ms < ms'))) { FieldOrder(mi, mi', 2, ":" + su, ":" + sv); }
    LessAtFirstDifference(":", mu, mv);
    FieldOrder(h, h', 2, ":" + mu, ":" + mv);
  }

  lemma TimesAscend(a: nat, b: nat)
    requires a < b < MS_PER_DAY
    ensures Less(TimeString(a), TimeString(b))
  {
    ClockAddsUp(a);
    ClockAddsUp(b);
    TimeOrder(a / MS_PER_HOUR, a / MS_PER_MINUTE % 60, a / 1000 % 60, a % 1000,
              b / MS_PER_HOUR, b / MS_PER_MINUTE % 60, b / 1000 % 60, b % 1000);
  }

  lemma StampOrder(x: Date, y: Date, t: nat, t': nat)
    requires IsDate(x) && IsDate(y) && 0 <= x.year && 0 <= y.year <= 9999 && t < MS_PER_DAY && t' < MS_PER_DAY
    requires DateLess(x, y) || (x == y && t < t')
    ensures Less(DateString(x) + "T" + TimeString(t), DateString(y) + "T" + TimeString(t'))
  {
    if x == y && t < t' {
      TimesAscend(t, t');
      LessAtFirstDifference("T", TimeString(t), TimeString(t'));
    }
    DateOrder(x, y, "T" + TimeString(t), "T" + TimeString(t'));
    assert DateString(x) + "T" + TimeString(t) == DateString(x) + ("T" + TimeString(t));
    assert DateString(y) + "T" + TimeString(t') == DateString(y) + ("T" + TimeString(t'));
  }

  lemma DayThenTime(a: nat, b: nat)
    requires a < b
    ensures a / MS_PER_DAY < b / MS_PER_DAY || (a / MS_PER_DAY == b / MS_PER_DAY && a % MS_PER_DAY < b % MS_PER_DAY)
  {
  }

  lemma DayOrder(x: Date, y: Date)
    requires IsDate(x) && IsDate(y) && DaysFromCivil(x) <= DaysFromCivil(y)
    ensures if DaysFromCivil(x) < DaysFromCivil(y) then DateLess(x, y) else x == y
  {
    if DaysFromCivil(x) < DaysFromCivil(y) { LaterDayLaterDate(x, y); } else { SameDaySameDate(x, y); }
  }

  lemma FormatAscends(a: nat, b: nat)
    requires a < b <= MAX_MS
    ensures Less(Format(a), Format(b))
  {
    var x := ShownDate(a);
    var y := ShownDate(b);
    DayThenTime(a, b);
    DayAndTime(b);
    FourDigitYears(y);
    DayOrder(x, y);
    StampOrder(x, y, a % MS_PER_DAY, b % MS_PER_DAY);
  }

  /** Up to year 9999, timestamps sort exactly as the instants they name. */
  lemma FormatKeepsOrder(a: nat, b: nat)
    requires a <= MAX_MS && b <= MAX_MS
    ensures Less(Format(a), Format(b)) <==> a < b
    ensures Format(a) == Format(b) <==> a == b
  {
    LessIrreflexive(Format(a));
    if a < b {
      FormatAscends(a, b);
    } else if b < a {
      FormatAscends(b, a);
      LessAsymmetric(Format(b), Format(a));
    }
  }
}
