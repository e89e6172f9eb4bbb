/**
 * The server-side `DomainObject` date helpers: one shared `SimpleDateFormat` with the pattern
 * `yyyy-MM-dd'T'HH:mm:ssZ`. `FormatDate` prints a date in the JVM's default time zone, which
 * is an input here: the offset from UTC, in minutes, in force at each instant. `ToDate` parses
 * the printed text of any value and turns every failure into null.
 */
module SecondsDate {
  import opened Wrappers
  import opened JavaText
  import Calendar
  import opened Json

  const Pattern: string := "yyyy-MM-dd'T'HH:mm:ssZ"

  /** The largest offset the `Z` field can carry: 23 hours and 59 minutes. */
  const MaxOffset: int := 23 * 60 + 59

  type ZoneOffset = m: int | -MaxOffset <= m <= MaxOffset

  /** The default time zone: its offset in minutes at each instant (milliseconds since the epoch). */
  type Zone = int -> ZoneOffset

  /** The fields the pattern prints, in the order it prints them, and the zone offset in minutes. */
  datatype Fields = Fields(year: int, month: int, day: int, hour: int, minute: int, second: int, offset: int)

  predicate InRange(f: Fields) {
    && 1 <= f.month <= 12 && 1 <= f.day <= 31
    && 0 <= f.hour < 24 && 0 <= f.minute < 60 && 0 <= f.second < 60
    && -MaxOffset <= f.offset <= MaxOffset
  }

  /** The local calendar fields of `date` in `zone`; seconds are counted down (floor), so milliseconds drop out. */
  function LocalFields(zone: Zone, date: Date): (f: Fields)
    ensures InRange(f)
  {
    var offset: int := zone(date);
    var local := date / 1000 + offset * 60;
    var secondOfDay := local % 86400;
    var c := Calendar.CivilFromDays(local / 86400);
    Fields(c.year, c.month, c.day, secondOfDay / 3600, secondOfDay % 3600 / 60, secondOfDay % 60, offset)
  }

  /** `y` prints the year of the era, so 1 BC (year 0) prints as 1, 2 BC as 2, and so on. */
  function YearOfEra(year: int): (y: nat)
    ensures year >= 1 ==> y == year
  {
    if year >= 1 then year else 1 - year
  }

  function Zeros(k: nat): (z: string)
    ensures |z| == k && AllDigits(z)
    ensures forall i :: 0 <= i < k ==> z[i] == '0'
  {
    seq(k, _ => '0')
  }

  lemma {:induction false} ZerosValue(k: nat)
    ensures DigitsValue(Zeros(k)) == 0
  {
    if k > 0 {
      assert Zeros(k)[..k - 1] == Zeros(k - 1);
      ZerosValue(k - 1);
    }
  }

  lemma {:induction false} LeadingZerosValue(k: nat, d: string)
    requires AllDigits(d)
    ensures DigitsValue(Zeros(k) + d) == DigitsValue(d)
    decreases |d|
  {
    var t := Zeros(k) + d;
    if d == [] {
      assert t == Zeros(k);
      ZerosValue(k);
    } else {
      assert t[..|t| - 1] == Zeros(k) + d[..|d| - 1];
      LeadingZerosValue(k, d[..|d| - 1]);
    }
  }

  /** A number printed with at least `width` digits, padded with leading zeros. */
  function Pad(n: nat, width: nat): (r: string)
    ensures |r| > 0 && |r| >= width && AllDigits(r) && DigitsValue(r) == n
    ensures n < 100 && width == 2 ==> |r| == 2
  {
    var d := NatDigits(n);
    if |d| >= width then d
    else
      LeadingZerosValue(width - |d|, d);
      Zeros(width - |d|) + d
  }

  /** `Z`: the sign, then the hours and the minutes of the offset, two digits each. */
  function ZoneText(offset: ZoneOffset): (z: string)
    ensures |z| == 5
  {
    var magnitude: nat := if offset < 0 then -offset else offset;
    (if offset < 0 then "-" else "+") + (Pad(magnitude / 60, 2) + Pad(magnitude % 60, 2))
  }

  /** The text the pattern prints for `f`. */
  function Render(f: Fields): string
    requires InRange(f)
  {
    var time := Pad(f.hour, 2) + (":" + (Pad(f.minute, 2) + (":" + (Pad(f.second, 2) + ZoneText(f.offset)))));
    Pad(YearOfEra(f.year), 4) + ("-" + (Pad(f.month, 2) + ("-" + (Pad(f.day, 2) + ("T" + time)))))
  }

  /** `formatDate`: null for a null date, otherwise the date printed with the pattern. */
  function FormatDate(zone: Zone, date: Option<Date>): (r: Option<string>)
    ensures r.None? <==> date.None?
  {
    match date
    case None => None
    case Some(d) => Some(Render(LocalFields(zone, d)))
  }

  /** The printed text of a date reads back, field by field, as its local fields with the year of the era. */
  lemma ParseFormatted(zone: Zone, date: Date)
    ensures ParseFields(FormatDate(zone, Some(date)).value) == Some(LocalFields(zone, date).(year := YearOfEra(LocalFields(zone, date).year)))
  {
    ParseRendered(LocalFields(zone, date));
  }

  /** The length of the run of digits that `s` starts with. */
  function DigitRun(s: string): (k: nat)
    ensures k <= |s| && AllDigits(s[..k]) && (k < |s| ==> !IsDigit(s[k]))
  {
    if |s| == 0 || !IsDigit(s[0]) then 0
    else
      var k := 1 + DigitRun(s[1..]);
      assert forall i :: 1 <= i < k ==> s[..k][i] == s[1..][..k - 1][i - 1];
      k
  }

  lemma DigitRunOf(s: string, k: nat)
    requires k <= |s| && AllDigits(s[..k]) && (k < |s| ==> !IsDigit(s[k]))
    ensures DigitRun(s) == k
  {
  }

  /** A numeric field: the run of digits at the front (at least one), and the text after it. */
  function TakeNumber(s: string): (r: Option<(nat, string)>)
    ensures r.Some? ==> |s| > 0 && IsDigit(s[0])
  {
    var k := DigitRun(s);
    if k == 0 then None
    else
      assert s[..k][0] == s[0];
      Some((DigitsValue(s[..k]), s[k..]))
  }

  /** A numeric field and the literal character that follows it in the pattern. */
  function TakeField(s: string, separator: char): Option<(nat, string)> {
    var n :- TakeNumber(s);
    if |n.1| > 0 && n.1[0] == separator then Some((n.0, n.1[1..])) else None
  }

  /** An RFC 822 offset: a sign, two digits of hours (at most 23), two of minutes (at most 59). */
  function TakeZone(s: string): (r: Option<ZoneOffset>) {
    if |s| < 5 || !(s[0] == '+' || s[0] == '-') || !AllDigits(s[1..3]) || !AllDigits(s[3..5]) then None
    else
      var hours := DigitsValue(s[1..3]);
      var minutes := DigitsValue(s[3..5]);
      if hours > 23 || minutes > 59 then None
      else
        var magnitude := hours * 60 + minutes;
        Some(if s[0] == '-' then -magnitude else magnitude)
  }

  /** `yyyy-MM-dd'T'`: year, month, day and the text after the `T`. */
  function ParseDay(s: string): Option<(nat, nat, nat, string)> {
    var year :- TakeField(s, '-');
    var month :- TakeField(year.1, '-');
    var day :- TakeField(month.1, 'T');
    Some((year.0, month.0, day.0, day.1))
  }

  /** `HH:mm:ssZ`: hour, minute, second and offset. */
  function ParseTime(s: string): Option<(nat, nat, nat, ZoneOffset)> {
    var hour :- TakeField(s, ':');
    var minute :- TakeField(hour.1, ':');
    var second :- TakeNumber(minute.1);
    var offset :- TakeZone(second.1);
    Some((hour.0, minute.0, second.0, offset))
  }

  /** The fields of text that starts with the pattern's layout; anything after the offset is ignored. */
  function ParseFields(s: string): Option<Fields> {
    var day :- ParseDay(s);
    var time :- ParseTime(day.3);
    Some(Fields(day.0, day.1, day.2, time.0, time.1, time.2, time.3))
  }

  /** The instant the lenient calendar gives to parsed fields, in whole seconds since the epoch. */
  function EpochSeconds(f: Fields): int {
    var days := Calendar.LenientDays(f.year, f.month, f.day);
    days * 86400 + f.hour * 3600 + f.minute * 60 + f.second - f.offset * 60
  }

  lemma WholeSeconds(seconds: int)
    ensures (seconds * 1000) % 1000 == 0
  {
  }

  /** `dateFormat.parse(text)`; `None` is the ParseException (also for an instant no `long` holds). */
  function ParseDate(text: string): (r: Option<Date>)
    ensures r.Some? ==> r.value % 1000 == 0
  {
    var f :- ParseFields(text);
    var seconds := EpochSeconds(f);
    WholeSeconds(seconds);
    if IsLong(seconds * 1000) then Some(seconds * 1000) else None
  }

  /**
   * `toDate(value)`: the value's text parsed with the pattern; null for a null value (the
   * NullPointerException is swallowed) and for text the pattern does not match. Only a string
   * can hold a date: the printed text of a number, a boolean, a list or a map never parses.
   */
  function ToDate(v: Json): (r: Option<Date>)
    ensures v.JNull? ==> r.None?
    ensures r.Some? ==> v.JString? && ParseDate(v.s) == r
  {
    match v
    case JNull => None
    case JString(s) => ParseDate(s)
    case JInt(i) => NumberTextIsNotDate(i); ParseDate(IntToText(i))
    case _ => ParseDate(ToText(v).value)
  }

  lemma TakePadded(n: nat, width: nat, rest: string)
    requires rest == [] || !IsDigit(rest[0])
    ensures TakeNumber(Pad(n, width) + rest) == Some((n, rest))
  {
    var p := Pad(n, width);
    var t := p + rest;
    assert t[..|p|] == p;
    DigitRunOf(t, |p|);
    assert t[|p|..] == rest;
  }

  lemma TakeFieldPadded(n: nat, width: nat, separator: char, rest: string)
    requires !IsDigit(separator)
    ensures TakeField(Pad(n, width) + ([separator] + rest), separator) == Some((n, rest))
  {
    TakePadded(n, width, [separator] + rest);
    assert ([separator] + rest)[1..] == rest;
  }

  lemma TakeZoneText(offset: ZoneOffset)
    ensures TakeZone(ZoneText(offset)) == Some(offset)
  {
    var magnitude: nat := if offset < 0 then -offset else offset;
    var z := ZoneText(offset);
    var hh, mm := Pad(magnitude / 60, 2), Pad(magnitude % 60, 2);
    assert z[1..3] == hh && z[3..5] == mm;
  }

  lemma ParseTimeRendered(hour: nat, minute: nat, second: nat, offset: ZoneOffset)
    ensures ParseTime(Pad(hour, 2) + (":" + (Pad(minute, 2) + (":" + (Pad(second, 2) + ZoneText(offset)))))) == Some((hour, minute, second, offset))
  {
    var zone := ZoneText(offset);
    var r2 := Pad(second, 2) + zone;
    var r1 := Pad(minute, 2) + (":" + r2);
    TakeFieldPadded(hour, 2, ':', r1);
    TakeFieldPadded(minute, 2, ':', r2);
    assert zone[0] == '+' || zone[0] == '-';
    TakePadded(second, 2, zone);
    TakeZoneText(offset);
  }

  /** Parsing the text printed for in-range fields gives the fields back, with the year of the era. */
  lemma ParseRendered(f: Fields)
    requires InRange(f)
    ensures ParseFields(Render(f)) == Some(f.(year := YearOfEra(f.year)))
  {
    var time := Pad(f.hour, 2) + (":" + (Pad(f.minute, 2) + (":" + (Pad(f.second, 2) + ZoneText(f.offset)))));
    var r2 := Pad(f.day, 2) + ("T" + time);
    var r1 := Pad(f.month, 2) + ("-" + r2);
    TakeFieldPadded(YearOfEra(f.year), 4, '-', r1);
    TakeFieldPadded(f.month, 2, '-', r2);
    TakeFieldPadded(f.day, 2, 'T', time);
    assert ParseDay(Render(f)) == Some((YearOfEra(f.year), f.month as nat, f.day as nat, time));
    ParseTimeRendered(f.hour, f.minute, f.second, f.offset);
  }

  /** The decimal text of a number (a millisecond timestamp, say) never matches the pattern. */
  lemma NumberTextIsNotDate(n: int)
    ensures ParseDate(IntToText(n)) == None
  {
    var t := IntToText(n);
    if n >= 0 {
      DigitRunOf(t, |t|);
      assert t[|t|..] == [];
    } else {
      assert t[0] == '-';
    }
  }

  lemma SecondsOfLocalFields(zone: Zone, date: Date)
    ensures EpochSeconds(LocalFields(zone, date)) == date / 1000
  {
    var f := LocalFields(zone, date);
    var offset: int := zone(date);
    var local := date / 1000 + offset * 60;
    var secondOfDay := local % 86400;
    assert f.hour * 3600 + f.minute * 60 + f.second == secondOfDay;
    assert (local / 86400) * 86400 + secondOfDay == local;
  }

  /** A day number whose date falls in 1 AD or later lies above a fixed bound. */
  lemma DaysFromYearOne(days: int)
    requires Calendar.CivilFromDays(days).year >= 1
    ensures days >= -1969 * 366
  {
    var c := Calendar.CivilFromDays(days);
    Calendar.YearStartLowerBound(1);
    if c.year > 1 {
      Calendar.YearStartMonotone(1, c.year);
    }
  }

  lemma TruncateBounds(x: int)
    requires MinLong + 1000 <= x <= MaxLong
    ensures IsLong(x / 1000 * 1000)
  {
    assert x == x / 1000 * 1000 + x % 1000;
  }

  /** A date from 1 AD on lies far inside the `long` range even when truncated to whole seconds. */
  lemma TruncatedInRange(zone: Zone, date: Date)
    requires LocalFields(zone, date).year >= 1
    ensures IsLong(date / 1000 * 1000)
  {
    var offset: int := zone(date);
    var local := date / 1000 + offset * 60;
    var days := local / 86400;
    assert LocalFields(zone, date).year == Calendar.CivilFromDays(days).year;
    DaysFromYearOne(days);
    assert local >= days * 86400;
    assert date >= date / 1000 * 1000;
    assert IsLong(date);
    TruncateBounds(date);
  }

  lemma ToDateOfFields(text: string, f: Fields)
    requires ParseFields(text) == Some(f) && IsLong(EpochSeconds(f) * 1000)
    ensures ToDate(JString(text)) == Some(EpochSeconds(f) * 1000)
  {
  }

  /**
   * `toDate(formatDate(d))` is `d` truncated to whole seconds, in every time zone, for every
   * date whose local year is 1 AD or later (earlier years print as their year of the era).
   */
  lemma ToDateOfFormatDate(zone: Zone, date: Date)
    requires LocalFields(zone, date).year >= 1
    ensures FormatDate(zone, Some(date)).Some?
    ensures ToDate(JString(FormatDate(zone, Some(date)).value)) == Some(date / 1000 * 1000)
  {
    var f := LocalFields(zone, date);
    var text := FormatDate(zone, Some(date)).value;
    ParseFormatted(zone, date);
    assert f.(year := YearOfEra(f.year)) == f;
    assert ParseFields(text) == Some(f);
    SecondsOfLocalFields(zone, date);
    TruncatedInRange(zone, date);
    ToDateOfFields(text, f);
  }
}
