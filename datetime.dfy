/** Parsing of the API's `resets_at` strings into instants (integer seconds since
    1970-01-01T00:00:00Z): the RFC 3339 section 5.6 `date-time` form that
    ISO8601DateFormatter accepts with `.withInternetDateTime`, with or without
    `.withFractionalSeconds`. */
module DateTime {
  import opened Wrappers
  import opened Decimal

  predicate IsLeapYear(y: int) { (y % 4 == 0 && y % 100 != 0) || y % 400 == 0 }

  function DaysInMonth(y: int, m: int): int
    requires 1 <= m <= 12
  {
    if m == 2 then (if IsLeapYear(y) then 29 else 28)
    else if m == 4 || m == 6 || m == 9 || m == 11 then 30
    else 31
  }

  /** Days from 1970-01-01 to the given proleptic Gregorian date. */
  function DaysFromCivil(y: int, m: int, d: int): int
    requires 1 <= m <= 12
  {
    var y' := if m <= 2 then y - 1 else y;
    var era := y' / 400;
    var yoe := y' - era * 400;
    var doy := (153 * (if m > 2 then m - 3 else m + 9) + 2) / 5 + d - 1;
    var doe := yoe * 365 + yoe / 4 - yoe / 100 + doy;
    era * 146097 + doe - 719468
  }

  /** The value of the `n` digits of `s` starting at `i`, when they are all digits. */
  function DigitsAt(s: string, i: nat, n: nat): (r: Option<nat>)
    ensures r.Some? ==> i + n <= |s|
  {
    if i + n <= |s| && AllDigits(s[i..i + n]) then Some(DigitsValue(s[i..i + n])) else None
  }

  /** Length of the run of digits of `s` starting at `i`. */
  function DigitRun(s: string, i: nat): (n: nat)
    requires i <= |s|
    ensures i + n <= |s|
    ensures AllDigits(s[i..i + n])
    ensures i + n < |s| ==> !IsDigit(s[i + n])
    decreases |s| - i
  {
    if i < |s| && IsDigit(s[i]) then
      var k := DigitRun(s, i + 1);
      assert s[i..i + 1 + k] == [s[i]] + s[i + 1..i + 1 + k];
      1 + k
    else 0
  }

  /** The zone designator at the end of the string: "Z" or "+hh:mm" / "-hh:mm",
      as a number of seconds to subtract from the local time. */
  function ZoneOffset(s: string, i: nat): Option<int> {
    if i + 1 == |s| && s[i] == 'Z' then Some(0)
    else if i + 6 == |s| && (s[i] == '+' || s[i] == '-') && s[i + 3] == ':' then
      var hh := DigitsAt(s, i + 1, 2);
      var mm := DigitsAt(s, i + 4, 2);
      if hh.None? || mm.None? || hh.value > 23 || mm.value > 59 then None
      else
        var off := hh.value * 3600 + mm.value * 60;
        Some(if s[i] == '-' then 0 - off else off)
    else None
  }

  /** The fields of "YYYY-MM-DDThh:mm:ss". */
  datatype LocalTime = LocalTime(year: nat, month: nat, day: nat, hour: nat, minute: nat, second: nat)

  /** The local time named by "YYYY-MM-DDThh:mm:ss" at the head of `s`, when
      its fields are in range. */
  function LocalFields(s: string): (r: Option<LocalTime>)
    requires |s| >= 19
    ensures r.Some? ==> s[10] == 'T' && 1 <= r.value.month <= 12
  {
    if s[4] != '-' || s[7] != '-' || s[10] != 'T' || s[13] != ':' || s[16] != ':' then None
    else
      var year := DigitsAt(s, 0, 4);
      var month := DigitsAt(s, 5, 2);
      var day := DigitsAt(s, 8, 2);
      var hour := DigitsAt(s, 11, 2);
      var minute := DigitsAt(s, 14, 2);
      var second := DigitsAt(s, 17, 2);
      if year.None? || month.None? || day.None? || hour.None? || minute.None? || second.None? then None
      else if !(1 <= month.value <= 12) || !(1 <= day.value <= DaysInMonth(year.value, month.value)) then None
      else if hour.value > 23 || minute.value > 59 || second.value > 59 then None
      else Some(LocalTime(year.value, month.value, day.value, hour.value, minute.value, second.value))
  }

  /** Seconds since 1970-01-01T00:00:00 of a local time read as UTC. */
  function LocalSeconds(t: LocalTime): int
    requires 1 <= t.month <= 12
  {
    DaysFromCivil(t.year, t.month, t.day) * 86400 + t.hour * 3600 + t.minute * 60 + t.second
  }

  /** What follows the seconds: '.' and one or more digits exactly when
      `fractional` holds (the fraction is dropped), then the zone designator,
      read as its offset in seconds. */
  function ZoneAfterSeconds(s: string, fractional: bool): Option<int>
    requires |s| >= 20
  {
    var hasFraction := s[19] == '.';
    if hasFraction != fractional then None
    else
      var zoneAt := if hasFraction then 20 + DigitRun(s, 20) else 19;
      if hasFraction && zoneAt == 20 then None
      else ZoneOffset(s, zoneAt)
  }

  /** `ISO8601DateFormatter.date(from:)` with `.withInternetDateTime`, plus
      `.withFractionalSeconds` when `fractional` holds: "YYYY-MM-DDThh:mm:ss",
      then (only and always when `fractional`) '.' and one or more digits, then the
      zone. */
  function ParseInternetDateTime(s: string, fractional: bool): (r: Option<int>)
    ensures r.Some? ==> |s| >= 20 && s[10] == 'T'
  {
    if |s| < 20 then None
    else
      var local := LocalFields(s);
      var zone := ZoneAfterSeconds(s, fractional);
      if local.None? || zone.None? then None
      else Some(LocalSeconds(local.value) - zone.value)
  }

  /** No string is accepted by both formatters, so the order in which
      `resetsAtDate` tries them never changes its result. */
  lemma FormatsDisjoint(s: string)
    ensures ParseInternetDateTime(s, true).None? || ParseInternetDateTime(s, false).None?
  {
  }

  /** A UTC date-time without a fraction reads as the instant its fields name. */
  lemma ParseUtc(s: string, y: nat, mo: nat, d: nat, h: nat, mi: nat, sec: nat)
    requires |s| == 20 && s[4] == '-' && s[7] == '-' && s[10] == 'T' && s[13] == ':' && s[16] == ':' && s[19] == 'Z'
    requires DigitsAt(s, 0, 4) == Some(y) && DigitsAt(s, 5, 2) == Some(mo) && DigitsAt(s, 8, 2) == Some(d)
    requires DigitsAt(s, 11, 2) == Some(h) && DigitsAt(s, 14, 2) == Some(mi) && DigitsAt(s, 17, 2) == Some(sec)
    requires 1 <= mo <= 12 && 1 <= d <= DaysInMonth(y, mo) && h <= 23 && mi <= 59 && sec <= 59
    ensures ParseInternetDateTime(s, false) == Some(DaysFromCivil(y, mo, d) * 86400 + h * 3600 + mi * 60 + sec)
  {
    assert LocalFields(s) == Some(LocalTime(y, mo, d, h, mi, sec));
    assert ZoneOffset(s, 19) == Some(0);
  }

  /** The zone designator is read from the end of the string alone. */
  lemma ZoneOffsetSuffix(s: string, i: nat)
    requires i <= |s|
    ensures ZoneOffset(s, i) == ZoneOffset(s[i..], 0)
  {
    if i + 6 == |s| {
      assert s[i + 1..i + 3] == s[i..][1..3];
      assert s[i + 4..i + 6] == s[i..][4..6];
    }
  }

  /** Two strings that agree on "YYYY-MM-DDThh:mm:ss" name the same local time. */
  lemma SameLocal(s: string, t: string)
    requires |s| >= 19 && |t| >= 19 && s[..19] == t[..19]
    ensures LocalFields(s) == LocalFields(t)
  {
    SameDigits(s, t, 0, 4);
    SameDigits(s, t, 5, 2);
    SameDigits(s, t, 8, 2);
    SameDigits(s, t, 11, 2);
    SameDigits(s, t, 14, 2);
    SameDigits(s, t, 17, 2);
    assert s[4] == s[..19][4] && s[7] == s[..19][7] && s[10] == s[..19][10];
    assert s[13] == s[..19][13] && s[16] == s[..19][16];
    assert t[4] == t[..19][4] && t[7] == t[..19][7] && t[10] == t[..19][10];
    assert t[13] == t[..19][13] && t[16] == t[..19][16];
  }

  lemma SameDigits(s: string, t: string, k: nat, n: nat)
    requires |s| >= 19 && |t| >= 19 && s[..19] == t[..19] && k + n <= 19
    ensures DigitsAt(s, k, n) == DigitsAt(t, k, n)
  {
    forall j | k <= j < k + n ensures s[j] == t[j] {
      assert s[j] == s[..19][j] && t[j] == t[..19][j];
    }
    assert s[k..k + n] == t[k..k + n];
  }

  /** The run of digits is exactly the `n` digits that a non-digit ends. */
  lemma {:induction false} DigitRunExact(s: string, i: nat, n: nat)
    requires i + n <= |s| && AllDigits(s[i..i + n])
    requires i + n == |s| || !IsDigit(s[i + n])
    ensures DigitRun(s, i) == n
    decreases n
  {
    if n > 0 {
      assert s[i..i + n][0] == s[i];
      assert s[i + 1..i + n] == s[i..i + n][1..];
      DigitRunExact(s, i + 1, n - 1);
    }
  }

  /** The fractional form denotes the same instant as the plain form without
      the fraction: "…:ss.123Z" under `.withFractionalSeconds` and "…:ssZ"
      without it. */
  lemma FractionDropped(p: string, frac: string, zone: string)
    requires |p| == 19 && frac != [] && AllDigits(frac)
    requires zone != [] && !IsDigit(zone[0]) && zone[0] != '.'
    ensures ParseInternetDateTime(p + ['.'] + frac + zone, true) == ParseInternetDateTime(p + zone, false)
  {
    var f := p + ['.'] + frac + zone;
    var g := p + zone;
    assert f[..19] == p && g[..19] == p;
    assert f[19] == '.' && g[19] == zone[0];
    assert f[20..20 + |frac|] == frac && f[20 + |frac|] == zone[0];
    DigitRunExact(f, 20, |frac|);
    assert f[20 + |frac|..] == zone && g[19..] == zone;
    FractionIgnored(f, g, |frac|);
  }

  lemma FractionIgnored(f: string, g: string, n: nat)
    requires |f| >= 20 && |g| >= 20 && f[..19] == g[..19]
    requires f[19] == '.' && g[19] != '.' && n >= 1 && DigitRun(f, 20) == n
    requires f[20 + n..] == g[19..]
    ensures ParseInternetDateTime(f, true) == ParseInternetDateTime(g, false)
  {
    SameLocal(f, g);
    ZoneOffsetSuffix(f, 20 + n);
    ZoneOffsetSuffix(g, 19);
    SameZone(f, g, n);
    SameParts(f, g, true, false);
  }

  /** The instant is fixed by the local time and the zone offset. */
  lemma SameParts(f: string, g: string, a: bool, b: bool)
    requires |f| >= 20 && |g| >= 20
    requires LocalFields(f) == LocalFields(g) && ZoneAfterSeconds(f, a) == ZoneAfterSeconds(g, b)
    ensures ParseInternetDateTime(f, a) == ParseInternetDateTime(g, b)
  {
  }

  lemma SameZone(f: string, g: string, n: nat)
    requires |f| >= 20 && |g| >= 20
    requires f[19] == '.' && g[19] != '.' && n >= 1 && DigitRun(f, 20) == n
    requires ZoneOffset(f, 20 + n) == ZoneOffset(g, 19)
    ensures ZoneAfterSeconds(f, true) == ZoneAfterSeconds(g, false)
  {
  }

  /** A numeric zone offset shifts the instant: "…+hh:mm" is hh:mm before the
      same fields read in UTC ("…Z"). */
  lemma {:induction false} OffsetShiftsInstant(p: string, zone: string)
    requires |p| == 19 && ZoneOffset(zone, 0).Some?
    ensures ParseInternetDateTime(p + zone, false).Some? <==> ParseInternetDateTime(p + "Z", false).Some?
    ensures ParseInternetDateTime(p + zone, false).Some? ==>
      ParseInternetDateTime(p + zone, false).value == ParseInternetDateTime(p + "Z", false).value - ZoneOffset(zone, 0).value
  {
    var f := p + zone;
    var g := p + "Z";
    assert zone[0] == 'Z' || zone[0] == '+' || zone[0] == '-';
    assert f[..19] == p && g[..19] == p;
    SameLocal(f, g);
    assert f[19] == zone[0] && g[19] == 'Z';
    ZoneOffsetSuffix(f, 19);
    ZoneOffsetSuffix(g, 19);
    assert f[19..] == zone && g[19..] == "Z";
  }

  /** "+01:00" is one hour ahead of UTC. */
  lemma PlusOneHour(zone: string)
    requires zone == "+01:00"
    ensures ZoneOffset(zone, 0) == Some(3600)
  {
    assert zone[1..3] == "01" && zone[4..6] == "00";
    assert DigitsValue("01") == 1 && DigitsValue("00") == 0;
  }
}
