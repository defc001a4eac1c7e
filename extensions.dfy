/** Shared/Extensions/Extensions.swift: the `Color(hex:)` / `NSColor(hex:)` channel
    extraction and the widget's countdown text. The older Shared/Extensions.swift
    has the same `Color(hex:)`; its French `relativeFormatted` is in LegacyExtensions. */
module Extensions {
  import opened Wrappers
  import opened Decimal
  import opened Localized

  const UInt64Max: int := 0xFFFF_FFFF_FFFF_FFFF

  predicate IsHexDigit(c: char) {
    '0' <= c <= '9' || 'a' <= c <= 'f' || 'A' <= c <= 'F'
  }

  function HexDigitValue(c: char): (v: int)
    requires IsHexDigit(c)
    ensures 0 <= v < 16
  {
    if '0' <= c <= '9' then c as int - '0' as int
    else if 'a' <= c <= 'f' then c as int - 'a' as int + 10
    else c as int - 'A' as int + 10
  }

  /** `trimmingCharacters(in: "#")`: every '#' at either end is removed. */
  function TrimHash(s: string): (r: string)
    ensures |r| <= |s|
    ensures r != [] ==> r[0] != '#' && r[|r| - 1] != '#'
    ensures forall i :: 0 <= i < |s| && s[i] != '#' ==> r != []
    decreases |s|
  {
    if s == [] then s
    else if s[0] == '#' then TrimHash(s[1..])
    else if s[|s| - 1] == '#' then TrimHash(s[..|s| - 1])
    else s
  }

  /** Length of the leading run of hexadecimal digits. */
  function HexRun(s: string): (n: nat)
    ensures n <= |s|
    ensures forall i :: 0 <= i < n ==> IsHexDigit(s[i])
    ensures n < |s| ==> !IsHexDigit(s[n])
  {
    if s != [] && IsHexDigit(s[0]) then 1 + HexRun(s[1..]) else 0
  }

  /** Value of a run of hex digits, most significant first, saturating at
      UInt64.max as `scanHexInt64` does on overflow. */
  function HexValue(s: string): (v: int)
    requires forall i :: 0 <= i < |s| ==> IsHexDigit(s[i])
    ensures 0 <= v <= UInt64Max
    decreases |s|
  {
    if s == [] then 0
    else
      var v := HexValue(s[..|s| - 1]) * 16 + HexDigitValue(s[|s| - 1]);
      if v > UInt64Max then UInt64Max else v
  }

  /** The characters of `CharacterSet.whitespacesAndNewlines` (Unicode's
      White_Space property), which a `Scanner` skips by default. */
  predicate IsWhitespace(c: char) {
    c == ' ' || '\t' <= c <= '\r' || c == '\U{0085}' || c == '\U{00A0}' || c == '\U{1680}' ||
    '\U{2000}' <= c <= '\U{200A}' || c == '\U{2028}' || c == '\U{2029}' || c == '\U{202F}' ||
    c == '\U{205F}' || c == '\U{3000}'
  }

  /** What is left once the scanner has skipped the leading whitespace. */
  function SkipWhitespace(s: string): (r: string)
    ensures |r| <= |s| && r == s[|s| - |r|..]
    ensures r != [] ==> !IsWhitespace(r[0])
  {
    if s != [] && IsWhitespace(s[0]) then SkipWhitespace(s[1..]) else s
  }

  /** `scanHexInt64` accepts an optional "0x" or "0X" before the digits. */
  function DropHexPrefix(s: string): (r: string)
    ensures r == s || (|s| >= 2 && s[0] == '0' && (s[1] == 'x' || s[1] == 'X') && r == s[2..])
  {
    if |s| >= 2 && s[0] == '0' && (s[1] == 'x' || s[1] == 'X') then s[2..] else s
  }

  /** `Scanner(string:).scanHexInt64`: after the skipped whitespace and an
      optional "0x", the value of the leading hex digits; the variable stays 0
      when no digit follows. */
  function ScanHex(s: string): (v: nat)
    ensures 0 <= v <= UInt64Max
  {
    var t := DropHexPrefix(SkipWhitespace(s));
    HexValue(t[..HexRun(t)])
  }

  lemma {:induction false} SkipAllWhitespace(w: string, t: string)
    requires forall i :: 0 <= i < |w| ==> IsWhitespace(w[i])
    requires t == [] || !IsWhitespace(t[0])
    ensures SkipWhitespace(w + t) == t
    decreases |w|
  {
    if w == [] {
      assert w + t == t;
    } else {
      assert (w + t)[0] == w[0];
      assert (w + t)[1..] == w[1..] + t;
      SkipAllWhitespace(w[1..], t);
    }
  }

  /** Leading whitespace and a "0x"/"0X" prefix do not change the value read. */
  lemma {:induction false} ScanHexWithPrefix(w: string, x: char, t: string)
    requires forall i :: 0 <= i < |w| ==> IsWhitespace(w[i])
    requires x == 'x' || x == 'X'
    ensures ScanHex(w + ['0', x] + t) == HexValue(t[..HexRun(t)])
  {
    SkipAllWhitespace(w, ['0', x] + t);
    assert w + ['0', x] + t == w + (['0', x] + t);
    assert (['0', x] + t)[2..] == t;
  }

  /** Without a prefix, the digits after the whitespace are read. */
  lemma {:induction false} ScanHexWithoutPrefix(w: string, t: string)
    requires forall i :: 0 <= i < |w| ==> IsWhitespace(w[i])
    requires t == [] || !IsWhitespace(t[0])
    requires !(|t| >= 2 && t[0] == '0' && (t[1] == 'x' || t[1] == 'X'))
    ensures ScanHex(w + t) == HexValue(t[..HexRun(t)])
  {
    SkipAllWhitespace(w, t);
  }

  /** Nothing is read from a string whose first non-blank character is not a
      hex digit (the '#' that survives after a leading space, say). */
  lemma ScanHexNoDigits(w: string, t: string)
    requires forall i :: 0 <= i < |w| ==> IsWhitespace(w[i])
    requires t != [] && !IsWhitespace(t[0]) && !IsHexDigit(t[0])
    ensures ScanHex(w + t) == 0
  {
    SkipAllWhitespace(w, t);
  }

  /** The three 8-bit channels a colour is built from (before the /255 scaling). */
  datatype Rgb = Rgb(r: int, g: int, b: int)

  /** `(v & 0xFF0000) >> 16`, `(v & 0x00FF00) >> 8` and `v & 0x0000FF` on the
      UInt64 value, written as the byte selections they perform. */
  function Channels(v: nat): (c: Rgb)
    ensures 0 <= c.r < 256 && 0 <= c.g < 256 && 0 <= c.b < 256
  {
    Rgb((v / 0x10000) % 0x100, (v / 0x100) % 0x100, v % 0x100)
  }

  /** The channels of `Color(hex:)`; `NSColor(hex:)` (and the older extension's
      `Color(hex:)`) run the same steps, so one definition stands for all three. */
  function HexChannels(hex: string): (c: Rgb)
    ensures 0 <= c.r < 256 && 0 <= c.g < 256 && 0 <= c.b < 256
  {
    Channels(ScanHex(TrimHash(hex)))
  }

  lemma ByteSplit(hi: int, mid: int, lo: int)
    requires 0 <= hi < 256 && 0 <= mid < 256 && 0 <= lo < 256
    ensures Channels(hi * 0x10000 + mid * 0x100 + lo) == Rgb(hi, mid, lo)
  {
    var v := hi * 0x10000 + mid * 0x100 + lo;
    assert v / 0x10000 == hi;
    assert v / 0x100 == hi * 0x100 + mid;
  }

  /** Appending a digit shifts the value by one hex place while it fits in 64 bits. */
  lemma HexValueSnoc(s: string)
    requires |s| > 0 && forall i :: 0 <= i < |s| ==> IsHexDigit(s[i])
    requires HexValue(s[..|s| - 1]) * 16 + HexDigitValue(s[|s| - 1]) <= UInt64Max
    ensures HexValue(s) == HexValue(s[..|s| - 1]) * 16 + HexDigitValue(s[|s| - 1])
  {
  }

  lemma SixHexDigitsRun(s: string)
    requires |s| == 6 && forall i :: 0 <= i < 6 ==> IsHexDigit(s[i])
    ensures HexRun(s) == 6
  {
    assert HexRun(s[6..]) == 0;
    assert HexRun(s[5..]) == 1 + HexRun(s[6..]);
    assert HexRun(s[4..]) == 1 + HexRun(s[5..]);
    assert HexRun(s[3..]) == 1 + HexRun(s[4..]);
    assert HexRun(s[2..]) == 1 + HexRun(s[3..]);
    assert HexRun(s[1..]) == 1 + HexRun(s[2..]);
  }

  lemma SixHexDigitsValue(s: string)
    requires |s| == 6 && forall i :: 0 <= i < 6 ==> IsHexDigit(s[i])
    ensures HexValue(s) ==
      (HexDigitValue(s[0]) * 16 + HexDigitValue(s[1])) * 0x10000 +
      (HexDigitValue(s[2]) * 16 + HexDigitValue(s[3])) * 0x100 +
      (HexDigitValue(s[4]) * 16 + HexDigitValue(s[5]))
  {
    var d0, d1, d2 := HexDigitValue(s[0]), HexDigitValue(s[1]), HexDigitValue(s[2]);
    var d3, d4, d5 := HexDigitValue(s[3]), HexDigitValue(s[4]), HexDigitValue(s[5]);
    assert s[..1][..0] == [];
    assert HexValue(s[..1]) == d0;
    var v2 := d0 * 16 + d1;
    assert HexValue(s[..2]) == v2 by { assert s[..2][..1] == s[..1]; HexValueSnoc(s[..2]); }
    var v3 := v2 * 16 + d2;
    assert HexValue(s[..3]) == v3 by { assert s[..3][..2] == s[..2]; HexValueSnoc(s[..3]); }
    var v4 := v3 * 16 + d3;
    assert HexValue(s[..4]) == v4 by { assert s[..4][..3] == s[..3]; HexValueSnoc(s[..4]); }
    var v5 := v4 * 16 + d4;
    assert HexValue(s[..5]) == v5 by { assert s[..5][..4] == s[..4]; HexValueSnoc(s[..5]); }
    assert s[..6] == s;
    assert s[..5] == s[..|s| - 1];
    HexValueSnoc(s);
  }

  /** "#RRGGBB" gives each pair of digits as one channel. */
  lemma SixDigitHex(hex: string)
    requires |hex| == 7 && hex[0] == '#'
    requires forall i :: 1 <= i < 7 ==> IsHexDigit(hex[i])
    ensures HexChannels(hex) == Rgb(
      HexDigitValue(hex[1]) * 16 + HexDigitValue(hex[2]),
      HexDigitValue(hex[3]) * 16 + HexDigitValue(hex[4]),
      HexDigitValue(hex[5]) * 16 + HexDigitValue(hex[6]))
  {
    var s := hex[1..];
    assert TrimHash(hex) == s;
    ScanHexWithoutPrefix([], s);
    assert [] + s == s;
    SixHexDigitsRun(s);
    assert s[..HexRun(s)] == s;
    SixHexDigitsValue(s);
    ByteSplit(HexDigitValue(s[0]) * 16 + HexDigitValue(s[1]),
              HexDigitValue(s[2]) * 16 + HexDigitValue(s[3]),
              HexDigitValue(s[4]) * 16 + HexDigitValue(s[5]));
  }

  /** A "0x"-prefixed colour reads like the "#" form: "0xRRGGBB" and "#RRGGBB"
      give the same channels. */
  lemma PrefixedTrimmed(x: char, s: string)
    requires x == 'x' || x == 'X'
    requires s != [] && s[|s| - 1] != '#'
    ensures ScanHex(TrimHash(['0', x] + s)) == HexValue(s[..HexRun(s)])
  {
    var hex := ['0', x] + s;
    assert hex[0] != '#' && hex[|hex| - 1] == s[|s| - 1];
    assert TrimHash(hex) == hex;
    var w: string := [];
    ScanHexWithPrefix(w, x, s);
    assert w + ['0', x] + s == hex;
  }

  lemma HashTrimmed(s: string)
    requires s != [] && s[0] != '#' && !IsWhitespace(s[0]) && s[|s| - 1] != '#'
    requires !(|s| >= 2 && s[0] == '0' && (s[1] == 'x' || s[1] == 'X'))
    ensures ScanHex(TrimHash(['#'] + s)) == HexValue(s[..HexRun(s)])
  {
    var h := ['#'] + s;
    assert h[1..] == s;
    assert TrimHash(h) == s;
    ScanHexWithoutPrefix([], s);
    assert [] + s == s;
  }

  /** "0xRRGGBB" and "#RRGGBB" give the same channels. */
  lemma {:induction false} PrefixedSixDigitHex(x: char, s: string)
    requires x == 'x' || x == 'X'
    requires |s| == 6 && forall i :: 0 <= i < 6 ==> IsHexDigit(s[i])
    ensures HexChannels(['0', x] + s) == HexChannels(['#'] + s)
  {
    PrefixedTrimmed(x, s);
    HashTrimmed(s);
  }

  /** "%02d" for a value in 0..99. */
  function Pad2(m: int): (s: string)
    requires 0 <= m < 100
    ensures |s| == 2 && AllDigits(s) && DigitsValue(s) == m
  {
    if m < 10 then
      assert ['0', DigitChar(m)][..1] == ['0'] && ['0'][..0] == [];
      ['0', DigitChar(m)]
    else
      NatToStringDigits(m);
      assert m / 10 < 10;
      assert NatToString(m) == [DigitChar(m / 10)] + [DigitChar(m % 10)];
      assert DigitsValue(NatToString(m)[..1]) == m / 10;
      NatToString(m)
  }

  /** The hours and minutes of an interval in seconds: `Int(interval) / 3600` and
      `(Int(interval) % 3600) / 60`. */
  function HoursMinutes(interval: int): (hm: (int, int))
    requires interval > 0
    ensures hm.0 >= 0 && 0 <= hm.1 < 60
    ensures hm.0 * 3600 + hm.1 * 60 <= interval < hm.0 * 3600 + hm.1 * 60 + 60
  {
    (interval / 3600, (interval % 3600) / 60)
  }

  /** `Optional<Date>.widgetResetTimeFormatted`, with `now` standing for the clock. */
  function WidgetResetTimeFormatted(date: Option<int>, now: int): (t: Text)
  {
    match date
    case None => Literal("")
    case Some(d) =>
      var interval := d - now;
      if interval <= 0 then Plain("widget.soon")
      else
        var (h, m) := HoursMinutes(interval);
        if h > 0 then Literal(IntToString(h) + "h" + Pad2(m))
        else Literal(IntToString(m) + " min")
  }

  /** The countdown reads "" without a date, "soon" once the date is reached,
      hours and zero-padded minutes when at least an hour is left, and minutes
      alone otherwise; the displayed time is the interval rounded down to the minute. */
  lemma WidgetResetTimeCases(date: Option<int>, now: int)
    ensures date.None? ==> WidgetResetTimeFormatted(date, now) == Literal("")
    ensures date.Some? && date.value <= now ==> WidgetResetTimeFormatted(date, now) == Plain("widget.soon")
    ensures date.Some? && date.value - now >= 3600 ==>
              var (h, m) := HoursMinutes(date.value - now);
              WidgetResetTimeFormatted(date, now) == Literal(NatToString(h) + "h" + Pad2(m)) &&
              h >= 1 && 0 <= m < 60 && date.value - now - 60 < h * 3600 + m * 60 <= date.value - now
    ensures date.Some? && 0 < date.value - now < 3600 ==>
              WidgetResetTimeFormatted(date, now) == Literal(NatToString((date.value - now) / 60) + " min")
  {
  }
}

/** The French `Date.relativeFormatted` of the older Shared/Extensions.swift. */
module LegacyExtensions {
  import opened Decimal

  /** `relativeFormatted` for a date `date` seen at `now`. */
  function RelativeFormatted(date: int, now: int): (s: string)
  {
    var interval := now - date;
    if interval <= 0 then "a l'instant"
    else if interval < 60 then "il y a moins d'une minute"
    else if interval < 3600 then "il y a " + IntToString(interval / 60) + " min"
    else if interval < 86400 then "il y a " + IntToString(interval / 3600) + " h"
    else "il y a " + IntToString(interval / 86400) + " j"
  }

  /** The unit is chosen by the size of the interval, the buckets starting at
      exactly 60, 3600 and 86400 seconds, and the count is rounded down. */
  lemma RelativeFormattedBuckets(date: int, now: int)
    ensures var i := now - date;
      && (i <= 0 ==> RelativeFormatted(date, now) == "a l'instant")
      && (0 < i < 60 ==> RelativeFormatted(date, now) == "il y a moins d'une minute")
      && (60 <= i < 3600 ==> RelativeFormatted(date, now) == "il y a " + NatToString(i / 60) + " min"
                              && 1 <= i / 60 <= 59)
      && (3600 <= i < 86400 ==> RelativeFormatted(date, now) == "il y a " + NatToString(i / 3600) + " h"
                                 && 1 <= i / 3600 <= 23)
      && (86400 <= i ==> RelativeFormatted(date, now) == "il y a " + NatToString(i / 86400) + " j"
                          && i / 86400 >= 1)
  {
  }
}
