/**
 * The Deezer client's track-information bookkeeping (tizdeezer): the
 * strings get_current_track refreshes from the Python proxy, above all the
 * track duration rendered as "[Hh:][Mm:]SSs" from integer milliseconds.
 */
module Deezer {
  import opened Omx

  /** C's int. */
  type Int32 = x: int | -0x8000_0000 <= x < 0x8000_0000

  /** C's `/` on int: the quotient truncated toward zero. */
  function CDiv(a: int, b: int): (q: int)
    requires b > 0
    ensures a >= 0 ==> q * b <= a < q * b + b
    ensures a < 0 ==> q * b - b < a <= q * b
  {
    if a >= 0 then a / b else -((-a) / b)
  }

  /** C's `%` on int: the remainder takes the sign of the dividend. */
  function CMod(a: int, b: int): (r: int)
    requires b > 0
    ensures a == CDiv(a, b) * b + r
    ensures a >= 0 ==> 0 <= r < b
    ensures a < 0 ==> -b < r <= 0
  {
    a - CDiv(a, b) * b
  }

  predicate IsDigit(c: char)
  {
    '0' <= c <= '9'
  }

  predicate AllDigits(s: string)
  {
    forall i :: 0 <= i < |s| ==> IsDigit(s[i])
  }

  function DigitValue(c: char): nat
    requires IsDigit(c)
  {
    c as int - '0' as int
  }

  /** The number a string of decimal digits denotes. */
  function DigitsValue(s: string): nat
    requires AllDigits(s)
  {
    if |s| == 0 then 0 else DigitsValue(s[..|s| - 1]) * 10 + DigitValue(s[|s| - 1])
  }

  function DigitChar(d: nat): (c: char)
    requires d < 10
    ensures IsDigit(c) && DigitValue(c) == d
  {
    ('0' as int + d) as char
  }

  /** Decimal notation of a natural number, as boost::lexical_cast writes it. */
  function NatToStr(n: nat): (s: string)
    ensures 1 <= |s| && AllDigits(s) && DigitsValue(s) == n
    ensures |s| > 1 ==> s[0] != '0'
    ensures n > 0 ==> s[0] != '0'
    ensures n < 10 <==> |s| == 1
  {
    if n < 10 then [DigitChar(n)]
    else
      var s := NatToStr(n / 10) + [DigitChar(n % 10)];
      assert s[..|s| - 1] == NatToStr(n / 10);
      s
  }

  /** boost::lexical_cast<std::string> of an int. */
  function IntToStr(i: int): (s: string)
    ensures i >= 0 ==> AllDigits(s) && DigitsValue(s) == i
    ensures i < 0 ==> |s| >= 2 && s[0] == '-' && AllDigits(s[1..]) && DigitsValue(s[1..]) == -i
    ensures i > 0 ==> s[0] != '0'
    ensures i < 0 ==> s[1] != '0'
    ensures i == 0 ==> s == "0"
  {
    if i < 0 then "-" + NatToStr(-i) else NatToStr(i)
  }

  /**
   * printf's "%02i": the decimal notation, a minus sign first when negative,
   * padded with zeros to at least two characters.
   */
  function Printf02(v: int): (s: string)
    ensures |s| >= 2
    ensures v >= 0 ==> AllDigits(s) && DigitsValue(s) == v
    ensures 0 <= v < 100 ==> |s| == 2
    ensures v < 0 ==> s[0] == '-' && AllDigits(s[1..]) && DigitsValue(s[1..]) == -v
    ensures v < 0 ==> s[1] != '0'
    ensures 0 <= v < 10 ==> s[0] == '0'
    ensures v >= 10 ==> s[0] != '0'
  {
    if v < 0 then "-" + NatToStr(-v)
    else if v < 10 then
      var s := "0" + NatToStr(v);
      assert s[..1] == "0";
      s
    else NatToStr(v)
  }

  /** Hours, minutes and seconds as get_current_track computes them. */
  datatype Fields = Fields(hours: int, minutes: int, seconds: int)

  /**
   * The hours, minutes and seconds get_current_track shows for a track of
   * `duration` milliseconds. The duration is truncated to whole seconds; a
   * non-negative one is split in mixed radix (hours, then minutes and
   * seconds below 60); a negative one has no hours and keeps the rest in
   * C's truncating quotient and remainder by 60.
   */
  function DurationFields(duration: Int32): (f: Fields)
    ensures duration == 0 ==> f == Fields(0, 0, 0)
    ensures duration >= 0 ==>
              && 0 <= f.hours && 0 <= f.minutes < 60 && 0 <= f.seconds < 60
              && f.hours * 3600 + f.minutes * 60 + f.seconds == duration / 1000
    ensures duration < 0 ==>
              && f.hours == 0 && f.minutes <= 0 && -60 < f.seconds <= 0
              && f.minutes * 60 + f.seconds == CDiv(duration, 1000)
  {
    var total := CDiv(duration, 1000);
    if duration >= 0 then Fields(total / 3600, (total / 60) % 60, total % 60)
    else Fields(0, CDiv(total, 60), CMod(total, 60))
  }

  /** "Nh:" when there are hours, nothing otherwise. */
  function HoursPart(hours: int): string
  {
    if hours > 0 then IntToStr(hours) + "h:" else ""
  }

  /** "Nm:" when there are minutes, nothing otherwise. */
  function MinutesPart(minutes: int): string
  {
    if minutes > 0 then IntToStr(minutes) + "m:" else ""
  }

  /** "SSs", the seconds as "%02i" prints them. */
  function SecondsPart(seconds: int): string
  {
    Printf02(seconds) + "s"
  }

  /** The string built from the fields: "Nh:" if hours, "Nm:" if minutes, then "SSs". */
  function Render(f: Fields): string
  {
    HoursPart(f.hours) + (MinutesPart(f.minutes) + SecondsPart(f.seconds))
  }

  /** current_duration_ for a track of `duration` milliseconds. */
  function FormatDuration(duration: Int32): (s: string)
    ensures |s| >= 3 && s[|s| - 1] == 's'
  {
    Render(DurationFields(duration))
  }

  /** The seconds always end the string as two digits and an "s", and equal (ms / 1000) mod 60. */
  lemma SecondsRendering(duration: Int32)
    requires duration >= 0
    ensures var s := FormatDuration(duration);
            && AllDigits(s[|s| - 3..|s| - 1])
            && DigitsValue(s[|s| - 3..|s| - 1]) == (duration / 1000) % 60
  {
    var f := DurationFields(duration);
    var s := FormatDuration(duration);
    var tail := SecondsPart(f.seconds);
    assert s[|s| - 3..|s| - 1] == Printf02(f.seconds) by {
      assert s == Render(f);
      assert s[|s| - 3..] == tail;
    }
    assert f.seconds == (duration / 1000) % 60;
  }

  lemma NoLetterInDigits(s: string)
    requires AllDigits(s)
    ensures 'h' !in s && 'm' !in s
  {
    forall i | 0 <= i < |s|
      ensures s[i] != 'h' && s[i] != 'm'
    {
      assert IsDigit(s[i]);
    }
  }

  lemma NoLetterInNumber(v: int)
    ensures 'h' !in IntToStr(v) && 'm' !in IntToStr(v)
    ensures 'h' !in Printf02(v) && 'm' !in Printf02(v)
  {
    if v >= 0 {
      NoLetterInDigits(IntToStr(v));
      NoLetterInDigits(Printf02(v));
    } else {
      NoLetterInDigits(IntToStr(v)[1..]);
      NoLetterInDigits(Printf02(v)[1..]);
      assert IntToStr(v) == [IntToStr(v)[0]] + IntToStr(v)[1..];
      assert Printf02(v) == [Printf02(v)[0]] + Printf02(v)[1..];
    }
  }

  /** An "h" appears exactly when there are hours, an "m" exactly when there are minutes. */
  lemma UnitsShown(duration: Int32)
    ensures 'h' in FormatDuration(duration) <==> DurationFields(duration).hours > 0
    ensures 'm' in FormatDuration(duration) <==> DurationFields(duration).minutes > 0
  {
    RenderUnits(DurationFields(duration));
  }

  /** The unit letters of a rendering come from the hours and minutes parts alone. */
  lemma RenderUnits(f: Fields)
    ensures 'h' in Render(f) <==> f.hours > 0
    ensures 'm' in Render(f) <==> f.minutes > 0
  {
    HoursPartUnits(f.hours);
    MinutesPartUnits(f.minutes);
    NoLetterInNumber(f.seconds);
    var ss := SecondsPart(f.seconds);
    assert 'h' !in ss && 'm' !in ss;
  }

  lemma HoursPartUnits(hours: int)
    ensures 'h' in HoursPart(hours) <==> hours > 0
    ensures 'm' !in HoursPart(hours)
  {
    NoLetterInNumber(hours);
    if hours > 0 {
      var hs := HoursPart(hours);
      assert hs[|hs| - 2] == 'h';
    }
  }

  lemma MinutesPartUnits(minutes: int)
    ensures 'm' in MinutesPart(minutes) <==> minutes > 0
    ensures 'h' !in MinutesPart(minutes)
  {
    NoLetterInNumber(minutes);
    if minutes > 0 {
      var ms := MinutesPart(minutes);
      assert ms[|ms| - 2] == 'm';
    }
  }

  /** A one-hour track renders as "1h:00s": no minutes part. */
  lemma OneHourRendering()
    ensures FormatDuration(3600000) == "1h:00s"
  {
    assert DurationFields(3600000) == Fields(1, 0, 0);
    assert NatToStr(1) == "1";
    assert NatToStr(0) == "0";
  }

  /** A zero-length track renders as "00s". */
  lemma ZeroRendering()
    ensures FormatDuration(0) == "00s"
  {
    assert NatToStr(0) == "0";
  }

  /** Where the run of decimal digits starting at `i` ends. */
  function DigitRunEnd(s: string, i: nat): (k: nat)
    requires i <= |s|
    ensures i <= k <= |s|
    ensures forall j :: i <= j < k ==> IsDigit(s[j])
    ensures k < |s| ==> !IsDigit(s[k])
    decreases |s| - i
  {
    if i == |s| || !IsDigit(s[i]) then i else DigitRunEnd(s, i + 1)
  }

  /** The number of leading decimal digits of `s`. */
  function LeadingDigits(s: string): (k: nat)
    ensures k <= |s| && AllDigits(s[..k])
    ensures k < |s| ==> !IsDigit(s[k])
  {
    DigitRunEnd(s, 0)
  }

  /** `t` seconds plus `v` hours (unit 'h') or `v` minutes (any other unit). */
  function AddUnits(unit: char, v: nat, t: nat): nat
  {
    if unit == 'h' then 3600 * v + t else 60 * v + t
  }

  /**
   * Reads a duration string back into whole seconds: digit runs followed
   * by "h:" (hours) or "m:" (minutes), ending with a digit run and "s".
   */
  function ParseDuration(s: string): (r: Option<nat>)
    decreases |s|
  {
    var k := LeadingDigits(s);
    if k == 0 || k == |s| then None
    else
      var v := DigitsValue(s[..k]);
      if s[k] == 's' then
        if k + 1 == |s| then Some(v) else None
      else if (s[k] == 'h' || s[k] == 'm') && k + 1 < |s| && s[k + 1] == ':' then
        match ParseDuration(s[k + 2..])
        case None => None
        case Some(t) => Some(AddUnits(s[k], v, t))
      else None
  }

  lemma {:induction false} DigitRunOf(digits: string, rest: string, i: nat)
    requires AllDigits(digits) && i <= |digits|
    requires |rest| > 0 && !IsDigit(rest[0])
    ensures DigitRunEnd(digits + rest, i) == |digits|
    decreases |digits| - i
  {
    if i < |digits| {
      DigitRunOf(digits, rest, i + 1);
    }
  }

  lemma LeadingDigitsOfRun(digits: string, rest: string)
    requires AllDigits(digits)
    requires |rest| > 0 && !IsDigit(rest[0])
    ensures LeadingDigits(digits + rest) == |digits|
  {
    DigitRunOf(digits, rest, 0);
  }

  /** One "<digits>h:" or "<digits>m:" step of the parser. */
  lemma ParseUnitStep(s: string, k: nat)
    requires LeadingDigits(s) == k && 0 < k && k + 1 < |s|
    requires (s[k] == 'h' || s[k] == 'm') && s[k + 1] == ':'
    ensures ParseDuration(s) ==
              match ParseDuration(s[k + 2..])
              case None => None
              case Some(t) => Some(AddUnits(s[k], DigitsValue(s[..k]), t))
  {
  }

  /** The final "<digits>s" step of the parser. */
  lemma ParseSecondsStep(s: string, k: nat)
    requires LeadingDigits(s) == k && 0 < k && k + 1 == |s| && s[k] == 's'
    ensures ParseDuration(s) == Some(DigitsValue(s[..k]))
  {
  }

  /** Reading "<n>h:" or "<n>m:" in front of the rest adds n hours or minutes. */
  lemma ParseUnit(digits: string, u: char, rest: string)
    requires 1 <= |digits| && AllDigits(digits)
    requires u == 'h' || u == 'm'
    ensures ParseDuration(digits + [u, ':'] + rest) ==
              match ParseDuration(rest)
              case None => None
              case Some(t) => Some(AddUnits(u, DigitsValue(digits), t))
  {
    var s := digits + [u, ':'] + rest;
    var k := |digits|;
    LeadingDigitsOfRun(digits, [u, ':'] + rest);
    assert s == digits + ([u, ':'] + rest);
    assert s[..k] == digits;
    assert s[k + 2..] == rest;
    ParseUnitStep(s, k);
  }

  /** Reading "SSs" gives the seconds back. */
  lemma ParseSeconds(sec: nat)
    requires sec < 60
    ensures ParseDuration(SecondsPart(sec)) == Some(sec)
  {
    var digits := Printf02(sec);
    LeadingDigitsOfRun(digits, "s");
    assert (digits + "s")[..|digits|] == digits;
    ParseSecondsStep(digits + "s", |digits|);
  }

  /** Round trip: the rendered duration reads back as the whole seconds it was made from. */
  lemma FormatParseRoundTrip(duration: Int32)
    requires duration >= 0
    ensures ParseDuration(FormatDuration(duration)) == Some(duration / 1000)
  {
    var f := DurationFields(duration);
    ParseRendered(f);
    FieldsTotal(duration);
  }

  /** The fields of a non-negative duration add back up to its whole seconds. */
  lemma FieldsTotal(duration: Int32)
    requires duration >= 0
    ensures var f := DurationFields(duration);
            f.hours >= 0 && f.minutes >= 0 && f.seconds >= 0 &&
            AddUnits('h', f.hours, AddUnits('m', f.minutes, f.seconds)) == duration / 1000
  {
  }

  /** Any rendering of non-negative fields with seconds below 60 reads back as their total. */
  lemma ParseRendered(f: Fields)
    requires f.hours >= 0 && f.minutes >= 0 && 0 <= f.seconds < 60
    ensures ParseDuration(Render(f)) == Some(AddUnits('h', f.hours, AddUnits('m', f.minutes, f.seconds)))
  {
    ParseMinutesSeconds(f.minutes, f.seconds);
    ParseHoursPart(f.hours, MinutesPart(f.minutes) + SecondsPart(f.seconds), AddUnits('m', f.minutes, f.seconds));
  }

  /** "[Nm:]SSs" reads back as its minutes and seconds. */
  lemma ParseMinutesSeconds(minutes: nat, seconds: nat)
    requires seconds < 60
    ensures ParseDuration(MinutesPart(minutes) + SecondsPart(seconds)) == Some(AddUnits('m', minutes, seconds))
  {
    ParseSeconds(seconds);
    ParseMinutesPart(minutes, SecondsPart(seconds), seconds);
  }

  /** An optional "Nh:" part in front of a parsable rest adds its hours. */
  lemma ParseHoursPart(n: nat, rest: string, total: nat)
    requires ParseDuration(rest) == Some(total)
    ensures ParseDuration(HoursPart(n) + rest) == Some(AddUnits('h', n, total))
  {
    if n > 0 {
      var digits := NatToStr(n);
      assert HoursPart(n) == digits + ['h', ':'];
      ParsePrefixed(HoursPart(n), digits, 'h', rest, total);
    } else {
      ParseEmptyPart(HoursPart(n), rest);
    }
  }

  /** An optional "Nm:" part in front of a parsable rest adds its minutes. */
  lemma ParseMinutesPart(n: nat, rest: string, total: nat)
    requires ParseDuration(rest) == Some(total)
    ensures ParseDuration(MinutesPart(n) + rest) == Some(AddUnits('m', n, total))
  {
    if n > 0 {
      var digits := NatToStr(n);
      assert MinutesPart(n) == digits + ['m', ':'];
      ParsePrefixed(MinutesPart(n), digits, 'm', rest, total);
    } else {
      ParseEmptyPart(MinutesPart(n), rest);
    }
  }

  lemma ParseEmptyPart(part: string, rest: string)
    requires part == []
    ensures ParseDuration(part + rest) == ParseDuration(rest)
  {
    assert part + rest == rest;
  }

  lemma ParsePrefixed(part: string, digits: string, u: char, rest: string, total: nat)
    requires u == 'h' || u == 'm'
    requires 1 <= |digits| && AllDigits(digits) && part == digits + [u, ':']
    requires ParseDuration(rest) == Some(total)
    ensures ParseDuration(part + rest) == Some(AddUnits(u, DigitsValue(digits), total))
  {
    ParseUnit(digits, u, rest);
  }

  /** Appending two parts one after the other appends their concatenation. */
  lemma AppendAssoc(start: string, a: string, b: string)
    ensures start + a + b == start + (a + b)
  {
  }

  /** Dividing by 60 twice divides by 3600. */
  lemma DivSixtyTwice(t: nat)
    ensures t / 60 / 60 == t / 3600
    ensures t / 60 < 60 <==> t < 3600
  {
    var q, r := t / 3600, t % 3600;
    assert t == 60 * (60 * q + r / 60) + r % 60;
    assert t / 60 == 60 * q + r / 60;
  }

  /** C's quotient by 60 of a multiple of 60 gives the multiplier back. */
  lemma CDivMultiple(x: int)
    ensures CDiv(x * 60, 60) == x
  {
  }

  /**
   * The integer arithmetic of get_current_track: milliseconds truncated to
   * seconds, the seconds split off with C's `%`, and the minutes split into
   * hours only when there are 60 or more; all zero for a zero duration.
   */
  method SplitDuration(durationMs: Int32) returns (hours: int, minutes: int, seconds: int)
    ensures Fields(hours, minutes, seconds) == DurationFields(durationMs)
  {
    hours, minutes, seconds := 0, 0, 0;
    if durationMs != 0 {
      var duration := CDiv(durationMs, 1000);
      seconds := CMod(duration, 60);
      minutes := CDiv(duration - seconds, 60);
      CDivMultiple(CDiv(duration, 60));
      assert minutes == CDiv(duration, 60);
      if minutes >= 60 {
        var totalMinutes := minutes;
        minutes := CMod(totalMinutes, 60);
        hours := CDiv(totalMinutes - minutes, 60);
        CDivMultiple(CDiv(totalMinutes, 60));
      }
      if durationMs > 0 {
        DivSixtyTwice(duration);
      }
    }
  }

  /** What the proxy's current_track_* calls return; NULL strings are None. */
  datatype TrackInfo = TrackInfo(
    user: Option<string>,
    title: Option<string>,
    durationMs: Int32,
    year: Int32,
    permalink: Option<string>,
    license: Option<string>,
    likes: Int32)

  /** The tizdeezer object's current-track strings. */
  class TizDeezer {
    const oauthToken: string
    var currentUser: string
    var currentTitle: string
    var currentDuration: string
    var currentTrackYear: string
    var currentTrackPermalink: string
    var currentTrackLicense: string
    var currentTrackLikes: string

    /** tizdeezer::tizdeezer: keeps the token; every string starts empty. */
    constructor (oauthToken: string)
      ensures this.oauthToken == oauthToken
      ensures currentUser == [] && currentTitle == [] && currentDuration == []
      ensures currentTrackYear == [] && currentTrackPermalink == []
      ensures currentTrackLicense == [] && currentTrackLikes == []
    {
      this.oauthToken := oauthToken;
      currentUser := [];
      currentTitle := [];
      currentDuration := [];
      currentTrackYear := [];
      currentTrackPermalink := [];
      currentTrackLicense := [];
      currentTrackLikes := [];
    }

    /**
     * The duration part of get_current_track: current_duration_ is cleared,
     * the duration split into fields, and the fields appended.
     */
    method RebuildDuration(durationMs: Int32)
      modifies this
      ensures currentDuration == FormatDuration(durationMs)
      ensures currentUser == old(currentUser) && currentTitle == old(currentTitle)
      ensures currentTrackYear == old(currentTrackYear) && currentTrackLikes == old(currentTrackLikes)
      ensures currentTrackPermalink == old(currentTrackPermalink) && currentTrackLicense == old(currentTrackLicense)
    {
      currentDuration := [];
      var hours, minutes, seconds := SplitDuration(durationMs);
      AppendDuration(hours, minutes, seconds);
    }

    /**
     * Appends "Nh:" when there are hours, "Nm:" when there are minutes, and
     * the seconds as "%02is".
     */
    method AppendDuration(hours: int, minutes: int, seconds: int)
      modifies this
      ensures currentDuration == old(currentDuration) + Render(Fields(hours, minutes, seconds))
      ensures currentUser == old(currentUser) && currentTitle == old(currentTitle)
      ensures currentTrackYear == old(currentTrackYear) && currentTrackLikes == old(currentTrackLikes)
      ensures currentTrackPermalink == old(currentTrackPermalink) && currentTrackLicense == old(currentTrackLicense)
    {
      ghost var start := currentDuration;
      if hours > 0 {
        currentDuration := currentDuration + IntToStr(hours);
        currentDuration := currentDuration + "h:";
        AppendAssoc(start, IntToStr(hours), "h:");
      } else {
        assert currentDuration == start + [];
      }
      ghost var afterHours := currentDuration;
      if minutes > 0 {
        currentDuration := currentDuration + IntToStr(minutes);
        currentDuration := currentDuration + "m:";
        AppendAssoc(afterHours, IntToStr(minutes), "m:");
      } else {
        assert currentDuration == afterHours + [];
      }
      ghost var afterMinutes := currentDuration;
      currentDuration := currentDuration + Printf02(seconds);
      currentDuration := currentDuration + "s";
      AppendAssoc(afterMinutes, Printf02(seconds), "s");
      AppendAssoc(afterHours, MinutesPart(minutes), SecondsPart(seconds));
      AppendAssoc(start, HoursPart(hours), MinutesPart(minutes) + SecondsPart(seconds));
    }

    /**
     * tizdeezer::get_current_track with the proxy's answers in `info`:
     * user and title are cleared and set from non-NULL values, the duration
     * string is rebuilt from empty, year and likes are rewritten, and
     * permalink and license are only overwritten by non-NULL values.
     */
    method GetCurrentTrack(info: TrackInfo) returns (rc: int)
      modifies this
      ensures rc == 0 <==> info.user.Some? || info.title.Some?
      ensures rc == 0 || rc == 1
      ensures currentUser == (if info.user.Some? then info.user.value else [])
      ensures currentTitle == (if info.title.Some? then info.title.value else [])
      ensures currentDuration == FormatDuration(info.durationMs)
      ensures currentTrackYear == IntToStr(info.year)
      ensures currentTrackPermalink == if info.permalink.Some? then info.permalink.value else old(currentTrackPermalink)
      ensures currentTrackLicense == if info.license.Some? then info.license.value else old(currentTrackLicense)
      ensures currentTrackLikes == IntToStr(info.likes)
    {
      rc := 1;
      SetUserAndTitle(info.user, info.title);
      RebuildDuration(info.durationMs);
      SetTrackDetails(info.year, info.permalink, info.license, info.likes);
      if info.user.Some? || info.title.Some? {
        rc := 0;
      }
    }

    /** User and title are cleared, then set from the values that are not NULL. */
    method SetUserAndTitle(user: Option<string>, title: Option<string>)
      modifies this
      ensures currentUser == (if user.Some? then user.value else [])
      ensures currentTitle == (if title.Some? then title.value else [])
      ensures currentDuration == old(currentDuration)
      ensures currentTrackYear == old(currentTrackYear) && currentTrackLikes == old(currentTrackLikes)
      ensures currentTrackPermalink == old(currentTrackPermalink) && currentTrackLicense == old(currentTrackLicense)
    {
      currentUser := [];
      currentTitle := [];
      if user.Some? {
        currentUser := user.value;
      }
      if title.Some? {
        currentTitle := title.value;
      }
    }

    /**
     * Year and likes are rewritten; permalink and license only change when
     * the proxy returned a value.
     */
    method SetTrackDetails(year: Int32, permalink: Option<string>, license: Option<string>, likes: Int32)
      modifies this
      ensures currentTrackYear == IntToStr(year)
      ensures currentTrackPermalink == if permalink.Some? then permalink.value else old(currentTrackPermalink)
      ensures currentTrackLicense == if license.Some? then license.value else old(currentTrackLicense)
      ensures currentTrackLikes == IntToStr(likes)
      ensures currentUser == old(currentUser) && currentTitle == old(currentTitle)
      ensures currentDuration == old(currentDuration)
    {
      currentTrackYear := IntToStr(year);
      if permalink.Some? {
        currentTrackPermalink := permalink.value;
      }
      if license.Some? {
        currentTrackLicense := license.value;
      }
      currentTrackLikes := IntToStr(likes);
    }
  }
}
