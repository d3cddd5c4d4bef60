/** Rendering durations given in whole seconds: the `format_duration` helper
    that the playlist script and the Markdown converter share, and the
    "minutes:seconds" line the yt-dlp transcriber prints. */
module Durations {
  import opened Common
  import opened Text

  datatype Clock = Clock(hours: nat, minutes: nat, seconds: nat)

  /** `seconds // 3600`, `(seconds % 3600) // 60`, `seconds % 60`. */
  function SplitClock(s: nat): (c: Clock)
    ensures c.hours * 3600 + c.minutes * 60 + c.seconds == s
    ensures c.minutes < 60 && c.seconds < 60
  {
    Clock(s / 3600, (s % 3600) / 60, s % 60)
  }

  /** The split is the only one with minutes and seconds below 60. */
  lemma SplitClockUnique(s: nat, c: Clock)
    requires c.hours * 3600 + c.minutes * 60 + c.seconds == s
    requires c.minutes < 60 && c.seconds < 60
    ensures c == SplitClock(s)
  {
    var r := c.minutes * 60 + c.seconds;
    assert r < 3600;
    assert s == c.hours * 3600 + r;
    assert s / 3600 == c.hours && s % 3600 == r;
    assert r / 60 == c.minutes && r % 60 == c.seconds;
    assert s % 60 == c.seconds by {
      assert s == (c.hours * 60 + c.minutes) * 60 + c.seconds;
    }
  }

  /** A number followed by a unit letter, as in "12m". */
  function Part(n: nat, unit: char): string
  {
    NatToString(n) + [unit]
  }

  /** `format_duration(seconds)`: "Unknown duration" for a missing or zero
      duration, otherwise hours, minutes and seconds, leaving out the leading
      units that are zero. */
  function FormatDuration(seconds: Option<nat>): (r: string)
    ensures seconds.None? || seconds.value == 0 ==> r == "Unknown duration"
    ensures seconds.Some? && seconds.value > 0 ==> |r| >= 2 && r[|r| - 1] == 's' && r != "Unknown duration"
  {
    if seconds.None? || seconds.value == 0 then "Unknown duration"
    else
      var c := SplitClock(seconds.value);
      if c.hours > 0 then Part(c.hours, 'h') + " " + Part(c.minutes, 'm') + " " + Part(c.seconds, 's')
      else if c.minutes > 0 then Part(c.minutes, 'm') + " " + Part(c.seconds, 's')
      else Part(c.seconds, 's')
  }

  /** Reads one "<digits><unit>" piece. */
  function ReadPart(p: string, unit: char): (r: Option<nat>)
  {
    if |p| >= 2 && p[|p| - 1] == unit && AllDigits(p[..|p| - 1]) then Some(ParseNat(p[..|p| - 1])) else None
  }

  /** Reads a rendered duration back into seconds: the inverse of
      `FormatDuration`. */
  function ParseDuration(text: string): (r: Option<nat>)
  {
    var ps := SplitOn(text, ' ');
    if |ps| == 3 then
      match (ReadPart(ps[0], 'h'), ReadPart(ps[1], 'm'), ReadPart(ps[2], 's'))
      case (Some(h), Some(m), Some(s)) => Some(h * 3600 + m * 60 + s)
      case _ => None
    else if |ps| == 2 then
      match (ReadPart(ps[0], 'm'), ReadPart(ps[1], 's'))
      case (Some(m), Some(s)) => Some(m * 60 + s)
      case _ => None
    else
      ReadPart(ps[0], 's')
  }

  lemma ReadPartOfPart(n: nat, unit: char)
    requires unit != ' '
    ensures ReadPart(Part(n, unit), unit) == Some(n)
    ensures ' ' !in Part(n, unit)
  {
    var p := Part(n, unit);
    assert p[..|p| - 1] == NatToString(n);
    ParseNatToString(n);
    assert forall k :: 0 <= k < |p| - 1 ==> IsDigit(p[k]);
  }

  lemma ParseThreeParts(h: nat, m: nat, s: nat)
    ensures ParseDuration(Part(h, 'h') + " " + Part(m, 'm') + " " + Part(s, 's')) == Some(h * 3600 + m * 60 + s)
  {
    var ph, pm, ps := Part(h, 'h'), Part(m, 'm'), Part(s, 's');
    ReadPartOfPart(h, 'h');
    ReadPartOfPart(m, 'm');
    ReadPartOfPart(s, 's');
    SplitOnFree(ps, ' ');
    assert ph + " " + pm + " " + ps == ph + [' '] + (pm + [' '] + ps);
    SplitOnAfterPiece(pm, ' ', ps);
    SplitOnAfterPiece(ph, ' ', pm + [' '] + ps);
  }

  lemma ParseTwoParts(m: nat, s: nat)
    ensures ParseDuration(Part(m, 'm') + " " + Part(s, 's')) == Some(m * 60 + s)
  {
    var pm, ps := Part(m, 'm'), Part(s, 's');
    ReadPartOfPart(m, 'm');
    ReadPartOfPart(s, 's');
    SplitOnFree(ps, ' ');
    assert pm + " " + ps == pm + [' '] + ps;
    SplitOnAfterPiece(pm, ' ', ps);
  }

  lemma ParseOnePart(s: nat)
    ensures ParseDuration(Part(s, 's')) == Some(s)
  {
    ReadPartOfPart(s, 's');
    SplitOnFree(Part(s, 's'), ' ');
  }

  lemma ParseUnknown()
    ensures ParseDuration("Unknown duration") == None
  {
    var a, b := "Unknown", "duration";
    assert ' ' !in a && ' ' !in b;
    assert "Unknown duration" == a + [' '] + b;
    SplitOnAfterPiece(a, ' ', b);
    SplitOnFree(b, ' ');
    assert a[|a| - 1] != 'm';
    assert ReadPart(a, 'm') == None;
  }

  /** The rendered text of a non-zero duration reads back as that duration,
      and "Unknown duration" reads as nothing: no two durations share a
      rendering and the hours/minutes/seconds split loses nothing. */
  lemma ParseFormatDuration(seconds: Option<nat>)
    ensures ParseDuration(FormatDuration(seconds)) == (if seconds.None? || seconds.value == 0 then None else seconds)
  {
    if seconds.None? || seconds.value == 0 {
      ParseUnknown();
    } else {
      var c := SplitClock(seconds.value);
      if c.hours > 0 {
        ParseThreeParts(c.hours, c.minutes, c.seconds);
      } else if c.minutes > 0 {
        ParseTwoParts(c.minutes, c.seconds);
      } else {
        ParseOnePart(c.seconds);
      }
    }
  }

  /** Which units appear follows the size of the duration: hours from one
      hour on, minutes from one minute on, seconds always. */
  lemma FormatDurationUnits(seconds: nat)
    requires seconds > 0
    ensures var r := FormatDuration(Some(seconds));
      && (seconds >= 3600 <==> Contains(r, "h"))
      && (seconds >= 60 <==> Contains(r, "m"))
      && r[|r| - 1] == 's'
  {
    var c := SplitClock(seconds);
    var r := FormatDuration(Some(seconds));
    var h, m, s := Part(c.hours, 'h'), Part(c.minutes, 'm'), Part(c.seconds, 's');
    assert forall k :: 0 <= k < |NatToString(c.hours)| ==> IsDigit(NatToString(c.hours)[k]);
    if c.hours > 0 {
      assert r == h + " " + m + " " + s;
      assert r == NatToString(c.hours) + "h" + (" " + m + " " + s);
      ContainsInside(NatToString(c.hours), "h", " " + m + " " + s);
      assert r == (h + " " + NatToString(c.minutes)) + "m" + (" " + s);
      ContainsInside(h + " " + NatToString(c.minutes), "m", " " + s);
    } else {
      assert seconds < 3600;
      ContainsCharAbsent(r, 'h');
      if c.minutes > 0 {
        assert r == NatToString(c.minutes) + "m" + (" " + s);
        ContainsInside(NatToString(c.minutes), "m", " " + s);
      } else {
        assert seconds < 60;
        ContainsCharAbsent(r, 'm');
      }
    }
  }

  // ---------------------------------------------------------------------
  // transcribe_youtube_ytdlp.py: "Duration: {d // 60}:{d % 60:02d}"

  /** Whole minutes, a colon, and the remaining seconds as two digits. */
  function DurationDisplay(d: nat): (r: string)
    ensures |r| >= 4 && r[|r| - 3] == ':' && AllDigits(r[|r| - 2..]) && ParseNat(r[|r| - 2..]) < 60
  {
    ParsePad2(d % 60);
    NatToString(d / 60) + ":" + Pad2(d % 60)
  }

  /** Reads a "minutes:seconds" display back into seconds. */
  function ParseDisplay(text: string): (r: Option<nat>)
  {
    var ps := SplitOn(text, ':');
    if |ps| == 2 && AllDigits(ps[0]) && AllDigits(ps[1]) && |ps[1]| == 2 && ParseNat(ps[1]) < 60
    then Some(ParseNat(ps[0]) * 60 + ParseNat(ps[1]))
    else None
  }

  /** The display names the duration exactly: reading it back gives `d`. */
  lemma ParseDurationDisplay(d: nat)
    ensures ParseDisplay(DurationDisplay(d)) == Some(d)
  {
    var m, s := NatToString(d / 60), Pad2(d % 60);
    assert forall k :: 0 <= k < |m| ==> IsDigit(m[k]);
    assert forall k :: 0 <= k < |s| ==> IsDigit(s[k]);
    SplitOnFree(s, ':');
    SplitOnAfterPiece(m, ':', s);
    assert DurationDisplay(d) == m + [':'] + s;
    ParseNatToString(d / 60);
    ParsePad2(d % 60);
  }
}
