/** transcribe_youtube_api.py: fetch a video's captions from the YouTube
    transcript service and render them as plain text or as "[MM:SS] text"
    lines. */
module CaptionsApi {
  import opened Common
  import opened Text
  import opened Naming
  import Durations

  /** One caption as the service returns it; the start time is taken in
      whole seconds. */
  datatype CaptionEntry = CaptionEntry(start: nat, text: string)

  /** `f"[{int(start // 60):02d}:{int(start % 60):02d}]"`. */
  function Stamp(start: nat): (r: string)
    ensures |r| >= 7 && r[0] == '[' && r[|r| - 1] == ']' && r[|r| - 4] == ':'
  {
    "[" + Pad2(start / 60) + ":" + Pad2(start % 60) + "]"
  }

  /** The line the timestamped format writes for one entry. */
  function StampedLine(e: CaptionEntry): string
  {
    Stamp(e.start) + " " + Strip(e.text)
  }

  /** One stamped line per entry, in order. */
  function StampedLines(entries: seq<CaptionEntry>): (r: seq<string>)
    ensures |r| == |entries|
  {
    if |entries| == 0 then []
    else StampedLines(entries[..|entries| - 1]) + [StampedLine(entries[|entries| - 1])]
  }

  lemma {:induction false} StampedLineAt(entries: seq<CaptionEntry>, k: nat)
    requires k < |entries|
    ensures StampedLines(entries)[k] == StampedLine(entries[k])
  {
    if k < |entries| - 1 {
      StampedLineAt(entries[..|entries| - 1], k);
    }
  }

  /** The stripped texts of the entries whose stripped text is not empty,
      in order. */
  function PlainPieces(entries: seq<CaptionEntry>): (r: seq<string>)
  {
    if |entries| == 0 then []
    else
      var t := Strip(entries[|entries| - 1].text);
      PlainPieces(entries[..|entries| - 1]) + (if t != "" then [t] else [])
  }

  /** `format_transcript(transcript_data, "text", include_timestamps)`:
      one stamped line per entry joined by newlines, or the non-empty
      stripped texts joined by single spaces. */
  method FormatTranscript(entries: seq<CaptionEntry>, includeTimestamps: bool) returns (r: string)
    ensures includeTimestamps ==> r == Join("\n", StampedLines(entries))
    ensures !includeTimestamps ==> r == Join(" ", PlainPieces(entries))
  {
    var lines: seq<string>;
    if includeTimestamps {
      lines := StampEach(entries);
      r := Join("\n", lines);
    } else {
      lines := NonEmptyTexts(entries);
      r := Join(" ", lines);
    }
  }

  /** The timestamped loop of `format_transcript`. */
  method StampEach(entries: seq<CaptionEntry>) returns (lines: seq<string>)
    ensures lines == StampedLines(entries)
  {
    lines := [];
    var i := 0;
    while i < |entries|
      invariant 0 <= i <= |entries|
      invariant lines == StampedLines(entries[..i])
    {
      StampedLinesStep(entries, i);
      lines := lines + [StampedLine(entries[i])];
      i := i + 1;
    }
    assert entries[..i] == entries;
  }

  /** The plain loop of `format_transcript`. */
  method NonEmptyTexts(entries: seq<CaptionEntry>) returns (lines: seq<string>)
    ensures lines == PlainPieces(entries)
  {
    lines := [];
    var i := 0;
    while i < |entries|
      invariant 0 <= i <= |entries|
      invariant lines == PlainPieces(entries[..i])
    {
      var text := Strip(entries[i].text);
      PlainPiecesStep(entries, i);
      if text != "" {
        lines := lines + [text];
      }
      i := i + 1;
    }
    assert entries[..i] == entries;
  }

  lemma StampedLinesStep(entries: seq<CaptionEntry>, i: nat)
    requires i < |entries|
    ensures StampedLines(entries[..i + 1]) == StampedLines(entries[..i]) + [StampedLine(entries[i])]
  {
    assert entries[..i + 1][..i] == entries[..i];
  }

  lemma PlainPiecesStep(entries: seq<CaptionEntry>, i: nat)
    requires i < |entries|
    ensures var t := Strip(entries[i].text);
      PlainPieces(entries[..i + 1]) == PlainPieces(entries[..i]) + (if t != "" then [t] else [])
  {
    assert entries[..i + 1][..i] == entries[..i];
  }

  /** Reads the time back out of a stamp: "[", minutes, ":", two-digit
      seconds, "]". */
  function ReadStamp(s: string): (r: Option<nat>)
  {
    if |s| >= 2 && s[0] == '[' && s[|s| - 1] == ']' then Durations.ParseDisplay(s[1..|s| - 1]) else None
  }

  /** A stamp names its start second exactly: minutes are `start // 60`,
      seconds `start % 60`, and reading them back gives `start`. */
  lemma {:induction false} ReadStampOfStamp(start: nat)
    ensures ReadStamp(Stamp(start)) == Some(start)
  {
    var m, s := Pad2(start / 60), Pad2(start % 60);
    var st := Stamp(start);
    assert st[1..|st| - 1] == m + [':'] + s;
    assert forall k :: 0 <= k < |m| ==> IsDigit(m[k]);
    SplitOnFree(s, ':');
    SplitOnAfterPiece(m, ':', s);
    ParsePad2(start / 60);
    ParsePad2(start % 60);
  }

  /** With captions free of line breaks, the timestamped text has exactly
      one line per entry, including the entries whose text is blank, and
      line `k` is entry `k`'s stamp, a space and its stripped text. */
  lemma OneLinePerEntry(entries: seq<CaptionEntry>)
    requires |entries| >= 1
    requires forall k :: 0 <= k < |entries| ==> '\n' !in entries[k].text
    ensures SplitOn(Join("\n", StampedLines(entries)), '\n') == StampedLines(entries)
  {
    var ls := StampedLines(entries);
    forall k | 0 <= k < |ls| ensures '\n' !in ls[k] {
      StampedLineAt(entries, k);
      StampedLineHasNoBreak(entries[k]);
    }
    SplitOnJoin(ls, '\n');
  }

  lemma StampedLineHasNoBreak(e: CaptionEntry)
    requires '\n' !in e.text
    ensures '\n' !in StampedLine(e)
  {
    StampHasNoBreak(e.start);
    StripHasNoBreak(e.text);
  }

  lemma StampHasNoBreak(start: nat)
    ensures '\n' !in Stamp(start)
  {
    var m, s := Pad2(start / 60), Pad2(start % 60);
    assert forall x :: 0 <= x < |m| ==> IsDigit(m[x]);
    assert forall x :: 0 <= x < |s| ==> IsDigit(s[x]);
    assert Stamp(start) == "[" + m + ":" + s + "]";
  }

  lemma StripHasNoBreak(text: string)
    requires '\n' !in text
    ensures '\n' !in Strip(text)
  {
    var i, j := StripSlice(text);
    forall x | 0 <= x < j - i
      ensures text[i..j][x] != '\n'
    {
      assert text[i..j][x] == text[i + x];
    }
  }

  /** The plain text has no whitespace at either end: every piece is
      stripped and non-empty. */
  lemma {:induction false} PlainTextTrimmed(entries: seq<CaptionEntry>)
    ensures Trimmed(Join(" ", PlainPieces(entries)))
  {
    PlainPiecesShape(entries);
    JoinTrimmed(PlainPieces(entries));
  }

  /** At most one piece per entry, none empty, none with whitespace at an
      end. */
  lemma {:induction false} PlainPiecesShape(entries: seq<CaptionEntry>)
    ensures |PlainPieces(entries)| <= |entries|
    ensures forall k :: 0 <= k < |PlainPieces(entries)| ==> PlainPieces(entries)[k] != "" && Trimmed(PlainPieces(entries)[k])
  {
    if |entries| > 0 {
      PlainPiecesShape(entries[..|entries| - 1]);
      var i, j := StripSlice(entries[|entries| - 1].text);
    }
  }

  lemma {:induction false} JoinTrimmed(parts: seq<string>)
    requires forall k :: 0 <= k < |parts| ==> parts[k] != "" && Trimmed(parts[k])
    ensures Trimmed(Join(" ", parts))
    ensures |parts| > 0 ==> |Join(" ", parts)| > 0 && Join(" ", parts)[0] == parts[0][0]
  {
    if |parts| > 1 {
      JoinTrimmed(parts[1..]);
      var rest := Join(" ", parts[1..]);
      assert Join(" ", parts) == parts[0] + " " + rest;
    }
  }

  /** Pieces without inner spaces come back from the plain text one word
      at a time: no caption is lost, merged or split. */
  lemma PlainTextWords(entries: seq<CaptionEntry>)
    requires |PlainPieces(entries)| >= 1
    requires forall k :: 0 <= k < |PlainPieces(entries)| ==> ' ' !in PlainPieces(entries)[k]
    ensures SplitOn(Join(" ", PlainPieces(entries)), ' ') == PlainPieces(entries)
  {
    SplitOnJoin(PlainPieces(entries), ' ');
  }

  // ---------------------------------------------------------------------
  // main

  /** One available transcript as `--list-languages` reports it. */
  datatype TranscriptInfo = TranscriptInfo(language: string, code: string, generated: bool, translatable: bool)

  function LanguageLine(t: TranscriptInfo): string
  {
    "  - " + t.language + " (" + t.code + ")"
      + (if t.generated then " [Auto-generated]" else "")
      + (if t.translatable then " [Translatable]" else "")
  }

  /** A listed transcript's line starts with its language and code and
      carries a mark for each of its two flags. */
  lemma LanguageLineMarks(t: TranscriptInfo)
    ensures "  - " + t.language + " (" + t.code + ")" <= LanguageLine(t)
    ensures t.generated ==> Contains(LanguageLine(t), " [Auto-generated]")
    ensures t.translatable ==> Contains(LanguageLine(t), " [Translatable]")
  {
    var a := "  - " + t.language + " (" + t.code + ")";
    var g := if t.generated then " [Auto-generated]" else "";
    var tr := if t.translatable then " [Translatable]" else "";
    assert LanguageLine(t) == a + g + tr;
    if t.generated {
      ContainsInside(a, " [Auto-generated]", tr);
    }
    if t.translatable {
      ContainsInside(a + g, " [Translatable]", "");
      assert LanguageLine(t) == a + g + " [Translatable]" + "";
    }
  }

  /** The lines listing the transcripts: one per transcript, in order. */
  function LanguageLines(ts: seq<TranscriptInfo>): (r: seq<string>)
    ensures |r| == |ts| && forall k :: 0 <= k < |ts| ==> r[k] == LanguageLine(ts[k])
  {
    if |ts| == 0 then [] else LanguageLines(ts[..|ts| - 1]) + [LanguageLine(ts[|ts| - 1])]
  }

  /** The hint printed after a "No transcripts" failure. */
  function NoTranscriptsHint(url: string): seq<string>
  {
    HintLines + ["  python transcribe_youtube.py " + url]
  }

  const HintLines: seq<string> :=
    ["\nThis video doesn't have any transcripts available.", "Possible reasons:",
     "- The video owner disabled captions", "- The video is too new (captions not yet generated)",
     "- The video is private or age-restricted",
     "\nTry using the Gemini-based transcriber for videos without captions:"]

  /** What `main` prints for an exception with text `message`: the error,
      and the hint when the text mentions "No transcripts". */
  function FailureLines(message: string, url: string): (r: seq<string>)
    ensures |r| >= 1 && r[0] == "Error: " + message
  {
    ["Error: " + message] + (if Contains(message, "No transcripts") then NoTranscriptsHint(url) else [])
  }

  /** The last lines printed are `tail`. */
  predicate EndsWith(lines: seq<string>, tail: seq<string>)
  {
    |tail| <= |lines| && lines[|lines| - |tail|..] == tail
  }

  /** `--list-languages`: one line per available transcript, or the
      failure of `list_transcripts`. */
  method ListLanguages(url: string, listing: Result<seq<TranscriptInfo>, string>) returns (code: int, lines: seq<string>)
    ensures listing.Ok? ==> (code == 0 && |lines| == |listing.value| + 1
      && forall k :: 0 <= k < |listing.value| ==> lines[k + 1] == LanguageLine(listing.value[k]))
    ensures listing.Ok? ==> lines == ["\nAvailable transcripts:"] + LanguageLines(listing.value)
    ensures listing.Err? ==> code == 1 && lines == FailureLines(listing.error, url)
  {
    match listing {
      case Err(e) =>
        return 1, FailureLines(e, url);
      case Ok(ts) =>
        lines := ["\nAvailable transcripts:"];
        var i := 0;
        while i < |ts|
          invariant 0 <= i <= |ts|
          invariant lines == ["\nAvailable transcripts:"] + LanguageLines(ts[..i])
        {
          assert ts[..i + 1][..i] == ts[..i];
          lines := lines + [LanguageLine(ts[i])];
          i := i + 1;
        }
        assert ts[..i] == ts;
        return 0, lines;
    }
  }

  /** `main()` after argument parsing. The transcript service is given by
      its answers: `listing` for `list_transcripts` and `fetched` for the
      fetch of the captions. `fetchedFrom` is the video identifier the
      captions were asked for (None when nothing was fetched) and `saved`
      the file written with its text. */
  method CaptionsMain(url: string, parsed: ParsedUrl, includeTimestamps: bool, output: Option<string>, noAutoOutput: bool,
                      listLanguages: bool, date: string, title: Option<string>,
                      listing: Result<seq<TranscriptInfo>, string>, fetched: Result<seq<CaptionEntry>, string>,
                      writeError: Option<string>)
    returns (code: int, lines: seq<string>, saved: Option<(string, string)>, ghost fetchedFrom: Option<string>)
    ensures code == 0 || code == 1
    ensures !UsableId(ExtractVideoId(parsed, url)) ==>
      code == 1 && fetchedFrom.None? && saved.None? && lines == ["Error: Could not extract video ID from URL: " + url]
    ensures UsableId(ExtractVideoId(parsed, url)) && !listLanguages ==>
      && fetchedFrom == ExtractVideoId(parsed, url)
      && (code == 0 <==> fetched.Ok? && !(OutputTarget(url, parsed, Transcribe, output, noAutoOutput, date, title).Some? && writeError.Some?))
      && (fetched.Err? ==> saved.None? && EndsWith(lines, FailureLines("Failed to get transcript: " + fetched.error, url)))
    ensures UsableId(ExtractVideoId(parsed, url)) && !listLanguages && fetched.Ok? ==>
      var text := if includeTimestamps then Join("\n", StampedLines(fetched.value)) else Join(" ", PlainPieces(fetched.value));
      var target := OutputTarget(url, parsed, Transcribe, output, noAutoOutput, date, title);
      && (target.Some? && writeError.None? ==> saved == Some((target.value, text)))
      && (target.Some? && writeError.Some? ==> saved.None? && EndsWith(lines, FailureLines(writeError.value, url)))
      && (target.None? ==> saved.None? && EndsWith(lines, [text]))
    ensures listLanguages ==> saved.None? && fetchedFrom.None?
    ensures UsableId(ExtractVideoId(parsed, url)) && listLanguages ==>
      && (code == 0 <==> listing.Ok?)
      && (listing.Err? ==> EndsWith(lines, FailureLines(listing.error, url)))
      && (listing.Ok? ==> EndsWith(lines, LanguageLines(listing.value)))
  {
    var videoId := ExtractVideoId(parsed, url);
    saved := None;
    fetchedFrom := None;
    if !UsableId(videoId) {
      return 1, ["Error: Could not extract video ID from URL: " + url], None, None;
    }
    lines := ["Video ID: " + videoId.value];
    var target := OutputTarget(url, parsed, Transcribe, output, noAutoOutput, date, title);
    if !Truthy(output) && target.Some? {
      lines := lines + ["Output file: " + target.value];
    }
    if listLanguages {
      var listed;
      code, listed := ListLanguages(url, listing);
      match listing {
        case Err(e) =>
          assert listed[|listed| - |listed|..] == listed;
          EndsWithAfter(lines, listed, listed);
        case Ok(ts) =>
          assert listed[|listed| - |ts|..] == LanguageLines(ts);
          EndsWithAfter(lines, listed, LanguageLines(ts));
      }
      lines := lines + listed;
      return;
    }
    lines := lines + ["Fetching transcript..."];
    fetchedFrom := videoId;
    var head := lines;
    var report;
    code, report, saved := ReportFetched(url, fetched, includeTimestamps, target, writeError);
    lines := head + report;
    match fetched {
      case Err(e) =>
        EndsWithAfter(head, report, FailureLines("Failed to get transcript: " + e, url));
      case Ok(entries) =>
        if target.None? {
          var text := if includeTimestamps then Join("\n", StampedLines(entries)) else Join(" ", PlainPieces(entries));
          EndsWithAfter(head, report, [text]);
        } else if writeError.Some? {
          EndsWithAfter(head, report, FailureLines(writeError.value, url));
        }
    }
  }

  /** `main` once the transcript has been fetched: the failure lines and
      exit 1, or the formatted text saved or printed and exit 0. Opening or
      writing the output file raises inside the same `try`: `writeError` is
      that exception's text, and then the failure lines end the run with
      exit 1 and no file is written. */
  method ReportFetched(url: string, fetched: Result<seq<CaptionEntry>, string>, includeTimestamps: bool, target: Option<string>,
                       writeError: Option<string>)
    returns (code: int, lines: seq<string>, saved: Option<(string, string)>)
    ensures code == 0 <==> fetched.Ok? && !(target.Some? && writeError.Some?)
    ensures code == 0 || code == 1
    ensures fetched.Err? ==> saved.None? && EndsWith(lines, FailureLines("Failed to get transcript: " + fetched.error, url))
    ensures fetched.Ok? ==>
      var text := if includeTimestamps then Join("\n", StampedLines(fetched.value)) else Join(" ", PlainPieces(fetched.value));
      && (target.Some? && writeError.None? ==> saved == Some((target.value, text)))
      && (target.Some? && writeError.Some? ==> saved.None? && EndsWith(lines, FailureLines(writeError.value, url)))
      && (target.None? ==> saved.None? && EndsWith(lines, [text]))
  {
    saved := None;
    match fetched {
      case Err(e) =>
        lines := FailureLines("Failed to get transcript: " + e, url);
        code := 1;
      case Ok(entries) =>
        var text := FormatTranscript(entries, includeTimestamps);
        if target.Some? && writeError.Some? {
          lines := FailureLines(writeError.value, url);
          assert lines[|lines| - |lines|..] == lines;
          return 1, lines, None;
        } else if target.Some? {
          saved := Some((target.value, text));
          lines := ["\nTranscript saved to: " + target.value];
        } else {
          lines := ["\n--- TRANSCRIPT ---\n", text];
          assert lines[|lines| - 1..] == [text];
        }
        code := 0;
    }
  }

  /** Lines printed earlier do not change how the output ends. */
  lemma EndsWithAfter(head: seq<string>, report: seq<string>, tail: seq<string>)
    requires EndsWith(report, tail)
    ensures EndsWith(head + report, tail)
  {
    assert (head + report)[|head + report| - |tail|..] == report[|report| - |tail|..];
  }
}
