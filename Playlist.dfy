/** youtube_playlist_to_markdown.py: list a playlist's videos with yt-dlp,
    run the smart transcriber on a range of them one at a time, record one
    result per video and write a summary of the run. */
module Playlist {
  import opened Common
  import opened Text
  import opened Naming
  import opened Paths
  import Durations

  // ---------------------------------------------------------------------
  // extract_playlist_id: the pattern list=([A-Za-z0-9_-]+)

  /** The pattern matches at `i`: "list=" and at least one identifier
      character. */
  predicate ListPatternAt(s: string, i: nat)
  {
    i + 6 <= |s| && s[i..i + 5] == "list=" && IsIdChar(s[i + 5])
  }

  /** Length of the run of identifier characters starting at `j`: what the
      greedy `+` takes. */
  function IdRunLength(s: string, j: nat): (n: nat)
    requires j <= |s|
    ensures j + n <= |s|
    ensures forall k :: j <= k < j + n ==> IsIdChar(s[k])
    ensures j + n < |s| ==> !IsIdChar(s[j + n])
    decreases |s| - j
  {
    if j < |s| && IsIdChar(s[j]) then 1 + IdRunLength(s, j + 1) else 0
  }

  /** The leftmost match at or after `from`. */
  function FirstListMatch(s: string, from: nat): (r: Option<nat>)
    ensures r.Some? ==> from <= r.value && ListPatternAt(s, r.value)
    ensures forall i :: from <= i && (r.None? || i < r.value) ==> !ListPatternAt(s, i)
    decreases |s| - from
  {
    if from >= |s| then None
    else if ListPatternAt(s, from) then Some(from)
    else FirstListMatch(s, from + 1)
  }

  /** `re.search(r'list=([A-Za-z0-9_-]+)', s).group(1)`, or None. */
  function SearchPlaylistId(s: string): (r: Option<string>)
    ensures r.Some? ==> |r.value| > 0 && forall k :: 0 <= k < |r.value| ==> IsIdChar(r.value[k])
    ensures r.None? <==> forall i :: 0 <= i ==> !ListPatternAt(s, i)
  {
    match FirstListMatch(s, 0)
    case None => None
    case Some(i) => Some(s[i + 5..i + 5 + IdRunLength(s, i + 5)])
  }

  /** `extract_playlist_id(url)`: on a YouTube host the first `list` query
      value; otherwise, or without one, the run after the leftmost "list=";
      None when neither exists. */
  function ExtractPlaylistId(u: ParsedUrl, url: string): (r: Option<string>)
    ensures IsYoutubeHost(u.host) && FirstQueryValue(u.query, "list").Some? ==> r == FirstQueryValue(u.query, "list")
    ensures !(IsYoutubeHost(u.host) && FirstQueryValue(u.query, "list").Some?) ==> r == SearchPlaylistId(url)
  {
    if IsYoutubeHost(u.host) && FirstQueryValue(u.query, "list").Some? then FirstQueryValue(u.query, "list")
    else SearchPlaylistId(url)
  }

  /** A URL whose only "list=" is followed by an identifier and then a
      character outside the class (or the end) names that identifier, on
      any host that does not carry a `list` query value. */
  lemma PlaylistIdAfterMarker(prefix: string, id: string, rest: string, u: ParsedUrl)
    requires |id| > 0 && forall k :: 0 <= k < |id| ==> IsIdChar(id[k])
    requires |rest| == 0 || !IsIdChar(rest[0])
    requires forall i :: 0 <= i < |prefix| ==> !ListPatternAt(prefix + "list=" + id + rest, i)
    requires !(IsYoutubeHost(u.host) && FirstQueryValue(u.query, "list").Some?)
    ensures ExtractPlaylistId(u, prefix + "list=" + id + rest) == Some(id)
  {
    var s := prefix + "list=" + id + rest;
    var at := |prefix|;
    assert s[at..at + 5] == "list=";
    assert s[at + 5] == id[0];
    assert ListPatternAt(s, at);
    var m := FirstListMatch(s, 0);
    assert m == Some(at);
    assert forall k :: 0 <= k < |id| ==> s[at + 5 + k] == id[k];
    RunLengthExact(s, at + 5, |id|);
    var n := IdRunLength(s, at + 5);
    assert s[at + 5..at + 5 + n] == id;
  }

  /** A run of `m` identifier characters that stops at a character outside
      the class, or at the end, is what the greedy `+` takes. */
  lemma {:induction false} RunLengthExact(s: string, j: nat, m: nat)
    requires j + m <= |s|
    requires forall k :: j <= k < j + m ==> IsIdChar(s[k])
    requires j + m == |s| || !IsIdChar(s[j + m])
    ensures IdRunLength(s, j) == m
    decreases m
  {
    if m > 0 {
      RunLengthExact(s, j + 1, m - 1);
    }
  }

  /** The query value wins over the pattern on a YouTube host. */
  lemma QueryValueWins(u: ParsedUrl, url: string, id: string)
    requires IsYoutubeHost(u.host) && "list" in u.query && |u.query["list"]| > 0 && u.query["list"][0] == id
    ensures ExtractPlaylistId(u, url) == Some(id)
  {
  }

  // ---------------------------------------------------------------------
  // get_playlist_videos_ytdlp

  /** The fields of one line of `yt-dlp --flat-playlist --dump-json` that
      the script reads; None stands for a missing key. */
  datatype JsonEntry = JsonEntry(id: Option<string>, url: Option<string>, title: Option<string>, duration: Option<nat>)

  /** A playlist entry as the script keeps it. */
  datatype Video = Video(url: string, title: string, duration: Option<nat>)

  const WatchPrefix: string := "https://www.youtube.com/watch?v="

  /** `video_data.get('id') or video_data.get('url')`, made into a full URL
      unless it already starts with "http"; None when both are missing or
      empty. */
  function Normalise(e: JsonEntry): (r: Option<Video>)
    ensures r.None? <==> !Truthy(e.id) && !Truthy(e.url)
    ensures r.Some? ==> "http" <= r.value.url
    ensures r.Some? ==> var raw := if Truthy(e.id) then e.id.value else e.url.value;
      r.value.url == raw || r.value.url == WatchPrefix + raw
  {
    var raw := if Truthy(e.id) then e.id else e.url;
    if !Truthy(raw) then None
    else
      var url := if "http" <= raw.value then raw.value else WatchPrefix + raw.value;
      Some(Video(url, if e.title.Some? then e.title.value else "Unknown", e.duration))
  }

  /** A bare identifier becomes its watch URL, and a URL is kept as it is. */
  lemma NormaliseCases(e: JsonEntry)
    requires Truthy(e.id) || Truthy(e.url)
    ensures var raw := if Truthy(e.id) then e.id.value else e.url.value;
      && ("http" <= raw ==> Normalise(e).value.url == raw)
      && (!("http" <= raw) ==> Normalise(e).value.url == WatchPrefix + raw && Normalise(e).value.url[|WatchPrefix|..] == raw)
  {
  }

  /** The video one output line contributes: none for an empty line, a line
      that does not decode, or an entry without `id` and `url`. */
  function LineVideo(line: string, decode: string -> Option<JsonEntry>): seq<Video>
  {
    if line == "" then []
    else match decode(line)
      case None => []
      case Some(e) => if Normalise(e).Some? then [Normalise(e).value] else []
  }

  /** The videos of the lines, in order. */
  function VideosOf(lines: seq<string>, decode: string -> Option<JsonEntry>): seq<Video>
  {
    if |lines| == 0 then []
    else VideosOf(lines[..|lines| - 1], decode) + LineVideo(lines[|lines| - 1], decode)
  }

  /** At most one video per line, and every kept URL starts with "http". */
  lemma {:induction false} VideosOfShape(lines: seq<string>, decode: string -> Option<JsonEntry>)
    ensures |VideosOf(lines, decode)| <= |lines|
    ensures forall k :: 0 <= k < |VideosOf(lines, decode)| ==> "http" <= VideosOf(lines, decode)[k].url
  {
    if |lines| > 0 {
      VideosOfShape(lines[..|lines| - 1], decode);
    }
  }

  /** The videos of a successful listing run; none when yt-dlp exited
      with a failure (the CalledProcessError handler returns `[]`); no
      listing at all when yt-dlp could not be started, since that
      FileNotFoundError is not caught and ends the script. */
  function PlaylistVideos(listRun: ChildRun, decode: string -> Option<JsonEntry>): Option<seq<Video>>
  {
    if listRun.LaunchError? then None
    else if listRun.code == 0 then Some(VideosOf(SplitOn(Strip(listRun.stdout), '\n'), decode))
    else Some([])
  }

  /** One more line adds its video, if any, at the end. */
  lemma VideosOfStep(lines: seq<string>, i: nat, decode: string -> Option<JsonEntry>)
    requires i < |lines|
    ensures VideosOf(lines[..i + 1], decode) == VideosOf(lines[..i], decode) + LineVideo(lines[i], decode)
  {
    assert lines[..i + 1][..i] == lines[..i];
  }

  /** The body of the listing loop for one line: skip it when empty, decode
      it, and keep the normalised entry when it has an `id` or `url`. */
  method ParseLine(line: string, decode: string -> Option<JsonEntry>) returns (found: seq<Video>)
    ensures found == LineVideo(line, decode)
    ensures |found| <= 1
  {
    found := [];
    if line != "" {
      var entry := decode(line);
      if entry.Some? {
        var video := Normalise(entry.value);
        if video.Some? {
          found := [video.value];
        }
      }
    }
  }

  /** `get_playlist_videos_ytdlp(url)` once yt-dlp has run: the decoded
      entries of the non-empty lines of its output; nothing when it exited
      with a failure; None when it could not be started and the exception
      escapes. JSON decoding is the `decode` oracle (None for a line that
      does not parse). */
  method GetPlaylistVideos(listRun: ChildRun, decode: string -> Option<JsonEntry>) returns (listed: Option<seq<Video>>)
    ensures listed == PlaylistVideos(listRun, decode)
  {
    if listRun.LaunchError? {
      return None;
    }
    if listRun.code != 0 {
      return Some([]);
    }
    var lines := SplitOn(Strip(listRun.stdout), '\n');
    var videos := [];
    var i := 0;
    while i < |lines|
      invariant 0 <= i <= |lines|
      invariant videos == VideosOf(lines[..i], decode)
    {
      VideosOfStep(lines, i, decode);
      var found := ParseLine(lines[i], decode);
      videos := videos + found;
      i := i + 1;
    }
    assert lines[..i] == lines;
    listed := Some(videos);
  }

  // ---------------------------------------------------------------------
  // transcribe_video

  /** The `--force` choice. */
  datatype Force = NoForce | ForceApi | ForceGemini | ForceYtdlp

  function ForceFlags(f: Force): (r: seq<string>)
    ensures f == ForceGemini <==> r == ["--force-gemini"]
    ensures f == ForceYtdlp <==> r == ["--force-ytdlp"]
    ensures f == NoForce || f == ForceApi <==> r == []
  {
    match f
    case ForceGemini => ["--force-gemini"]
    case ForceYtdlp => ["--force-ytdlp"]
    case _ => []
  }

  /** The output file: named by the video identifier the pattern finds, or
      by the time of day (`now`, whole seconds) when there is none. */
  function OutputFile(videoUrl: string, outputDir: string, mode: Mode, now: nat): string
  {
    match SearchVideoId(videoUrl)
    case Some(id) => PathJoin(outputDir, id + "_" + ModeName(mode) + ".txt")
    case None => PathJoin(outputDir, "video_" + NatToString(now) + "_" + ModeName(mode) + ".txt")
  }

  /** The command line of the smart transcriber for one video. */
  function Command(python: string, videoUrl: string, outputDir: string, mode: Mode, force: Force, now: nat): seq<string>
  {
    [python, "transcribe_youtube_smart.py", videoUrl, "--mode", ModeName(mode), "--output", OutputFile(videoUrl, outputDir, mode, now)]
      + ForceFlags(force)
  }

  /** The command passes the URL, the mode and the output file, and adds
      one force flag for `gemini` and `ytdlp` and none for `api`. */
  lemma CommandShape(python: string, videoUrl: string, outputDir: string, mode: Mode, force: Force, now: nat)
    ensures var cmd := Command(python, videoUrl, outputDir, mode, force, now);
      && |cmd| == (if force == ForceGemini || force == ForceYtdlp then 8 else 7)
      && cmd[2] == videoUrl && cmd[3] == "--mode" && cmd[4] == ModeName(mode)
      && cmd[5] == "--output" && cmd[6] == OutputFile(videoUrl, outputDir, mode, now)
      && (force == ForceGemini ==> cmd[7] == "--force-gemini")
      && (force == ForceYtdlp ==> cmd[7] == "--force-ytdlp")
  {
    var out := OutputFile(videoUrl, outputDir, mode, now);
    var head := [python, "transcribe_youtube_smart.py", videoUrl, "--mode", ModeName(mode), "--output", out];
    var flags := ForceFlags(force);
    assert Command(python, videoUrl, outputDir, mode, force, now) == head + flags;
    assert (head + flags)[..7] == head;
  }

  /** The output file lies in the output directory and is named
      "{id}_{mode}.txt" when the URL carries an identifier. */
  lemma OutputFileName(videoUrl: string, outputDir: string, mode: Mode, now: nat)
    requires SearchVideoId(videoUrl).Some?
    ensures Name(OutputFile(videoUrl, outputDir, mode, now)) == SearchVideoId(videoUrl).value + "_" + ModeName(mode) + ".txt"
  {
    var id := SearchVideoId(videoUrl).value;
    var file := id + "_" + ModeName(mode) + ".txt";
    IdFileNameSlashFree(id, mode);
    assert OutputFile(videoUrl, outputDir, mode, now) == PathJoin(outputDir, file);
    NameOfJoin(outputDir, file);
  }

  lemma IdFileNameSlashFree(id: string, mode: Mode)
    requires forall k :: 0 <= k < |id| ==> IsIdChar(id[k])
    ensures '/' !in id + "_" + ModeName(mode) + ".txt"
  {
    var tail := "_" + ModeName(mode) + ".txt";
    assert '/' !in id by {
      forall k | 0 <= k < |id| ensures id[k] != '/' {
        assert IsIdChar(id[k]);
      }
    }
    assert '/' !in tail by {
      match mode
      case Transcribe =>
      case Summarize =>
      case Outline =>
    }
    SlashFreeJoin(id, tail);
    assert id + "_" + ModeName(mode) + ".txt" == id + tail;
  }

  lemma SlashFreeJoin(a: string, b: string)
    requires '/' !in a && '/' !in b
    ensures '/' !in a + b
  {
    assert forall k :: 0 <= k < |a + b| ==> (a + b)[k] == if k < |a| then a[k] else b[k - |a|];
  }

  /** A line of the child's output that reports where the result went. */
  predicate Reports(line: string)
  {
    Contains(Lower(line), "saved to:") || Contains(Lower(line), "output:")
  }

  /** The first reporting line. */
  function FirstReport(lines: seq<string>): (r: Option<string>)
    ensures r.Some? ==> Reports(r.value) && r.value in lines
    ensures r.None? <==> forall k :: 0 <= k < |lines| ==> !Reports(lines[k])
  {
    if |lines| == 0 then None
    else if Reports(lines[0]) then Some(lines[0])
    else
      var r := FirstReport(lines[1..]);
      assert forall k :: 1 <= k < |lines| ==> lines[k] == lines[1..][k - 1];
      r
  }

  /** What `transcribe_video` returns for the child's run. */
  function TranscribeOutcome(run: ChildRun): (r: (bool, string))
    ensures r.0 <==> run.Exited? && run.code == 0
    ensures run.Exited? && run.code != 0 ==> r.1 == (if run.stderr != "" then run.stderr else "Unknown error")
    ensures run.LaunchError? ==> r.1 == run.message
  {
    match run
    case LaunchError(m) => (false, m)
    case Exited(code, out, err) =>
      if code == 0 then
        match FirstReport(SplitOn(Strip(out), '\n'))
        case Some(line) => (true, line)
        case None => (true, "Transcription completed")
      else (false, if err != "" then err else "Unknown error")
  }

  /** `transcribe_video(video_url, output_dir, mode, force_method)`: run the
      smart transcriber (`run` gives its result for a command line) and, on
      success, report the first output line mentioning "saved to:" or
      "output:" in any letter case. */
  method TranscribeVideo(python: string, videoUrl: string, outputDir: string, mode: Mode, force: Force, now: nat,
                         run: seq<string> -> ChildRun)
    returns (success: bool, message: string)
    ensures (success, message) == TranscribeOutcome(run(Command(python, videoUrl, outputDir, mode, force, now)))
  {
    var outputFile := OutputFile(videoUrl, outputDir, mode, now);
    var cmd := [python, "transcribe_youtube_smart.py", videoUrl, "--mode", ModeName(mode), "--output", outputFile];
    if force == ForceGemini {
      cmd := cmd + ["--force-gemini"];
    } else if force == ForceYtdlp {
      cmd := cmd + ["--force-ytdlp"];
    }
    assert cmd == Command(python, videoUrl, outputDir, mode, force, now);
    var result := run(cmd);
    match result {
      case LaunchError(m) =>
        return false, m;
      case Exited(code, out, err) =>
        if code == 0 {
          var report := FindReport(SplitOn(Strip(out), '\n'));
          return true, if report.Some? then report.value else "Transcription completed";
        } else {
          return false, if err != "" then err else "Unknown error";
        }
    }
  }

  /** The loop over the child's output lines in `transcribe_video`. */
  method FindReport(lines: seq<string>) returns (r: Option<string>)
    ensures r == FirstReport(lines)
  {
    var i := 0;
    while i < |lines|
      invariant 0 <= i <= |lines|
      invariant forall k :: 0 <= k < i ==> !Reports(lines[k])
    {
      if Reports(lines[i]) {
        ReportIsFirst(lines, i);
        return Some(lines[i]);
      }
      i := i + 1;
    }
    return None;
  }

  lemma {:induction false} ReportIsFirst(lines: seq<string>, i: nat)
    requires i < |lines| && Reports(lines[i])
    requires forall k :: 0 <= k < i ==> !Reports(lines[k])
    ensures FirstReport(lines) == Some(lines[i])
  {
    if i > 0 {
      ReportIsFirst(lines[1..], i - 1);
    }
  }

  // ---------------------------------------------------------------------
  // main: the range of videos

  /** `videos[max(0, start - 1) : min(len, end) if end else len]` with
      Python's slice rules: a negative stop counts from the end, and a stop
      before the start gives nothing. */
  function RangeBounds(n: nat, start: int, end: Option<int>): (b: (nat, nat))
    ensures b.0 <= b.1 <= n
    ensures 1 <= start <= n + 1 && (end.None? || end.value == 0) ==> b == (start - 1, n)
    ensures 1 <= start && end.Some? && 0 < end.value <= n && start - 1 <= end.value ==> b == (start - 1, end.value)
    ensures end.Some? && end.value < 0 && start <= 1 ==> b == (0, if n + end.value > 0 then n + end.value else 0)
  {
    var startIdx := if start - 1 > 0 then start - 1 else 0;
    var endIdx := if end.Some? && end.value != 0 then (if end.value < n then end.value else n) else n;
    var lo := if startIdx < n then startIdx else n;
    var hi := if endIdx < 0 then (if n + endIdx > 0 then n + endIdx else 0) else endIdx;
    if lo <= hi then (lo, hi) else (lo, lo)
  }

  function SelectRange<T>(videos: seq<T>, start: int, end: Option<int>): (r: seq<T>)
  {
    var b := RangeBounds(|videos|, start, end);
    videos[b.0..b.1]
  }

  /** The processed videos are one contiguous run of the playlist, in
      playlist order, never longer than the playlist; `--start s --end e`
      within the playlist selects videos s to e, counted from 1. */
  lemma SelectRangeIsSlice<T>(videos: seq<T>, start: int, end: Option<int>)
    ensures var r := SelectRange(videos, start, end);
      && |r| <= |videos|
      && RangeBounds(|videos|, start, end).0 + |r| <= |videos|
      && forall k :: 0 <= k < |r| ==> r[k] == videos[RangeBounds(|videos|, start, end).0 + k]
    ensures 1 <= start && end.Some? && 0 < end.value <= |videos| && start - 1 <= end.value ==>
      |SelectRange(videos, start, end)| == end.value - start + 1
      && forall k :: 0 <= k < |SelectRange(videos, start, end)| ==> SelectRange(videos, start, end)[k] == videos[start - 1 + k]
  {
    var b := RangeBounds(|videos|, start, end);

  }

  // ---------------------------------------------------------------------
  // main: the results loop

  /** One entry of `results`: `output` is the message of a success,
      `error` that of a failure. */
  datatype Outcome = Outcome(success: bool, output: Option<string>, error: Option<string>)

  /** What `--skip-existing` looks for: the text after the last "=" of the
      video URL. */
  function GlobKey(url: string): string
  {
    var parts := SplitOn(url, '=');
    parts[|parts| - 1]
  }

  /** A file name the pattern "*{key}*.txt" matches. */
  predicate MatchesGlob(name: string, key: string)
  {
    |name| >= 4 && name[|name| - 4..] == ".txt" && Contains(name[..|name| - 4], key)
  }

  /** The first listed file name the pattern matches. */
  function FirstMatch(files: seq<string>, key: string): (r: Option<string>)
    ensures r.Some? ==> MatchesGlob(r.value, key) && r.value in files
    ensures r.None? <==> forall k :: 0 <= k < |files| ==> !MatchesGlob(files[k], key)
  {
    if |files| == 0 then None
    else if MatchesGlob(files[0], key) then Some(files[0])
    else
      assert forall k :: 1 <= k < |files| ==> files[k] == files[1..][k - 1];
      FirstMatch(files[1..], key)
  }

  /** The settings of one run of the script. */
  datatype RunConfig = RunConfig(python: string, outputDir: string, mode: Mode, force: Force, delay: int, skipExisting: bool)

  /** Whether the video is skipped, given the names in the output directory
      when it comes up. */
  predicate Skipped(cfg: RunConfig, v: Video, files: seq<string>)
  {
    cfg.skipExisting && FirstMatch(files, GlobKey(v.url)).Some?
  }

  /** The result recorded for one video. */
  function VideoOutcome(cfg: RunConfig, v: Video, files: seq<string>, now: nat, run: seq<string> -> ChildRun): Outcome
  {
    if Skipped(cfg, v, files) then Outcome(true, Some("Skipped - already exists: " + FirstMatch(files, GlobKey(v.url)).value), None)
    else
      var t := TranscribeOutcome(run(Command(cfg.python, v.url, cfg.outputDir, cfg.mode, cfg.force, now)));
      Outcome(t.0, if t.0 then Some(t.1) else None, if t.0 then None else Some(t.1))
  }

  /** A skipped video counts as a success naming the file found; any other
      carries the smart transcriber's verdict, its message as the output of
      a success or the error of a failure. */
  lemma VideoOutcomeCases(cfg: RunConfig, v: Video, files: seq<string>, now: nat, run: seq<string> -> ChildRun)
    ensures var r := VideoOutcome(cfg, v, files, now, run);
      && (Skipped(cfg, v, files) ==>
        r.success && r.error.None? && MatchesGlob(FirstMatch(files, GlobKey(v.url)).value, GlobKey(v.url))
        && r.output == Some("Skipped - already exists: " + FirstMatch(files, GlobKey(v.url)).value))
      && (!Skipped(cfg, v, files) ==>
        var t := TranscribeOutcome(run(Command(cfg.python, v.url, cfg.outputDir, cfg.mode, cfg.force, now)));
        r.success == t.0 && (t.0 ==> r.output == Some(t.1) && r.error.None?) && (!t.0 ==> r.error == Some(t.1) && r.output.None?))
  {
  }

  /** Whether the script waits after video `i` of `n`: only after a video it
      did not skip, never after the last one, and only with a positive
      delay. */
  predicate SleepsAfter(cfg: RunConfig, i: nat, n: nat, v: Video, files: seq<string>)
  {
    cfg.delay > 0 && i + 1 < n && !Skipped(cfg, v, files)
  }

  /** `[f(0), ..., f(n - 1)]`. */
  function Tabulate<T>(n: nat, f: nat -> T): (r: seq<T>)
    ensures |r| == n
  {
    if n == 0 then [] else Tabulate(n - 1, f) + [f(n - 1)]
  }

  lemma {:induction false} TabulateAt<T>(n: nat, f: nat -> T, k: nat)
    requires k < n
    ensures Tabulate(n, f)[k] == f(k)
  {
    if k < n - 1 {
      TabulateAt(n - 1, f, k);
    }
  }

  /** The outcome of video `k` in the state it met. */
  function OutcomeOf(videos: seq<Video>, cfg: RunConfig, listing: nat -> seq<string>, clock: nat -> nat,
                     run: seq<string> -> ChildRun): nat -> Outcome
  {
    (k: nat) => if k < |videos| then VideoOutcome(cfg, videos[k], listing(k), clock(k), run) else Outcome(false, None, None)
  }

  /** The results of the first `i` videos. */
  function Outcomes(videos: seq<Video>, cfg: RunConfig, listing: nat -> seq<string>, clock: nat -> nat,
                    run: seq<string> -> ChildRun, i: nat): (r: seq<Outcome>)
    requires i <= |videos|
    ensures |r| == i
  {
    Tabulate(i, OutcomeOf(videos, cfg, listing, clock, run))
  }

  /** Result `k` is the outcome of video `k` in the state it met. */
  lemma OutcomesAt(videos: seq<Video>, cfg: RunConfig, listing: nat -> seq<string>, clock: nat -> nat,
                   run: seq<string> -> ChildRun, i: nat, k: nat)
    requires k < i <= |videos|
    ensures Outcomes(videos, cfg, listing, clock, run, i)[k] == VideoOutcome(cfg, videos[k], listing(k), clock(k), run)
  {
    TabulateAt(i, OutcomeOf(videos, cfg, listing, clock, run), k);
  }

  /** The videos among the first `i` after which the script waits. */
  function Waits(videos: seq<Video>, cfg: RunConfig, listing: nat -> seq<string>, i: nat): (r: seq<nat>)
    requires i <= |videos|
    ensures |r| <= i
    ensures forall k :: 0 <= k < |r| ==> r[k] < i
    ensures forall k, j :: 0 <= k < j < |r| ==> r[k] < r[j]
  {
    if i == 0 then []
    else Waits(videos, cfg, listing, i - 1) + (if SleepsAfter(cfg, i - 1, |videos|, videos[i - 1], listing(i - 1)) then [i - 1] else [])
  }

  /** The script waits after exactly the videos `SleepsAfter` names. */
  lemma {:induction false} WaitsExact(videos: seq<Video>, cfg: RunConfig, listing: nat -> seq<string>, i: nat)
    requires i <= |videos|
    ensures forall j: nat :: j in Waits(videos, cfg, listing, i) <==> j < i && SleepsAfter(cfg, j, |videos|, videos[j], listing(j))
  {
    if i > 0 {
      WaitsExact(videos, cfg, listing, i - 1);
      var prev := Waits(videos, cfg, listing, i - 1);
      var sleeps := SleepsAfter(cfg, i - 1, |videos|, videos[i - 1], listing(i - 1));
      assert Waits(videos, cfg, listing, i) == prev + (if sleeps then [i - 1] else []);
    }
  }

  /** The script never waits after the last video. */
  lemma WaitsNotAfterLast(videos: seq<Video>, cfg: RunConfig, listing: nat -> seq<string>)
    ensures forall k :: 0 <= k < |Waits(videos, cfg, listing, |videos|)| ==> Waits(videos, cfg, listing, |videos|)[k] < |videos| - 1
  {
    var w := Waits(videos, cfg, listing, |videos|);
    WaitsExact(videos, cfg, listing, |videos|);
    forall k | 0 <= k < |w|
      ensures w[k] < |videos| - 1
    {
      assert w[k] in w;
    }
  }

  /** When nothing is skipped and the delay is positive, the script waits
      between every two consecutive videos. */
  lemma {:induction false} WaitsBetweenAll(videos: seq<Video>, cfg: RunConfig, listing: nat -> seq<string>, i: nat)
    requires i <= |videos|
    requires !cfg.skipExisting && cfg.delay > 0
    ensures |Waits(videos, cfg, listing, i)| == (if i == |videos| && i > 0 then i - 1 else i)
  {
    if i > 0 {
      WaitsBetweenAll(videos, cfg, listing, i - 1);
      var prev := Waits(videos, cfg, listing, i - 1);
      var sleeps := SleepsAfter(cfg, i - 1, |videos|, videos[i - 1], listing(i - 1));
      assert !Skipped(cfg, videos[i - 1], listing(i - 1));
      assert Waits(videos, cfg, listing, i) == prev + (if sleeps then [i - 1] else []);
    }
  }

  /** The loop of `main` over the selected videos. The environment is given
      per video: `listing(i)` is what the output directory holds when video
      `i` (from 0) comes up, `clock(i)` the time then, and `run` the smart
      transcriber. `slept` lists the videos after which the script waited. */
  method ProcessVideos(videos: seq<Video>, cfg: RunConfig, listing: nat -> seq<string>, clock: nat -> nat,
                       run: seq<string> -> ChildRun)
    returns (results: seq<Outcome>, lines: seq<string>, ghost slept: seq<nat>)
    ensures results == Outcomes(videos, cfg, listing, clock, run, |videos|)
    ensures slept == Waits(videos, cfg, listing, |videos|)
  {
    results, lines, slept := [], [], [];
    var n := |videos|;
    var i := 0;
    while i < n
      invariant 0 <= i <= n
      invariant results == Outcomes(videos, cfg, listing, clock, run, i)
      invariant slept == Waits(videos, cfg, listing, i)
    {
      var outcome, said, slept1 := ProcessOne(i, n, videos[i], cfg, listing(i), clock(i), run);
      OutcomesStep(videos, cfg, listing, clock, run, i);
      WaitsStep(videos, cfg, listing, i);
      results := results + [outcome];
      lines := lines + said;
      if slept1 {
        slept := slept + [i];
      }
      i := i + 1;
    }
  }

  /** The loop's results grow by the outcome of the next video. */
  lemma OutcomesStep(videos: seq<Video>, cfg: RunConfig, listing: nat -> seq<string>, clock: nat -> nat,
                     run: seq<string> -> ChildRun, i: nat)
    requires i < |videos|
    ensures Outcomes(videos, cfg, listing, clock, run, i + 1)
         == Outcomes(videos, cfg, listing, clock, run, i) + [VideoOutcome(cfg, videos[i], listing(i), clock(i), run)]
  {
    var f := OutcomeOf(videos, cfg, listing, clock, run);
    assert Tabulate(i + 1, f) == Tabulate(i, f) + [f(i)];
  }

  /** The waits grow by the next video's position when the script sleeps
      after it. */
  lemma WaitsStep(videos: seq<Video>, cfg: RunConfig, listing: nat -> seq<string>, i: nat)
    requires i < |videos|
    ensures Waits(videos, cfg, listing, i + 1)
         == Waits(videos, cfg, listing, i) + (if SleepsAfter(cfg, i, |videos|, videos[i], listing(i)) then [i] else [])
  {
  }

  /** One pass of the loop: report the video, skip it or transcribe it, and
      wait afterwards unless it was skipped or is the last one. */
  method ProcessOne(i: nat, n: nat, video: Video, cfg: RunConfig, files: seq<string>, now: nat, run: seq<string> -> ChildRun)
    returns (outcome: Outcome, lines: seq<string>, slept: bool)
    ensures outcome == VideoOutcome(cfg, video, files, now, run)
    ensures slept <==> SleepsAfter(cfg, i, n, video, files)
  {
    lines := ["\n--- Processing video " + NatToString(i + 1) + "/" + NatToString(n) + " ---",
              "Title: " + video.title, "Duration: " + Durations.FormatDuration(video.duration)];
    slept := false;
    var existing := if cfg.skipExisting then FirstMatch(files, GlobKey(video.url)) else None;
    if existing.Some? {
      lines := lines + ["Skipping - output file already exists: " + existing.value];
      outcome := Outcome(true, Some("Skipped - already exists: " + existing.value), None);
    } else {
      var success, message := TranscribeVideo(cfg.python, video.url, cfg.outputDir, cfg.mode, cfg.force, now, run);
      outcome := Outcome(success, if success then Some(message) else None, if success then None else Some(message));
      lines := lines + [(if success then "\U{2705} Success: " else "\U{274C} Failed: ") + message];
      if i + 1 < n && cfg.delay > 0 {
        lines := lines + ["Waiting " + NatToString(cfg.delay) + " seconds before next video..."];
        slept := true;
      }
    }
  }

  // ---------------------------------------------------------------------
  // create_playlist_summary

  /** What `get_playlist_info` reports (with its own fallbacks applied). */
  datatype PlaylistInfo = PlaylistInfo(title: string, uploader: string, count: nat)

  /** `sum(1 for r in results if r['success'])`. */
  function CountSuccessful(results: seq<Outcome>): (n: nat)
    ensures n <= |results|
  {
    if |results| == 0 then 0
    else CountSuccessful(results[..|results| - 1]) + (if results[|results| - 1].success then 1 else 0)
  }

  /** Positions of the failed results, in order. */
  function FailedIndices(results: seq<Outcome>): (r: seq<nat>)
    ensures |r| <= |results|
    ensures forall k :: 0 <= k < |r| ==> r[k] < |results|
    ensures forall k, j :: 0 <= k < j < |r| ==> r[k] < r[j]
  {
    if |results| == 0 then []
    else FailedIndices(results[..|results| - 1]) + (if results[|results| - 1].success then [] else [|results| - 1])
  }

  /** The failed list holds exactly the positions of the failures, in
      increasing order, and the successes and the failures add up to all
      results. */
  lemma {:induction false} FailedIndicesExact(results: seq<Outcome>)
    ensures forall i :: i in FailedIndices(results) <==> 0 <= i < |results| && !results[i].success
    ensures CountSuccessful(results) + |FailedIndices(results)| == |results|
  {
    if |results| > 0 {
      var init := results[..|results| - 1];
      FailedIndicesExact(init);
      assert forall i :: 0 <= i < |init| ==> init[i] == results[i];
    }
  }

  /** The status line of video `j` (from 0). */
  function EntryLine(j: nat, v: Video, r: Outcome): string
  {
    NatToString(j + 1) + ". " + (if r.success then "\U{2705}" else "\U{274C}") + " [" + v.title + "](" + v.url + ") - "
      + Durations.FormatDuration(v.duration)
  }

  /** The line under a status line: the error of a failure, the output of a
      success. */
  function DetailLine(r: Outcome): string
  {
    if r.success then "   - Output: " + OptionText(r.output) else "   - Error: " + OptionText(r.error)
  }

  /** The header block, up to and including the blank line under
      "## Videos". */
  function SummaryHeader(info: PlaylistInfo, videoCount: nat, successful: nat, failed: int, generated: string): (r: seq<string>)
    ensures |r| == 12
  {
    ["# " + info.title, "", "**Uploader:** " + info.uploader, "**Total Videos:** " + NatToString(videoCount),
     "**Generated:** " + generated, "", "## Processing Summary", "- Successfully transcribed: " + NatToString(successful),
     "- Failed: " + IntText(failed), "", "## Videos", ""]
  }

  /** The "## Videos" section for the first `m` videos: two lines each. */
  function VideoLines(videos: seq<Video>, results: seq<Outcome>, m: nat): (r: seq<string>)
    requires m <= |videos| && m <= |results|
    ensures |r| == 2 * m
  {
    if m == 0 then []
    else VideoLines(videos, results, m - 1) + [EntryLine(m - 1, videos[m - 1], results[m - 1]), DetailLine(results[m - 1])]
  }

  /** Lines `2j` and `2j + 1` of the section are video `j`'s status line
      and detail line. */
  lemma {:induction false} VideoLinesAt(videos: seq<Video>, results: seq<Outcome>, m: nat, j: nat)
    requires j < m <= |videos| && m <= |results|
    ensures VideoLines(videos, results, m)[2 * j] == EntryLine(j, videos[j], results[j])
    ensures VideoLines(videos, results, m)[2 * j + 1] == DetailLine(results[j])
  {
    if j < m - 1 {
      VideoLinesAt(videos, results, m - 1, j);
    }
  }

  /** The two lines listing a failed video. */
  function FailureEntry(v: Video, r: Outcome): (r': seq<string>)
    ensures |r'| == 2
  {
    ["- [" + v.title + "](" + v.url + ")", "  - Error: " + OptionText(r.error)]
  }

  /** The "## Failed Videos" entries among the first `m` videos. */
  function FailureLines(videos: seq<Video>, results: seq<Outcome>, m: nat): (r: seq<string>)
    requires m <= |videos| && m <= |results|
  {
    if m == 0 then []
    else FailureLines(videos, results, m - 1) + (if results[m - 1].success then [] else FailureEntry(videos[m - 1], results[m - 1]))
  }

  /** The failed section lists exactly the failures, in playlist order:
      entry `q` is the `q`-th failed video. */
  lemma {:induction false} FailureLinesAt(videos: seq<Video>, results: seq<Outcome>, m: nat)
    requires m <= |videos| && m <= |results|
    ensures var f := FailedIndices(results[..m]);
      && |FailureLines(videos, results, m)| == 2 * |f|
      && forall q :: 0 <= q < |f| ==>
           FailureLines(videos, results, m)[2 * q..2 * q + 2] == FailureEntry(videos[f[q]], results[f[q]])
  {
    if m > 0 {
      FailureLinesAt(videos, results, m - 1);
      FailureStep(videos, results, m);
      if !results[m - 1].success {
        var f0 := FailedIndices(results[..m - 1]);
        var l0 := FailureLines(videos, results, m - 1);
        var e := FailureEntry(videos[m - 1], results[m - 1]);
        forall q | 0 <= q < |f0| + 1
          ensures (l0 + e)[2 * q..2 * q + 2] == FailureEntry(videos[(f0 + [m - 1])[q]], results[(f0 + [m - 1])[q]])
        {
          if q < |f0| {
            PairInPrefix(l0, e, 2 * q);
          } else {
            assert (l0 + e)[2 * q..2 * q + 2] == e;
          }
        }
      }
    }
  }

  /** One more video adds its index and its entry to the failed section
      exactly when it failed. */
  lemma FailureStep(videos: seq<Video>, results: seq<Outcome>, m: nat)
    requires 0 < m <= |videos| && m <= |results|
    ensures results[m - 1].success ==>
      && FailedIndices(results[..m]) == FailedIndices(results[..m - 1])
      && FailureLines(videos, results, m) == FailureLines(videos, results, m - 1)
    ensures !results[m - 1].success ==>
      && FailedIndices(results[..m]) == FailedIndices(results[..m - 1]) + [m - 1]
      && FailureLines(videos, results, m) == FailureLines(videos, results, m - 1) + FailureEntry(videos[m - 1], results[m - 1])
  {
    assert results[..m][..m - 1] == results[..m - 1];
  }

  /** Appending lines leaves a pair of earlier lines where it was. */
  lemma PairInPrefix(l0: seq<string>, e: seq<string>, i: nat)
    requires i + 2 <= |l0|
    ensures (l0 + e)[i..i + 2] == l0[i..i + 2]
  {
  }

  /** The number of videos the loop over `zip(videos, results)` visits. */
  function Zipped(videos: seq<Video>, results: seq<Outcome>): (m: nat)
    ensures m <= |videos| && m <= |results|
  {
    if |videos| < |results| then |videos| else |results|
  }

  /** The part of the summary after the video list: the failed section when
      something failed, nothing otherwise. */
  function FailedTail(videos: seq<Video>, results: seq<Outcome>): seq<string>
  {
    if |results| - CountSuccessful(results) > 0 then ["", "## Failed Videos", ""] + FailureLines(videos, results, Zipped(videos, results)) else []
  }

  /** Everything after the header: the video list and, when something
      failed, the failed section. */
  function SummaryBody(videos: seq<Video>, results: seq<Outcome>): (r: seq<string>)
    ensures |r| == 2 * Zipped(videos, results) + |FailedTail(videos, results)|
  {
    VideoLines(videos, results, Zipped(videos, results)) + FailedTail(videos, results)
  }

  /** With one result per video, the failed section is there exactly when
      some result failed. */
  lemma FailedTailPresent(videos: seq<Video>, results: seq<Outcome>)
    requires |videos| == |results|
    ensures |FailedIndices(results)| > 0 ==> FailedTail(videos, results) == ["", "## Failed Videos", ""] + FailureLines(videos, results, |results|)
    ensures |FailedIndices(results)| == 0 ==> FailedTail(videos, results) == []
  {
    FailedIndicesExact(results);
  }

  /** Line `2n + i` of the body is line `i` of the failed section. */
  lemma {:induction false} BodyTail(videos: seq<Video>, results: seq<Outcome>, i: nat)
    requires |videos| == |results| && i < |FailedTail(videos, results)|
    ensures SummaryBody(videos, results)[2 * |results| + i] == FailedTail(videos, results)[i]
  {
    assert SummaryBody(videos, results) == VideoLines(videos, results, |results|) + FailedTail(videos, results);
  }

  /** With one result per video, the failed section is a heading block of
      three lines and two lines per failure, or nothing. */
  lemma {:induction false} FailedTailLength(videos: seq<Video>, results: seq<Outcome>)
    requires |videos| == |results|
    ensures |FailedTail(videos, results)| == if |FailedIndices(results)| > 0 then 3 + 2 * |FailedIndices(results)| else 0
    ensures |FailedIndices(results)| > 0 ==> FailedTail(videos, results)[1] == "## Failed Videos"
  {
    FailedTailPresent(videos, results);
    if |FailedIndices(results)| > 0 {
      FailureLinesAt(videos, results, |results|);
      assert results[..|results|] == results;
    }
  }

  /** For one result per video: the header's failure count is the number of
      failed videos, and the failed section follows the video list exactly
      when something failed, listing every failure in two lines. */
  lemma {:induction false} SummaryBodyLayout(videos: seq<Video>, results: seq<Outcome>)
    requires |videos| == |results|
    ensures |results| - CountSuccessful(results) == |FailedIndices(results)|
    ensures var body := SummaryBody(videos, results);
      var f := FailedIndices(results);
      && (|f| == 0 <==> |body| == 2 * |results|)
      && (|f| > 0 ==> |body| == 2 * |results| + 3 + 2 * |f| && body[2 * |results| + 1] == "## Failed Videos")
  {
    FailedIndicesExact(results);
    FailedTailLength(videos, results);
    if |FailedIndices(results)| > 0 {
      BodyTail(videos, results, 1);
    }
  }

  /** Lines `2j` and `2j + 1` of the body are video `j`'s status line and
      its detail line. */
  lemma {:induction false} SummaryListsVideo(videos: seq<Video>, results: seq<Outcome>, j: nat)
    requires j < |videos| == |results|
    ensures SummaryBody(videos, results)[2 * j] == EntryLine(j, videos[j], results[j])
    ensures SummaryBody(videos, results)[2 * j + 1] == DetailLine(results[j])
  {
    VideoLinesAt(videos, results, |results|, j);
    var v := VideoLines(videos, results, |results|);
    var body := SummaryBody(videos, results);
    assert body == v + FailedTail(videos, results);
    assert body[2 * j] == v[2 * j] && body[2 * j + 1] == v[2 * j + 1];
  }

  /** The `q`-th entry of the failed section names the `q`-th failed video. */
  lemma {:induction false} SummaryListsFailure(videos: seq<Video>, results: seq<Outcome>, q: nat)
    requires |videos| == |results| && q < |FailedIndices(results)|
    ensures var body := SummaryBody(videos, results);
      var at := 2 * |results| + 3 + 2 * q;
      var k := FailedIndices(results)[q];
      && at + 2 <= |body|
      && body[at] == FailureEntry(videos[k], results[k])[0]
      && body[at + 1] == FailureEntry(videos[k], results[k])[1]
  {
    FailedTailPresent(videos, results);
    FailureLinesAt(videos, results, |results|);
    assert results[..|results|] == results;
    var fl := FailureLines(videos, results, |results|);
    var tail := FailedTail(videos, results);
    assert tail[3 + 2 * q] == fl[2 * q] && tail[4 + 2 * q] == fl[2 * q + 1];
    assert fl[2 * q] == fl[2 * q..2 * q + 2][0] && fl[2 * q + 1] == fl[2 * q..2 * q + 2][1];
    BodyTail(videos, results, 3 + 2 * q);
    BodyTail(videos, results, 4 + 2 * q);
  }

  /** `create_playlist_summary(...)`: the summary file's path and its text,
      one element per line: the header with the success and failure counts,
      then the body. */
  method CreatePlaylistSummary(info: PlaylistInfo, videos: seq<Video>, results: seq<Outcome>, outputDir: string, generated: string)
    returns (path: string, text: seq<string>)
    ensures path == PathJoin(outputDir, "00_playlist_summary.md")
    ensures text == SummaryHeader(info, |videos|, CountSuccessful(results), |results| - CountSuccessful(results), generated)
      + SummaryBody(videos, results)
  {
    path := PathJoin(outputDir, "00_playlist_summary.md");
    var m := Zipped(videos, results);
    var successful := CountSuccessful(results);
    var failed := |results| - successful;
    var listed := VideoSection(videos, results, m);
    var body := listed;
    if failed > 0 {
      var failures := FailedSection(videos, results, m);
      body := body + (["", "## Failed Videos", ""] + failures);
    }
    text := SummaryHeader(info, |videos|, successful, failed, generated) + body;
  }

  /** The "## Videos" loop. */
  method VideoSection(videos: seq<Video>, results: seq<Outcome>, m: nat) returns (lines: seq<string>)
    requires m <= |videos| && m <= |results|
    ensures lines == VideoLines(videos, results, m)
  {
    lines := [];
    var j := 0;
    while j < m
      invariant 0 <= j <= m
      invariant lines == VideoLines(videos, results, j)
    {
      lines := lines + [EntryLine(j, videos[j], results[j]), DetailLine(results[j])];
      j := j + 1;
    }
  }

  /** The "## Failed Videos" loop. */
  method FailedSection(videos: seq<Video>, results: seq<Outcome>, m: nat) returns (lines: seq<string>)
    requires m <= |videos| && m <= |results|
    ensures lines == FailureLines(videos, results, m)
  {
    lines := [];
    var j := 0;
    while j < m
      invariant 0 <= j <= m
      invariant lines == FailureLines(videos, results, j)
    {
      if !results[j].success {
        lines := lines + FailureEntry(videos[j], results[j]);
      }
      j := j + 1;
    }
  }

  // ---------------------------------------------------------------------
  // main

  /** The directory the run writes to: `--output-dir` when given, otherwise
      the date, the sanitised playlist title and the mode joined by "_". */
  function OutputDirectory(outputDir: Option<string>, info: PlaylistInfo, date: string, mode: Mode): string
  {
    if Truthy(outputDir) then outputDir.value else date + "_" + Sanitized(info.title, 100) + "_" + ModeName(mode)
  }

  /** A generated directory name is the date, the playlist title made safe
      for a file name (no forbidden characters, single spaces, trimmed, at
      most 100 characters) and the mode, joined by "_". */
  lemma {:induction false} OutputDirectoryShape(outputDir: Option<string>, info: PlaylistInfo, date: string, mode: Mode)
    requires !Truthy(outputDir)
    ensures var d := OutputDirectory(outputDir, info, date, mode);
      var title := Sanitized(info.title, 100);
      && d == date + "_" + title + "_" + ModeName(mode)
      && SafeName(title, 100)
  {
    SanitizedShape(info.title, 100);
  }

  function IntText(i: int): string
  {
    if i >= 0 then NatToString(i) else "-" + NatToString(-i)
  }

  const NoVideosLine: string := "Error: No videos found in playlist"

  /** `main()` once its arguments are parsed. The environment is given:
      `info` is what `get_playlist_info` found, `listRun` yt-dlp's listing
      run, `smartExists` whether the smart transcriber is present, and
      `listing`, `clock` and `run` as for the loop. `mkdirFails` says that
      `os.makedirs` raises and `summaryFails` that opening or writing the
      summary file raises; neither is caught, so the run ends there with
      exit status 1. Returns the exit code, the printed lines and the
      summary file written (its path and lines); `processed` and `results`
      are the selected videos and their results. */
  method PlaylistMain(url: string, parsed: ParsedUrl, outputDir: Option<string>, mode: Mode, force: Force,
                      start: int, end: Option<int>, delay: int, skipExisting: bool, python: string, date: string,
                      generated: string, info: PlaylistInfo, listRun: ChildRun, decode: string -> Option<JsonEntry>,
                      smartExists: bool, listing: nat -> seq<string>, clock: nat -> nat, run: seq<string> -> ChildRun,
                      mkdirFails: bool, summaryFails: bool)
    returns (code: int, lines: seq<string>, summary: Option<(string, seq<string>)>,
             ghost processed: seq<Video>, ghost results: seq<Outcome>)
    ensures code == 0 || code == 1
    ensures code == 0 <==>
      && ExtractPlaylistId(parsed, url).Some? && PlaylistVideos(listRun, decode).Some? && PlaylistVideos(listRun, decode).value != []
      && !mkdirFails && smartExists && !summaryFails
    ensures ExtractPlaylistId(parsed, url).None? ==> lines == ["Error: Invalid YouTube playlist URL"]
    ensures ExtractPlaylistId(parsed, url).Some? && PlaylistVideos(listRun, decode) == Some([]) ==>
      code == 1 && |lines| > 0 && lines[|lines| - 1] == NoVideosLine
    ensures ExtractPlaylistId(parsed, url).Some? && listRun.LaunchError? ==>
      code == 1 && NoVideosLine !in lines
    ensures code == 1 ==> summary.None?
    ensures code == 0 ==>
      var dir := OutputDirectory(outputDir, info, date, mode);
      && processed == SelectRange(PlaylistVideos(listRun, decode).value, start, end)
      && results == Outcomes(processed, RunConfig(python, dir, mode, force, delay, skipExisting), listing, clock, run, |processed|)
      && SummaryWritten(summary, dir, info, processed, results, generated)
      && (CountSuccessful(results) < |processed| <==> EndsWithHint(lines))
  {
    processed, results := [], [];
    summary := None;
    if ExtractPlaylistId(parsed, url).None? {
      return 1, ["Error: Invalid YouTube playlist URL"], None, [], [];
    }
    lines := ["Processing playlist: " + url, "Playlist: " + info.title + " by " + info.uploader];
    var listed := GetPlaylistVideos(listRun, decode);
    if listed.None? {
      assert lines[0][0] != NoVideosLine[0] && lines[1][0] != NoVideosLine[0];
      return 1, lines, None, [], [];
    }
    var videos := listed.value;
    if videos == [] {
      return 1, lines + [NoVideosLine], None, [], [];
    }
    var more;
    code, more, summary, processed, results := RunSelected(videos, outputDir, mode, force, start, end, delay, skipExisting,
                                                           python, date, generated, info, smartExists, listing, clock, run,
                                                           mkdirFails, summaryFails);
    HintAtEnd(lines, more);
    lines := lines + more;
  }

  /** The summary file was written: "00_playlist_summary.md" in `dir`,
      holding the header with the counts, the list of videos and the
      failed section. */
  predicate SummaryWritten(summary: Option<(string, seq<string>)>, dir: string, info: PlaylistInfo,
                           videos: seq<Video>, results: seq<Outcome>, generated: string)
  {
    && summary.Some? && summary.value.0 == PathJoin(dir, "00_playlist_summary.md")
    && summary.value.1 == SummaryHeader(info, |videos|, CountSuccessful(results), |results| - CountSuccessful(results), generated)
         + SummaryBody(videos, results)
  }

  /** The part of `main` after the playlist has been listed: settle and
      create the output directory, check for the smart transcriber, run the
      loop, write the summary and report. A failing `os.makedirs` ends the
      run before any video is processed; a failing summary write ends it
      after every video was processed, with no closing report. */
  method RunSelected(videos: seq<Video>, outputDir: Option<string>, mode: Mode, force: Force,
                     start: int, end: Option<int>, delay: int, skipExisting: bool, python: string, date: string,
                     generated: string, info: PlaylistInfo, smartExists: bool,
                     listing: nat -> seq<string>, clock: nat -> nat, run: seq<string> -> ChildRun,
                     mkdirFails: bool, summaryFails: bool)
    returns (code: int, lines: seq<string>, summary: Option<(string, seq<string>)>,
             ghost processed: seq<Video>, ghost results: seq<Outcome>)
    ensures code == 0 || code == 1
    ensures code == 0 <==> !mkdirFails && smartExists && !summaryFails
    ensures code == 1 ==> summary.None?
    ensures processed == SelectRange(videos, start, end)
    ensures (mkdirFails || !smartExists) ==> results == []
    ensures !mkdirFails && smartExists ==>
      results == Outcomes(processed, RunConfig(python, OutputDirectory(outputDir, info, date, mode), mode, force, delay, skipExisting),
                          listing, clock, run, |processed|)
    ensures |lines| > 0
    ensures code == 0 ==>
      && SummaryWritten(summary, OutputDirectory(outputDir, info, date, mode), info, processed, results, generated)
      && (CountSuccessful(results) < |processed| <==> EndsWithHint(lines))
  {
    var toProcess := SelectRange(videos, start, end);
    processed, results := toProcess, [];
    var dir, said := PrepareRun(videos, start, end, outputDir, info, date, mode);
    if mkdirFails {
      return 1, said, None, toProcess, [];
    }
    var outcomes;
    code, lines, summary, outcomes := RunInDirectory(toProcess, RunConfig(python, dir, mode, force, delay, skipExisting),
                                                     info, generated, said, smartExists, listing, clock, run, summaryFails);
    results := outcomes;
  }

  /** `main` once the output directory exists: report it, stop with 1 when
      the smart transcriber is missing, and otherwise process the videos
      and write the summary, which fails the run with 1 when writing it
      raises. `before` is what was printed so far. */
  method RunInDirectory(videos: seq<Video>, cfg: RunConfig, info: PlaylistInfo, generated: string, before: seq<string>,
                        smartExists: bool, listing: nat -> seq<string>, clock: nat -> nat, run: seq<string> -> ChildRun,
                        summaryFails: bool)
    returns (code: int, lines: seq<string>, summary: Option<(string, seq<string>)>, results: seq<Outcome>)
    ensures code == 0 || code == 1
    ensures code == 0 <==> smartExists && !summaryFails
    ensures code == 1 ==> summary.None?
    ensures !smartExists ==> results == []
    ensures smartExists ==> results == Outcomes(videos, cfg, listing, clock, run, |videos|)
    ensures |lines| > 0
    ensures code == 0 ==>
      && SummaryWritten(summary, cfg.outputDir, info, videos, results, generated)
      && (CountSuccessful(results) < |videos| <==> EndsWithHint(lines))
  {
    lines := before + ["Output directory: " + cfg.outputDir];
    if !smartExists {
      return 1, lines + SmartMissingReport, None, [];
    }
    var reported;
    results, summary, reported := ProcessPlaylist(videos, cfg, info, generated, listing, clock, run, summaryFails);
    if !summaryFails {
      HintAtEnd(lines, reported);
    }
    lines := lines + reported;
    code := if summaryFails then 1 else 0;
  }

  /** What `main` prints when the smart transcriber is not in the current
      directory. */
  const SmartMissingReport: seq<string> :=
    ["Error: transcribe_youtube_smart.py not found in current directory",
     "Please ensure the smart transcriber script is in the same directory"]

  const FailureHint: string := "Check the playlist summary for details."

  /** The last printed line is the hint to read the summary. */
  predicate EndsWithHint(lines: seq<string>)
  {
    |lines| > 0 && lines[|lines| - 1] == FailureHint
  }

  /** Lines printed before a non-empty report do not change how it ends. */
  lemma HintAtEnd(before: seq<string>, report: seq<string>)
    requires |report| > 0
    ensures EndsWithHint(before + report) == EndsWithHint(report)
  {
    assert (before + report)[|before| + |report| - 1] == report[|report| - 1];
  }

  /** The part of `main` between listing the playlist and the loop: report
      the count and the range, and settle the output directory. */
  method PrepareRun(videos: seq<Video>, start: int, end: Option<int>, outputDir: Option<string>, info: PlaylistInfo,
                    date: string, mode: Mode)
    returns (dir: string, lines: seq<string>)
    ensures dir == OutputDirectory(outputDir, info, date, mode)
    ensures |lines| > 0
  {
    lines := ["Found " + NatToString(|videos|) + " videos in playlist"];
    var startIdx := if start - 1 > 0 then start - 1 else 0;
    var endIdx := if end.Some? && end.value != 0 then (if end.value < |videos| then end.value else |videos|) else |videos|;
    if startIdx > 0 || endIdx < |videos| {
      var selected := SelectRange(videos, start, end);
      lines := lines + ["Processing videos " + IntText(start) + " to " + IntText(endIdx) + " (total: " + NatToString(|selected|) + ")"];
    }
    if Truthy(outputDir) {
      dir := outputDir.value;
    } else {
      var safeTitle := SanitizeFilename(info.title, 100);
      dir := date + "_" + safeTitle + "_" + ModeName(mode);
    }
  }

  /** The loop, the summary file and the closing report: the report ends
      with the hint to read the summary exactly when some video failed.
      When writing the summary raises (`summaryFails`) nothing is written
      and nothing after the loop's own lines is printed. */
  method ProcessPlaylist(videos: seq<Video>, cfg: RunConfig, info: PlaylistInfo, generated: string,
                         listing: nat -> seq<string>, clock: nat -> nat, run: seq<string> -> ChildRun, summaryFails: bool)
    returns (results: seq<Outcome>, summary: Option<(string, seq<string>)>, lines: seq<string>)
    ensures results == Outcomes(videos, cfg, listing, clock, run, |videos|)
    ensures summaryFails ==> summary.None?
    ensures !summaryFails ==>
      && SummaryWritten(summary, cfg.outputDir, info, videos, results, generated)
      && |lines| > 0 && (CountSuccessful(results) < |videos| <==> EndsWithHint(lines))
  {
    var said;
    ghost var slept;
    results, said, slept := ProcessVideos(videos, cfg, listing, clock, run);
    if summaryFails {
      return results, None, said;
    }
    var path, text := CreatePlaylistSummary(info, videos, results, cfg.outputDir, generated);
    summary := Some((path, text));
    var closing := ClosingReport(path, cfg.outputDir, CountSuccessful(results), |videos|);
    HintAtEnd(said, closing);
    lines := said + closing;
  }

  /** The rule of fifty "=" printed before the closing lines. */
  const Rule: string := "=================================================="

  /** The lines printed once the summary is written; the last one is the
      hint to read the summary exactly when some video failed. */
  method ClosingReport(path: string, dir: string, successful: nat, total: nat) returns (closing: seq<string>)
    ensures |closing| > 0 && (successful < total <==> EndsWithHint(closing))
  {
    closing := ["\nPlaylist summary saved to: " + path, "\n" + Rule, "Playlist processing complete!",
                "Successfully processed: " + NatToString(successful) + "/" + NatToString(total) + " videos",
                "Output directory: " + dir];
    if successful < total {
      closing := closing + ["\n\U{26A0}\U{FE0F}  " + NatToString(total - successful) + " videos failed to process.", FailureHint];
    } else {
      assert closing[|closing| - 1][0] == 'O';
    }
  }
}
