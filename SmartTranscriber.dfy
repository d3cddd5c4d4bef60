/** transcribe_youtube_smart.py: the orchestrator that runs the other three
    transcriber scripts as child processes, in order of cost, until one of
    them succeeds. Captions come first, then Gemini on the video URL, and
    when the video is too long for that, Gemini on the downloaded audio,
    with a fall back from a full transcription to a summary and then an
    outline. */
module SmartTranscriber {
  import opened Common
  import opened Text
  import opened Naming
  import GeminiDirect

  /** What a `try_*` adapter returns: `True`, `False` or `"token_limit"`. */
  datatype Verdict = Succeeded | NotSucceeded | TokenLimited

  /** `try_youtube_api`: the verdict, and the line it prints about a
      failure ("" when it prints none of its own). */
  datatype CaptionsReport = CaptionsReport(verdict: Verdict, note: string)

  function ErrorText(stdout: string, stderr: string): string
  {
    stdout + " " + stderr
  }

  /** `try_youtube_api(url, output)` given what running
      transcribe_youtube_api.py gave. A "no transcripts" failure and any
      other failure give the same verdict and differ only in what is
      printed. */
  function TryYoutubeApi(run: ChildRun): (r: CaptionsReport)
    ensures r.verdict == (if run.Exited? && run.code == 0 then Succeeded else NotSucceeded)
    ensures run.Exited? && run.code != 0 ==>
      (r.note == "No transcripts available via YouTube API" <==>
        Contains(ErrorText(run.stdout, run.stderr), "No transcripts") || Contains(ErrorText(run.stdout, run.stderr), "doesn't have any transcripts"))
  {
    match run
    case LaunchError(_) => CaptionsReport(NotSucceeded, "transcribe_youtube_api.py not found")
    case Exited(code, stdout, stderr) =>
      if code == 0 then CaptionsReport(Succeeded, "")
      else
        var errorText := ErrorText(stdout, stderr);
        if Contains(errorText, "No transcripts") || Contains(errorText, "doesn't have any transcripts") then
          CaptionsReport(NotSucceeded, "No transcripts available via YouTube API")
        else
          assert ("YouTube API error: " + stdout + "\n" + stderr)[0] == 'Y';
          CaptionsReport(NotSucceeded, "YouTube API error: " + stdout + "\n" + stderr)
  }

  /** `try_gemini_api(url, output, mode)` given what running
      transcribe_youtube.py gave: success on exit code 0, `"token_limit"`
      exactly when a failed child reported the token limit on either stream. */
  function TryGeminiApi(run: ChildRun): (v: Verdict)
    ensures v == Succeeded <==> run.Exited? && run.code == 0
    ensures v == TokenLimited <==>
      run.Exited? && run.code != 0 &&
      (Contains(run.stdout, GeminiDirect.TokenLimitMarker) || Contains(run.stderr, "exceeds the maximum number of tokens"))
  {
    match run
    case LaunchError(_) => NotSucceeded
    case Exited(code, stdout, stderr) =>
      if code == 0 then Succeeded
      else if Contains(stdout, GeminiDirect.TokenLimitMarker) || Contains(stderr, "exceeds the maximum number of tokens") then TokenLimited
      else NotSucceeded
  }

  /** `try_ytdlp_gemini(url, output, mode)` given what running
      transcribe_youtube_ytdlp.py gave. */
  function TryYtdlpGemini(run: ChildRun): (v: Verdict)
    ensures v != TokenLimited
    ensures v == Succeeded <==> run.Exited? && run.code == 0
  {
    if run.Exited? && run.code == 0 then Succeeded else NotSucceeded
  }

  /** A failure of the direct Gemini script caused by the token limit is
      recognised by the orchestrator: transcribe_youtube.py prints the
      marker and exits with 1, and `try_gemini_api` reads that as
      `"token_limit"`. */
  lemma DirectTokenLimitRecognised(lines: seq<string>, r: GeminiDirect.Outcome, last: GeminiDirect.Reply, stderr: string)
    requires last.Raised? && !GeminiDirect.IsOverloadedError(last.error) && GeminiDirect.IsTokenLimitError(last.error)
    requires r == GeminiDirect.Settle(last, 5)
    requires |lines| > 5 && lines[|lines| - 6] == "Error processing video: " + r.message
    ensures TryGeminiApi(Exited(1, GeminiDirect.Printed(lines), stderr)) == TokenLimited
  {
    GeminiDirect.TokenLimitReachesStdout(lines, r, last);
  }

  // ---------------------------------------------------------------------
  // The fallback order

  /** One child run: captions, Gemini on the URL at a mode, or Gemini on
      the downloaded audio at a mode. */
  datatype Attempt = Captions | Direct(mode: Mode) | Download(mode: Mode)

  /** The verdict the matching adapter gives for attempt `a`. */
  function VerdictOf(run: Attempt -> ChildRun, a: Attempt): Verdict
  {
    match a
    case Captions => TryYoutubeApi(run(a)).verdict
    case Direct(_) => TryGeminiApi(run(a))
    case Download(_) => TryYtdlpGemini(run(a))
  }

  /** The attempt the orchestrator starts with. */
  function FirstAttempt(mode: Mode, forceGemini: bool, forceYtdlp: bool, captionsAvailable: bool): Attempt
  {
    if forceYtdlp then Download(mode)
    else if !forceGemini && captionsAvailable then Captions
    else Direct(mode)
  }

  /** Whether the orchestrator goes on after attempt `a` ended with `v`:
      after failed captions; after a direct attempt that hit the token
      limit; after a failed download only while downgrading a requested
      full transcription and not yet at the outline. */
  predicate Continues(a: Attempt, v: Verdict, mode: Mode, forceYtdlp: bool)
  {
    match a
    case Captions => v != Succeeded
    case Direct(_) => v == TokenLimited
    case Download(m) => v != Succeeded && !forceYtdlp && mode == Transcribe && m != Outline
  }

  /** The coarser mode tried after a failed download. */
  function Coarser(m: Mode): Mode
  {
    match m
    case Transcribe => Summarize
    case Summarize => Outline
    case Outline => Outline
  }

  /** The attempt that follows `a` when the orchestrator goes on. */
  function NextAttempt(a: Attempt, mode: Mode): Attempt
  {
    match a
    case Captions => Direct(mode)
    case Direct(m) => Download(m)
    case Download(m) => Download(Coarser(m))
  }

  /** A start of a run: the first attempt, and each later attempt the one
      that follows its predecessor, which did not end the run. */
  ghost predicate Chain(trace: seq<Attempt>, run: Attempt -> ChildRun, mode: Mode, forceGemini: bool, forceYtdlp: bool, captionsAvailable: bool)
  {
    && |trace| > 0
    && trace[0] == FirstAttempt(mode, forceGemini, forceYtdlp, captionsAvailable)
    && (forall k :: 0 <= k < |trace| - 1 ==>
          Continues(trace[k], VerdictOf(run, trace[k]), mode, forceYtdlp) && trace[k + 1] == NextAttempt(trace[k], mode))
  }

  /** The attempts of one whole run of the orchestrator, as the branches of
      `main` order them: a chain whose last attempt ends the run. */
  ghost predicate FallbackRun(trace: seq<Attempt>, run: Attempt -> ChildRun, mode: Mode, forceGemini: bool, forceYtdlp: bool, captionsAvailable: bool)
  {
    && Chain(trace, run, mode, forceGemini, forceYtdlp, captionsAvailable)
    && !Continues(trace[|trace| - 1], VerdictOf(run, trace[|trace| - 1]), mode, forceYtdlp)
  }

  lemma ChainStart(run: Attempt -> ChildRun, mode: Mode, forceGemini: bool, forceYtdlp: bool, captionsAvailable: bool)
    ensures Chain([FirstAttempt(mode, forceGemini, forceYtdlp, captionsAvailable)], run, mode, forceGemini, forceYtdlp, captionsAvailable)
  {
  }

  lemma ChainExtend(trace: seq<Attempt>, run: Attempt -> ChildRun, mode: Mode, forceGemini: bool, forceYtdlp: bool, captionsAvailable: bool)
    requires Chain(trace, run, mode, forceGemini, forceYtdlp, captionsAvailable)
    requires Continues(trace[|trace| - 1], VerdictOf(run, trace[|trace| - 1]), mode, forceYtdlp)
    ensures Chain(trace + [NextAttempt(trace[|trace| - 1], mode)], run, mode, forceGemini, forceYtdlp, captionsAvailable)
  {
  }

  /** `main()` after argument parsing. The child processes are given by
      `run`, which says what running the script of an attempt gives (the URL
      and output path passed to every child are fixed for one run);
      `captionsAvailable` is whether youtube-transcript-api is importable
      once the install prompt is over. */
  method SmartMain(url: string, parsed: ParsedUrl, mode: Mode, forceGemini: bool, forceYtdlp: bool, captionsAvailable: bool,
                   run: Attempt -> ChildRun)
    returns (code: int, ghost trace: seq<Attempt>)
    ensures code == 0 || code == 1
    ensures !Truthy(ExtractVideoId(parsed, url)) ==> code == 1 && trace == []
    ensures Truthy(ExtractVideoId(parsed, url)) ==> FallbackRun(trace, run, mode, forceGemini, forceYtdlp, captionsAvailable)
    ensures code == 0 <==> |trace| > 0 && VerdictOf(run, trace[|trace| - 1]) == Succeeded
  {
    var videoId := ExtractVideoId(parsed, url);
    if !Truthy(videoId) {
      return 1, [];
    }
    ChainStart(run, mode, forceGemini, forceYtdlp, captionsAvailable);
    trace := [];
    var success := false;
    if forceYtdlp {
      success := TryYtdlpGemini(run(Download(mode))) == Succeeded;
      trace := [Download(mode)];
    } else if !forceGemini {
      if captionsAvailable {
        success := TryYoutubeApi(run(Captions)).verdict == Succeeded;
        trace := [Captions];
      }
    }
    if !success && !forceYtdlp {
      if trace != [] {
        ChainExtend(trace, run, mode, forceGemini, forceYtdlp, captionsAvailable);
      }
      var result := TryGeminiApi(run(Direct(mode)));
      trace := trace + [Direct(mode)];
      if result == TokenLimited {
        success, trace := DownloadFallbacks(trace, run, mode, forceGemini, captionsAvailable);
      } else {
        success := result == Succeeded;
      }
    }
    code := if success then 0 else 1;
  }

  /** The token-limit branch of `main`: download the audio and transcribe it
      at the requested mode and, for a full transcription that fails, at
      the summary and then the outline mode. */
  method DownloadFallbacks(ghost before: seq<Attempt>, run: Attempt -> ChildRun, mode: Mode, forceGemini: bool, captionsAvailable: bool)
    returns (success: bool, ghost trace: seq<Attempt>)
    requires Chain(before, run, mode, forceGemini, false, captionsAvailable)
    requires before[|before| - 1] == Direct(mode) && VerdictOf(run, Direct(mode)) == TokenLimited
    ensures FallbackRun(trace, run, mode, forceGemini, false, captionsAvailable)
    ensures success <==> VerdictOf(run, trace[|trace| - 1]) == Succeeded
  {
    trace := before;
    ChainExtend(trace, run, mode, forceGemini, false, captionsAvailable);
    success := TryYtdlpGemini(run(Download(mode))) == Succeeded;
    trace := trace + [Download(mode)];
    if !success && mode == Transcribe {
      ChainExtend(trace, run, mode, forceGemini, false, captionsAvailable);
      success := TryYtdlpGemini(run(Download(Summarize))) == Succeeded;
      trace := trace + [Download(Summarize)];
      if !success {
        ChainExtend(trace, run, mode, forceGemini, false, captionsAvailable);
        success := TryYtdlpGemini(run(Download(Outline))) == Succeeded;
        trace := trace + [Download(Outline)];
      }
    }
  }

  // ---------------------------------------------------------------------
  // What every run of the orchestrator satisfies

  /** How far along the fallback order an attempt is. */
  function Stage(a: Attempt): (s: nat)
    ensures s <= 4
  {
    match a
    case Captions => 0
    case Direct(_) => 1
    case Download(m) => 2 + Rank(m)
  }

  lemma {:induction false} StagesIncrease(trace: seq<Attempt>, run: Attempt -> ChildRun, mode: Mode, forceGemini: bool, forceYtdlp: bool, captionsAvailable: bool, k: nat)
    requires FallbackRun(trace, run, mode, forceGemini, forceYtdlp, captionsAvailable)
    requires k < |trace|
    ensures Stage(trace[k]) >= Stage(trace[0]) + k
    ensures forall j :: 0 <= j < k ==> Stage(trace[j]) < Stage(trace[k])
  {
    if k > 0 {
      StagesIncrease(trace, run, mode, forceGemini, forceYtdlp, captionsAvailable, k - 1);
      var a := trace[k - 1];
      assert Continues(a, VerdictOf(run, a), mode, forceYtdlp);
      assert trace[k] == NextAttempt(a, mode);
    }
  }

  /** The orchestrator runs at most five children, never the same attempt
      twice, and every child before the last one failed: a success ends
      the run. */
  lemma FallbackRunBounded(trace: seq<Attempt>, run: Attempt -> ChildRun, mode: Mode, forceGemini: bool, forceYtdlp: bool, captionsAvailable: bool)
    requires FallbackRun(trace, run, mode, forceGemini, forceYtdlp, captionsAvailable)
    ensures |trace| <= 5
    ensures forall i, j :: 0 <= i < j < |trace| ==> trace[i] != trace[j]
    ensures forall k :: 0 <= k < |trace| - 1 ==> VerdictOf(run, trace[k]) != Succeeded
  {
    StagesIncrease(trace, run, mode, forceGemini, forceYtdlp, captionsAvailable, |trace| - 1);
    forall i, j | 0 <= i < j < |trace|
      ensures trace[i] != trace[j]
    {
      StagesIncrease(trace, run, mode, forceGemini, forceYtdlp, captionsAvailable, j);
    }
    forall k | 0 <= k < |trace| - 1
      ensures VerdictOf(run, trace[k]) != Succeeded
    {
      assert Continues(trace[k], VerdictOf(run, trace[k]), mode, forceYtdlp);
    }
  }

  /** With --force-ytdlp only the download runs, once, at the requested
      mode: no captions, no direct attempt, no downgrade. */
  lemma ForceYtdlpRunsDownloadOnly(trace: seq<Attempt>, run: Attempt -> ChildRun, mode: Mode, forceGemini: bool, captionsAvailable: bool)
    requires FallbackRun(trace, run, mode, forceGemini, true, captionsAvailable)
    ensures trace == [Download(mode)]
  {
    assert !Continues(trace[0], VerdictOf(run, trace[0]), mode, true);
  }

  /** Captions can only be the first attempt, and are the first attempt
      exactly when neither force flag is set and the library is there. */
  lemma CaptionsOnlyFirst(trace: seq<Attempt>, run: Attempt -> ChildRun, mode: Mode, forceGemini: bool, forceYtdlp: bool, captionsAvailable: bool)
    requires FallbackRun(trace, run, mode, forceGemini, forceYtdlp, captionsAvailable)
    ensures trace[0] == Captions <==> !forceGemini && !forceYtdlp && captionsAvailable
    ensures forall k :: 0 < k < |trace| ==> trace[k] != Captions
  {
    forall k | 0 < k < |trace|
      ensures trace[k] != Captions
    {
      assert trace[k] == NextAttempt(trace[k - 1], mode);
    }
  }

  /** A failed captions attempt always goes on to Gemini on the URL at the
      requested mode, whatever the failure was. */
  lemma CaptionsFailureFallsThrough(trace: seq<Attempt>, run: Attempt -> ChildRun, mode: Mode, forceGemini: bool, forceYtdlp: bool, captionsAvailable: bool)
    requires FallbackRun(trace, run, mode, forceGemini, forceYtdlp, captionsAvailable)
    requires trace[0] == Captions && !(run(Captions).Exited? && run(Captions).code == 0)
    ensures |trace| >= 2 && trace[1] == Direct(mode)
  {
    assert Continues(trace[0], VerdictOf(run, trace[0]), mode, forceYtdlp);
  }

  /** Gemini on the URL is only ever asked for the requested mode, and a
      download follows it exactly when it hit the token limit: every other
      failure ends the run. */
  lemma DirectLeadsToDownloadOnTokenLimit(trace: seq<Attempt>, run: Attempt -> ChildRun, mode: Mode, forceGemini: bool, forceYtdlp: bool, captionsAvailable: bool)
    requires FallbackRun(trace, run, mode, forceGemini, forceYtdlp, captionsAvailable)
    ensures forall k :: 0 <= k < |trace| && trace[k].Direct? ==> trace[k].mode == mode && !forceYtdlp
    ensures forall k :: 0 <= k < |trace| && trace[k].Direct? ==>
      (k + 1 < |trace| <==> VerdictOf(run, trace[k]) == TokenLimited)
    ensures forall k :: 0 <= k < |trace| - 1 && trace[k].Direct? ==> trace[k + 1] == Download(mode)
  {
    forall k | 0 <= k < |trace| && trace[k].Direct?
      ensures trace[k].mode == mode && !forceYtdlp
    {
      if k > 0 {
        assert trace[k] == NextAttempt(trace[k - 1], mode);
      }
    }
  }

  /** A download at a mode other than the requested one happens only when
      a full transcription was requested without --force-ytdlp, and
      downloads only get coarser: transcribe, then summarize, then outline. */
  lemma DowngradeOnlyFromTranscribe(trace: seq<Attempt>, run: Attempt -> ChildRun, mode: Mode, forceGemini: bool, forceYtdlp: bool, captionsAvailable: bool)
    requires FallbackRun(trace, run, mode, forceGemini, forceYtdlp, captionsAvailable)
    ensures forall k :: 0 <= k < |trace| && trace[k].Download? && trace[k].mode != mode ==> mode == Transcribe && !forceYtdlp
    ensures forall i, j :: 0 <= i < j < |trace| && trace[i].Download? && trace[j].Download? ==> Rank(trace[i].mode) < Rank(trace[j].mode)
  {
    DirectLeadsToDownloadOnTokenLimit(trace, run, mode, forceGemini, forceYtdlp, captionsAvailable);
    forall k | 0 <= k < |trace| && trace[k].Download? && trace[k].mode != mode
      ensures mode == Transcribe && !forceYtdlp
    {
      assert k > 0;
      var a := trace[k - 1];
      assert trace[k] == NextAttempt(a, mode);
      assert Continues(a, VerdictOf(run, a), mode, forceYtdlp);
    }
    forall i, j | 0 <= i < j < |trace| && trace[i].Download? && trace[j].Download?
      ensures Rank(trace[i].mode) < Rank(trace[j].mode)
    {
      StagesIncrease(trace, run, mode, forceGemini, forceYtdlp, captionsAvailable, j);
    }
  }

  /** A requested full transcription that hit the token limit and whose
      downloads all fail tries all three modes, in order, before giving up. */
  lemma FailingDownloadsTryEveryMode(trace: seq<Attempt>, run: Attempt -> ChildRun, forceGemini: bool, captionsAvailable: bool, k: nat)
    requires FallbackRun(trace, run, Transcribe, forceGemini, false, captionsAvailable)
    requires k < |trace| && trace[k] == Direct(Transcribe) && VerdictOf(run, trace[k]) == TokenLimited
    requires forall m :: VerdictOf(run, Download(m)) != Succeeded
    ensures trace[k + 1..] == [Download(Transcribe), Download(Summarize), Download(Outline)]
  {
    assert Continues(trace[k], TokenLimited, Transcribe, false);
    assert trace[k + 1] == Download(Transcribe);
    assert Continues(trace[k + 1], VerdictOf(run, trace[k + 1]), Transcribe, false);
    assert trace[k + 2] == Download(Summarize);
    assert Continues(trace[k + 2], VerdictOf(run, trace[k + 2]), Transcribe, false);
    assert trace[k + 3] == Download(Outline);
    assert !Continues(trace[k + 3], VerdictOf(run, trace[k + 3]), Transcribe, false);
  }
}
