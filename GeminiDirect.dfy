/** transcribe_youtube.py: one request to Gemini with the YouTube URL as the
    file, retried with exponential backoff while the service reports that it
    is overloaded, and the command-line entry point that turns the result
    into an exit code and the lines it prints. */
module GeminiDirect {
  import opened Common
  import opened Text
  import opened Naming

  /** The two entries of `GEMINI_MODELS`. */
  datatype ModelKey = Flash | Pro

  function ModelName(k: ModelKey): (r: string)
    ensures "gemini-2.5-" <= r
  {
    match k
    case Flash => "gemini-2.5-flash"
    case Pro => "gemini-2.5-pro"
  }

  const TranscribePrompt: string := "Please provide a detailed transcription of this YouTube video. Include all spoken content, and note any significant visual elements or context when relevant."
  const SummarizePrompt: string := "Please provide a comprehensive summary of this YouTube video, including key points, main topics discussed, and important takeaways. Try to capture as much detail as possible."
  const OutlinePrompt: string := "Please provide a detailed outline of this YouTube video with timestamps (if visible), main sections, key points discussed in each section, and important quotes or insights."

  /** The instruction sent with the video for each mode. */
  function VideoPrompt(mode: Mode): string
  {
    match mode
    case Transcribe => TranscribePrompt
    case Summarize => SummarizePrompt
    case Outline => OutlinePrompt
  }

  /** The arguments of `generate_content`, the same on every attempt. */
  datatype Request = Request(model: string, prompt: string, uri: string)

  /** What one `generate_content` call gives: the response text, or the text
      of the exception it raised. */
  datatype Reply = Answer(text: string) | Raised(error: string)

  /** How `transcribe_youtube_video` ends: the text it returns, the message of
      the exception it raises, or `None` when the loop made no call at all. */
  datatype Outcome = Returned(text: string) | Failed(message: string) | NoResult

  predicate IsOverloadedError(e: string)
  {
    Contains(e, "503") && Contains(Lower(e), "overloaded")
  }

  predicate IsTokenLimitError(e: string)
  {
    Contains(e, "exceeds the maximum number of tokens")
  }

  /** A reply after which the loop tries again (or gives up on overload). */
  predicate Overloaded(reply: Reply)
  {
    reply.Raised? && IsOverloadedError(reply.error)
  }

  /** The marker `main` and the smart orchestrator look for. */
  const TokenLimitMarker: string := "exceeds token limit"

  const TokenLimitMessage: string :=
    "Video is too long to process (" + TokenLimitMarker + "). Consider using a YouTube transcript API or downloading and processing the video in chunks."

  function OverloadedMessage(maxRetries: int): string
  {
    "Model overloaded after " + (if maxRetries >= 0 then NatToString(maxRetries) else "-" + NatToString(-maxRetries)) + " attempts. Please try again later."
  }

  /** The two messages the loop raises itself tell apart on the marker:
      only the token-limit one carries it. */
  lemma MessagesCarryMarker(maxRetries: int)
    ensures Contains(TokenLimitMessage, TokenLimitMarker)
    ensures !Contains(OverloadedMessage(maxRetries), TokenLimitMarker)
  {
    ContainsInside("Video is too long to process (", TokenLimitMarker, "). Consider using a YouTube transcript API or downloading and processing the video in chunks.");
    var m := OverloadedMessage(maxRetries);
    var digits := if maxRetries >= 0 then NatToString(maxRetries) else "-" + NatToString(-maxRetries);
    assert m == "Model overloaded after " + digits + " attempts. Please try again later.";
    assert forall k :: 0 <= k < |digits| ==> digits[k] != 'x';
    assert forall k :: 0 <= k < |m| ==> m[k] != 'x';
    NoCharNoString(m, 'x', TokenLimitMarker);
  }

  /** A string lacking a character lacks every string that has it. */
  lemma NoCharNoString(s: string, x: char, sub: string)
    requires forall k :: 0 <= k < |s| ==> s[k] != x
    requires x in sub
    ensures !Contains(s, sub)
  {
    ContainsCharAbsent(s, x);
    if Contains(s, sub) {
      var i :| 0 <= i < |sub| && sub[i] == x;
      assert sub[i..i + 1] == [x];
      ContainsAt(sub, [x], i);
      ContainsTransitive(s, sub, [x]);
    }
  }

  /** The outcome once the loop has settled on `last` as the reply of its
      final call: the answer's text, or the exception it raises. */
  function Settle(last: Reply, maxRetries: int): (r: Outcome)
    ensures r != NoResult
    ensures last.Answer? <==> r.Returned?
  {
    match last
    case Answer(t) => Returned(t)
    case Raised(e) =>
      if IsOverloadedError(e) then Failed(OverloadedMessage(maxRetries))
      else if IsTokenLimitError(e) then Failed(TokenLimitMessage)
      else Failed(e)
  }

  /** A settled failure carries the token-limit marker only when the service
      reported the token limit or its own error text already carried it. */
  lemma SettleMarker(last: Reply, maxRetries: int)
    requires last.Raised?
    ensures var r := Settle(last, maxRetries);
      && r.Failed?
      && (!IsOverloadedError(last.error) && IsTokenLimitError(last.error) ==> Contains(r.message, TokenLimitMarker))
      && (Contains(r.message, TokenLimitMarker) ==> r.message == TokenLimitMessage || r.message == last.error)
  {
    MessagesCarryMarker(maxRetries);
  }

  /** The number of calls the loop makes, counting from attempt `from`: it
      stops after the first reply that is not an overload error, and after
      the last allowed attempt whatever the reply. */
  function CallsFrom(req: Request, maxRetries: int, generate: (Request, nat) -> Reply, from: nat): (n: nat)
    decreases maxRetries - from
  {
    if from >= maxRetries then from
    else if Overloaded(generate(req, from)) && from < maxRetries - 1 then CallsFrom(req, maxRetries, generate, from + 1)
    else from + 1
  }

  function CallCount(req: Request, maxRetries: int, generate: (Request, nat) -> Reply): nat
  {
    CallsFrom(req, maxRetries, generate, 0)
  }

  /** What `transcribe_youtube_video` ends with for a given client. */
  function RetryOutcome(req: Request, maxRetries: int, generate: (Request, nat) -> Reply): Outcome
  {
    var n := CallCount(req, maxRetries, generate);
    if n == 0 then NoResult else Settle(generate(req, n - 1), maxRetries)
  }

  lemma {:induction false} CallsFromShape(req: Request, maxRetries: int, generate: (Request, nat) -> Reply, from: nat)
    requires from < maxRetries
    ensures var n := CallsFrom(req, maxRetries, generate, from);
      && from < n <= maxRetries
      && (forall k :: from <= k < n - 1 ==> Overloaded(generate(req, k)))
      && (Overloaded(generate(req, n - 1)) ==> n == maxRetries)
    decreases maxRetries - from
  {
    if Overloaded(generate(req, from)) && from < maxRetries - 1 {
      CallsFromShape(req, maxRetries, generate, from + 1);
    }
  }

  /** The loop calls the service at most `max_retries` times (never when
      `max_retries` is not positive); every call but the last was answered
      with an overload error; and an overload error on the last call means
      the attempts ran out. */
  lemma CallCountShape(req: Request, maxRetries: int, generate: (Request, nat) -> Reply)
    ensures var n := CallCount(req, maxRetries, generate);
      && (maxRetries <= 0 ==> n == 0)
      && (maxRetries > 0 ==> 1 <= n <= maxRetries)
      && (forall k :: 0 <= k < n - 1 ==> Overloaded(generate(req, k)))
      && (n > 0 && Overloaded(generate(req, n - 1)) ==> n == maxRetries)
  {
    if maxRetries > 0 {
      CallsFromShape(req, maxRetries, generate, 0);
    }
  }

  /** The first reply within the allowed attempts that is not an overload
      error decides the outcome, and no later call is made. */
  lemma {:induction false} FirstSettledReplyDecides(req: Request, maxRetries: int, generate: (Request, nat) -> Reply, k: nat)
    requires k < maxRetries
    requires forall j :: 0 <= j < k ==> Overloaded(generate(req, j))
    requires !Overloaded(generate(req, k))
    ensures CallCount(req, maxRetries, generate) == k + 1
    ensures RetryOutcome(req, maxRetries, generate) == Settle(generate(req, k), maxRetries)
  {
    CallsFromSkip(req, maxRetries, generate, k, 0);
  }

  lemma {:induction false} CallsFromSkip(req: Request, maxRetries: int, generate: (Request, nat) -> Reply, k: nat, from: nat)
    requires from <= k < maxRetries
    requires forall j :: from <= j < k ==> Overloaded(generate(req, j))
    requires !Overloaded(generate(req, k))
    ensures CallsFrom(req, maxRetries, generate, from) == k + 1
    decreases k - from
  {
    if from < k {
      CallsFromSkip(req, maxRetries, generate, k, from + 1);
    }
  }

  /** When every allowed attempt is answered with an overload error, the
      loop makes exactly `max_retries` calls and raises the overload message. */
  lemma {:induction false} AllOverloadedGivesUp(req: Request, maxRetries: int, generate: (Request, nat) -> Reply)
    requires maxRetries > 0
    requires forall j :: 0 <= j < maxRetries ==> Overloaded(generate(req, j))
    ensures CallCount(req, maxRetries, generate) == maxRetries
    ensures RetryOutcome(req, maxRetries, generate) == Failed(OverloadedMessage(maxRetries))
  {
    CallCountShape(req, maxRetries, generate);
  }

  function Pow2(k: nat): (r: nat)
    ensures r >= 1
  {
    if k == 0 then 1 else 2 * Pow2(k - 1)
  }

  /** `transcribe_youtube_video(url, model, max_retries, mode)`, with the
      Gemini client given as `generate`, which answers call number `k`.
      `n` counts the calls; `waits` are the whole seconds slept before each
      retry (the random jitter added to them is left out). */
  method TranscribeYoutubeVideo(url: string, model: ModelKey, maxRetries: int, mode: Mode, generate: (Request, nat) -> Reply)
    returns (r: Outcome, ghost n: nat, ghost waits: seq<nat>)
    ensures r == RetryOutcome(Request(ModelName(model), VideoPrompt(mode), url), maxRetries, generate)
    ensures n == CallCount(Request(ModelName(model), VideoPrompt(mode), url), maxRetries, generate)
    ensures |waits| == (if n > 0 then n - 1 else 0)
    ensures forall k :: 0 <= k < |waits| ==> waits[k] == Pow2(k)
  {
    var req := Request(ModelName(model), VideoPrompt(mode), url);
    n := 0;
    waits := [];
    var attempt := 0;
    while attempt < maxRetries
      invariant 0 <= attempt && attempt == n && |waits| == attempt
      invariant maxRetries > 0 ==> attempt < maxRetries
      invariant CallsFrom(req, maxRetries, generate, attempt) == CallCount(req, maxRetries, generate)
      invariant forall k :: 0 <= k < |waits| ==> waits[k] == Pow2(k)
      decreases maxRetries - attempt
    {
      var reply := generate(req, attempt);
      n := n + 1;
      if !(Overloaded(reply) && attempt < maxRetries - 1) {
        LastCall(req, maxRetries, generate, attempt);
      }
      match reply {
        case Answer(text) =>
          r := Returned(text);
          return;
        case Raised(error) =>
          if IsOverloadedError(error) {
            if attempt < maxRetries - 1 {
              waits := waits + [Pow2(attempt)];
            } else {
              r := Failed(OverloadedMessage(maxRetries));
              return;
            }
          } else if IsTokenLimitError(error) {
            r := Failed(TokenLimitMessage);
            return;
          } else {
            r := Failed(error);
            return;
          }
      }
      attempt := attempt + 1;
    }
    r := NoResult;
  }

  /** A call that is not an overload error with attempts to spare is the
      last one, and its reply settles the outcome. */
  lemma LastCall(req: Request, maxRetries: int, generate: (Request, nat) -> Reply, attempt: nat)
    requires attempt < maxRetries
    requires CallsFrom(req, maxRetries, generate, attempt) == CallCount(req, maxRetries, generate)
    requires !(Overloaded(generate(req, attempt)) && attempt < maxRetries - 1)
    ensures CallCount(req, maxRetries, generate) == attempt + 1
    ensures RetryOutcome(req, maxRetries, generate) == Settle(generate(req, attempt), maxRetries)
  {
  }

  // ---------------------------------------------------------------------
  // main

  /** What `print` writes for a list of printed values: each followed by a
      newline. */
  function Printed(lines: seq<string>): (r: string)
    ensures |r| >= |lines|
  {
    if |lines| == 0 then "" else Printed(lines[..|lines| - 1]) + lines[|lines| - 1] + "\n"
  }

  /** Anything one printed value contains, the printed output contains. */
  lemma {:induction false} PrintedContains(lines: seq<string>, i: nat, sub: string)
    requires i < |lines| && Contains(lines[i], sub)
    ensures Contains(Printed(lines), sub)
  {
    var last := |lines| - 1;
    if i == last {
      ContainsInside(Printed(lines[..last]), lines[i], "\n");
      ContainsTransitive(Printed(lines), lines[i], sub);
    } else {
      PrintedContains(lines[..last], i, sub);
      var p := Printed(lines[..last]);
      ContainsInside([], p, lines[last] + "\n");
      assert Printed(lines) == [] + p + (lines[last] + "\n");
      ContainsTransitive(Printed(lines), p, sub);
    }
  }

  /** The hints `main` prints after a token-limit failure. */
  const Alternatives: seq<string> := [
    "\nAlternative approaches for long videos:",
    "1. Use --mode summarize or --mode outline for a condensed version",
    "2. Use youtube-transcript-api to get text transcripts directly",
    "3. Download the video and process it in segments",
    "4. Use YouTube's auto-generated captions if available"
  ]

  function ModeBanner(mode: Mode): string
  {
    match mode
    case Transcribe => "\n--- TRANSCRIBE ---\n"
    case Summarize => "\n--- SUMMARIZE ---\n"
    case Outline => "\n--- OUTLINE ---\n"
  }

  /** `main()` with `max_retries` left at 5: the exit code and the printed
      values. The output path comes from `--output`, else from
      `generate_output_filename` (date and looked-up title passed in) unless
      `--no-auto-output` is given; `writeError` is the text of the exception
      opening or writing that file raises, if it does, and `saved` the file
      written with its text. An exception ends the run with 1 after an error
      line, followed by the alternatives when the message carries the
      token-limit marker. */
  method DirectMain(url: string, parsed: ParsedUrl, model: ModelKey, mode: Mode, output: Option<string>, noAutoOutput: bool,
                    date: string, title: Option<string>, generate: (Request, nat) -> Reply, writeError: Option<string>)
    returns (code: int, lines: seq<string>, saved: Option<(string, string)>, ghost r: Outcome)
    ensures r == RetryOutcome(Request(ModelName(model), VideoPrompt(mode), url), 5, generate)
    ensures var o := RetryOutcome(Request(ModelName(model), VideoPrompt(mode), url), 5, generate);
      var out := if Truthy(output) || noAutoOutput then output else Some(GenerateOutputFilename(parsed, url, mode, date, title));
      && (code == 0 <==> o.Returned? && !(Truthy(out) && writeError.Some?))
      && (code == 0 || code == 1)
      && (o.Failed? ==> saved.None? && ReportsFailure(lines, o.message))
      && (o.Returned? && Truthy(out) && writeError.Some? ==> saved.None? && ReportsFailure(lines, writeError.value))
      && (o.Returned? && Truthy(out) && writeError.None? ==> saved == Some((out.value, o.text)))
      && (o.Returned? && !Truthy(out) ==> saved.None? && |lines| > 0 && lines[|lines| - 1] == o.text)
  {
    lines := ["Processing video: " + url, "Using model: " + ModelName(model), "Mode: " + ModeName(mode)];
    var out := output;
    if !Truthy(output) && !noAutoOutput {
      var name := GenerateOutputFilename(parsed, url, mode, date, title);
      out := Some(name);
      lines := lines + ["Output file: " + name];
    }
    var result;
    ghost var n, waits;
    result, n, waits := TranscribeYoutubeVideo(url, model, 5, mode, generate);
    r := result;
    CallCountShape(Request(ModelName(model), VideoPrompt(mode), url), 5, generate);
    var head := lines;
    var report;
    code, report, saved := ReportOutcome(result, out, mode, writeError);
    lines := head + report;
    if result.Failed? {
      ReportsFailureAfter(head, report, result.message);
    } else if Truthy(out) && writeError.Some? {
      ReportsFailureAfter(head, report, writeError.value);
    }
  }

  /** The printed lines end with the error line of an exception whose
      message is `message`, followed by the hints exactly when the message
      carries the token-limit marker. */
  predicate ReportsFailure(lines: seq<string>, message: string)
  {
    var tail := if Contains(message, TokenLimitMarker) then |Alternatives| else 0;
    && |lines| > tail
    && lines[|lines| - 1 - tail] == "Error processing video: " + message
    && lines[|lines| - tail..] == (if tail > 0 then Alternatives else [])
  }

  /** Lines printed earlier do not change how the output ends. */
  lemma ReportsFailureAfter(head: seq<string>, report: seq<string>, message: string)
    requires ReportsFailure(report, message)
    ensures ReportsFailure(head + report, message)
  {
    var tail := if Contains(message, TokenLimitMarker) then |Alternatives| else 0;
    LastOfConcat(head, report, tail);
  }

  /** The end of `main`: the saved path or the banner and the text after a
      result; after an exception the error line, followed by the hints when
      it was the token limit. A failure to open or write the output file,
      with text `writeError`, is caught by the same `except` and reported
      the same way. */
  method ReportOutcome(result: Outcome, out: Option<string>, mode: Mode, writeError: Option<string>)
    returns (code: int, report: seq<string>, saved: Option<(string, string)>)
    requires !result.NoResult?
    ensures code == 0 <==> result.Returned? && !(Truthy(out) && writeError.Some?)
    ensures code == 0 || code == 1
    ensures result.Failed? ==> saved.None? && ReportsFailure(report, result.message)
    ensures result.Returned? && Truthy(out) && writeError.Some? ==> saved.None? && ReportsFailure(report, writeError.value)
    ensures result.Returned? && Truthy(out) && writeError.None? ==> saved == Some((out.value, result.text))
    ensures result.Returned? && !Truthy(out) ==> saved.None? && |report| > 0 && report[|report| - 1] == result.text
  {
    saved := None;
    match result {
      case Returned(text) =>
        if Truthy(out) && writeError.Some? {
          report := ErrorReport(writeError.value);
          code := 1;
        } else {
          if Truthy(out) {
            report := ["\nOutput saved to: " + out.value];
            saved := Some((out.value, text));
          } else {
            report := [ModeBanner(mode), text];
          }
          code := 0;
        }
      case Failed(message) =>
        report := ErrorReport(message);
        code := 1;
    }
  }

  /** What the `except` block prints for an exception with text `message`. */
  function ErrorReport(message: string): (r: seq<string>)
    ensures ReportsFailure(r, message)
  {
    var first := ["Error processing video: " + message];
    if Contains(message, TokenLimitMarker) then
      assert (first + Alternatives)[1..] == Alternatives;
      first + Alternatives
    else first
  }

  /** The last lines of `a + b` are the last lines of `b`. */
  lemma LastOfConcat(a: seq<string>, b: seq<string>, t: nat)
    requires |b| > t
    ensures (a + b)[|a + b| - 1 - t] == b[|b| - 1 - t]
    ensures (a + b)[|a + b| - t..] == b[|b| - t..]
  {
  }

  /** A token-limit reply from the service within the allowed attempts makes
      `main` exit with 1 and print the marker the smart orchestrator looks
      for in its child's output. */
  lemma TokenLimitReachesStdout(lines: seq<string>, r: Outcome, last: Reply)
    requires last.Raised? && !IsOverloadedError(last.error) && IsTokenLimitError(last.error)
    requires r == Settle(last, 5)
    requires |lines| > 5 && lines[|lines| - 6] == "Error processing video: " + r.message
    ensures Contains(Printed(lines), TokenLimitMarker)
  {
    SettleMarker(last, 5);
    ErrorLineCarriesMarker(lines, r.message);
  }

  lemma ErrorLineCarriesMarker(lines: seq<string>, message: string)
    requires |lines| > 5 && lines[|lines| - 6] == "Error processing video: " + message
    requires Contains(message, TokenLimitMarker)
    ensures Contains(Printed(lines), TokenLimitMarker)
  {
    ContainsAfter("Error processing video: ", message, TokenLimitMarker);
    PrintedContains(lines, |lines| - 6, TokenLimitMarker);
  }
}
