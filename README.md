# YouTube transcript tools, modelled in Dafny

This project models the decision logic of the YouTube playlist-to-Markdown
tool set. It consists of six Python scripts:

- **`transcribe_youtube_smart.py`** is the fallback orchestrator. It tries
  three methods in order: the video's captions, then Gemini on the video
  URL, then a yt-dlp audio download handed to Gemini. After a download
  failure on a full transcription it lowers the mode from *transcribe* to
  *summarize* to *outline*.
- **`transcribe_youtube.py`** asks Gemini about the video URL. It retries
  with exponential backoff while the service reports overload. A token-limit
  error gives up at once with a message the orchestrator recognises.
- **`transcribe_youtube_ytdlp.py`** downloads the audio and finds the file
  that yt-dlp wrote. It uploads the file with a MIME type taken from its
  suffix, polls until the upload leaves PROCESSING, and asks a mapped model
  for the text. Its `finally` block deletes the upload only when `main`
  holds a handle to it, and it holds one only for an upload that settled in
  a state other than FAILED (see Findings).
- **`transcribe_youtube_api.py`** fetches captions. It renders them as
  plain text or as `[MM:SS] text` lines.
- **`youtube_playlist_to_markdown.py`** lists a playlist and selects a range
  of its videos. It runs the smart transcriber on each video, keeps one
  result per video, and writes a summary file.
- **`convert_transcripts_to_markdown.py`** turns a transcript file into a
  Markdown page. It reads the video identifier from the file name, detects
  the transcript type, and cleans or formats the text.

Everything the scripts get from outside is a parameter of the model:

- child processes (`ChildRun`);
- the Gemini client (a reply for each call number);
- the caption service;
- yt-dlp's listing and JSON entries;
- the files present in a directory;
- the date, the time and the clock;
- the parsed URL (host, path and query map).

Modules follow the scripts:

| module | contents |
|---|---|
| `Naming` | URL identifiers, file-name sanitising and output names, which four scripts share |
| `Durations` | the duration renderings |
| `GeminiDirect` | the direct Gemini script |
| `SmartTranscriber` | the orchestrator, with a ghost trace of the `(method, mode)` attempts it makes |
| `AudioPipeline` | the yt-dlp script |
| `CaptionsApi` | the caption script |
| `Playlist` | the playlist script |
| `MarkdownConverter` | the converter |
| `Text`, `Paths`, `Common` | the Python built-ins the scripts rely on (`strip`, `split`, `join`, `in`, `os.path.join`, `Path.name`/`stem`/`suffix`, `str(n)`) |

## Model

| member | source | states |
|---|---|---|
| Naming.FirstQueryValue | transcribe_youtube_smart.py:28 | `parse_qs(query).get(key, [None])[0]` is present exactly when the key has a value, and it is the first value |
| Naming.SearchVideoId | transcribe_youtube_smart.py:34-38 | the fallback search yields eleven identifier characters, and yields None exactly when the pattern matches nowhere |
| Naming.SearchVideoIdLeftmost | transcribe_youtube_smart.py:34-36 | the search reports the group of the leftmost match |
| Naming.EmbedSegment | transcribe_youtube_smart.py:29-30 | `path.split('/')[2]` of an embed path is the slash-free segment after "/embed/" |
| Naming.ExtractVideoId | transcribe_youtube_smart.py:22-38 | on a YouTube host, "/watch" gives the first `v` value (None without one) and never reaches the pattern, and an "/embed/" path gives the segment after "/embed/"; a short link gives the path without its leading "/"; every other URL, such as "/shorts/ID" on a YouTube host or any other host, gives the leftmost eleven-character token after "v=" or "/", or None |
| Naming.SameIdentifierForEveryShape | transcribe_youtube_smart.py:22-38 | the watch, embed, short-link and path-ending URLs that wrap the same token all yield that token |
| Naming.BareIdentifierIsRejected | transcribe_youtube_smart.py:34-38 | a bare eleven-character identifier is not accepted, because the pattern needs "v=" or "/" in front |
| Naming.RemoveAll | transcribe_youtube_smart.py:84-86 | deleting the invalid characters leaves none of them and adds nothing |
| Naming.RemoveAllTwice | transcribe_youtube_smart.py:84-86 | deleting one character at a time equals deleting the whole set |
| Naming.SplitWords | transcribe_youtube_smart.py:88 | `split()` gives non-empty, whitespace-free words drawn from the text |
| Naming.JoinWordsShape | transcribe_youtube_smart.py:88 | joining such words with single spaces gives a single-spaced, trimmed text free of the invalid characters |
| Naming.CollapseKeepsSingleSpaced | transcribe_youtube_smart.py:88 | `' '.join(s.split())` leaves a single-spaced, trimmed text unchanged |
| Naming.SanitizedShape | transcribe_youtube_ytdlp.py:62-73 | a sanitised name has none of `<>:"/\|?*`, no two spaces in a row, no whitespace at either end, and at most `limit` characters (200 here, 100 in the playlist script) |
| Naming.SanitizedIsIdempotent | transcribe_youtube_ytdlp.py:62-73 | sanitising a sanitised name changes nothing |
| Naming.SanitizeFilename | youtube_playlist_to_markdown.py:99-110 | the loop over the invalid characters, the collapse, the cut and the strip give the specified name, which is safe |
| Naming.GenerateOutputFilename | transcribe_youtube_api.py:60-77 | the output name starts with the date and "_", and is long enough to hold the mode and ".txt" |
| Naming.OutputFilenameShape | transcribe_youtube_api.py:60-77 | the name ends in "_{mode}.txt"; the middle is the safe title (at most 200 characters) when a title is known, else "youtube_" and the identifier |
| Naming.OutputTarget | transcribe_youtube_smart.py:227-230 | `--output` wins; otherwise the generated name, unless `--no-auto-output` was given |
| Durations.SplitClock | youtube_playlist_to_markdown.py:117-119 | hours, minutes and seconds add back up to the duration, and minutes and seconds are below 60 |
| Durations.SplitClockUnique | youtube_playlist_to_markdown.py:117-119 | no other split has minutes and seconds below 60 |
| Durations.FormatDuration | youtube_playlist_to_markdown.py:112-126 | a missing or zero duration is "Unknown duration"; any other ends in "s" and differs from it |
| Durations.ParseFormatDuration | convert_transcripts_to_markdown.py:85-99 | the rendering reads back as the duration, so no two durations share one |
| Durations.FormatDurationUnits | youtube_playlist_to_markdown.py:121-126 | hours appear exactly from one hour on, minutes exactly from one minute on, seconds always |
| Durations.ParseThreeParts | youtube_playlist_to_markdown.py:122 | "{h}h {m}m {s}s" reads back as h·3600 + m·60 + s |
| Durations.ParseTwoParts | youtube_playlist_to_markdown.py:124 | "{m}m {s}s" reads back as m·60 + s |
| Durations.ParseOnePart | youtube_playlist_to_markdown.py:126 | "{s}s" reads back as s |
| Durations.ParseUnknown | youtube_playlist_to_markdown.py:115 | "Unknown duration" reads as no duration |
| Durations.DurationDisplay | transcribe_youtube_ytdlp.py:285-287 | the display ends with ":" and two digits naming seconds below 60 |
| Durations.ParseDurationDisplay | transcribe_youtube_ytdlp.py:285-287 | the display reads back as the duration |
| GeminiDirect.ModelName | transcribe_youtube.py:15-18 | both model names are "gemini-2.5-" names |
| GeminiDirect.MessagesCarryMarker | transcribe_youtube.py:120-124 | the token-limit message carries "exceeds token limit" and the overload message does not |
| GeminiDirect.Settle | transcribe_youtube.py:110-127 | the final reply decides the outcome: an answer returns its text, anything else raises |
| GeminiDirect.SettleMarker | transcribe_youtube.py:122-127 | a raised failure carries the marker when the service reported the token limit, and only then or when the service's own text already held it |
| GeminiDirect.CallCountShape | transcribe_youtube.py:96-121 | at most `max_retries` calls (none when it is not positive); every call but the last was overloaded; an overloaded last call means all attempts were used |
| GeminiDirect.FirstSettledReplyDecides | transcribe_youtube.py:110-127 | the first reply that is not an overload error decides the outcome, and no later call is made |
| GeminiDirect.AllOverloadedGivesUp | transcribe_youtube.py:120-121 | when every allowed attempt is overloaded, exactly `max_retries` calls are made and "Model overloaded after {max_retries} attempts" is raised |
| GeminiDirect.LastCall | transcribe_youtube.py:110-127 | a call that is not retried is the last one, and its reply settles the outcome |
| GeminiDirect.TranscribeYoutubeVideo | transcribe_youtube.py:85-127 | the loop returns the outcome and call count of the specification; the integer part of the wait before retry `k` is 2^k, and no wait follows the last call |
| GeminiDirect.PrintedContains | transcribe_youtube.py:163 | a printed value's contents reach stdout |
| GeminiDirect.DirectMain | transcribe_youtube.py:129-175 | `main` exits 0 exactly when the call returned text and no output file was due or writing it worked; the text goes to the given or generated file, or is printed last; an exception from the call or from the write ends the output with its error line and hints, and no file is written |
| GeminiDirect.ReportOutcome | transcribe_youtube.py:151-175 | exit 0 on a result that was printed or saved; exit 1 on an exception from the call or from opening or writing the output file, with the report ending in that error's line and hints and no file written |
| GeminiDirect.ReportsFailureAfter | transcribe_youtube.py:162-173 | earlier output does not change how the report ends |
| GeminiDirect.ErrorReport | transcribe_youtube.py:162-173 | the report of an exception ends with "Error processing video: " and its text, followed by the alternatives exactly for a token-limit error |
| GeminiDirect.TokenLimitReachesStdout | transcribe_youtube.py:122-124 | a token-limit reply makes the printed output carry "exceeds token limit" |
| SmartTranscriber.TryYoutubeApi | transcribe_youtube_smart.py:113-142 | success exactly on exit code 0; a failure is a failure whether or not it was "No transcripts", which only changes the note printed |
| SmartTranscriber.TryGeminiApi | transcribe_youtube_smart.py:144-172 | success exactly on exit code 0; `"token_limit"` exactly when a failed child printed "exceeds token limit" to stdout or "exceeds the maximum number of tokens" to stderr |
| SmartTranscriber.TryYtdlpGemini | transcribe_youtube_smart.py:174-201 | success exactly on exit code 0, and never a token limit |
| SmartTranscriber.DirectTokenLimitRecognised | transcribe_youtube_smart.py:164 | the direct script's token-limit failure, as it prints it, is classified as `"token_limit"` |
| SmartTranscriber.ChainStart | transcribe_youtube_smart.py:236-253 | a run starts with the attempt the flags choose |
| SmartTranscriber.ChainExtend | transcribe_youtube_smart.py:256-273 | a run goes on with the attempt the branches choose next |
| SmartTranscriber.SmartMain | transcribe_youtube_smart.py:203-285 | no identifier gives 1 with no attempt; otherwise the attempts form a fallback run, and the exit code is 0 exactly when the last attempt succeeded |
| SmartTranscriber.DownloadFallbacks | transcribe_youtube_smart.py:260-271 | after a token limit the downloads continue the run, and they succeed exactly when the last one did |
| SmartTranscriber.StagesIncrease | transcribe_youtube_smart.py:236-273 | each attempt is strictly further along the fallback order than every earlier one |
| SmartTranscriber.FallbackRunBounded | transcribe_youtube_smart.py:236-273 | at most five attempts, none repeated, and every attempt before the last failed |
| SmartTranscriber.ForceYtdlpRunsDownloadOnly | transcribe_youtube_smart.py:237-238 | with `--force-ytdlp` the run is exactly one download at the requested mode |
| SmartTranscriber.CaptionsOnlyFirst | transcribe_youtube_smart.py:241-253 | captions come first exactly when neither force flag is set and the library is there, and never later |
| SmartTranscriber.CaptionsFailureFallsThrough | transcribe_youtube_smart.py:256-257 | a failed captions attempt is always followed by Gemini on the URL at the requested mode |
| SmartTranscriber.DirectLeadsToDownloadOnTokenLimit | transcribe_youtube_smart.py:256-273 | the direct attempt uses the requested mode, and a download follows it exactly when it hit the token limit |
| SmartTranscriber.DowngradeOnlyFromTranscribe | transcribe_youtube_smart.py:265-271 | a download at another mode happens only for a requested transcription without `--force-ytdlp`, and the download modes only get coarser |
| SmartTranscriber.FailingDownloadsTryEveryMode | transcribe_youtube_smart.py:260-271 | when every download fails after a token limit on a transcription, the run ends with downloads at transcribe, summarize and outline, in that order |
| AudioPipeline.StemMatches | transcribe_youtube_ytdlp.py:164-168 | the `stem.*` matches are exactly the listed files that start with the stem and a dot: each one is listed, and every listed file that starts so is among them |
| AudioPipeline.StemMatchesConcat | transcribe_youtube_ytdlp.py:164-168 | the matches keep the order of the listing |
| AudioPipeline.FirstStemMatch | transcribe_youtube_ytdlp.py:165-168 | the first match, `audio_files[0]`, is the first listed file that starts with the stem and a dot |
| AudioPipeline.DownloadAudio | transcribe_youtube_ytdlp.py:136-173 | a yt-dlp that cannot be started gives its launch error; a non-zero exit gives the download failure of that exact command; a result needs exit 0; the ".mp3" file wins, the bare path is used only without it, and without both the result is the first `stem.*` match, in the output path's directory |
| AudioPipeline.DownloadResolutionOrder | transcribe_youtube_ytdlp.py:155-170 | the ".mp3" file wins; then the bare path; then the first listed entry starting with the stem and a dot, in the output path's directory; FileNotFoundError exactly when none exists |
| AudioPipeline.StemMatchesEmpty | transcribe_youtube_ytdlp.py:164-170 | no match exactly when no listed file starts with the stem and a dot |
| AudioPipeline.DownloadCommand | transcribe_youtube_ytdlp.py:140-152 | the command runs "yt-dlp -x", writes to the output path given after "-o", and ends with the URL |
| AudioPipeline.DownloadFailureText | transcribe_youtube_ytdlp.py:172-173 | a download that exits with status N is reported as "Failed to download audio: Command '[…]' returned non-zero exit status N." |
| AudioPipeline.DownloadCommandRepr | transcribe_youtube_ytdlp.py:140-152 | in that text each fixed word of the command appears between single quotes as it is, and the output path and the URL as `repr` shows them |
| AudioPipeline.MimeType | transcribe_youtube_ytdlp.py:186-196 | the type is looked up on the lower-cased suffix, and is "audio/mpeg" for an unknown one |
| AudioPipeline.MimeTypeIsAudio | transcribe_youtube_ytdlp.py:186-196 | every upload is sent as one of the six audio types |
| AudioPipeline.MimeForIsAudio | transcribe_youtube_ytdlp.py:187-194 | each entry of the map is one of the six audio types |
| AudioPipeline.MimeTypeOfNamedFile | transcribe_youtube_ytdlp.py:186-196 | a file named by a stem and a known extension, in any letter case, gets that extension's type |
| AudioPipeline.SettledAt | transcribe_youtube_ytdlp.py:204-206 | the poll count is where the state first leaves PROCESSING |
| AudioPipeline.UploadOutcome | transcribe_youtube_ytdlp.py:175-213 | a returned file has settled, is not FAILED and carries the MIME type; FAILED raises; a rejected upload raises its error |
| AudioPipeline.UploadToGemini | transcribe_youtube_ytdlp.py:175-213 | on every service whose states leave PROCESSING, the polling loop gives the specified outcome after exactly as many polls as PROCESSING states, and fails exactly on a final FAILED |
| AudioPipeline.AudioModelName | transcribe_youtube_ytdlp.py:230-235 | "flash" gives gemini-2.5-flash; every other key gives gemini-2.5-pro |
| AudioPipeline.TranscribeAudio | transcribe_youtube_ytdlp.py:215-242 | the model's answer is the result, and its error becomes the failure |
| AudioPipeline.Pipeline | transcribe_youtube_ytdlp.py:308-319 | a result needs a found download and an upload handle; a download failure is the pipeline's failure, and so is an upload failure after a download |
| AudioPipeline.FailedUploadIsKept | transcribe_youtube_ytdlp.py:316-344 | as written, an upload the service accepted that settles FAILED gives no handle, so `finally` does not delete it, and the run fails with "File upload failed" |
| AudioPipeline.FailedUploadExample | transcribe_youtube_ytdlp.py:204-213 | one PROCESSING poll followed by FAILED is such a run: the upload is accepted, it settles, and no handle is held |
| AudioPipeline.HandleMeansAccepted | transcribe_youtube_ytdlp.py:316-344 | every upload `finally` deletes was accepted, and every accepted upload that does not settle FAILED is deleted |
| AudioPipeline.RunPipeline | transcribe_youtube_ytdlp.py:298-319 | download, upload and transcription stop at the first failure; the handle is held exactly when the upload returned, and the service took the upload exactly when it is reported as accepted |
| AudioPipeline.ReportResult | transcribe_youtube_ytdlp.py:321-339 | 0 with the text saved or printed; 1 with the error line, after a pipeline failure or after a failure to open or write the output file, and then no file |
| AudioPipeline.TranscribeAndClean | transcribe_youtube_ytdlp.py:298-346 | the exit code is 0 exactly when the pipeline succeeded and the output file, if one is due, was written; the upload is deleted exactly when a handle was obtained |
| AudioPipeline.TranscribeAndCleanHoldingUpload | transcribe_youtube_ytdlp.py:298-346 | corrected: the same exit code and output, and the upload is deleted exactly when the service accepted it, one that settles FAILED included |
| AudioPipeline.YtdlpMain | transcribe_youtube_ytdlp.py:253-346 | without yt-dlp: 1, nothing uploaded; otherwise 0 exactly when the pipeline succeeded and the output file, if one is due, was written; the result saved or printed, or the error line of the pipeline or of the write shown; the upload deleted exactly when a handle was held; a known duration printed as "Duration: m:ss" |
| CaptionsApi.Stamp | transcribe_youtube_api.py:102 | a stamp is "[", minutes, ":", two digits, "]" |
| CaptionsApi.ReadStampOfStamp | transcribe_youtube_api.py:102 | minutes are `start // 60` and seconds `start % 60`: the stamp reads back as the start |
| CaptionsApi.StampedLines | transcribe_youtube_api.py:100-105 | one line per entry |
| CaptionsApi.StampEach | transcribe_youtube_api.py:100-104 | the loop appends each entry's stamped line |
| CaptionsApi.NonEmptyTexts | transcribe_youtube_api.py:108-112 | the loop keeps the non-empty stripped texts, in order |
| CaptionsApi.FormatTranscript | transcribe_youtube_api.py:92-113 | with timestamps, the stamped lines joined by newlines; without, the non-empty stripped texts joined by spaces |
| CaptionsApi.OneLinePerEntry | transcribe_youtube_api.py:98-105 | for captions whose texts hold no line break, the timestamped text splits back into exactly one line per entry, blank entries included |
| CaptionsApi.PlainTextTrimmed | transcribe_youtube_api.py:106-113 | the plain text has no whitespace at either end |
| CaptionsApi.PlainPiecesShape | transcribe_youtube_api.py:108-112 | at most one piece per entry, none empty, none with whitespace at an end |
| CaptionsApi.PlainTextWords | transcribe_youtube_api.py:106-113 | pieces without inner spaces split back out of the plain text unchanged |
| CaptionsApi.LanguageLineMarks | transcribe_youtube_api.py:150-155 | a listed transcript shows its language and code, and a mark for each flag it has |
| CaptionsApi.FailureLines | transcribe_youtube_api.py:178-189 | an exception prints "Error: " and its text first |
| CaptionsApi.LanguageLines | transcribe_youtube_api.py:149-155 | one line per transcript, in the listed order |
| CaptionsApi.ListLanguages | transcribe_youtube_api.py:145-156 | 0 with one line per transcript, in order, or 1 with the failure lines |
| CaptionsApi.ReportFetched | transcribe_youtube_api.py:158-193 | 0 exactly when the fetch worked and no output file was due or writing it worked, the formatted text then saved or printed; 1 otherwise, ending with the failure lines of the fetch error or of the write error, and no file written |
| CaptionsApi.CaptionsMain | transcribe_youtube_api.py:115-193 | no usable identifier gives 1 before any fetch; with `--list-languages` nothing is fetched or saved, the exit code is 0 exactly when the listing worked, and the language lines or the failure lines end the output; otherwise the fetch is for that identifier, the exit code is 0 exactly when it worked and the output file, if one is due, was written, and the text is saved or printed or the failure lines end the output |
| CaptionsApi.EndsWithAfter | transcribe_youtube_api.py:170-191 | earlier output does not change how the report ends |
| Playlist.SearchPlaylistId | youtube_playlist_to_markdown.py:29-31 | the search yields a non-empty run of identifier characters, and yields None exactly when "list=" and an identifier character occur nowhere |
| Playlist.ExtractPlaylistId | youtube_playlist_to_markdown.py:20-33 | a YouTube host with a `list` value gives that value; otherwise the pattern decides |
| Playlist.PlaylistIdAfterMarker | youtube_playlist_to_markdown.py:29-31 | the greedy run after the only "list=" is the identifier |
| Playlist.QueryValueWins | youtube_playlist_to_markdown.py:24-26 | on a YouTube host the query value wins over the pattern |
| Playlist.Normalise | youtube_playlist_to_markdown.py:54-64 | an entry with neither `id` nor `url` is dropped; a kept URL starts with "http", and is the raw value or the watch prefix and it |
| Playlist.NormaliseCases | youtube_playlist_to_markdown.py:54-58 | `id` is preferred to `url`; a value starting with "http" is kept as it is, and any other gets the watch prefix |
| Playlist.VideosOfShape | youtube_playlist_to_markdown.py:50-64 | at most one video per line, and every URL starts with "http" |
| Playlist.ParseLine | youtube_playlist_to_markdown.py:51-66 | one line yields its normalised entry or nothing |
| Playlist.GetPlaylistVideos | youtube_playlist_to_markdown.py:35-71 | the loop collects the videos of the listing's lines; no videos when yt-dlp exited with a failure; no listing at all when yt-dlp could not be started, as that exception is not caught |
| Playlist.ForceFlags | youtube_playlist_to_markdown.py:145-149 | `gemini` adds `--force-gemini`, `ytdlp` adds `--force-ytdlp`, and `api` and no force add nothing |
| Playlist.CommandShape | youtube_playlist_to_markdown.py:137-149 | the command passes the URL, the mode and the output file, plus at most one force flag |
| Playlist.OutputFileName | youtube_playlist_to_markdown.py:131-133 | the output file is "{id}_{mode}.txt" in the output directory when the URL carries an identifier |
| Playlist.FirstReport | youtube_playlist_to_markdown.py:157-160 | the first output line mentioning "saved to:" or "output:" is reported, and none exactly when no line does |
| Playlist.FindReport | youtube_playlist_to_markdown.py:157-161 | the loop returns the first reporting line |
| Playlist.ReportIsFirst | youtube_playlist_to_markdown.py:158-160 | the first reporting line is the one returned |
| Playlist.TranscribeOutcome | youtube_playlist_to_markdown.py:155-165 | success exactly on exit code 0; a failure carries stderr or "Unknown error", or the launch error |
| Playlist.TranscribeVideo | youtube_playlist_to_markdown.py:128-165 | the outcome is that of the smart transcriber's run on the built command |
| Playlist.RangeBounds | youtube_playlist_to_markdown.py:249-251 | the bounds lie within the playlist; `--start s` gives s-1 to the end, and `--end e` within the playlist gives s-1 to e |
| Playlist.SelectRangeIsSlice | youtube_playlist_to_markdown.py:249-251 | the processed videos are one contiguous run of the playlist, in order, never longer than it; `--start s --end e` gives e-s+1 of them from video s |
| Playlist.FirstMatch | youtube_playlist_to_markdown.py:284-286 | the first listed file matching "*{key}*.txt" is named, and none exactly when no file matches |
| Playlist.VideoOutcomeCases | youtube_playlist_to_markdown.py:282-305 | a skipped video is a success naming the file found; any other carries the child's verdict, its message as output or error |
| Playlist.OutcomesAt | youtube_playlist_to_markdown.py:275-305 | result `k` is the outcome of video `k` |
| Playlist.WaitsExact | youtube_playlist_to_markdown.py:313-315 | the script waits after exactly the videos that were not skipped and are not last, when the delay is positive |
| Playlist.WaitsNotAfterLast | youtube_playlist_to_markdown.py:313 | there is never a wait after the last video |
| Playlist.WaitsBetweenAll | youtube_playlist_to_markdown.py:313-315 | without skipping and with a positive delay there are n-1 waits for n videos |
| Playlist.ProcessVideos | youtube_playlist_to_markdown.py:275-315 | the loop records one result per video, in order, and waits exactly where specified |
| Playlist.ProcessOne | youtube_playlist_to_markdown.py:276-315 | one pass records the video's outcome and waits exactly when specified |
| Playlist.CountSuccessful | youtube_playlist_to_markdown.py:178 | the success count is at most the number of results |
| Playlist.FailedIndicesExact | youtube_playlist_to_markdown.py:178-179 | the failed list holds exactly the failures, in order, and successes plus failures are all results |
| Playlist.VideoLinesAt | youtube_playlist_to_markdown.py:186-192 | video `j` has its status line and its error or output line |
| Playlist.FailureLinesAt | youtube_playlist_to_markdown.py:197-200 | the failed section lists exactly the failures, in playlist order |
| Playlist.FailedTailPresent | youtube_playlist_to_markdown.py:195-200 | the failed section appears exactly when something failed |
| Playlist.SummaryBodyLayout | youtube_playlist_to_markdown.py:178-200 | the failure count is the number of failed videos, and the failed section follows the list exactly when it is positive |
| Playlist.SummaryListsVideo | youtube_playlist_to_markdown.py:186-192 | the summary lists every video with its status and detail |
| Playlist.SummaryListsFailure | youtube_playlist_to_markdown.py:195-200 | entry `q` of the failed section names the `q`-th failed video |
| Playlist.CreatePlaylistSummary | youtube_playlist_to_markdown.py:167-202 | the file "00_playlist_summary.md" in the output directory holds the header with both counts, the video list and the failed section |
| Playlist.VideoSection | youtube_playlist_to_markdown.py:186-192 | the loop writes two lines per video |
| Playlist.FailedSection | youtube_playlist_to_markdown.py:197-200 | the loop writes two lines per failed video |
| Playlist.OutputDirectoryShape | youtube_playlist_to_markdown.py:257-263 | a generated directory is the date, the title made safe with a 100-character cap, and the mode |
| Playlist.PrepareRun | youtube_playlist_to_markdown.py:246-266 | the run settles on the output directory |
| Playlist.ClosingReport | youtube_playlist_to_markdown.py:320-329 | the closing report ends with the hint exactly when some video failed |
| Playlist.ProcessPlaylist | youtube_playlist_to_markdown.py:274-329 | the results of the videos; unless writing it fails, the summary file and the closing report, which ends with the hint exactly when some video failed |
| Playlist.RunSelected | youtube_playlist_to_markdown.py:246-329 | exit 0 exactly when the output directory was created, the smart transcriber is present and the summary was written; the selected range is processed exactly when the first two hold, and on exit 0 the summary is written |
| Playlist.RunInDirectory | youtube_playlist_to_markdown.py:266-329 | exit 0 exactly when the smart transcriber is present and the summary was written; the videos are processed exactly when it is present; on exit 0 the summary holds the header, the list and the failed section, and the report ends with the hint exactly when some video failed |
| Playlist.PlaylistMain | youtube_playlist_to_markdown.py:204-329 | exit 0 exactly when the URL names a playlist, videos were found, the output directory was created, the smart transcriber is present and the summary was written; then the selected range is processed and summarised; an empty listing ends with "Error: No videos found in playlist", while a yt-dlp that cannot be started ends with 1 without that line |
| MarkdownConverter.SearchPatternLeftmost | convert_transcripts_to_markdown.py:32-34 | each pattern's search reports the group of its leftmost match |
| MarkdownConverter.FoundBySecond | convert_transcripts_to_markdown.py:32-34 | when the first pattern finds nothing, the second pattern's group is the result |
| MarkdownConverter.FoundByFirstMatching | convert_transcripts_to_markdown.py:21-36 | the result is the group of the first pattern, in the list's order, that finds one |
| MarkdownConverter.WrittenOrderFirstMatch | convert_transcripts_to_markdown.py:21-36 | as written, the first pattern to find a group in the order start, `.txt`, `youtube_`, `v=`, middle decides |
| MarkdownConverter.IntendedOrderFirstMatch | convert_transcripts_to_markdown.py:21-36 | corrected, the first pattern to find a group in the order start, `youtube_`, `.txt`, `v=`, middle decides |
| MarkdownConverter.ExtractVideoIdFromFilename | convert_transcripts_to_markdown.py:21-36 | as written: the first of the five patterns that matches gives an identifier-shaped group, and None exactly when no pattern matches |
| MarkdownConverter.FilenameVideoId | convert_transcripts_to_markdown.py:21-36 | the corrected order: the same guarantees with `youtube_` tried before the `.txt` ending |
| MarkdownConverter.IdFileNameRead | convert_transcripts_to_markdown.py:21-36 | "{id}_{mode}.txt" gives its identifier under either order |
| MarkdownConverter.PlaylistFilesNameTheirVideo | convert_transcripts_to_markdown.py:21-36 | every file the playlist script saves for a video is read back to that video's identifier |
| MarkdownConverter.AutoNamedFileMisread | convert_transcripts_to_markdown.py:24-30 | as written, "{date}_youtube_{id}_transcribe.txt" is read as "_transcribe" |
| MarkdownConverter.AutoNamedFileRead | convert_transcripts_to_markdown.py:24-30 | with the corrected order those names give their identifier, whatever the mode |
| MarkdownConverter.FormatNumber | convert_transcripts_to_markdown.py:68-72 | the rendering of a count is never empty |
| MarkdownConverter.FormatNumberRoundTrip | convert_transcripts_to_markdown.py:68-72 | a rendered count reads back as the count, zero and negative counts included |
| MarkdownConverter.GroupedDigits | convert_transcripts_to_markdown.py:72 | dropping the commas gives the plain digits |
| MarkdownConverter.GroupedShape | convert_transcripts_to_markdown.py:72 | the groups are one to three digits, then groups of exactly three |
| MarkdownConverter.CleanKeepsText | convert_transcripts_to_markdown.py:101-116 | cleaning only moves, merges or drops whitespace: every other character is kept, in order |
| MarkdownConverter.CleanLayout | convert_transcripts_to_markdown.py:101-116 | the result is stripped, has no two spaces in a row, and has no space before ",", ".", "?" or "!" |
| MarkdownConverter.DetectTranscriptType | convert_transcripts_to_markdown.py:118-136 | timestamped exactly when a timestamp pattern matches; summary exactly when none does and a keyword is in the first 200 lower-cased characters; plain otherwise |
| MarkdownConverter.StampedTranscriptDetected | convert_transcripts_to_markdown.py:122-129 | the caption script's timestamped text is detected as timestamped |
| MarkdownConverter.StampPrefixDetected | convert_transcripts_to_markdown.py:122 | a text starting with a "[MM:SS]" stamp is timestamped |
| MarkdownConverter.FormatDate | convert_transcripts_to_markdown.py:74-83 | not eight characters gives "Unknown date"; an unparsable date is kept as it is; otherwise the rendered date |
| MarkdownConverter.FormatTimestampedTranscript | convert_transcripts_to_markdown.py:138-158 | the loop over the lines gives the specified paragraphs, joined by blank lines |
| MarkdownConverter.FormatStampedLineShape | convert_transcripts_to_markdown.py:146-156 | a paragraph is never empty and holds no line break when its line had none |
| MarkdownConverter.FormattedLinesShape | convert_transcripts_to_markdown.py:143-156 | blank lines are dropped: at most one paragraph per line, each one non-empty line |
| MarkdownConverter.BracketedLineFormatted | convert_transcripts_to_markdown.py:148-154 | "[M:S] text" becomes "**M:S** - text", brackets removed |
| MarkdownConverter.SpacedStampFormatted | convert_transcripts_to_markdown.py:148-154 | when group 1 ends at `r` and one space and a non-space follow, the paragraph is "**" + the stripped stamp + "** - " + the text after the space |
| MarkdownConverter.StampedLineFormatted | convert_transcripts_to_markdown.py:146-154 | a caption line with text is already stripped and becomes its entry's paragraph |
| MarkdownConverter.CaptionsTranscriptFormatted | convert_transcripts_to_markdown.py:138-158 | the caption script's timestamped text becomes one "**MM:SS** - text" paragraph per entry, in order |
| MarkdownConverter.BareStampSplit | convert_transcripts_to_markdown.py:148-154 | a line holding only "12:34" becomes "**12:3** - 4", because `(.+)` needs a character |
| MarkdownConverter.ShortDescription | convert_transcripts_to_markdown.py:211-215 | a description is kept up to 500 characters, and a longer one is cut to 500 and marked by "..." |
| MarkdownConverter.InfoLinesShape | convert_transcripts_to_markdown.py:192-206 | the information block is its heading, up to six list items and an empty line |
| MarkdownConverter.VideoInfo | convert_transcripts_to_markdown.py:192-206 | the block gets one line for each value given |
| MarkdownConverter.FetchMetadata | convert_transcripts_to_markdown.py:172-178 | metadata is looked up only when asked to and only for a file name the lookup finds an identifier in, and it is that identifier's metadata; the identifier is printed exactly then |
| MarkdownConverter.TranscriptBody | convert_transcripts_to_markdown.py:225-229 | timestamped content is formatted as paragraphs, and any other content is cleaned |
| MarkdownConverter.PageContent | convert_transcripts_to_markdown.py:184-235 | the page is built line by line as specified |
| MarkdownConverter.PageWithoutMetadata | convert_transcripts_to_markdown.py:187-206 | without metadata the title is the stem and the page has five lines; the information heading appears exactly with metadata |
| MarkdownConverter.PageEnding | convert_transcripts_to_markdown.py:217-235 | the page ends with "## Summary" exactly for a summary (else "## Transcript"), the content, the rule and the time stamp |
| MarkdownConverter.PageDescription | convert_transcripts_to_markdown.py:208-215 | a description appears under its heading, just before the content heading, cut to 500 characters |
| MarkdownConverter.CaptionsPageBody | convert_transcripts_to_markdown.py:225-229 | the caption script's timestamped text ends up as one paragraph per entry |
| MarkdownConverter.PageFileName | convert_transcripts_to_markdown.py:238 | the page for "{stem}.txt" is "{stem}.md" |
| MarkdownConverter.ConvertToMarkdown | convert_transcripts_to_markdown.py:160-248 | as written: a read failure gives false and no page; otherwise "{stem}.md" in the output directory holds the joined lines, with the metadata of the identifier `extract_video_id_from_filename` finds; a failure to open or write the page gives false and no page |
| MarkdownConverter.ConvertToMarkdownCorrected | convert_transcripts_to_markdown.py:160-248 | corrected: the same page, log and result, with the metadata of the identifier the corrected pattern order finds |
| MarkdownConverter.ConvertWithOrder | convert_transcripts_to_markdown.py:160-248 | the conversion steps for a given pattern order: the page holds the joined lines exactly when reading and writing worked, and the log names the identifier, the type and the outcome |
| MarkdownConverter.AutoNamedPageMetadata | convert_transcripts_to_markdown.py:172-178 | for "{date}_youtube_{id}_transcribe.txt" the conversion as written looks up the metadata of "_transcribe", the corrected one that of the identifier |

## Left out

- Child processes are not run. yt-dlp, youtube-dl, pip and the child scripts are replaced by their exit code, stdout and stderr (`ChildRun`), or by a launch error (`LaunchError`).
- SmartTranscriber.TryYoutubeApi: a `LaunchError` stands for the FileNotFoundError this function catches (transcribe_youtube_smart.py:140); any other OSError from `subprocess.run` would end the orchestrator with a traceback, and that is not modelled.
- SmartTranscriber.TryGeminiApi: as for TryYoutubeApi, a `LaunchError` is the caught FileNotFoundError (transcribe_youtube_smart.py:170); other launch errors, which end the orchestrator, are not modelled.
- SmartTranscriber.TryYtdlpGemini: as for TryYoutubeApi, a `LaunchError` is the caught FileNotFoundError (transcribe_youtube_smart.py:199); other launch errors, which end the orchestrator, are not modelled.
- `get_video_metadata`, `get_video_info`, `get_playlist_info` and the transcript fetch are not modelled. Their answers are parameters.
- The Gemini SDK is not modelled. Calls to upload, get_file, generate_content and delete_file are given by their replies.
- The YouTube transcript API is not modelled. Its list and fetch calls are given by their replies.
- `time.sleep` and the `random.uniform` jitter are floats and are left out. Only the integer term 2^k of the backoff is recorded, as a ghost sequence.
- Clock and dates are inputs. This covers `datetime.now`, `time.time` in the playlist output name, and `strptime`/`strftime`.
- MarkdownConverter.FormatDate: parsing "%Y%m%d" and printing "%B %d, %Y" is a parameter, `render`.
- `urlparse`/`parse_qs` are not modelled. A URL is given as its already split host, path and query map.
- JSON decoding is a parameter, `decode`.
- The JSON output format of the caption script (`--format json`) is not modelled.
- `--languages` is not modelled. The fetch result is given, whichever language was chosen.
- The filesystem is not modelled. Reads, listings and temporary directories are replaced by what exists (`existing`, `listing`) and the read result. Each script's output write is replaced by the text of the error it raises, if any (`writeError`); in the playlist script the directory creation and the summary write are replaced by whether they fail (`mkdirFails`, `summaryFails`). A written file is returned as a (path, text) pair, and a write that fails part-way is modelled as writing nothing.
- RunSelected: a failing `os.makedirs` or summary write is uncaught in youtube_playlist_to_markdown.py and ends the script with a traceback and exit status 1; the exit status is modelled, the traceback text is not.
- PlaylistMain: a yt-dlp that cannot be started raises FileNotFoundError in `get_playlist_videos_ytdlp`, which catches only CalledProcessError (youtube_playlist_to_markdown.py:69), so the script ends with a traceback and exit status 1; the exit status and the missing "No videos found" line are modelled, the traceback text is not.
- RunInDirectory: a failing summary write ends the script with a traceback and exit status 1; the exit status and the missing summary are modelled, the traceback text is not.
- The `--keep-audio` copy and the audio file size in MB (a float) are left out.
- YtdlpMain: a failure of the `--keep-audio` copy (transcribe_youtube_ytdlp.py:331-336) would print its error and return 1 after the result was saved; the exit-code clause does not cover it, since the copy is not modelled.
- YtdlpMain: a failure of `delete_file` in `cleanup_gemini_file` only prints a warning; the model records the deletion as done whenever it is attempted.
- UploadToGemini: requires the states to leave PROCESSING (`Settles`), as do UploadOutcome, Pipeline, RunPipeline, TranscribeAndClean and YtdlpMain. The poll at transcribe_youtube_ytdlp.py:204-206 has no bound and no time-out, so a service that reports PROCESSING forever keeps the script waiting forever; that input is excluded, not modelled.
- StrRepr: non-ASCII characters are shown as they are; the `\x`, `\u` and `\U` escapes `repr` gives non-printable non-ASCII characters are not modelled.
- SignalName: the signal names are those of Linux; other platforms number signals differently.
- Interactive install prompts are booleans: yt-dlp and the caption library are available or not.
- `setup.py` and `example.py` are not part of this model. Neither holds decision logic.
- The converter's `main` is not part of this model: it finds `*.txt` files, creates the directory and counts conversions.
- `str.lower()` and `\d` are modelled on ASCII. `\s` and `strip()` use Python's whitespace set.
- Durations are natural numbers of seconds. Caption `start` values are natural numbers of seconds, and `int(start // 60)` is taken on them.
- MarkdownConverter.FormatTimestampedTranscript: the line pattern is modelled on lines without line breaks, which is what `split('\n')` gives it.
- MarkdownConverter.CaptionsTranscriptFormatted requires every caption to have some text. A blank caption gives the line "[MM:SS] ", which the converter rewrites differently; that case is not stated.
- The metadata step uses `Option<Metadata>`. A failed lookup's empty dictionary is `None`, which is what `if metadata:` tests.
- Printed messages are modelled only where a contract speaks about them: error lines, the token-limit marker, hints, and the closing report.

## Findings

| source | as written | input that shows it | evidently intended | confidence | as-written member | corrected member |
|---|---|---|---|---|---|---|
| convert_transcripts_to_markdown.py:24-30 | the `([A-Za-z0-9_-]{11})\.txt$` pattern is tried before `youtube_([A-Za-z0-9_-]{11})`, so the last eleven characters before ".txt" win, and `convert_to_markdown` fetches the metadata of that token | "20240115_youtube_dQw4w9WgXcQ_transcribe.txt", the name the single-video scripts generate without a title, gives "_transcribe" | the identifier after "youtube_", "dQw4w9WgXcQ" | not executed | MarkdownConverter.AutoNamedPageMetadata | MarkdownConverter.ConvertToMarkdownCorrected |
| transcribe_youtube_ytdlp.py:208-213 | `upload_to_gemini` raises on a FAILED state before `main` assigns `uploaded_file` (line 316), so the `finally` block (341-344) deletes nothing | a service that accepts the upload and reports PROCESSING, then FAILED | the upload deleted in `finally` on every path, as the file was accepted and exists on the service | not executed | AudioPipeline.FailedUploadIsKept | AudioPipeline.TranscribeAndCleanHoldingUpload |
