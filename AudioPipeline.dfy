/** transcribe_youtube_ytdlp.py: download the audio track with yt-dlp, find
    the file it wrote, upload it to Gemini with a MIME type taken from its
    extension, wait until the upload has been processed, ask for a
    transcription, summary or outline, and delete the upload again. */
module AudioPipeline {
  import opened Common
  import opened Text
  import opened Paths
  import opened Naming
  import GeminiDirect
  import Durations

  /** Why the pipeline stopped; `Message` is the text `main` prints after
      "Error: ". A failed download keeps the exit status and the command
      line, which the text of the `CalledProcessError` shows. */
  datatype AudioError =
    | DownloadFailed(exitCode: int, command: seq<string>)
    | ToolMissing(message: string)
    | AudioNotFound
    | UploadRejected(message: string)
    | UploadFailedState
    | TranscriptionFailed(message: string)

  function Message(e: AudioError): string
  {
    match e
    case DownloadFailed(code, command) => "Failed to download audio: " + CalledProcessErrorText(command, code)
    case ToolMissing(m) => m
    case AudioNotFound => "Audio file not found after download"
    case UploadRejected(m) => "Failed to upload file: " + m
    case UploadFailedState => "Failed to upload file: File upload failed"
    case TranscriptionFailed(m) => "Failed to transcribe audio: " + m
  }

  // ---------------------------------------------------------------------
  // The text of a failed command

  /** A hexadecimal digit as `repr` writes it. */
  function HexDigit(d: nat): char
    requires d < 16
  {
    if d < 10 then ('0' as int + d) as char else ('a' as int + d - 10) as char
  }

  /** One character inside a string literal quoted with `quote`: the quote
      and the backslash are escaped, tab, newline and carriage return get
      their short escapes and the other ASCII control characters a `\x`
      escape. */
  function ReprChar(c: char, quote: char): (r: string)
    ensures |r| >= 1
  {
    if c == quote || c == '\\' then ['\\', c]
    else if c == '\t' then "\\t"
    else if c == '\n' then "\\n"
    else if c == '\r' then "\\r"
    else if c < ' ' || c as int == 127 then "\\x" + [HexDigit(c as int / 16), HexDigit(c as int % 16)]
    else [c]
  }

  function ReprBody(s: string, quote: char): string
  {
    if |s| == 0 then "" else ReprChar(s[0], quote) + ReprBody(s[1..], quote)
  }

  /** The quote `repr` chooses: a double quote only when the text holds a
      single quote and no double quote. */
  function QuoteFor(s: string): char
  {
    if '\'' in s && '"' !in s then '"' else '\''
  }

  /** `repr(s)` of a string. */
  function StrRepr(s: string): (r: string)
    ensures |r| >= 2 && r[0] == QuoteFor(s) && r[|r| - 1] == QuoteFor(s)
  {
    [QuoteFor(s)] + ReprBody(s, QuoteFor(s)) + [QuoteFor(s)]
  }

  /** Printable ASCII other than the single quote and the backslash: what
      `repr` shows as it is. */
  predicate PlainText(s: string)
  {
    forall c :: c in s ==> ' ' <= c <= '~' && c != '\'' && c != '\\'
  }

  /** A plain text is shown between single quotes, unchanged. */
  lemma PlainRepr(s: string)
    requires PlainText(s)
    ensures StrRepr(s) == "'" + s + "'"
  {
    assert QuoteFor(s) == '\'';
    PlainBody(s);
  }

  lemma {:induction false} PlainBody(s: string)
    requires PlainText(s)
    ensures ReprBody(s, '\'') == s
  {
    if |s| > 0 {
      assert PlainText(s[1..]) by {
        forall c | c in s[1..] ensures c in s {
          assert s == [s[0]] + s[1..];
        }
      }
      PlainBody(s[1..]);
      assert s[0] in s;
      assert ReprChar(s[0], '\'') == [s[0]];
      assert s == [s[0]] + s[1..];
    }
  }

  function ReprAll(items: seq<string>): (r: seq<string>)
    ensures |r| == |items| && forall k :: 0 <= k < |items| ==> r[k] == StrRepr(items[k])
  {
    if |items| == 0 then [] else [StrRepr(items[0])] + ReprAll(items[1..])
  }

  /** `str(cmd)` of a list of strings. */
  function ListRepr(items: seq<string>): string
  {
    "[" + Join(", ", ReprAll(items)) + "]"
  }

  /** The names of the Linux signals in Python's `signal.Signals`, with the
      first name in alphabetical order where two names share a number. */
  function SignalName(n: nat): Option<string>
  {
    if n == 1 then Some("SIGHUP") else if n == 2 then Some("SIGINT") else if n == 3 then Some("SIGQUIT")
    else if n == 4 then Some("SIGILL") else if n == 5 then Some("SIGTRAP") else if n == 6 then Some("SIGABRT")
    else if n == 7 then Some("SIGBUS") else if n == 8 then Some("SIGFPE") else if n == 9 then Some("SIGKILL")
    else if n == 10 then Some("SIGUSR1") else if n == 11 then Some("SIGSEGV") else if n == 12 then Some("SIGUSR2")
    else if n == 13 then Some("SIGPIPE") else if n == 14 then Some("SIGALRM") else if n == 15 then Some("SIGTERM")
    else if n == 16 then Some("SIGSTKFLT") else if n == 17 then Some("SIGCHLD") else if n == 18 then Some("SIGCONT")
    else if n == 19 then Some("SIGSTOP") else if n == 20 then Some("SIGTSTP") else if n == 21 then Some("SIGTTIN")
    else if n == 22 then Some("SIGTTOU") else if n == 23 then Some("SIGURG") else if n == 24 then Some("SIGXCPU")
    else if n == 25 then Some("SIGXFSZ") else if n == 26 then Some("SIGVTALRM") else if n == 27 then Some("SIGPROF")
    else if n == 28 then Some("SIGWINCH") else if n == 29 then Some("SIGIO") else if n == 30 then Some("SIGPWR")
    else if n == 31 then Some("SIGSYS") else if n == 34 then Some("SIGRTMIN") else if n == 64 then Some("SIGRTMAX")
    else None
  }

  /** `str(CalledProcessError(code, cmd))`: the exit status for a
      non-negative code; for a negative one the signal that ended the
      command, as the `Signals` member or as an unknown signal number. */
  function CalledProcessErrorText(cmd: seq<string>, code: int): string
  {
    var head := "Command '" + ListRepr(cmd) + "' ";
    if code >= 0 then head + "returned non-zero exit status " + NatToString(code) + "."
    else
      match SignalName(-code)
      case Some(name) => head + "died with <Signals." + name + ": " + NatToString(-code) + ">."
      case None => head + "died with unknown signal " + NatToString(-code) + "."
  }

  // ---------------------------------------------------------------------
  // download_audio

  /** The words of the command before the output path, and between it and
      the URL. */
  const AudioArgs: seq<string> := ["yt-dlp", "-x", "--audio-format", "mp3", "--audio-quality", "0", "-o"]
  const ClientArgs: seq<string> :=
    ["--no-warnings", "--quiet", "--progress", "--extractor-args", "youtube:player_client=android", "--user-agent", UserAgent]

  const UserAgent: string := "Mozilla/5.0 (Linux; " + "Android 10; SM-G973F) " + "AppleWebKit/537.36"

  /** The yt-dlp command `download_audio` runs: extract the best-quality
      audio as mp3 into `outputPath`, quietly, posing as the Android
      client. */
  function DownloadCommand(url: string, outputPath: string): (r: seq<string>)
    ensures |r| == 16 && r[0] == "yt-dlp" && r[1] == "-x" && r[6] == "-o" && r[7] == outputPath && r[15] == url
  {
    AudioArgs + [outputPath] + ClientArgs + [url]
  }

  /** A yt-dlp run that exits with status `code > 0` is reported with the
      whole command line and the exit status. */
  lemma DownloadFailureText(url: string, outputPath: string, code: nat)
    requires code > 0
    ensures Message(DownloadFailed(code, DownloadCommand(url, outputPath))) ==
      "Failed to download audio: " + ("Command '" + ListRepr(DownloadCommand(url, outputPath)) + "' " + "returned non-zero exit status " + NatToString(code) + ".")
  {
  }

  /** In the command line of a failed download each fixed word appears
      between single quotes as it is, and the output path and the URL as
      `repr` shows them. */
  lemma DownloadCommandRepr(url: string, outputPath: string)
    ensures var reprs := ReprAll(DownloadCommand(url, outputPath));
      && reprs[7] == StrRepr(outputPath) && reprs[15] == StrRepr(url)
      && forall k :: 0 <= k < 16 && k != 7 && k != 15 ==> reprs[k] == "'" + DownloadCommand(url, outputPath)[k] + "'"
  {
    var cmd := DownloadCommand(url, outputPath);
    forall k | 0 <= k < 16 && k != 7 && k != 15 ensures StrRepr(cmd[k]) == "'" + cmd[k] + "'" {
      PlainWords(url, outputPath, k);
      PlainRepr(cmd[k]);
    }
  }

  /** Plain texts stay plain when joined. */
  lemma PlainConcat(a: string, b: string)
    requires PlainText(a) && PlainText(b)
    ensures PlainText(a + b)
  {
    forall c | c in a + b ensures c in a || c in b {
    }
  }

  /** The user agent is plain text. */
  lemma UserAgentPlain()
    ensures PlainText(UserAgent)
  {
    UserAgentHeadPlain();
    UserAgentTailPlain();
    PlainConcat("Mozilla/5.0 (Linux; ", "Android 10; SM-G973F) ");
    PlainConcat("Mozilla/5.0 (Linux; " + "Android 10; SM-G973F) ", "AppleWebKit/537.36");
  }

  /** The first two pieces of the user agent are plain text. */
  lemma UserAgentHeadPlain()
    ensures PlainText("Mozilla/5.0 (Linux; ") && PlainText("Android 10; SM-G973F) ")
  {
    assert PlainText("Mozilla/5.0 (Linux; ");
  }

  /** The last piece of the user agent is plain text. */
  lemma UserAgentTailPlain()
    ensures PlainText("AppleWebKit/537.36")
  {
  }

  /** The fixed words of the download command are plain text.
      The words are checked a few at a time, in the helpers below, by
      position in the command: checking every literal in one proof
      exceeds the solver's resource budget. */
  lemma PlainWords(url: string, outputPath: string, k: nat)
    requires k < 16 && k != 7 && k != 15
    ensures PlainText(DownloadCommand(url, outputPath)[k])
  {
    var w := DownloadCommand(url, outputPath)[k];
    if k < 2 {
      PlainToolWords(url, outputPath, k);
    } else if k < 4 {
      PlainFormatWords(url, outputPath, k);
    } else if k < 7 {
      PlainQualityWords(url, outputPath, k);
    } else if k < 10 {
      PlainQuietWords(url, outputPath, k);
    } else if k < 12 {
      PlainExtractorWords(url, outputPath, k);
    } else if k == 12 {
      assert w == "youtube:player_client=android";
      ClientPlain();
    } else if k == 13 {
      assert PlainText(w) by { assert w == "--user-agent"; }
    } else {
      assert PlainText(w) by { UserAgentPlain(); }
    }
  }

  /** Words 0-1 (the tool and `-x`) are plain text. */
  lemma PlainToolWords(url: string, outputPath: string, k: nat)
    requires k < 2
    ensures PlainText(DownloadCommand(url, outputPath)[k])
  {
    var w := DownloadCommand(url, outputPath)[k];
    if k == 0 {
      assert PlainText(w) by { assert w == "yt-dlp"; }
    } else {
      assert PlainText(w) by { assert w == "-x"; }
    }
  }

  /** Words 2-3 (the audio format) are plain text. */
  lemma PlainFormatWords(url: string, outputPath: string, k: nat)
    requires 2 <= k < 4
    ensures PlainText(DownloadCommand(url, outputPath)[k])
  {
    var w := DownloadCommand(url, outputPath)[k];
    if k == 2 {
      assert PlainText(w) by { assert w == "--audio-format"; }
    } else {
      assert PlainText(w) by { assert w == "mp3"; }
    }
  }

  /** Words 4-6 (the audio quality and `-o`) are plain text. */
  lemma PlainQualityWords(url: string, outputPath: string, k: nat)
    requires 4 <= k < 7
    ensures PlainText(DownloadCommand(url, outputPath)[k])
  {
    var w := DownloadCommand(url, outputPath)[k];
    if k == 4 {
      assert PlainText(w) by { assert w == "--audio-quality"; }
    } else if k == 5 {
      assert PlainText(w) by { assert w == "0"; }
    } else {
      assert PlainText(w) by { assert w == "-o"; }
    }
  }

  /** Words 8-9 (the quiet flags) are plain text. */
  lemma PlainQuietWords(url: string, outputPath: string, k: nat)
    requires 8 <= k < 10
    ensures PlainText(DownloadCommand(url, outputPath)[k])
  {
    var w := DownloadCommand(url, outputPath)[k];
    if k == 8 {
      assert PlainText(w) by { assert w == "--no-warnings"; }
    } else {
      assert PlainText(w) by { assert w == "--quiet"; }
    }
  }

  /** Words 10-11 (progress and the extractor flag) are plain text. */
  lemma PlainExtractorWords(url: string, outputPath: string, k: nat)
    requires 10 <= k < 12
    ensures PlainText(DownloadCommand(url, outputPath)[k])
  {
    var w := DownloadCommand(url, outputPath)[k];
    if k == 10 {
      assert PlainText(w) by { assert w == "--progress"; }
    } else {
      assert PlainText(w) by { assert w == "--extractor-args"; }
    }
  }

  /** Word 12, the player client, is plain text. */
  lemma ClientPlain()
    ensures PlainText("youtube:player_client=android")
  {
  }

  /** Whether `glob(stem + ".*")` in the directory of `outputPath` reports a
      file name. */
  predicate MatchesStem(outputPath: string, name: string)
  {
    StemPattern(outputPath) <= name
  }

  /** The text every match starts with: the stem of the output file's name
      and a dot. */
  function StemPattern(outputPath: string): string
  {
    Stem(Name(outputPath)) + "."
  }

  /** The entries of `names` that start with `prefix`, in order. */
  function WithPrefix(prefix: string, names: seq<string>): (r: seq<string>)
    ensures |r| <= |names|
    ensures forall k :: 0 <= k < |r| ==> prefix <= r[k] && r[k] in names
    ensures forall k :: 0 <= k < |names| && prefix <= names[k] ==> names[k] in r
  {
    if |names| == 0 then []
    else
      var rest := WithPrefix(prefix, names[1..]);
      assert forall k :: 1 <= k < |names| ==> names[k] == names[1..][k - 1];
      if prefix <= names[0] then [names[0]] + rest else rest
  }

  /** The files in the directory of `outputPath` that `glob(stem + ".*")`
      reports, in the order of `listing`: every matching entry of the
      listing, and nothing else. */
  function StemMatches(outputPath: string, listing: seq<string>): (r: seq<string>)
    ensures |r| <= |listing|
    ensures forall k :: 0 <= k < |r| ==> MatchesStem(outputPath, r[k]) && r[k] in listing
    ensures forall k :: 0 <= k < |listing| && MatchesStem(outputPath, listing[k]) ==> listing[k] in r
  {
    WithPrefix(StemPattern(outputPath), listing)
  }

  /** The matches keep the order of the listing: those of a listing made of
      two parts are the first part's followed by the second part's. */
  lemma StemMatchesConcat(outputPath: string, a: seq<string>, b: seq<string>)
    ensures StemMatches(outputPath, a + b) == StemMatches(outputPath, a) + StemMatches(outputPath, b)
  {
    WithPrefixConcat(StemPattern(outputPath), a, b);
  }

  lemma {:induction false} WithPrefixConcat(prefix: string, a: seq<string>, b: seq<string>)
    ensures WithPrefix(prefix, a + b) == WithPrefix(prefix, a) + WithPrefix(prefix, b)
  {
    if |a| == 0 {
      assert a + b == b;
    } else {
      assert (a + b)[0] == a[0];
      assert (a + b)[1..] == a[1..] + b;
      WithPrefixConcat(prefix, a[1..], b);
    }
  }

  /** The first match is the first matching entry of the listing. */
  lemma FirstStemMatch(outputPath: string, listing: seq<string>, k: nat)
    requires k < |listing| && MatchesStem(outputPath, listing[k])
    requires forall j :: 0 <= j < k ==> !MatchesStem(outputPath, listing[j])
    ensures StemMatches(outputPath, listing) != [] && StemMatches(outputPath, listing)[0] == listing[k]
  {
    FirstWithPrefix(StemPattern(outputPath), listing, k);
  }

  lemma {:induction false} FirstWithPrefix(prefix: string, names: seq<string>, k: nat)
    requires k < |names| && prefix <= names[k]
    requires forall j :: 0 <= j < k ==> !(prefix <= names[j])
    ensures WithPrefix(prefix, names) != [] && WithPrefix(prefix, names)[0] == names[k]
  {
    if k > 0 {
      assert forall j :: 0 <= j < k - 1 ==> names[1..][j] == names[j + 1];
      FirstWithPrefix(prefix, names[1..], k - 1);
    }
  }

  /** `download_audio(url, output_path)` once yt-dlp has run: `existing` are
      the paths that exist afterwards and `listing` the file names in the
      directory of `output_path`. The file is looked for as `output_path`
      with ".mp3" added, then as `output_path` itself, then as the first
      `stem.*` file next to it. */
  function DownloadAudio(url: string, outputPath: string, ytdlp: ChildRun, existing: set<string>, listing: seq<string>): (r: Result<string, AudioError>)
    ensures ytdlp.LaunchError? ==> r == Err(ToolMissing(ytdlp.message))
    ensures ytdlp.Exited? && ytdlp.code != 0 ==> r == Err(DownloadFailed(ytdlp.code, DownloadCommand(url, outputPath)))
    ensures r.Ok? ==> ytdlp.Exited? && ytdlp.code == 0
    ensures r.Ok? && r.value != outputPath + ".mp3" ==> outputPath + ".mp3" !in existing
    ensures r.Ok? && r.value != outputPath + ".mp3" && r.value != outputPath ==>
      outputPath !in existing && StemMatches(outputPath, listing) != [] && r.value == ChildPath(Parent(outputPath), StemMatches(outputPath, listing)[0])
  {
    match ytdlp
    case LaunchError(m) => Err(ToolMissing(m))
    case Exited(code, _, _) =>
      if code != 0 then Err(DownloadFailed(code, DownloadCommand(url, outputPath)))
      else if outputPath + ".mp3" in existing then Ok(outputPath + ".mp3")
      else if outputPath in existing then Ok(outputPath)
      else
        var matches := StemMatches(outputPath, listing);
        if |matches| > 0 then Ok(ChildPath(Parent(outputPath), matches[0]))
        else Err(AudioNotFound)
  }

  /** The resolution order: after a successful download the ".mp3" file wins
      whenever it exists; the bare path is used only without it; without
      both, the first `stem.*` entry of the listing, in the directory of the
      output path; the file is reported missing only when none of the three
      is there. */
  lemma DownloadResolutionOrder(url: string, outputPath: string, existing: set<string>, listing: seq<string>, out: string)
    ensures var r := DownloadAudio(url, outputPath, Exited(0, out, ""), existing, listing);
      && (outputPath + ".mp3" in existing ==> r == Ok(outputPath + ".mp3"))
      && (outputPath + ".mp3" !in existing && outputPath in existing ==> r == Ok(outputPath))
      && (outputPath + ".mp3" !in existing && outputPath !in existing ==>
            (r.Ok? <==> exists k :: 0 <= k < |listing| && MatchesStem(outputPath, listing[k])))
      && (r == Err(AudioNotFound) <==>
            outputPath + ".mp3" !in existing && outputPath !in existing && StemMatches(outputPath, listing) == [])
    ensures forall k :: 0 <= k < |listing| && MatchesStem(outputPath, listing[k]) && (forall j :: 0 <= j < k ==> !MatchesStem(outputPath, listing[j])) ==>
      (outputPath + ".mp3" !in existing && outputPath !in existing ==>
        DownloadAudio(url, outputPath, Exited(0, out, ""), existing, listing) == Ok(ChildPath(Parent(outputPath), listing[k])))
  {
    if outputPath + ".mp3" !in existing && outputPath !in existing {
      StemMatchesEmpty(outputPath, listing);
    }
    forall k | 0 <= k < |listing| && MatchesStem(outputPath, listing[k]) && (forall j :: 0 <= j < k ==> !MatchesStem(outputPath, listing[j]))
      ensures StemMatches(outputPath, listing) != [] && StemMatches(outputPath, listing)[0] == listing[k]
    {
      FirstStemMatch(outputPath, listing, k);
    }
  }

  lemma StemMatchesEmpty(outputPath: string, listing: seq<string>)
    ensures StemMatches(outputPath, listing) == [] <==> forall k :: 0 <= k < |listing| ==> !MatchesStem(outputPath, listing[k])
  {
    WithPrefixEmpty(StemPattern(outputPath), listing);
  }

  lemma {:induction false} WithPrefixEmpty(prefix: string, names: seq<string>)
    ensures WithPrefix(prefix, names) == [] <==> forall k :: 0 <= k < |names| ==> !(prefix <= names[k])
  {
    if |names| > 0 {
      WithPrefixEmpty(prefix, names[1..]);
      assert forall k :: 1 <= k < |names| ==> names[k] == names[1..][k - 1];
    }
  }

  // ---------------------------------------------------------------------
  // upload_to_gemini

  /** The six entries of `mime_type_map`. */
  function MimeFor(ext: string): Option<string>
  {
    if ext == ".mp3" then Some("audio/mpeg")
    else if ext == ".wav" then Some("audio/wav")
    else if ext == ".m4a" then Some("audio/mp4")
    else if ext == ".aac" then Some("audio/aac")
    else if ext == ".ogg" then Some("audio/ogg")
    else if ext == ".flac" then Some("audio/flac")
    else None
  }

  /** The MIME type used for the upload: looked up on the lower-cased suffix
      of the file name, "audio/mpeg" when the suffix is not in the map. */
  function MimeType(filePath: string): (r: string)
    ensures MimeFor(Lower(Suffix(Name(filePath)))).Some? ==> r == MimeFor(Lower(Suffix(Name(filePath)))).value
    ensures MimeFor(Lower(Suffix(Name(filePath)))).None? ==> r == "audio/mpeg"
  {
    var ext := Lower(Suffix(Name(filePath)));
    match MimeFor(ext)
    case Some(m) => m
    case None => "audio/mpeg"
  }

  /** Every upload is sent as one of the six audio types. */
  lemma MimeTypeIsAudio(filePath: string)
    ensures MimeType(filePath) in {"audio/mpeg", "audio/wav", "audio/mp4", "audio/aac", "audio/ogg", "audio/flac"}
  {
    var ext := Lower(Suffix(Name(filePath)));
    MimeForIsAudio(ext);
  }

  /** Each entry of the map is one of the six audio types. */
  lemma MimeForIsAudio(ext: string)
    ensures MimeFor(ext).Some? ==> MimeFor(ext).value in {"audio/mpeg", "audio/wav", "audio/mp4", "audio/aac", "audio/ogg", "audio/flac"}
  {
    if ext == ".mp3" {
      assert MimeFor(ext) == Some("audio/mpeg");
    } else if ext == ".wav" {
      assert MimeFor(ext) == Some("audio/wav");
    } else if ext == ".m4a" {
      assert MimeFor(ext) == Some("audio/mp4");
    } else if ext == ".aac" {
      assert MimeFor(ext) == Some("audio/aac");
    } else if ext == ".ogg" {
      assert MimeFor(ext) == Some("audio/ogg");
    } else if ext == ".flac" {
      assert MimeFor(ext) == Some("audio/flac");
    }
  }

  /** A file in a directory, named by a non-empty stem and a known extension
      in any letter case, is uploaded with that extension's type. */
  lemma MimeTypeOfNamedFile(dir: string, stem: string, ext: string)
    requires |stem| > 0 && '/' !in stem
    requires |ext| >= 2 && ext[0] == '.' && '.' !in ext[1..] && '/' !in ext
    requires MimeFor(Lower(ext)).Some?
    ensures MimeType(PathJoin(dir, stem + ext)) == MimeFor(Lower(ext)).value
  {
    assert '/' !in stem + ext by {
      forall k | 0 <= k < |stem + ext| ensures (stem + ext)[k] != '/' {
        if k < |stem| { assert (stem + ext)[k] == stem[k]; } else { assert (stem + ext)[k] == ext[k - |stem|]; }
      }
    }
    NameOfJoin(dir, stem + ext);
    SuffixOfExtension(stem, ext);
  }

  /** Processing states of an uploaded file. */
  datatype FileState = Processing | Active | Failed | Unspecified

  /** What the upload service does: `upload_file` raising, or accepting the
      file and then reporting `states[k]` after `k` calls of `get_file`
      (`states[0]` is the state `upload_file` itself reports). */
  datatype UploadService = Rejected(error: string) | Accepted(states: seq<FileState>)

  /** The service eventually stops processing the file. */
  predicate Settles(states: seq<FileState>)
  {
    exists k :: 0 <= k < |states| && states[k] != Processing
  }

  /** The number of `get_file` calls before the file leaves PROCESSING. */
  function SettledAt(states: seq<FileState>): (k: nat)
    requires Settles(states)
    ensures k < |states| && states[k] != Processing
    ensures forall j :: 0 <= j < k ==> states[j] == Processing
  {
    if states[0] != Processing then 0
    else
      assert Settles(states[1..]) by {
        var k :| 0 <= k < |states| && states[k] != Processing;
        assert states[1..][k - 1] == states[k];
      }
      1 + SettledAt(states[1..])
  }

  /** A handle on an uploaded file: the MIME type it was sent with and the
      state it settled in. */
  datatype UploadedFile = UploadedFile(mimeType: string, state: FileState)

  /** What `upload_to_gemini(file_path)` gives: the service's error, or
      the state the file settles in once it has left PROCESSING, which is a
      failure when that state is FAILED. */
  function UploadOutcome(filePath: string, service: UploadService): (r: Result<UploadedFile, AudioError>)
    requires service.Accepted? ==> Settles(service.states)
    ensures r.Ok? ==> service.Accepted? && r.value.state !in {Processing, Failed} && r.value.mimeType == MimeType(filePath)
    ensures r == Err(UploadFailedState) <==> service.Accepted? && service.states[SettledAt(service.states)] == Failed
    ensures service.Rejected? ==> r == Err(UploadRejected(service.error))
  {
    match service
    case Rejected(error) => Err(UploadRejected(error))
    case Accepted(states) =>
      var k := SettledAt(states);
      if states[k] == Failed then Err(UploadFailedState) else Ok(UploadedFile(MimeType(filePath), states[k]))
  }

  /** `upload_to_gemini(file_path)`: upload with the MIME type of the file,
      poll every two seconds while the state is PROCESSING, and fail if it
      ends as FAILED. `polls` counts the `get_file` calls. */
  method UploadToGemini(filePath: string, service: UploadService) returns (r: Result<UploadedFile, AudioError>, ghost polls: nat)
    requires service.Accepted? ==> Settles(service.states)
    ensures r == UploadOutcome(filePath, service)
    ensures service.Rejected? ==> polls == 0
    ensures service.Accepted? ==> polls == SettledAt(service.states) && (r.Err? <==> service.states[polls] == Failed)
  {
    var mimeType := MimeType(filePath);
    match service {
      case Rejected(error) =>
        return Err(UploadRejected(error)), 0;
      case Accepted(states) =>
        var k := 0;
        var state := states[0];
        while state == Processing
          invariant 0 <= k <= SettledAt(states) && state == states[k]
          decreases SettledAt(states) - k
        {
          k := k + 1;
          state := states[k];
        }
        assert k == SettledAt(states);
        polls := k;
        if state == Failed {
          r := Err(UploadFailedState);
        } else {
          r := Ok(UploadedFile(mimeType, state));
        }
    }
  }

  // ---------------------------------------------------------------------
  // transcribe_audio_with_gemini

  /** `model_mapping.get(model, "gemini-2.5-pro")`. */
  function AudioModelName(key: string): (r: string)
    ensures key == "flash" ==> r == "gemini-2.5-flash"
    ensures key != "flash" ==> r == "gemini-2.5-pro"
  {
    if key == "flash" then "gemini-2.5-flash"
    else if key == "pro" then "gemini-2.5-pro"
    else "gemini-2.5-pro"
  }

  const TranscribeAudioPrompt: string := "Please provide a detailed transcription of this audio file. Include all spoken content with proper punctuation and paragraph breaks."
  const SummarizeAudioPrompt: string := "Please provide a comprehensive summary of this audio file, including key points, main topics discussed, and important takeaways."
  const OutlineAudioPrompt: string := "Please provide a detailed outline of this audio file with timestamps, main sections, key points discussed in each section, and important quotes or insights."

  function AudioPrompt(mode: Mode): string
  {
    match mode
    case Transcribe => TranscribeAudioPrompt
    case Summarize => SummarizeAudioPrompt
    case Outline => OutlineAudioPrompt
  }

  /** The request `generate_content` receives for the audio. */
  datatype AudioRequest = AudioRequest(model: string, prompt: string, file: UploadedFile)

  /** `transcribe_audio_with_gemini(uploaded_file, model, mode)` with the
      model's reply given by `generate`. */
  function TranscribeAudio(file: UploadedFile, modelKey: string, mode: Mode, generate: AudioRequest -> GeminiDirect.Reply): (r: Result<string, AudioError>)
    ensures var reply := generate(AudioRequest(AudioModelName(modelKey), AudioPrompt(mode), file));
      && (reply.Answer? ==> r == Ok(reply.text))
      && (reply.Raised? ==> r == Err(TranscriptionFailed(reply.error)))
  {
    match generate(AudioRequest(AudioModelName(modelKey), AudioPrompt(mode), file))
    case Answer(text) => Ok(text)
    case Raised(error) => Err(TranscriptionFailed(error))
  }

  // ---------------------------------------------------------------------
  // main

  /** What `get_video_info` reads from yt-dlp's JSON. */
  datatype VideoInfo = VideoInfo(title: string, duration: nat, uploader: string)

  /** The work inside `main`'s `try`: download, upload, transcribe. */
  function Pipeline(url: string, audioPath: string, ytdlp: ChildRun, existing: set<string>, listing: seq<string>,
                    service: UploadService, modelKey: string, mode: Mode, generate: AudioRequest -> GeminiDirect.Reply): (r: Result<string, AudioError>)
    requires service.Accepted? ==> Settles(service.states)
    ensures r.Ok? ==> DownloadAudio(url, audioPath, ytdlp, existing, listing).Ok?
    ensures r.Ok? ==> UploadedHandle(url, audioPath, ytdlp, existing, listing, service)
    ensures DownloadAudio(url, audioPath, ytdlp, existing, listing).Err? ==> r == Err(DownloadAudio(url, audioPath, ytdlp, existing, listing).error)
    ensures DownloadAudio(url, audioPath, ytdlp, existing, listing).Ok? && !UploadedHandle(url, audioPath, ytdlp, existing, listing, service) ==>
      r == Err(UploadOutcome(DownloadAudio(url, audioPath, ytdlp, existing, listing).value, service).error)
  {
    match DownloadAudio(url, audioPath, ytdlp, existing, listing)
    case Err(e) => Err(e)
    case Ok(path) =>
      match UploadOutcome(path, service)
      case Err(e) => Err(e)
      case Ok(file) => TranscribeAudio(file, modelKey, mode, generate)
  }

  /** Whether `main` ever holds an upload handle, which `finally` deletes:
      `uploaded_file` is assigned only when `upload_to_gemini` returns,
      that is when the file settled in a state other than FAILED. */
  predicate UploadedHandle(url: string, audioPath: string, ytdlp: ChildRun, existing: set<string>, listing: seq<string>, service: UploadService)
    requires service.Accepted? ==> Settles(service.states)
  {
    && DownloadAudio(url, audioPath, ytdlp, existing, listing).Ok?
    && UploadOutcome(DownloadAudio(url, audioPath, ytdlp, existing, listing).value, service).Ok?
  }

  /** Whether the service took the upload of the downloaded file: from then
      on a file exists on the service, whatever state it settles in. */
  predicate UploadAccepted(url: string, audioPath: string, ytdlp: ChildRun, existing: set<string>, listing: seq<string>, service: UploadService)
  {
    DownloadAudio(url, audioPath, ytdlp, existing, listing).Ok? && service.Accepted?
  }

  /** As written, an upload the service accepts and then marks FAILED gives
      no handle, so `finally` leaves it on the service: `main` reports the
      failure and never deletes the file. */
  lemma FailedUploadIsKept(url: string, audioPath: string, ytdlp: ChildRun, existing: set<string>, listing: seq<string>, service: UploadService,
                           modelKey: string, mode: Mode, generate: AudioRequest -> GeminiDirect.Reply)
    requires UploadAccepted(url, audioPath, ytdlp, existing, listing, service)
    requires Settles(service.states) && service.states[SettledAt(service.states)] == Failed
    ensures !UploadedHandle(url, audioPath, ytdlp, existing, listing, service)
    ensures Pipeline(url, audioPath, ytdlp, existing, listing, service, modelKey, mode, generate) == Err(UploadFailedState)
  {
  }

  /** The smallest such run: yt-dlp writes "audio.mp3", the service accepts
      it and reports PROCESSING, then FAILED. */
  lemma FailedUploadExample()
    ensures var service := Accepted([Processing, Failed]);
      && UploadAccepted("u", "audio", Exited(0, "", ""), {"audio.mp3"}, [], service)
      && Settles(service.states)
      && !UploadedHandle("u", "audio", Exited(0, "", ""), {"audio.mp3"}, [], service)
  {
    var service := Accepted([Processing, Failed]);
    assert "audio" + ".mp3" == "audio.mp3";
    assert service.states[1] != Processing;
    assert SettledAt(service.states) == 1 by {
      assert service.states[1..] == [Failed];
    }
  }

  /** Every upload the as-written `finally` deletes is one the service
      accepted, so keeping the handle from the moment of acceptance deletes
      at least those. */
  lemma HandleMeansAccepted(url: string, audioPath: string, ytdlp: ChildRun, existing: set<string>, listing: seq<string>, service: UploadService)
    requires service.Accepted? ==> Settles(service.states)
    ensures UploadedHandle(url, audioPath, ytdlp, existing, listing, service) ==> UploadAccepted(url, audioPath, ytdlp, existing, listing, service)
    ensures UploadAccepted(url, audioPath, ytdlp, existing, listing, service) && service.states[SettledAt(service.states)] != Failed ==>
      UploadedHandle(url, audioPath, ytdlp, existing, listing, service)
  {
  }

  /** `main()` after argument parsing, with the environment as parameters:
      whether yt-dlp is installed once the install prompt is over, the video
      information (None when it could not be read), the date and title for
      the generated file name, the temporary directory, what the yt-dlp
      download gives, the files that exist afterwards and the listing of
      the audio file's directory, the upload service, the model and the
      text of the exception opening or writing the output file raises, if
      it does. `saved` is the file written and its text; `uploaded` says
      whether an upload handle was obtained and `deleted` whether
      `cleanup_gemini_file` ran. */
  method YtdlpMain(url: string, parsed: ParsedUrl, mode: Mode, modelKey: string, output: Option<string>, noAutoOutput: bool,
                   date: string, title: Option<string>, audioOutput: Option<string>, ytdlpAvailable: bool, info: Option<VideoInfo>,
                   tempDir: string, ytdlp: ChildRun, existing: set<string>, listing: seq<string>,
                   service: UploadService, generate: AudioRequest -> GeminiDirect.Reply, writeError: Option<string>)
    returns (code: int, lines: seq<string>, saved: Option<(string, string)>, uploaded: bool, deleted: bool)
    requires service.Accepted? ==> Settles(service.states)
    ensures !ytdlpAvailable ==> code == 1 && saved.None? && !uploaded && !deleted
    ensures var audioPath := if Truthy(audioOutput) then audioOutput.value else PathJoin(tempDir, "audio");
      var r := Pipeline(url, audioPath, ytdlp, existing, listing, service, modelKey, mode, generate);
      var target := OutputTarget(url, parsed, mode, output, noAutoOutput, date, title);
      ytdlpAvailable ==>
        && Reported(r, target, writeError, code, lines, saved)
        && (uploaded <==> UploadedHandle(url, audioPath, ytdlp, existing, listing, service))
    ensures deleted == uploaded
    ensures info.Some? && ytdlpAvailable ==> "Duration: " + Durations.DurationDisplay(info.value.duration) in lines
  {
    saved := None;
    uploaded, deleted := false, false;
    if !ytdlpAvailable {
      return 1, ["yt-dlp is required for this script."], None, false, false;
    }
    var head: seq<string> := [];
    if info.Some? {
      head := ["Title: " + info.value.title, "Duration: " + Durations.DurationDisplay(info.value.duration), "Uploader: " + info.value.uploader];
      assert head[1] == "Duration: " + Durations.DurationDisplay(info.value.duration);
    }
    var target := OutputTarget(url, parsed, mode, output, noAutoOutput, date, title);
    if !Truthy(output) && target.Some? {
      head := head + ["Output file: " + target.value];
    }
    var audioPath := if Truthy(audioOutput) then audioOutput.value else PathJoin(tempDir, "audio");
    var tail;
    code, tail, saved, uploaded, deleted := TranscribeAndClean(url, audioPath, ytdlp, existing, listing, service, modelKey, mode, generate, target, writeError);
    lines := head + tail;
    ReportedAfter(Pipeline(url, audioPath, ytdlp, existing, listing, service, modelKey, mode, generate), target, writeError, code, head, tail, saved);
    PrintedAfter(head, tail);
  }

  /** Lines printed before or after a line leave it printed. */
  lemma PrintedAfter(head: seq<string>, tail: seq<string>)
    ensures forall x :: x in tail ==> x in head + tail
    ensures forall x :: x in head ==> x in head + tail
  {
  }

  /** What `main` reports for the pipeline's result `r`: exit 0 exactly
      when the text was obtained and, if it goes to a file, that file was
      written; the error after "Error: " otherwise; the text saved to the
      target, or printed when there is none. */
  predicate Reported(r: Result<string, AudioError>, target: Option<string>, writeError: Option<string>,
                     code: int, lines: seq<string>, saved: Option<(string, string)>)
  {
    && (code == 0 <==> r.Ok? && !(target.Some? && writeError.Some?))
    && (code == 0 || code == 1)
    && (r.Err? ==> saved.None? && "Error: " + Message(r.error) in lines)
    && (r.Ok? && target.Some? && writeError.None? ==> saved == Some((target.value, r.value)))
    && (r.Ok? && target.Some? && writeError.Some? ==> saved.None? && "Error: " + writeError.value in lines)
    && (r.Ok? && target.None? ==> saved.None? && r.value in lines)
  }

  /** Lines printed before a report leave it a report. */
  lemma ReportedAfter(r: Result<string, AudioError>, target: Option<string>, writeError: Option<string>,
                      code: int, head: seq<string>, tail: seq<string>, saved: Option<(string, string)>)
    requires Reported(r, target, writeError, code, tail, saved)
    ensures Reported(r, target, writeError, code, head + tail, saved)
  {
    PrintedAfter(head, tail);
  }

  /** `main` from the pipeline on: run it, report its result, and in the
      `finally` block delete the upload whenever a handle was obtained. */
  method TranscribeAndClean(url: string, audioPath: string, ytdlp: ChildRun, existing: set<string>, listing: seq<string>,
                            service: UploadService, modelKey: string, mode: Mode, generate: AudioRequest -> GeminiDirect.Reply,
                            target: Option<string>, writeError: Option<string>)
    returns (code: int, lines: seq<string>, saved: Option<(string, string)>, uploaded: bool, deleted: bool)
    requires service.Accepted? ==> Settles(service.states)
    ensures Reported(Pipeline(url, audioPath, ytdlp, existing, listing, service, modelKey, mode, generate), target, writeError, code, lines, saved)
    ensures uploaded <==> UploadedHandle(url, audioPath, ytdlp, existing, listing, service)
    ensures deleted == uploaded
  {
    var result, progress, handle, accepted := RunPipeline(url, audioPath, ytdlp, existing, listing, service, modelKey, mode, generate);
    var report;
    code, report, saved := ReportResult(result, target, mode, writeError);
    uploaded := handle;
    deleted := false;
    var cleanup := [];
    if handle {
      deleted := true;
      cleanup := ["Cleaned up uploaded file"];
    }
    lines := progress + report + cleanup;
  }

  /** `TranscribeAndClean` with `uploaded_file` assigned as soon as the
      service takes the upload, before the wait for processing: `finally`
      then deletes every accepted upload, those that end FAILED included,
      and the exit code and output are those of the code as written. */
  method TranscribeAndCleanHoldingUpload(url: string, audioPath: string, ytdlp: ChildRun, existing: set<string>, listing: seq<string>,
                                         service: UploadService, modelKey: string, mode: Mode, generate: AudioRequest -> GeminiDirect.Reply,
                                         target: Option<string>, writeError: Option<string>)
    returns (code: int, lines: seq<string>, saved: Option<(string, string)>, deleted: bool)
    requires service.Accepted? ==> Settles(service.states)
    ensures Reported(Pipeline(url, audioPath, ytdlp, existing, listing, service, modelKey, mode, generate), target, writeError, code, lines, saved)
    ensures deleted <==> UploadAccepted(url, audioPath, ytdlp, existing, listing, service)
  {
    var result, progress, handle, accepted := RunPipeline(url, audioPath, ytdlp, existing, listing, service, modelKey, mode, generate);
    var report;
    code, report, saved := ReportResult(result, target, mode, writeError);
    deleted := false;
    var cleanup := [];
    if accepted {
      deleted := true;
      cleanup := ["Cleaned up uploaded file"];
    }
    lines := progress + report + cleanup;
  }

  /** What `main` does with the pipeline's result: print the error and
      exit 1, or save or print the text and exit 0. Opening or writing the
      output file raises inside the same `try`, so a `writeError` is
      printed after "Error: " and ends the run with 1, with no file
      written. */
  method ReportResult(result: Result<string, AudioError>, target: Option<string>, mode: Mode, writeError: Option<string>)
    returns (code: int, lines: seq<string>, saved: Option<(string, string)>)
    ensures Reported(result, target, writeError, code, lines, saved)
  {
    match result {
      case Err(e) =>
        lines := ["Error: " + Message(e)];
        code := 1;
        saved := None;
      case Ok(text) =>
        if target.Some? && writeError.Some? {
          lines := ["Error: " + writeError.value];
          code := 1;
          saved := None;
        } else if target.Some? {
          saved := Some((target.value, text));
          lines := ["\nTranscription saved to: " + target.value];
          code := 0;
        } else {
          saved := None;
          lines := ["\n--- " + UpperModeName(mode) + " ---\n", text];
          code := 0;
        }
    }
  }

  /** The body of `main`'s `try`: download the audio, upload it and ask
      for the transcription, stopping at the first failure. `handle` says
      whether an upload handle was obtained and `accepted` whether the
      service took the upload at all. */
  method RunPipeline(url: string, audioPath: string, ytdlp: ChildRun, existing: set<string>, listing: seq<string>,
                     service: UploadService, modelKey: string, mode: Mode, generate: AudioRequest -> GeminiDirect.Reply)
    returns (r: Result<string, AudioError>, lines: seq<string>, handle: bool, accepted: bool)
    requires service.Accepted? ==> Settles(service.states)
    ensures r == Pipeline(url, audioPath, ytdlp, existing, listing, service, modelKey, mode, generate)
    ensures handle == UploadedHandle(url, audioPath, ytdlp, existing, listing, service)
    ensures accepted == UploadAccepted(url, audioPath, ytdlp, existing, listing, service)
  {
    lines := [];
    var downloaded := DownloadAudio(url, audioPath, ytdlp, existing, listing);
    if downloaded.Err? {
      return Err(downloaded.error), lines, false, false;
    }
    lines := lines + ["Audio downloaded: " + downloaded.value];
    accepted := service.Accepted?;
    var upload;
    ghost var polls;
    upload, polls := UploadToGemini(downloaded.value, service);
    if upload.Err? {
      return Err(upload.error), lines, false, accepted;
    }
    handle := true;
    r := TranscribeAudio(upload.value, modelKey, mode, generate);
  }

  /** `mode.upper()`. */
  function UpperModeName(m: Mode): string
  {
    match m
    case Transcribe => "TRANSCRIBE"
    case Summarize => "SUMMARIZE"
    case Outline => "OUTLINE"
  }
}
