/** The converter from saved transcript text files to Markdown pages:
    reading a video identifier out of a file name, rendering counts,
    cleaning plain transcripts, recognising timestamped ones, formatting
    their lines, and assembling the page. */
module MarkdownConverter {
  import opened Common
  import opened Text
  import opened Paths
  import opened Naming
  import Durations
  import CaptionsApi
  import Playlist

  // ---------------------------------------------------------------------
  // extract_video_id_from_filename

  /** A file-name pattern made of a literal `before`, the group of eleven
      identifier characters, and a literal `after`; `atStart` stands for a
      leading `^` and `atEnd` for a trailing `$`. */
  datatype IdPattern = IdPattern(before: string, after: string, atStart: bool, atEnd: bool)

  /** `^([A-Za-z0-9_-]{11})_` */
  const StartPattern: IdPattern := IdPattern("", "_", true, false)
  /** `([A-Za-z0-9_-]{11})\.txt$` */
  const TxtPattern: IdPattern := IdPattern("", ".txt", false, true)
  /** `youtube_([A-Za-z0-9_-]{11})` */
  const YoutubePattern: IdPattern := IdPattern("youtube_", "", false, false)
  /** `v=([A-Za-z0-9_-]{11})` */
  const QueryPattern: IdPattern := IdPattern("v=", "", false, false)
  /** `_([A-Za-z0-9_-]{11})_` */
  const MiddlePattern: IdPattern := IdPattern("_", "_", false, false)

  /** The patterns in the order the converter tries them. */
  const WrittenOrder: seq<IdPattern> := [StartPattern, TxtPattern, YoutubePattern, QueryPattern, MiddlePattern]

  /** The same patterns with `youtube_` tried before the `.txt` ending. */
  const IntendedOrder: seq<IdPattern> := [StartPattern, YoutubePattern, TxtPattern, QueryPattern, MiddlePattern]

  /** Where `$` matches without MULTILINE: at the end of the text, or just
      before a newline that ends it. */
  predicate AtEnd(s: string, e: nat)
  {
    e == |s| || (e + 1 == |s| && s[e] == '\n')
  }

  /** The pattern matches `s` starting at position `i`. */
  predicate PatternAt(s: string, p: IdPattern, i: nat)
  {
    var g := i + |p.before|;
    var e := g + IdLength + |p.after|;
    && (p.atStart ==> i == 0)
    && e <= |s|
    && s[i..g] == p.before
    && IdRunAt(s, g)
    && s[g + IdLength..e] == p.after
    && (p.atEnd ==> AtEnd(s, e))
  }

  /** The leftmost position at or after `from` where the pattern matches. */
  function FirstPatternAt(s: string, p: IdPattern, from: nat): (r: Option<nat>)
    ensures r.Some? ==> from <= r.value && PatternAt(s, p, r.value)
    ensures forall i :: from <= i && (r.None? || i < r.value) ==> !PatternAt(s, p, i)
    decreases |s| - from
  {
    if from >= |s| then None
    else if PatternAt(s, p, from) then Some(from)
    else FirstPatternAt(s, p, from + 1)
  }

  /** `re.search(pattern, s)`'s group 1, or None when the search fails. */
  function SearchPattern(s: string, p: IdPattern): (r: Option<string>)
    ensures r.Some? ==> IsVideoToken(r.value)
    ensures r.None? <==> forall i :: 0 <= i ==> !PatternAt(s, p, i)
  {
    match FirstPatternAt(s, p, 0)
    case None => None
    case Some(i) =>
      var g := i + |p.before|;
      var id := s[g..g + IdLength];
      assert forall k :: 0 <= k < |id| ==> id[k] == s[g + k];
      Some(id)
  }

  /** The search reports the group of the leftmost match. */
  lemma SearchPatternLeftmost(s: string, p: IdPattern, i: nat)
    requires PatternAt(s, p, i)
    requires forall j :: 0 <= j < i ==> !PatternAt(s, p, j)
    ensures SearchPattern(s, p) == Some(s[i + |p.before|..i + |p.before| + IdLength])
  {
    var r := FirstPatternAt(s, p, 0);
    assert r.Some? && r.value == i;
  }

  /** The group of the first pattern of `ps` that matches anywhere. */
  function FirstFound(s: string, ps: seq<IdPattern>): (r: Option<string>)
    ensures r.Some? ==> IsVideoToken(r.value)
    ensures r.None? <==> forall k, i :: 0 <= k < |ps| && 0 <= i ==> !PatternAt(s, ps[k], i)
  {
    if |ps| == 0 then None
    else
      match SearchPattern(s, ps[0])
      case Some(id) => Some(id)
      case None =>
        assert forall k :: 1 <= k < |ps| ==> ps[k] == ps[1..][k - 1];
        FirstFound(s, ps[1..])
  }

  /** When the first pattern finds nothing and the second finds a group,
      that group is the result. */
  lemma FoundBySecond(s: string, ps: seq<IdPattern>)
    requires |ps| >= 2 && SearchPattern(s, ps[0]).None? && SearchPattern(s, ps[1]).Some?
    ensures FirstFound(s, ps) == SearchPattern(s, ps[1])
  {
    assert ps[1..][0] == ps[1];
  }

  /** The result is the group of the first pattern, in order, that finds
      one: when the patterns before `ps[k]` find nothing and `ps[k]` finds
      a group, that group is the result. */
  lemma {:induction false} FoundByFirstMatching(s: string, ps: seq<IdPattern>, k: nat)
    requires k < |ps| && SearchPattern(s, ps[k]).Some?
    requires forall j :: 0 <= j < k ==> SearchPattern(s, ps[j]).None?
    ensures FirstFound(s, ps) == SearchPattern(s, ps[k])
  {
    if k > 0 {
      assert forall j :: 0 <= j < k - 1 ==> ps[1..][j] == ps[j + 1];
      FoundByFirstMatching(s, ps[1..], k - 1);
    }
  }

  /** `extract_video_id_from_filename(name)` as written: the first of the
      five patterns that matches decides, and None when none does. */
  function ExtractVideoIdFromFilename(name: string): (r: Option<string>)
    ensures r.Some? ==> IsVideoToken(r.value)
    ensures r.None? <==> forall k, i :: 0 <= k < |WrittenOrder| && 0 <= i ==> !PatternAt(name, WrittenOrder[k], i)
  {
    FirstFound(name, WrittenOrder)
  }

  /** The identifier lookup with `youtube_` ahead of the `.txt` ending:
      the corrected order, used by `ConvertToMarkdownCorrected`. */
  function FilenameVideoId(name: string): (r: Option<string>)
    ensures r.Some? ==> IsVideoToken(r.value)
    ensures r.None? <==> forall k, i :: 0 <= k < |IntendedOrder| && 0 <= i ==> !PatternAt(name, IntendedOrder[k], i)
  {
    FirstFound(name, IntendedOrder)
  }

  /** As written, the lookup gives the group of the first pattern in the
      order start, `.txt`, `youtube_`, `v=`, middle that finds one. */
  lemma WrittenOrderFirstMatch(name: string, k: nat)
    requires k < |WrittenOrder| && SearchPattern(name, WrittenOrder[k]).Some?
    requires forall j :: 0 <= j < k ==> SearchPattern(name, WrittenOrder[j]).None?
    ensures ExtractVideoIdFromFilename(name) == SearchPattern(name, WrittenOrder[k])
  {
    FoundByFirstMatching(name, WrittenOrder, k);
  }

  /** Corrected, the lookup gives the group of the first pattern in the
      order start, `youtube_`, `.txt`, `v=`, middle that finds one. */
  lemma IntendedOrderFirstMatch(name: string, k: nat)
    requires k < |IntendedOrder| && SearchPattern(name, IntendedOrder[k]).Some?
    requires forall j :: 0 <= j < k ==> SearchPattern(name, IntendedOrder[j]).None?
    ensures FilenameVideoId(name) == SearchPattern(name, IntendedOrder[k])
  {
    FoundByFirstMatching(name, IntendedOrder, k);
  }

  /** A name "{id}_{mode}.txt", as the playlist script writes them, gives
      its identifier back under either order of the patterns. */
  lemma IdFileNameRead(id: string, mode: Mode)
    requires IsVideoToken(id)
    ensures ExtractVideoIdFromFilename(id + "_" + ModeName(mode) + ".txt") == Some(id)
    ensures FilenameVideoId(id + "_" + ModeName(mode) + ".txt") == Some(id)
  {
    var s := id + "_" + ModeName(mode) + ".txt";
    assert s[0..0] == "" && s[IdLength..IdLength + 1] == "_";
    assert PatternAt(s, StartPattern, 0);
    SearchPatternLeftmost(s, StartPattern, 0);
    assert s[0..IdLength] == id;
  }

  /** Every file the playlist script saves for a video with an identifier
      in its URL is read back to that identifier. */
  lemma PlaylistFilesNameTheirVideo(videoUrl: string, outputDir: string, mode: Mode, now: nat)
    requires SearchVideoId(videoUrl).Some?
    ensures FilenameVideoId(Name(Playlist.OutputFile(videoUrl, outputDir, mode, now))) == SearchVideoId(videoUrl)
    ensures ExtractVideoIdFromFilename(Name(Playlist.OutputFile(videoUrl, outputDir, mode, now))) == SearchVideoId(videoUrl)
  {
    Playlist.OutputFileName(videoUrl, outputDir, mode, now);
    IdFileNameRead(SearchVideoId(videoUrl).value, mode);
  }

  /** The start pattern never matches a name that begins with an
      eight-digit date followed by "_youtube_". */
  lemma DatedNameNotAtStart(date: string, rest: string)
    requires |date| == 8
    ensures forall i :: 0 <= i ==> !PatternAt(date + "_youtube_" + rest, StartPattern, i)
  {
    var s := date + "_youtube_" + rest;
    assert |s| > IdLength ==> s[IdLength] == 'u';
  }

  /** A name "{date}_youtube_{id}_transcribe.txt", as the single-video
      scripts write them when no title is known, is read as the identifier
      "_transcribe": the `.txt` pattern is tried before `youtube_` and
      matches the last eleven characters before the extension. */
  lemma AutoNamedFileMisread(date: string, id: string)
    requires |date| == 8 && AllDigits(date) && IsVideoToken(id)
    ensures ExtractVideoIdFromFilename(date + "_youtube_" + id + "_transcribe.txt") == Some("_transcribe")
  {
    var rest := id + "_transcribe.txt";
    var s := date + "_youtube_" + rest;
    assert s == date + "_youtube_" + id + "_transcribe.txt";
    DatedNameNotAtStart(date, rest);
    assert s == (date + "_youtube_" + id) + "_transcribe" + ".txt";
    TxtPatternAtEnd(date + "_youtube_" + id, "_transcribe");
    FoundBySecond(s, WrittenOrder);
  }

  /** A name ending in eleven identifier characters and ".txt" matches the
      `.txt` pattern, which captures those eleven characters. */
  lemma TxtPatternAtEnd(head: string, group: string)
    requires IsVideoToken(group)
    ensures SearchPattern(head + group + ".txt", TxtPattern) == Some(group)
  {
    var s := head + group + ".txt";
    var i := |head|;
    assert s[i..i + IdLength] == group;
    assert s[i + IdLength..|s|] == ".txt";
    assert PatternAt(s, TxtPattern, i);
    forall j | 0 <= j < i
      ensures !PatternAt(s, TxtPattern, j)
    {
      assert s[|s| - 1] == 't';
    }
    SearchPatternLeftmost(s, TxtPattern, i);
  }

  /** With the corrected order the same names give their identifier back,
      whatever the mode. */
  lemma AutoNamedFileRead(date: string, id: string, mode: Mode)
    requires |date| == 8 && AllDigits(date) && IsVideoToken(id)
    ensures FilenameVideoId(date + "_youtube_" + id + "_" + ModeName(mode) + ".txt") == Some(id)
  {
    var tail := "_" + ModeName(mode) + ".txt";
    assert date + "_youtube_" + id + "_" + ModeName(mode) + ".txt" == date + "_youtube_" + (id + tail);
    DatedNameRead(date, id, tail);
  }

  lemma DatedNameRead(date: string, id: string, tail: string)
    requires |date| == 8 && AllDigits(date) && IsVideoToken(id)
    ensures FilenameVideoId(date + "_youtube_" + (id + tail)) == Some(id)
  {
    var s := date + "_youtube_" + (id + tail);
    DatedNameNotAtStart(date, id + tail);
    DatedNameYoutubeMatch(date, id, tail);
    FoundBySecond(s, IntendedOrder);
  }

  /** After an eight-digit date the `youtube_` pattern first matches at
      position 9 and captures the identifier that follows it. */
  lemma DatedNameYoutubeMatch(date: string, id: string, tail: string)
    requires |date| == 8 && AllDigits(date) && IsVideoToken(id)
    ensures SearchPattern(date + "_youtube_" + (id + tail), YoutubePattern) == Some(id)
  {
    var s := date + "_youtube_" + (id + tail);
    assert s[9..17] == "youtube_";
    assert s[17..17 + IdLength] == id;
    assert PatternAt(s, YoutubePattern, 9);
    forall j | 0 <= j < 9
      ensures !PatternAt(s, YoutubePattern, j)
    {
      assert s[j] == (date + "_")[j];
      assert j < 8 ==> IsDigit(date[j]);
      assert s[j..j + 8][0] == s[j];
    }
    SearchPatternLeftmost(s, YoutubePattern, 9);
  }

  // ---------------------------------------------------------------------
  // format_number

  /** Three digits, zero-padded on the left. */
  function Pad3(n: nat): (r: string)
    requires n < 1000
    ensures |r| == 3 && AllDigits(r)
  {
    [DigitChar(n / 100), DigitChar(n / 10 % 10), DigitChar(n % 10)]
  }

  /** `f"{n:,}"` for a natural number: its digits with a comma in front of
      every group of three counted from the right. */
  function Grouped(n: nat): (r: string)
  {
    if n < 1000 then NatToString(n) else Grouped(n / 1000) + "," + Pad3(n % 1000)
  }

  /** `format_number(num)`: "0" for a zero count, otherwise the grouped
      digits, after a minus sign for a negative count. */
  function FormatNumber(num: int): (r: string)
    ensures |r| > 0
  {
    if num == 0 then "0" else if num < 0 then "-" + Grouped(-num) else Grouped(num)
  }

  /** Reads a rendered count back: an optional minus sign, then digits
      with the commas ignored. */
  function ReadCount(s: string): (r: Option<int>)
  {
    var negative := |s| > 0 && s[0] == '-';
    var digits := RemoveAll(if negative then s[1..] else s, ",");
    if |digits| == 0 || !AllDigits(digits) then None
    else
      var v: int := ParseNat(digits);
      Some(if negative then -v else v)
  }

  lemma {:induction false} RemoveAllConcat(a: string, b: string, cs: string)
    ensures RemoveAll(a + b, cs) == RemoveAll(a, cs) + RemoveAll(b, cs)
  {
    if |a| == 0 {
      assert a + b == b;
    } else {
      assert (a + b)[0] == a[0] && (a + b)[1..] == a[1..] + b;
      RemoveAllConcat(a[1..], b, cs);
    }
  }

  /** The last three digits of a number of at least four digits. */
  lemma NatToStringThousands(n: nat)
    requires n >= 1000
    ensures NatToString(n) == NatToString(n / 1000) + Pad3(n % 1000)
  {
    var q, r := n / 1000, n % 1000;
    assert n == 1000 * q + r;
    assert n / 10 == 100 * q + r / 10;
    assert n / 10 / 10 == 10 * q + r / 100;
    assert n / 10 / 10 / 10 == q;
    assert n / 10 % 10 == r / 10 % 10;
    assert n / 10 / 10 % 10 == r / 100;
    assert n % 10 == r % 10;
    assert NatToString(n) == NatToString(n / 10) + [DigitChar(n % 10)];
    assert NatToString(n / 10) == NatToString(n / 10 / 10) + [DigitChar(n / 10 % 10)];
    assert NatToString(n / 10 / 10) == NatToString(q) + [DigitChar(n / 10 / 10 % 10)];
  }

  /** Dropping the commas from a grouped number gives its plain digits. */
  lemma {:induction false} GroupedDigits(n: nat)
    ensures RemoveAll(Grouped(n), ",") == NatToString(n)
  {
    if n < 1000 {
      RemoveAllAbsent(NatToString(n), ",");
    } else {
      GroupedDigits(n / 1000);
      RemoveAllConcat(Grouped(n / 1000) + ",", Pad3(n % 1000), ",");
      RemoveAllConcat(Grouped(n / 1000), ",", ",");
      RemoveAllAbsent(Pad3(n % 1000), ",");
      NatToStringThousands(n);
    }
  }

  /** Reading a rendered count gives the count back. */
  lemma FormatNumberRoundTrip(num: int)
    ensures ReadCount(FormatNumber(num)) == Some(num)
  {
    if num == 0 {
      ReadPlainCount(0);
    } else if num < 0 {
      ReadNegativeCount(-num);
    } else {
      ReadPlainCount(num);
    }
  }

  /** A negative count reads back from its rendering. */
  lemma ReadNegativeCount(m: nat)
    requires m > 0
    ensures ReadCount("-" + Grouped(m)) == Some(-(m as int))
  {
    var g := Grouped(m);
    assert ("-" + g)[1..] == g;
    ReadGroupedDigits(m);
  }

  /** The commas of a grouped number drop out and its digits read back. */
  lemma ReadGroupedDigits(m: nat)
    ensures var d := RemoveAll(Grouped(m), ",");
      |d| > 0 && AllDigits(d) && ParseNat(d) == m
  {
    GroupedDigits(m);
    ParseNatToString(m);
  }

  /** A non-negative count reads back from its rendering. */
  lemma ReadPlainCount(m: nat)
    ensures ReadCount(FormatNumber(m)) == Some(m)
  {
    var r := FormatNumber(m);
    assert r == Grouped(m) by {
      if m == 0 {
        assert Grouped(0) == NatToString(0) == "0";
      }
    }
    GroupedFirstDigit(m);
    ReadGroupedDigits(m);
  }

  /** A grouped number starts with a digit. */
  lemma {:induction false} GroupedFirstDigit(n: nat)
    ensures |Grouped(n)| > 0 && IsDigit(Grouped(n)[0])
  {
    if n >= 1000 {
      GroupedFirstDigit(n / 1000);
    }
  }

  /** `s.split(c)` when `s` ends in `c` and a piece free of `c`. */
  lemma {:induction false} SplitOnLastPiece(t: string, c: char, p: string)
    requires c !in p
    ensures SplitOn(t + [c] + p, c) == SplitOn(t, c) + [p]
  {
    var s := t + [c] + p;
    if |t| == 0 {
      assert s == [c] + p && s[1..] == p;
      SplitOnFree(p, c);
    } else {
      assert s[1..] == t[1..] + [c] + p;
      SplitOnLastPiece(t[1..], c, p);
    }
  }

  /** Split at the commas, a grouped number is a first group of one to
      three digits followed by groups of exactly three digits. */
  lemma {:induction false} GroupedShape(n: nat)
    ensures var g := SplitOn(Grouped(n), ',');
      && 1 <= |g[0]| <= 3
      && (forall k :: 1 <= k < |g| ==> |g[k]| == 3)
      && (forall k :: 0 <= k < |g| ==> AllDigits(g[k]))
  {
    if n < 1000 {
      NatToStringLength(n);
      NatToStringShort(n);
      SplitOnFree(NatToString(n), ',');
    } else {
      GroupedShape(n / 1000);
      SplitOnLastPiece(Grouped(n / 1000), ',', Pad3(n % 1000));
    }
  }

  /** Numbers below a thousand have at most three digits. */
  lemma NatToStringShort(n: nat)
    requires n < 1000
    ensures |NatToString(n)| <= 3
  {
    NatToStringLength(n / 10);
  }

  // ---------------------------------------------------------------------
  // clean_transcript_text

  /** Length of the run of `c` at the start of `s`. */
  function RunOf(s: string, c: char): (n: nat)
    ensures n <= |s|
    ensures forall k :: 0 <= k < n ==> s[k] == c
    ensures n < |s| ==> s[n] != c
  {
    if |s| == 0 || s[0] != c then 0 else 1 + RunOf(s[1..], c)
  }

  /** `re.sub(c + '{min,}', repl, s)`: every maximal run of at least `min`
      copies of `c` becomes `repl`, and shorter runs stay as they are. */
  function SqueezeRuns(s: string, c: char, min: nat, repl: string): string
    decreases |s|
  {
    if |s| == 0 then ""
    else if s[0] != c then [s[0]] + SqueezeRuns(s[1..], c, min, repl)
    else
      var n := RunOf(s, c);
      (if n >= min then repl else s[..n]) + SqueezeRuns(s[n..], c, min, repl)
  }

  /** `s.replace(' ' + c, c)`: each space directly in front of `c` is
      dropped, scanning from the left without overlaps. */
  function DropSpaceBefore(s: string, c: char): string
    decreases |s|
  {
    if |s| < 2 then s
    else if s[0] == ' ' && s[1] == c then [c] + DropSpaceBefore(s[2..], c)
    else [s[0]] + DropSpaceBefore(s[1..], c)
  }

  predicate IsStop(c: char)
  {
    c == '.' || c == '!' || c == '?'
  }

  /** Length of the whitespace run at the start of `s`. */
  function SpaceRun(s: string): (n: nat)
    ensures n <= |s|
    ensures forall k :: 0 <= k < n ==> IsSpace(s[k])
    ensures n < |s| ==> !IsSpace(s[n])
  {
    if |s| == 0 || !IsSpace(s[0]) then 0 else 1 + SpaceRun(s[1..])
  }

  /** `re.sub(r'([.!?])\s+([A-Z])', r'\1\n\n\2', s)`: the whitespace between
      a full stop, "!" or "?" and a capital letter becomes a blank line.
      The greedy `\s+` can only succeed with the whole whitespace run, and
      the capital is consumed by the match. */
  function BreakSentences(s: string): string
    decreases |s|
  {
    if |s| == 0 then ""
    else
      var n := SpaceRun(s[1..]);
      if IsStop(s[0]) && n > 0 && n + 1 < |s| && IsUpper(s[n + 1]) then
        [s[0]] + "\n\n" + [s[n + 1]] + BreakSentences(s[n + 2..])
      else [s[0]] + BreakSentences(s[1..])
  }

  /** The four `replace` calls, in their order. */
  function FixPunctuation(s: string): string
  {
    DropSpaceBefore(DropSpaceBefore(DropSpaceBefore(DropSpaceBefore(s, ','), '.'), '?'), '!')
  }

  /** `clean_transcript_text(text)`: three or more line breaks become two,
      runs of spaces become one, spaces before ",", ".", "?" and "!" go,
      sentences are broken into paragraphs, and the ends are stripped. */
  function CleanTranscriptText(text: string): string
  {
    var collapsed := SqueezeRuns(SqueezeRuns(text, '\n', 3, "\n\n"), ' ', 2, " ");
    Strip(BreakSentences(FixPunctuation(collapsed)))
  }

  /** No space stands directly in front of `c` (for `c` a space: no two
      spaces in a row). */
  predicate NoSpaceBefore(s: string, c: char)
  {
    forall k :: 0 < k < |s| ==> !(s[k - 1] == ' ' && s[k] == c)
  }

  /** The characters of `s` for which `hidden` is false, in order. */
  function Shown(s: string, hidden: char -> bool): string
  {
    if |s| == 0 then "" else (if hidden(s[0]) then "" else [s[0]]) + Shown(s[1..], hidden)
  }

  /** The characters of `s` that are not whitespace, in order. */
  function Visible(s: string): string
  {
    Shown(s, IsSpace)
  }

  // The lemmas below hold for any set of hidden characters; cleaning only
  // needs them for whitespace.

  lemma {:induction false} ShownConcat(a: string, b: string, hidden: char -> bool)
    ensures Shown(a + b, hidden) == Shown(a, hidden) + Shown(b, hidden)
  {
    if |a| == 0 {
      assert a + b == b;
    } else {
      assert (a + b)[0] == a[0] && (a + b)[1..] == a[1..] + b;
      ShownConcat(a[1..], b, hidden);
    }
  }

  lemma {:induction false} ShownBlank(s: string, hidden: char -> bool)
    requires forall k :: 0 <= k < |s| ==> hidden(s[k])
    ensures Shown(s, hidden) == ""
  {
    if |s| > 0 {
      ShownBlank(s[1..], hidden);
    }
  }

  lemma ShownCons(s: string, hidden: char -> bool)
    requires |s| > 0
    ensures Shown(s, hidden) == Shown([s[0]], hidden) + Shown(s[1..], hidden)
  {
    assert [s[0]][1..] == [];
  }

  lemma ShownChar(c: char, hidden: char -> bool)
    requires !hidden(c)
    ensures Shown([c], hidden) == [c]
  {
    assert [c][1..] == [];
  }

  /** Squeezing runs of a hidden character into hidden characters keeps
      what is shown. */
  lemma {:induction false} SqueezeShown(s: string, c: char, min: nat, repl: string, hidden: char -> bool)
    requires hidden(c) && forall k :: 0 <= k < |repl| ==> hidden(repl[k])
    ensures Shown(SqueezeRuns(s, c, min, repl), hidden) == Shown(s, hidden)
    decreases |s|
  {
    if |s| > 0 {
      if s[0] != c {
        SqueezeShown(s[1..], c, min, repl, hidden);
        ShownConcat([s[0]], SqueezeRuns(s[1..], c, min, repl), hidden);
        ShownCons(s, hidden);
      } else {
        var n := RunOf(s, c);
        var piece := if n >= min then repl else s[..n];
        SqueezeShown(s[n..], c, min, repl, hidden);
        ShownConcat(piece, SqueezeRuns(s[n..], c, min, repl), hidden);
        ShownBlank(piece, hidden);
        ShownBlank(s[..n], hidden);
        ShownConcat(s[..n], s[n..], hidden);
        assert s[..n] + s[n..] == s;
      }
    }
  }

  lemma {:induction false} DropSpaceShown(s: string, c: char, hidden: char -> bool)
    requires hidden(' ') && !hidden(c)
    ensures Shown(DropSpaceBefore(s, c), hidden) == Shown(s, hidden)
    decreases |s|
  {
    if |s| >= 2 {
      if s[0] == ' ' && s[1] == c {
        DropSpaceShown(s[2..], c, hidden);
        ShownConcat([c], DropSpaceBefore(s[2..], c), hidden);
        ShownCons(s, hidden);
        ShownCons(s[1..], hidden);
        assert s[1..][1..] == s[2..];
      } else {
        DropSpaceShown(s[1..], c, hidden);
        ShownConcat([s[0]], DropSpaceBefore(s[1..], c), hidden);
        ShownCons(s, hidden);
      }
    }
  }

  lemma ShownHead(s: string, hidden: char -> bool)
    requires |s| > 0 && !hidden(s[0])
    ensures Shown(s, hidden) == [s[0]] + Shown(s[1..], hidden)
  {
    ShownCons(s, hidden);
    ShownChar(s[0], hidden);
  }

  /** Hidden characters from `i` up to `j` do not show. */
  lemma ShownSkip(s: string, i: nat, j: nat, hidden: char -> bool)
    requires i <= j <= |s| && forall k :: i <= k < j ==> hidden(s[k])
    ensures Shown(s[i..], hidden) == Shown(s[j..], hidden)
  {
    assert s[i..] == s[i..j] + s[j..];
    ShownConcat(s[i..j], s[j..], hidden);
    ShownBlank(s[i..j], hidden);
  }

  /** Hidden characters from `j` to the end do not show. */
  lemma ShownDropTail(s: string, j: nat, hidden: char -> bool)
    requires j <= |s| && forall k :: j <= k < |s| ==> hidden(s[k])
    ensures Shown(s[..j], hidden) == Shown(s, hidden)
  {
    assert s == s[..j] + s[j..];
    ShownConcat(s[..j], s[j..], hidden);
    ShownBlank(s[j..], hidden);
  }

  /** A shown character, a hidden run and a shown character: only the two
      ends show. */
  lemma GapShown(s: string, n: nat, hidden: char -> bool)
    requires 0 < n && n + 1 < |s| && !hidden(s[0]) && !hidden(s[n + 1])
    requires forall k :: 1 <= k <= n ==> hidden(s[k])
    ensures Shown(s, hidden) == [s[0]] + ([s[n + 1]] + Shown(s[n + 2..], hidden))
  {
    ShownHead(s, hidden);
    ShownSkip(s, 1, n + 1, hidden);
    var tail := s[n + 1..];
    ShownHead(tail, hidden);
    assert tail[1..] == s[n + 2..];
  }

  lemma PieceShown(a: char, b: char, rest: string, hidden: char -> bool)
    requires !hidden(a) && !hidden(b) && hidden('\n')
    ensures Shown([a] + "\n\n" + [b] + rest, hidden) == [a] + ([b] + Shown(rest, hidden))
  {
    var s := [a] + "\n\n" + [b] + rest;
    ShownHead(s, hidden);
    ShownSkip(s, 1, 3, hidden);
    var tail := s[3..];
    assert tail == [b] + rest;
    ShownHead(tail, hidden);
    assert tail[1..] == rest;
  }

  /** Paragraph breaks only exchange whitespace for whitespace. */
  lemma {:induction false} BreakShown(s: string, hidden: char -> bool)
    requires forall c :: IsSpace(c) ==> hidden(c)
    requires forall c :: IsStop(c) || IsUpper(c) ==> !hidden(c)
    ensures Shown(BreakSentences(s), hidden) == Shown(s, hidden)
    decreases |s|
  {
    if |s| > 0 {
      var n := SpaceRun(s[1..]);
      if IsStop(s[0]) && n > 0 && n + 1 < |s| && IsUpper(s[n + 1]) {
        BreakShown(s[n + 2..], hidden);
        GapShown(s, n, hidden);
        PieceShown(s[0], s[n + 1], BreakSentences(s[n + 2..]), hidden);
      } else {
        BreakShown(s[1..], hidden);
        ShownConcat([s[0]], BreakSentences(s[1..]), hidden);
        ShownCons(s, hidden);
      }
    }
  }

  lemma StripShown(s: string, hidden: char -> bool)
    requires forall c :: IsSpace(c) ==> hidden(c)
    ensures Shown(Strip(s), hidden) == Shown(s, hidden)
  {
    var i, j := StripSlice(s);
    ShownSkip(s, 0, i, hidden);
    assert s[0..] == s;
    var l := s[i..];
    ShownDropTail(l, j - i, hidden);
    assert l[..j - i] == s[i..j];
  }

  /** Full stops, "!", "?" and capitals are not whitespace. */
  lemma StopsAndCapitalsShow()
    ensures forall c :: IsStop(c) || IsUpper(c) ==> !IsSpace(c)
  {
  }

  /** Cleaning only moves, merges or drops whitespace: every other
      character of the transcript is kept, in order. */
  lemma CleanKeepsText(text: string)
    ensures Visible(CleanTranscriptText(text)) == Visible(text)
  {
    var t1 := SqueezeRuns(text, '\n', 3, "\n\n");
    var t2 := SqueezeRuns(t1, ' ', 2, " ");
    SqueezeShown(text, '\n', 3, "\n\n", IsSpace);
    SqueezeShown(t1, ' ', 2, " ", IsSpace);
    var a := DropSpaceBefore(t2, ',');
    var b := DropSpaceBefore(a, '.');
    var c := DropSpaceBefore(b, '?');
    DropSpaceShown(t2, ',', IsSpace);
    DropSpaceShown(a, '.', IsSpace);
    DropSpaceShown(b, '?', IsSpace);
    DropSpaceShown(c, '!', IsSpace);
    StopsAndCapitalsShow();
    BreakShown(FixPunctuation(t2), IsSpace);
    StripShown(BreakSentences(FixPunctuation(t2)), IsSpace);
  }

  // The layout guarantees of cleaning.

  lemma NoSpaceBeforeConcat(x: string, y: string, c: char)
    requires NoSpaceBefore(x, c) && NoSpaceBefore(y, c)
    requires |x| > 0 && |y| > 0 ==> !(x[|x| - 1] == ' ' && y[0] == c)
    ensures NoSpaceBefore(x + y, c)
  {
    var s := x + y;
    forall k | 0 < k < |s|
      ensures !(s[k - 1] == ' ' && s[k] == c)
    {
      if k < |x| {
        assert s[k - 1] == x[k - 1] && s[k] == x[k];
      } else if k > |x| {
        assert s[k - 1] == y[k - 1 - |x|] && s[k] == y[k - |x|];
      }
    }
  }

  lemma NoSpaceBeforeSlice(s: string, i: nat, j: nat, c: char)
    requires i <= j <= |s| && NoSpaceBefore(s, c)
    ensures NoSpaceBefore(s[i..j], c)
  {
    var t := s[i..j];
    forall k | 0 < k < |t|
      ensures !(t[k - 1] == ' ' && t[k] == c)
    {
      assert t[k - 1] == s[i + k - 1] && t[k] == s[i + k];
    }
  }

  /** A squeezed text starts with the character the original starts with. */
  lemma SqueezeFirst(s: string, c: char, min: nat, repl: string)
    requires |s| > 0 && |repl| > 0 && repl[0] == c
    ensures |SqueezeRuns(s, c, min, repl)| > 0 && SqueezeRuns(s, c, min, repl)[0] == s[0]
  {
  }

  /** After `re.sub(' {2,}', ' ', s)` no two spaces are adjacent. */
  lemma {:induction false} SqueezeSpaces(s: string)
    ensures NoSpaceBefore(SqueezeRuns(s, ' ', 2, " "), ' ')
    decreases |s|
  {
    if |s| > 0 {
      if s[0] != ' ' {
        SqueezeSpaces(s[1..]);
        NoSpaceBeforeConcat([s[0]], SqueezeRuns(s[1..], ' ', 2, " "), ' ');
      } else {
        var n := RunOf(s, ' ');
        var piece := if n >= 2 then " " else s[..n];
        assert piece == " ";
        SqueezeSpaces(s[n..]);
        if n < |s| {
          SqueezeFirst(s[n..], ' ', 2, " ");
        }
        NoSpaceBeforeConcat(piece, SqueezeRuns(s[n..], ' ', 2, " "), ' ');
      }
    }
  }

  /** The first character after dropping spaces before `c`. */
  lemma DropSpaceFirst(s: string, c: char)
    requires |s| > 0
    ensures |DropSpaceBefore(s, c)| > 0
    ensures DropSpaceBefore(s, c)[0] == (if |s| >= 2 && s[0] == ' ' && s[1] == c then c else s[0])
  {
  }

  /** In a text without double spaces, dropping the spaces before `c`
      leaves no space before `c`, keeps that property for every other
      character `d` that had it, and creates no double space. */
  lemma {:induction false} DropSpaceShape(s: string, c: char, d: char)
    requires c != ' ' && NoSpaceBefore(s, ' ')
    requires d == c || NoSpaceBefore(s, d)
    ensures NoSpaceBefore(DropSpaceBefore(s, c), d)
    decreases |s|
  {
    if |s| >= 2 {
      if s[0] == ' ' && s[1] == c {
        NoSpaceBeforeSlice(s, 2, |s|, ' ');
        if d != c {
          NoSpaceBeforeSlice(s, 2, |s|, d);
        }
        DropSpaceShape(s[2..], c, d);
        NoSpaceBeforeConcat([c], DropSpaceBefore(s[2..], c), d);
      } else {
        var t := s[1..];
        NoSpaceBeforeSlice(s, 1, |s|, ' ');
        if d != c {
          NoSpaceBeforeSlice(s, 1, |s|, d);
        }
        DropSpaceShape(t, c, d);
        DropSpaceFirst(t, c);
        assert s[0] == ' ' ==> t[0] != ' ';
        NoSpaceBeforeConcat([s[0]], DropSpaceBefore(t, c), d);
      }
    }
  }

  /** The four replacements leave no space before ",", ".", "?" or "!",
      and no double space, in a text that had no double space. */
  lemma FixPunctuationShape(s: string)
    requires NoSpaceBefore(s, ' ')
    ensures var r := FixPunctuation(s);
      && NoSpaceBefore(r, ' ') && NoSpaceBefore(r, ',') && NoSpaceBefore(r, '.')
      && NoSpaceBefore(r, '?') && NoSpaceBefore(r, '!')
  {
    var a := DropSpaceBefore(s, ',');
    DropSpaceShape(s, ',', ' ');
    DropSpaceShape(s, ',', ',');
    var b := DropSpaceBefore(a, '.');
    DropSpaceShape(a, '.', ' ');
    DropSpaceShape(a, '.', ',');
    DropSpaceShape(a, '.', '.');
    var c := DropSpaceBefore(b, '?');
    DropSpaceShape(b, '?', ' ');
    DropSpaceShape(b, '?', ',');
    DropSpaceShape(b, '?', '.');
    DropSpaceShape(b, '?', '?');
    DropSpaceShape(c, '!', ' ');
    DropSpaceShape(c, '!', ',');
    DropSpaceShape(c, '!', '.');
    DropSpaceShape(c, '!', '?');
    DropSpaceShape(c, '!', '!');
  }

  lemma BreakFirst(s: string)
    requires |s| > 0
    ensures |BreakSentences(s)| > 0 && BreakSentences(s)[0] == s[0]
  {
  }

  /** Paragraph breaks put no space in front of anything. */
  lemma {:induction false} BreakKeeps(s: string, d: char)
    requires NoSpaceBefore(s, d)
    ensures NoSpaceBefore(BreakSentences(s), d)
    decreases |s|
  {
    if |s| > 0 {
      var n := SpaceRun(s[1..]);
      if IsStop(s[0]) && n > 0 && n + 1 < |s| && IsUpper(s[n + 1]) {
        var piece := [s[0]] + "\n\n" + [s[n + 1]];
        NoSpaceBeforeSlice(s, n + 2, |s|, d);
        BreakKeeps(s[n + 2..], d);
        assert forall k :: 0 <= k < |piece| ==> piece[k] != ' ';
        NoSpaceBeforeConcat(piece, BreakSentences(s[n + 2..]), d);
      } else {
        NoSpaceBeforeSlice(s, 1, |s|, d);
        BreakKeeps(s[1..], d);
        if |s| > 1 {
          BreakFirst(s[1..]);
        }
        NoSpaceBeforeConcat([s[0]], BreakSentences(s[1..]), d);
      }
    }
  }

  /** Breaking and stripping keep "no space before `d`". */
  lemma FinishKeeps(s: string, d: char)
    requires NoSpaceBefore(s, d)
    ensures NoSpaceBefore(Strip(BreakSentences(s)), d)
  {
    BreakKeeps(s, d);
    var i, j := StripSlice(BreakSentences(s));
    NoSpaceBeforeSlice(BreakSentences(s), i, j, d);
  }

  /** A cleaned transcript has no whitespace at either end, never two
      spaces in a row, and no space in front of ",", ".", "?" or "!". */
  lemma CleanLayout(text: string)
    ensures var r := CleanTranscriptText(text);
      && Trimmed(r)
      && NoSpaceBefore(r, ' ') && NoSpaceBefore(r, ',') && NoSpaceBefore(r, '.')
      && NoSpaceBefore(r, '?') && NoSpaceBefore(r, '!')
  {
    var collapsed := SqueezeRuns(SqueezeRuns(text, '\n', 3, "\n\n"), ' ', 2, " ");
    SqueezeSpaces(SqueezeRuns(text, '\n', 3, "\n\n"));
    var f := FixPunctuation(collapsed);
    FixPunctuationShape(collapsed);
    FinishKeeps(f, ' ');
    FinishKeeps(f, ',');
    FinishKeeps(f, '.');
    FinishKeeps(f, '?');
    FinishKeeps(f, '!');
    var _, _ := StripSlice(BreakSentences(f));
  }

  // ---------------------------------------------------------------------
  // detect_transcript_type

  /** Length of the run of decimal digits starting at position `i`. */
  function DigitsAt(s: string, i: nat): (n: nat)
    ensures n > 0 ==> i + n <= |s|
    ensures forall k :: i <= k < i + n ==> IsDigit(s[k])
    ensures i + n < |s| ==> !IsDigit(s[i + n])
    decreases |s| - i
  {
    if i >= |s| || !IsDigit(s[i]) then 0 else 1 + DigitsAt(s, i + 1)
  }

  /** A run of exactly `n` digits starts at `i`. */
  lemma {:induction false} DigitsAtExact(s: string, i: nat, n: nat)
    requires i + n <= |s| && forall k :: i <= k < i + n ==> IsDigit(s[k])
    requires i + n < |s| ==> !IsDigit(s[i + n])
    ensures DigitsAt(s, i) == n
    decreases n
  {
    if n > 0 {
      DigitsAtExact(s, i + 1, n - 1);
    }
  }

  /** `\[\d+:\d+\]` matches at `i`. Each `\d+` has to take its whole run,
      since the character after it must be ":" or "]". */
  predicate BracketStampAt(s: string, i: nat)
  {
    var a := DigitsAt(s, i + 1);
    var b := DigitsAt(s, i + a + 2);
    && i < |s| && s[i] == '['
    && a > 0 && i + a + 1 < |s| && s[i + a + 1] == ':'
    && b > 0 && i + a + b + 2 < |s| && s[i + a + b + 2] == ']'
  }

  /** `\d+:\d+:\d+` matches at `i`. */
  predicate ClockAt(s: string, i: nat)
  {
    var a := DigitsAt(s, i);
    var b := DigitsAt(s, i + a + 1);
    && a > 0 && i + a < |s| && s[i + a] == ':'
    && b > 0 && i + a + b + 1 < |s| && s[i + a + b + 1] == ':'
    && DigitsAt(s, i + a + b + 2) > 0
  }

  /** `^\d+:\d+\s` under MULTILINE matches at `i`: `i` starts a line. */
  predicate LineStampAt(s: string, i: nat)
  {
    var a := DigitsAt(s, i);
    var b := DigitsAt(s, i + a + 1);
    && (i == 0 || (i <= |s| && s[i - 1] == '\n'))
    && a > 0 && i + a < |s| && s[i + a] == ':'
    && b > 0 && i + a + b + 1 < |s| && IsSpace(s[i + a + b + 1])
  }

  /** `\{\d+\}` matches at `i`. */
  predicate BraceAt(s: string, i: nat)
  {
    var a := DigitsAt(s, i + 1);
    && i < |s| && s[i] == '{'
    && a > 0 && i + a + 1 < |s| && s[i + a + 1] == '}'
  }

  /** One of the four timestamp patterns matches somewhere. */
  predicate HasTimestamp(s: string)
  {
    exists i :: 0 <= i < |s| && (BracketStampAt(s, i) || ClockAt(s, i) || LineStampAt(s, i) || BraceAt(s, i))
  }

  /** A summary keyword occurs in the first 200 characters, lower-cased. */
  predicate MentionsSummary(s: string)
  {
    var head := Lower(s)[..if |s| < 200 then |s| else 200];
    Contains(head, "summary:") || Contains(head, "outline:") || Contains(head, "key points:") || Contains(head, "overview:")
  }

  datatype TranscriptType = Timestamped | Summary | Plain

  /** The name `detect_transcript_type` returns. */
  function TypeName(t: TranscriptType): string
  {
    match t
    case Timestamped => "timestamped"
    case Summary => "summary"
    case Plain => "plain"
  }

  /** `detect_transcript_type(content)`: a timestamp anywhere wins over a
      summary keyword near the start, which wins over plain text. */
  function DetectTranscriptType(content: string): (r: TranscriptType)
    ensures r == Timestamped <==> HasTimestamp(content)
    ensures r == Summary <==> !HasTimestamp(content) && MentionsSummary(content)
    ensures r == Plain <==> !HasTimestamp(content) && !MentionsSummary(content)
  {
    if HasTimestamp(content) then Timestamped
    else if MentionsSummary(content) then Summary
    else Plain
  }

  /** `s` starts with "[", `a` digits, ":", `b` digits and "]". */
  predicate StampShape(s: string, a: nat, b: nat)
  {
    && a > 0 && b > 0 && a + b + 3 <= |s|
    && s[0] == '[' && s[a + 1] == ':' && s[a + b + 2] == ']'
    && AllDigits(s[1..a + 1]) && AllDigits(s[a + 2..a + b + 2])
  }

  /** A text that begins with "[" + m + ":" + c + "]", `m` and `c` digits,
      has that shape. */
  lemma StampShapeOf(s: string, p: string, m: string, c: string)
    requires |m| > 0 && |c| > 0 && AllDigits(m) && AllDigits(c)
    requires p == "[" + m + ":" + c + "]"
    requires |p| <= |s| && s[..|p|] == p
    ensures StampShape(s, |m|, |c|)
  {
    assert s[0] == p[0];
    assert s[1..1 + |m|] == p[1..1 + |m|] == m;
    assert s[1 + |m|] == p[1 + |m|];
    assert s[2 + |m|..2 + |m| + |c|] == p[2 + |m|..2 + |m| + |c|] == c;
    assert s[2 + |m| + |c|] == p[2 + |m| + |c|];
  }

  /** Both digit runs of a stamp are maximal. */
  lemma StampShapeDigits(s: string, a: nat, b: nat)
    requires StampShape(s, a, b)
    ensures DigitsAt(s, 1) == a && DigitsAt(s, a + 2) == b
  {
    assert forall k :: 1 <= k < a + 1 ==> s[k] == s[1..a + 1][k - 1];
    assert forall k :: a + 2 <= k < a + b + 2 ==> s[k] == s[a + 2..a + b + 2][k - a - 2];
    DigitsAtExact(s, 1, a);
    DigitsAtExact(s, a + 2, b);
  }

  /** A text with a stamp at its start has the bracketed pattern there. */
  lemma BracketShapeMatches(s: string, a: nat, b: nat)
    requires StampShape(s, a, b)
    ensures BracketStampAt(s, 0)
  {
    StampShapeDigits(s, a, b);
  }

  /** A match at one position is a timestamp in the text. */
  lemma BracketStampFound(s: string, i: nat)
    requires i < |s| && BracketStampAt(s, i)
    ensures DetectTranscriptType(s) == Timestamped
  {
  }

  /** A joined text starts with its first part. */
  lemma {:induction false} JoinStartsWithFirst(sep: string, parts: seq<string>)
    requires |parts| > 0
    ensures |parts[0]| <= |Join(sep, parts)| && Join(sep, parts)[..|parts[0]|] == parts[0]
  {
  }

  /** The timestamped text the captions script writes is recognised as
      timestamped. */
  lemma StampedTranscriptDetected(entries: seq<CaptionsApi.CaptionEntry>)
    requires |entries| > 0
    ensures DetectTranscriptType(Join("\n", CaptionsApi.StampedLines(entries))) == Timestamped
  {
    StampedTextStartsWithStamp(entries);
    StampPrefixDetected(Join("\n", CaptionsApi.StampedLines(entries)), entries[0].start);
  }

  /** The timestamped captions text starts with the first entry's stamp. */
  lemma StampedTextStartsWithStamp(entries: seq<CaptionsApi.CaptionEntry>)
    requires |entries| > 0
    ensures var text, st := Join("\n", CaptionsApi.StampedLines(entries)), CaptionsApi.Stamp(entries[0].start);
            |st| <= |text| && text[..|st|] == st
  {
    var lines := CaptionsApi.StampedLines(entries);
    CaptionsApi.StampedLineAt(entries, 0);
    StampedLineStartsWithStamp(entries[0]);
    JoinStartsWithFirst("\n", lines);
    PrefixOfPrefix(CaptionsApi.Stamp(entries[0].start), lines[0], Join("\n", lines));
  }

  /** A stamped line starts with its stamp. */
  lemma StampedLineStartsWithStamp(e: CaptionsApi.CaptionEntry)
    ensures var st := CaptionsApi.Stamp(e.start);
            |st| <= |CaptionsApi.StampedLine(e)| && CaptionsApi.StampedLine(e)[..|st|] == st
  {
    PrefixOfAppend(CaptionsApi.Stamp(e.start), " ", Strip(e.text));
  }

  lemma PrefixOfAppend(a: string, b: string, c: string)
    ensures (a + b + c)[..|a|] == a
  {
  }

  /** Being a prefix is transitive; a stamped line starts with its stamp. */
  lemma PrefixOfPrefix(a: string, b: string, c: string)
    requires |a| <= |b| && b[..|a|] == a
    requires |b| <= |c| && c[..|b|] == b
    ensures |a| <= |c| && c[..|a|] == a
  {
    assert c[..|a|] == c[..|b|][..|a|];
  }

  /** A text that starts with a captions stamp "[MM:SS]" is timestamped. */
  lemma StampPrefixDetected(text: string, start: nat)
    requires |CaptionsApi.Stamp(start)| <= |text| && text[..|CaptionsApi.Stamp(start)|] == CaptionsApi.Stamp(start)
    ensures DetectTranscriptType(text) == Timestamped
  {
    var m, c := Pad2(start / 60), Pad2(start % 60);
    StampShapeOf(text, CaptionsApi.Stamp(start), m, c);
    BracketShapeMatches(text, |m|, |c|);
    BracketStampFound(text, 0);
  }

  // ---------------------------------------------------------------------
  // format_timestamped_transcript

  /** Where group 1 of the line pattern may end when `\]?` is tried at
      `x`: after a "]" first, then before it. */
  function BracketEnds(L: string, x: nat): seq<nat>
  {
    if x < |L| && L[x] == ']' then [x + 1, x] else [x]
  }

  /** The ends of group 1 when `(?::\d+)` is present after the minutes
      ending at `q`, its digits taken `d` at a time, longest first. */
  function SecondsEnds(L: string, q: nat, d: nat): seq<nat>
    decreases d
  {
    if d == 0 then [] else BracketEnds(L, q + 1 + d) + SecondsEnds(L, q, d - 1)
  }

  /** The ends of group 1 when the second `\d+` starts at `p` and takes
      `d` digits, then fewer: for each length the optional seconds are
      tried before they are left out. */
  function MinuteEnds(L: string, p: nat, d: nat): seq<nat>
    decreases d
  {
    if d == 0 then []
    else
      var q := p + d;
      (if q < |L| && L[q] == ':' then SecondsEnds(L, q, DigitsAt(L, q + 1)) else [])
      + BracketEnds(L, q) + MinuteEnds(L, p, d - 1)
  }

  /** The first candidate below `n`. */
  function FirstBelow(xs: seq<nat>, n: nat): (r: Option<nat>)
    ensures r.Some? ==> r.value < n && r.value in xs
    ensures r.None? <==> forall k :: 0 <= k < |xs| ==> xs[k] >= n
  {
    if |xs| == 0 then None else if xs[0] < n then Some(xs[0]) else FirstBelow(xs[1..], n)
  }

  /** Where group 1 of `^(\[?\d+:\d+(?::\d+)?\]?)\s*(.+)` ends on a
      line without line breaks, or None when the pattern does not match.
      The leading `\[?` and the first `\d+` can only take all they can,
      since what follows each of them cannot be "[" or a digit; the rest
      is tried in the backtracking order of the matcher, and the first end
      that leaves at least one character for `(.+)` wins. */
  function StampEnd(L: string): (r: Option<nat>)
    ensures r.Some? ==> 0 < r.value < |L|
  {
    var b := if |L| > 0 && L[0] == '[' then 1 else 0;
    var d := DigitsAt(L, b);
    if d == 0 || b + d >= |L| || L[b + d] != ':' then None
    else
      var r := FirstBelow(MinuteEnds(L, b + d + 1, DigitsAt(L, b + d + 1)), |L|);
      if r.Some? && r.value == 0 then None else r
  }

  /** Where group 2 starts once group 1 ends at `r`: after the spaces, or
      on the last character when `\s*` has to give one back. */
  function TextStart(L: string, r: nat): (t: nat)
    requires r < |L|
    ensures r <= t < |L|
  {
    var w := SpaceRun(L[r..]);
    if r + w < |L| then r + w else |L| - 1
  }

  predicate IsBracket(c: char)
  {
    c == '[' || c == ']'
  }

  /** `s.strip('[]')`. */
  function StripBrackets(s: string): (r: string)
    ensures |r| > 0 ==> !IsBracket(r[0]) && !IsBracket(r[|r| - 1])
  {
    StripBracketsRight(StripBracketsLeft(s))
  }

  function StripBracketsLeft(s: string): (r: string)
    ensures |r| <= |s| && r == s[|s| - |r|..]
    ensures |r| > 0 ==> !IsBracket(r[0])
  {
    if |s| > 0 && IsBracket(s[0]) then StripBracketsLeft(s[1..]) else s
  }

  function StripBracketsRight(s: string): (r: string)
    ensures |r| <= |s| && r == s[..|r|]
    ensures |r| > 0 ==> !IsBracket(r[|r| - 1])
  {
    if |s| > 0 && IsBracket(s[|s| - 1]) then StripBracketsRight(s[..|s| - 1]) else s
  }

  /** The paragraph one stripped, non-blank line becomes. */
  function FormatStampedLine(L: string): string
  {
    match StampEnd(L)
    case None => L
    case Some(r) => "**" + StripBrackets(L[..r]) + "** - " + L[TextStart(L, r)..]
  }

  /** The paragraphs for `lines`: one per line that is not blank. */
  function FormattedLines(lines: seq<string>): seq<string>
  {
    if |lines| == 0 then []
    else
      var rest := FormattedLines(lines[..|lines| - 1]);
      var L := Strip(lines[|lines| - 1]);
      if L == "" then rest else rest + [FormatStampedLine(L)]
  }

  /** The text `format_timestamped_transcript` returns for `content`. */
  function FormattedText(content: string): string
  {
    Join("\n\n", FormattedLines(SplitOn(content, '\n')))
  }

  /** `format_timestamped_transcript(content)`. */
  method FormatTimestampedTranscript(content: string) returns (r: string)
    ensures r == FormattedText(content)
  {
    var lines := SplitOn(content, '\n');
    var formatted: seq<string> := [];
    for i := 0 to |lines|
      invariant formatted == FormattedLines(lines[..i])
    {
      assert lines[..i + 1][..i] == lines[..i];
      var line := Strip(lines[i]);
      if line != "" {
        var m := StampEnd(line);
        if m.Some? {
          var timestamp := StripBrackets(line[..m.value]);
          var text := line[TextStart(line, m.value)..];
          formatted := formatted + ["**" + timestamp + "** - " + text];
        } else {
          formatted := formatted + [line];
        }
      }
    }
    assert lines[..|lines|] == lines;
    r := Join("\n\n", formatted);
  }

  /** A slice holds no character its text does not. */
  lemma SliceFree(s: string, i: nat, j: nat, c: char)
    requires i <= j <= |s| && c !in s
    ensures c !in s[i..j]
  {
  }

  /** A formatted line is never empty, and it holds no line break when
      the line did not: paragraphs stay one line each. */
  lemma FormatStampedLineShape(L: string)
    requires L != "" && '\n' !in L
    ensures FormatStampedLine(L) != "" && '\n' !in FormatStampedLine(L)
  {
    match StampEnd(L)
    case None =>
    case Some(r) =>
      var s := L[..r];
      SliceFree(L, 0, r, '\n');
      var sl := StripBracketsLeft(s);
      SliceFree(s, |s| - |sl|, |s|, '\n');
      SliceFree(sl, 0, |StripBrackets(s)|, '\n');
      SliceFree(L, TextStart(L, r), |L|, '\n');
      BoldLineFree(StripBrackets(s), L[TextStart(L, r)..]);
  }

  lemma BoldLineFree(stamp: string, text: string)
    requires '\n' !in stamp && '\n' !in text
    ensures '\n' !in "**" + stamp + "** - " + text
  {
    var r := "**" + stamp + "** - " + text;
    forall k | 0 <= k < |r| ensures r[k] != '\n' {
      if k < 2 + |stamp| + 5 {
        if 2 <= k < 2 + |stamp| {
          assert r[k] == stamp[k - 2];
        }
      } else {
        assert r[k] == text[k - 2 - |stamp| - 5];
      }
    }
  }

  /** Every paragraph is one non-empty line, and no line yields more than
      one of them. */
  lemma {:induction false} FormattedLinesShape(lines: seq<string>)
    requires forall k :: 0 <= k < |lines| ==> '\n' !in lines[k]
    ensures |FormattedLines(lines)| <= |lines|
    ensures forall k :: 0 <= k < |FormattedLines(lines)| ==>
              FormattedLines(lines)[k] != "" && '\n' !in FormattedLines(lines)[k]
  {
    if |lines| > 0 {
      var init := lines[..|lines| - 1];
      FormattedLinesShape(init);
      var last := lines[|lines| - 1];
      var L := Strip(last);
      if L != "" {
        var i, j := StripSlice(last);
        SliceFree(last, i, j, '\n');
        FormatStampedLineShape(L);
      }
    }
  }

  /** On a line that starts with a stamp and goes on after it, group 1
      is the whole bracketed stamp. */
  lemma StampShapeEnd(L: string, a: nat, b: nat)
    requires StampShape(L, a, b) && a + b + 3 < |L|
    ensures StampEnd(L) == Some(a + b + 3)
  {
    StampShapeDigits(L, a, b);
    MinuteEndsBracket(L, a + 2, b);
    FirstBelowHead(MinuteEnds(L, a + 2, b), |L|);
  }

  /** Minutes of `d` digits followed by "]" end group 1 after the bracket
      first, then before it, then come the shorter tries. */
  lemma MinuteEndsBracket(L: string, p: nat, d: nat)
    requires d > 0 && p + d < |L| && L[p + d] == ']'
    ensures MinuteEnds(L, p, d) == [p + d + 1, p + d] + MinuteEnds(L, p, d - 1)
  {
  }

  /** A first candidate below the bound is the one taken. */
  lemma FirstBelowHead(xs: seq<nat>, n: nat)
    requires |xs| > 0 && xs[0] < n
    ensures FirstBelow(xs, n) == Some(xs[0])
  {
  }

  /** Stripping the brackets off a stamp leaves what was between them. */
  lemma StampShapeStrip(L: string, a: nat, b: nat)
    requires StampShape(L, a, b)
    ensures StripBrackets(L[..a + b + 3]) == L[1..a + b + 2]
  {
    var p := L[..a + b + 3];
    var w := p[1..];
    assert w[0] == L[1..a + 1][0];
    assert StripBracketsLeft(p) == w;
    var inner := w[..|w| - 1];
    assert inner == L[1..a + b + 2];
    assert inner[|inner| - 1] == L[a + 2..a + b + 2][b - 1];
    assert StripBracketsRight(w) == StripBracketsRight(inner) == inner;
  }

  /** After one space, the text starts. */
  lemma TextAfterSpace(L: string, r: nat, t: nat)
    requires t == r + 1 && t < |L| && L[r] == ' ' && !IsSpace(L[t])
    ensures TextStart(L, r) == t
  {
    assert L[r..][1..][0] == L[t];
  }

  /** How a line "[M:S] text" is laid out. */
  lemma BracketedLineParts(L: string, p: string, m: string, c: string, x: string)
    requires |m| > 0 && |c| > 0 && AllDigits(m) && AllDigits(c) && x != ""
    requires p == "[" + m + ":" + c + "]" && L == p + " " + x
    ensures StampShape(L, |m|, |c|) && L[1..|m| + |c| + 2] == m + ":" + c
    ensures |m| + |c| + 4 < |L| && L[|m| + |c| + 3] == ' ' && L[|m| + |c| + 4..] == x
  {
    assert L[..|p|] == p;
    StampShapeOf(L, p, m, c);
    assert L[1..|m| + |c| + 2] == p[1..|p| - 1] == m + ":" + c;
  }

  /** The paragraph for a line on which group 1 ends at `r`. */
  lemma FormatAtEnd(L: string, r: nat, stamp: string, t: nat)
    requires StampEnd(L) == Some(r) && TextStart(L, r) == t
    requires StripBrackets(L[..r]) == stamp
    ensures FormatStampedLine(L) == "**" + stamp + "** - " + L[t..]
  {
  }

  /** A line "[M:S] text" becomes the paragraph "**M:S** - text". */
  lemma BracketedLineFormatted(L: string, a: nat, b: nat)
    requires StampShape(L, a, b) && a + b + 4 < |L| && L[a + b + 3] == ' ' && !IsSpace(L[a + b + 4])
    ensures FormatStampedLine(L) == "**" + L[1..a + b + 2] + "** - " + L[a + b + 4..]
  {
    StampShapeStrip(L, a, b);
    StampShapeEnd(L, a, b);
    SpacedStampFormatted(L, a + b + 3, L[1..a + b + 2], a + b + 4);
  }

  /** Group 1 ending at `r` and followed by one space and a non-space:
      the text starts right after the space. */
  lemma SpacedStampFormatted(L: string, r: nat, stamp: string, t: nat)
    requires StampEnd(L) == Some(r) && StripBrackets(L[..r]) == stamp
    requires t == r + 1 && t < |L| && L[r] == ' ' && !IsSpace(L[t])
    ensures FormatStampedLine(L) == "**" + stamp + "** - " + L[t..]
  {
    TextAfterSpace(L, r, t);
    FormatAtEnd(L, r, stamp, t);
  }

  /** The paragraph this page gives one captions entry. */
  function MarkdownLine(e: CaptionsApi.CaptionEntry): string
  {
    "**" + (Pad2(e.start / 60) + ":" + Pad2(e.start % 60)) + "** - " + Strip(e.text)
  }

  function MarkdownLines(entries: seq<CaptionsApi.CaptionEntry>): (r: seq<string>)
    ensures |r| == |entries|
  {
    if |entries| == 0 then []
    else MarkdownLines(entries[..|entries| - 1]) + [MarkdownLine(entries[|entries| - 1])]
  }

  /** A line the captions script writes with timestamps is already
      stripped, and it becomes its entry's paragraph. */
  lemma StampedLineFormatted(e: CaptionsApi.CaptionEntry)
    requires Strip(e.text) != ""
    ensures Strip(CaptionsApi.StampedLine(e)) == CaptionsApi.StampedLine(e)
    ensures FormatStampedLine(CaptionsApi.StampedLine(e)) == MarkdownLine(e)
  {
    StampedLineTrimmed(e);
    var a, b := StampedLineLayout(e);
    BracketedLineFormatted(CaptionsApi.StampedLine(e), a, b);
  }

  /** A stamped line with some text is already stripped. */
  lemma StampedLineTrimmed(e: CaptionsApi.CaptionEntry)
    requires Strip(e.text) != ""
    ensures Strip(CaptionsApi.StampedLine(e)) == CaptionsApi.StampedLine(e)
    ensures !IsSpace(Strip(e.text)[0])
  {
    assert Trimmed(Strip(e.text)) by {
      var _, _ := StripSlice(e.text);
    }
    TrimmedAppend(CaptionsApi.Stamp(e.start), " ", Strip(e.text));
    StripOfTrimmed(CaptionsApi.StampedLine(e));
  }

  /** A concatenation that starts with a non-space and ends with a
      trimmed, non-empty text is trimmed. */
  lemma TrimmedAppend(a: string, b: string, c: string)
    requires |a| > 0 && !IsSpace(a[0]) && c != "" && Trimmed(c)
    ensures Trimmed(a + b + c)
  {
    assert (a + b + c)[|a + b + c| - 1] == c[|c| - 1];
  }

  /** Where the stamp, the space and the text sit on a stamped line. */
  lemma StampedLineLayout(e: CaptionsApi.CaptionEntry) returns (a: nat, b: nat)
    requires Strip(e.text) != "" && !IsSpace(Strip(e.text)[0])
    ensures var L := CaptionsApi.StampedLine(e);
            && StampShape(L, a, b)
            && a + b + 4 < |L| && L[a + b + 3] == ' ' && !IsSpace(L[a + b + 4])
            && L[1..a + b + 2] == Pad2(e.start / 60) + ":" + Pad2(e.start % 60)
            && L[a + b + 4..] == Strip(e.text)
  {
    var m, c := Pad2(e.start / 60), Pad2(e.start % 60);
    BracketedLineParts(CaptionsApi.StampedLine(e), CaptionsApi.Stamp(e.start), m, c, Strip(e.text));
    a, b := |m|, |c|;
  }

  lemma {:induction false} StampedLinesFormatted(entries: seq<CaptionsApi.CaptionEntry>)
    requires forall k :: 0 <= k < |entries| ==> Strip(entries[k].text) != ""
    ensures FormattedLines(CaptionsApi.StampedLines(entries)) == MarkdownLines(entries)
  {
    if |entries| > 0 {
      var init := entries[..|entries| - 1];
      var lines := CaptionsApi.StampedLines(entries);
      assert lines[..|lines| - 1] == CaptionsApi.StampedLines(init);
      StampedLinesFormatted(init);
      StampedLineFormatted(entries[|entries| - 1]);
    }
  }

  /** The text the captions script writes with timestamps becomes one
      paragraph per entry, "**MM:SS** - text", in order, when every
      entry has some text on one line. */
  lemma CaptionsTranscriptFormatted(entries: seq<CaptionsApi.CaptionEntry>)
    requires |entries| >= 1
    requires forall k :: 0 <= k < |entries| ==> '\n' !in entries[k].text && Strip(entries[k].text) != ""
    ensures FormattedText(Join("\n", CaptionsApi.StampedLines(entries))) == Join("\n\n", MarkdownLines(entries))
  {
    CaptionsApi.OneLinePerEntry(entries);
    StampedLinesFormatted(entries);
  }

  /** `s` is `a` digits, ":", then digits up to its end, at least two of
      them. */
  predicate BareStampShape(s: string, a: nat)
  {
    && a > 0 && a + 3 <= |s| && s[a] == ':'
    && (forall k :: 0 <= k < a ==> IsDigit(s[k]))
    && (forall k :: a + 1 <= k < |s| ==> IsDigit(s[k]))
  }

  /** On a line that is only a timestamp, `(.+)` needs a character, so the
      matcher gives back the last digit of the seconds. */
  lemma BareStampEnd(L: string, a: nat)
    requires BareStampShape(L, a)
    ensures StampEnd(L) == Some(|L| - 1)
  {
    DigitsAtExact(L, 0, a);
    DigitsAtExact(L, a + 1, |L| - a - 1);
    BareMinuteEnds(L, a + 1, |L| - a - 1);
  }

  /** Seconds that run to the end of the line: the full run leaves nothing
      for `(.+)`, so the first end tried after it is one digit shorter. */
  lemma BareMinuteEnds(L: string, p: nat, c: nat)
    requires c >= 2 && p + c == |L| && IsDigit(L[|L| - 1])
    ensures FirstBelow(MinuteEnds(L, p, c), |L|) == Some(|L| - 1)
  {
    var xs, ys := MinuteEnds(L, p, c), MinuteEnds(L, p, c - 1);
    MinuteEndsPlain(L, p, c);
    assert xs[1..] == ys;
    FirstBelowSkip(xs, |L|);
    MinuteEndsPlain(L, p, c - 1);
    FirstBelowHead(ys, |L|);
  }

  /** A first candidate at or past the bound is passed over. */
  lemma FirstBelowSkip(xs: seq<nat>, n: nat)
    requires |xs| > 0 && xs[0] >= n
    ensures FirstBelow(xs, n) == FirstBelow(xs[1..], n)
  {
  }

  /** Minutes of `d` digits followed by neither ":" nor "]" end group 1
      right there, before the shorter tries. */
  lemma MinuteEndsPlain(L: string, p: nat, d: nat)
    requires d > 0 && (p + d < |L| ==> L[p + d] != ':' && L[p + d] != ']')
    ensures MinuteEnds(L, p, d) == [p + d] + MinuteEnds(L, p, d - 1)
  {
  }

  /** `strip('[]')` leaves a text alone that neither starts nor ends with
      a bracket. */
  lemma StripBracketsNone(s: string)
    requires |s| > 0 && !IsBracket(s[0]) && !IsBracket(s[|s| - 1])
    ensures StripBrackets(s) == s
  {
  }

  /** A line holding only a timestamp such as "12:34" is split inside the
      number, into "**12:3** - 4". */
  lemma BareStampSplit(L: string, a: nat)
    requires BareStampShape(L, a)
    ensures FormatStampedLine(L) == "**" + L[..|L| - 1] + "** - " + L[|L| - 1..]
  {
    BareStampEnd(L, a);
    var s := L[..|L| - 1];
    assert s[0] == L[0] && s[|s| - 1] == L[|L| - 2];
    StripBracketsNone(s);
    LastDigitStartsText(L);
    FormatAtEnd(L, |L| - 1, s, |L| - 1);
  }

  /** Text that starts at a last character that is not a space starts
      right there. */
  lemma LastDigitStartsText(L: string)
    requires |L| > 0 && IsDigit(L[|L| - 1])
    ensures TextStart(L, |L| - 1) == |L| - 1
  {
    assert L[|L| - 1..][0] == L[|L| - 1];
  }

  // ---------------------------------------------------------------------
  // convert_to_markdown

  /** What `get_video_metadata` returns for a video it could look up: each
      value as the JSON held it (None for null), after the defaults it puts
      in for missing keys, and the watch URL it built. A failed lookup, an
      empty dictionary, is None where this is used. */
  datatype Metadata = Metadata(
    title: Option<string>, uploader: Option<string>, uploadDate: Option<string>,
    duration: Option<nat>, viewCount: Option<int>, likeCount: Option<int>,
    description: Option<string>, url: string)

  /** A text value Python counts as true. */
  predicate TextGiven(s: Option<string>)
  {
    s.Some? && s.value != ""
  }

  /** A number Python counts as true. */
  predicate CountGiven(n: Option<int>)
  {
    n.Some? && n.value != 0
  }

  /** `format_date(date_str)`. `render` stands for parsing "%Y%m%d" and
      printing "%B %d, %Y": None when the eight characters are not a date. */
  function FormatDate(date: string, render: string -> Option<string>): (r: string)
    ensures |date| != 8 ==> r == "Unknown date"
    ensures |date| == 8 && render(date).None? ==> r == date
    ensures |date| == 8 && render(date).Some? ==> r == render(date).value
  {
    if date == "" || |date| != 8 then "Unknown date"
    else
      match render(date)
      case None => date
      case Some(d) => d
  }

  /** The numeric value of a count, 0 for a missing one. */
  function CountValue(n: Option<int>): int
  {
    if n.Some? then n.value else 0
  }

  /** The lines of the "Video Information" block, one per field. */
  function UrlLine(m: Metadata): string
  {
    "- **URL**: [" + m.url + "](" + m.url + ")"
  }

  function ChannelLine(m: Metadata): string
  {
    "- **Channel**: " + OptionText(m.uploader)
  }

  function PublishedLine(m: Metadata, render: string -> Option<string>): string
  {
    "- **Published**: " + FormatDate(OptionText(m.uploadDate), render)
  }

  function DurationLine(m: Metadata): string
  {
    "- **Duration**: " + Durations.FormatDuration(m.duration)
  }

  function ViewsLine(m: Metadata): string
  {
    "- **Views**: " + FormatNumber(CountValue(m.viewCount))
  }

  function LikesLine(m: Metadata): string
  {
    "- **Likes**: " + FormatNumber(CountValue(m.likeCount))
  }

  /** `lines`, followed by `line` when its value is `given`. */
  function AddIfGiven(lines: seq<string>, given: bool, line: string): seq<string>
  {
    if given then lines + [line] else lines
  }

  /** The "Video Information" block, each line only for a value given. */
  function InfoLines(m: Metadata, render: string -> Option<string>): seq<string>
  {
    var url := AddIfGiven(["## Video Information\n"], m.url != "", UrlLine(m));
    var channel := AddIfGiven(url, TextGiven(m.uploader), ChannelLine(m));
    var published := AddIfGiven(channel, TextGiven(m.uploadDate), PublishedLine(m, render));
    var duration := AddIfGiven(published, m.duration.Some? && m.duration.value != 0, DurationLine(m));
    var views := AddIfGiven(duration, CountGiven(m.viewCount), ViewsLine(m));
    var likes := AddIfGiven(views, CountGiven(m.likeCount), LikesLine(m));
    likes + [""]
  }

  /** A description is cut to its first 500 characters, marked by "...". */
  function ShortDescription(d: string): (r: string)
    ensures |r| <= 503
    ensures var n := if |d| < 500 then |d| else 500; n <= |r| && r[..n] == d[..n]
    ensures |d| <= 500 ==> r == d
  {
    if |d| > 500 then d[..500] + "..." else d
  }

  /** The page title: the video's title once metadata was found, the file's
      stem otherwise. */
  function Title(stem: string, meta: Option<Metadata>): string
  {
    if meta.Some? then OptionText(meta.value.title) else stem
  }

  /** The heading over the content. */
  function ContentHeading(kind: TranscriptType): string
  {
    if kind == Summary then "## Summary\n" else "## Transcript\n"
  }

  /** The content under the heading: the paragraphs of a timestamped
      transcript, the cleaned text of any other. */
  function PageBody(kind: TranscriptType, content: string): string
  {
    if kind == Timestamped then FormattedText(content) else CleanTranscriptText(content)
  }

  /** The information block of the page, when there is metadata. */
  function InfoBlock(meta: Option<Metadata>, render: string -> Option<string>): seq<string>
  {
    if meta.Some? then InfoLines(meta.value, render) else []
  }

  /** The lines `convert_to_markdown` joins into the page, `infoBlock` being
      its information block and `body` its formatted content. */
  function PageLines(stem: string, meta: Option<Metadata>, infoBlock: seq<string>, kind: TranscriptType,
                     body: string, generatedAt: string): seq<string>
  {
    var title := ["# " + Title(stem, meta) + "\n"];
    var info := if meta.Some? then title + infoBlock else title;
    var described :=
      if meta.Some? && TextGiven(meta.value.description)
      then info + ["## Description\n"] + [ShortDescription(meta.value.description.value) + "\n"]
      else info;
    described + [ContentHeading(kind)] + [body] + ["\n---\n"] + ["*Generated on " + generatedAt + "*"]
  }

  /** The metadata the conversion looks up: only when asked to, and only
      for a file whose name holds a video ID, read with the patterns tried
      in `order`. */
  function PageMetadata(name: string, fetch: bool, lookup: string -> Option<Metadata>, order: seq<IdPattern>): Option<Metadata>
  {
    var id := FirstFound(name, order);
    if fetch && id.Some? then lookup(id.value) else None
  }

  /** Builds the "Video Information" block line by line. */
  method VideoInfo(m: Metadata, render: string -> Option<string>) returns (r: seq<string>)
    ensures r == InfoLines(m, render)
  {
    r := ["## Video Information\n"];
    if m.url != "" {
      r := r + [UrlLine(m)];
    }
    if TextGiven(m.uploader) {
      r := r + [ChannelLine(m)];
    }
    if TextGiven(m.uploadDate) {
      r := r + [PublishedLine(m, render)];
    }
    if m.duration.Some? && m.duration.value != 0 {
      r := r + [DurationLine(m)];
    }
    if CountGiven(m.viewCount) {
      r := r + [ViewsLine(m)];
    }
    if CountGiven(m.likeCount) {
      r := r + [LikesLine(m)];
    }
    r := r + [""];
  }

  /** Builds the lines of the page as `convert_to_markdown` appends them. */
  method PageContent(stem: string, metadata: Option<Metadata>, kind: TranscriptType, body: string,
                     render: string -> Option<string>, generatedAt: string) returns (md: seq<string>)
    ensures md == PageLines(stem, metadata, InfoBlock(metadata, render), kind, body, generatedAt)
  {
    md := ["# " + Title(stem, metadata) + "\n"];
    if metadata.Some? {
      var info := VideoInfo(metadata.value, render);
      md := md + info;
    }
    if metadata.Some? && TextGiven(metadata.value.description) {
      md := md + ["## Description\n"];
      var desc := metadata.value.description.value;
      if |desc| > 500 {
        desc := desc[..500] + "...";
      }
      md := md + [desc + "\n"];
    }
    if kind == Summary {
      md := md + ["## Summary\n"];
    } else if kind == Timestamped {
      md := md + ["## Transcript\n"];
    } else {
      md := md + ["## Transcript\n"];
    }
    md := md + [body];
    md := md + ["\n---\n"];
    md := md + ["*Generated on " + generatedAt + "*"];
  }

  /** Formats the transcript for the page: as paragraphs when it is
      timestamped, cleaned otherwise. */
  method TranscriptBody(kind: TranscriptType, content: string) returns (body: string)
    ensures body == PageBody(kind, content)
  {
    if kind == Timestamped {
      body := FormatTimestampedTranscript(content);
    } else {
      body := CleanTranscriptText(content);
    }
  }

  /** What the metadata step prints: the video ID it looks up, if any. */
  function FetchLog(name: string, fetch: bool, order: seq<IdPattern>): (r: seq<string>)
    ensures |r| <= 1
    ensures |r| == 1 <==> fetch && FirstFound(name, order).Some?
  {
    var id := FirstFound(name, order);
    if fetch && id.Some? then ["  Fetching metadata for video ID: " + id.value] else []
  }

  /** The metadata step of `convert_to_markdown`: looks the video up when
      asked to and the file name holds an ID, the patterns being tried in
      `order`. */
  method FetchMetadata(name: string, fetch: bool, lookup: string -> Option<Metadata>, order: seq<IdPattern>)
    returns (metadata: Option<Metadata>, log: seq<string>)
    ensures metadata == PageMetadata(name, fetch, lookup, order) && log == FetchLog(name, fetch, order)
    ensures metadata.Some? ==> fetch && FirstFound(name, order).Some? && metadata == lookup(FirstFound(name, order).value)
  {
    metadata, log := None, [];
    if fetch {
      var videoId := FirstFound(name, order);
      if videoId.Some? {
        log := log + ["  Fetching metadata for video ID: " + videoId.value];
        metadata := lookup(videoId.value);
      }
    }
  }

  /** The final line printed: the page's name, or why writing it failed. */
  function WriteReport(mdFilename: string, writeError: Option<string>): string
  {
    if writeError.None? then "  \U{2705} Created: " + mdFilename
    else "  \U{274C} Error writing markdown: " + writeError.value
  }

  /** What a conversion of a readable file prints. */
  function ConversionLog(name: string, fetch: bool, kind: TranscriptType, writeError: Option<string>, order: seq<IdPattern>): seq<string>
  {
    ["\nProcessing: " + name] + FetchLog(name, fetch, order) + ["  Detected type: " + TypeName(kind)]
    + [WriteReport(Stem(name) + ".md", writeError)]
  }

  /** `convert_to_markdown(txt_file, output_dir, fetch_metadata)` as
      written, the video ID coming from `extract_video_id_from_filename`.
      `read` is what reading the file gave, `lookup` stands for
      `get_video_metadata`, `render` for the date formatting, `generatedAt`
      for the clock and `writeError` for a failure to open or write the
      page. Returns whether it succeeded, the lines it printed, and the
      path and text of the page it wrote. */
  method ConvertToMarkdown(txtFile: string, outputDir: string, fetchMetadata: bool,
                           read: Result<string, string>, lookup: string -> Option<Metadata>,
                           render: string -> Option<string>, generatedAt: string,
                           writeError: Option<string>)
    returns (ok: bool, log: seq<string>, written: Option<(string, string)>)
    ensures read.Err? ==> !ok && written.None?
    ensures read.Err? ==> log == ["\nProcessing: " + Name(txtFile), "  Error reading file: " + read.error]
    ensures read.Ok? && writeError.None? ==>
      var name := Name(txtFile);
      var meta := PageMetadata(name, fetchMetadata, lookup, WrittenOrder);
      var kind := DetectTranscriptType(read.value);
      written == Some((ChildPath(outputDir, Stem(name) + ".md"),
                       Join("\n", PageLines(Stem(name), meta, InfoBlock(meta, render), kind, PageBody(kind, read.value), generatedAt))))
    ensures writeError.Some? ==> written.None?
    ensures read.Ok? ==> ok == writeError.None?
    ensures read.Ok? ==>
      log == ConversionLog(Name(txtFile), fetchMetadata, DetectTranscriptType(read.value), writeError, WrittenOrder)
  {
    ok, log, written := ConvertWithOrder(txtFile, outputDir, fetchMetadata, read, lookup, render, generatedAt, writeError, WrittenOrder);
  }

  /** `convert_to_markdown` with the `youtube_` pattern tried before the
      `.txt` ending: the same steps, the metadata of the video the name
      actually refers to. */
  method ConvertToMarkdownCorrected(txtFile: string, outputDir: string, fetchMetadata: bool,
                                    read: Result<string, string>, lookup: string -> Option<Metadata>,
                                    render: string -> Option<string>, generatedAt: string,
                                    writeError: Option<string>)
    returns (ok: bool, log: seq<string>, written: Option<(string, string)>)
    ensures read.Err? ==> !ok && written.None?
    ensures read.Ok? && writeError.None? ==>
      var name := Name(txtFile);
      var meta := PageMetadata(name, fetchMetadata, lookup, IntendedOrder);
      var kind := DetectTranscriptType(read.value);
      written == Some((ChildPath(outputDir, Stem(name) + ".md"),
                       Join("\n", PageLines(Stem(name), meta, InfoBlock(meta, render), kind, PageBody(kind, read.value), generatedAt))))
    ensures writeError.Some? ==> written.None?
    ensures read.Ok? ==> ok == writeError.None?
    ensures read.Ok? ==>
      log == ConversionLog(Name(txtFile), fetchMetadata, DetectTranscriptType(read.value), writeError, IntendedOrder)
  {
    ok, log, written := ConvertWithOrder(txtFile, outputDir, fetchMetadata, read, lookup, render, generatedAt, writeError, IntendedOrder);
  }

  /** For a file the single-video scripts name "{date}_youtube_{id}_transcribe.txt",
      the conversion as written asks for the metadata of "_transcribe";
      the corrected one asks for the video's own identifier. */
  lemma AutoNamedPageMetadata(date: string, id: string, lookup: string -> Option<Metadata>)
    requires |date| == 8 && AllDigits(date) && IsVideoToken(id)
    ensures PageMetadata(date + "_youtube_" + id + "_transcribe.txt", true, lookup, WrittenOrder) == lookup("_transcribe")
    ensures PageMetadata(date + "_youtube_" + id + "_transcribe.txt", true, lookup, IntendedOrder) == lookup(id)
  {
    AutoNamedFileMisread(date, id);
    AutoNamedFileRead(date, id, Transcribe);
    assert date + "_youtube_" + id + "_" + ModeName(Transcribe) + ".txt" == date + "_youtube_" + id + "_transcribe.txt";
  }

  /** The steps of `convert_to_markdown`, the file-name patterns being
      tried in `order`. */
  method ConvertWithOrder(txtFile: string, outputDir: string, fetchMetadata: bool,
                          read: Result<string, string>, lookup: string -> Option<Metadata>,
                          render: string -> Option<string>, generatedAt: string,
                          writeError: Option<string>, order: seq<IdPattern>)
    returns (ok: bool, log: seq<string>, written: Option<(string, string)>)
    ensures read.Err? ==> !ok && written.None?
    ensures read.Err? ==> log == ["\nProcessing: " + Name(txtFile), "  Error reading file: " + read.error]
    ensures read.Ok? && writeError.None? ==>
      var name := Name(txtFile);
      var meta := PageMetadata(name, fetchMetadata, lookup, order);
      var kind := DetectTranscriptType(read.value);
      written == Some((ChildPath(outputDir, Stem(name) + ".md"),
                       Join("\n", PageLines(Stem(name), meta, InfoBlock(meta, render), kind, PageBody(kind, read.value), generatedAt))))
    ensures writeError.Some? ==> written.None?
    ensures read.Ok? ==> ok == writeError.None?
    ensures read.Ok? ==>
      log == ConversionLog(Name(txtFile), fetchMetadata, DetectTranscriptType(read.value), writeError, order)
  {
    var name := Name(txtFile);
    log := ["\nProcessing: " + name];
    if read.Err? {
      log := log + ["  Error reading file: " + read.error];
      return false, log, None;
    }
    var content := read.value;

    var metadata, fetched := FetchMetadata(name, fetchMetadata, lookup, order);
    log := log + fetched;

    var kind := DetectTranscriptType(content);
    log := log + ["  Detected type: " + TypeName(kind)];

    var stem := Stem(name);
    var body := TranscriptBody(kind, content);
    var md := PageContent(stem, metadata, kind, body, render, generatedAt);

    var mdFilename := stem + ".md";
    if writeError.None? {
      written := Some((ChildPath(outputDir, mdFilename), Join("\n", md)));
      log := log + ["  \U{2705} Created: " + mdFilename];
      ok := true;
    } else {
      written := None;
      log := log + ["  \U{274C} Error writing markdown: " + writeError.value];
      ok := false;
    }
  }

  /** A list item of the information block. */
  predicate IsItem(s: string)
  {
    |s| >= 4 && s[..4] == "- **"
  }

  /** The block so far: its heading, then `n` list items. */
  predicate InfoSoFar(lines: seq<string>, n: nat)
  {
    && |lines| == n + 1 && lines[0] == "## Video Information\n"
    && forall k :: 0 < k < |lines| ==> IsItem(lines[k])
  }

  /** Adding a list item, or nothing, keeps the block so shaped. */
  lemma AddItemShape(lines: seq<string>, n: nat, given: bool, line: string)
    requires InfoSoFar(lines, n) && IsItem(line)
    ensures InfoSoFar(AddIfGiven(lines, given, line), if given then n + 1 else n)
  {
    var r := AddIfGiven(lines, given, line);
    assert forall k :: 0 <= k < |lines| ==> r[k] == lines[k];
  }

  /** Each line of the information block is a list item. */
  lemma InfoLinesAreItems(m: Metadata, render: string -> Option<string>)
    ensures IsItem(UrlLine(m)) && IsItem(ChannelLine(m)) && IsItem(PublishedLine(m, render))
    ensures IsItem(DurationLine(m)) && IsItem(ViewsLine(m)) && IsItem(LikesLine(m))
  {
    assert UrlLine(m)[..4] == "- **";
    assert ChannelLine(m)[..4] == "- **";
    assert PublishedLine(m, render)[..4] == "- **";
    assert DurationLine(m)[..4] == "- **";
    assert ViewsLine(m)[..4] == "- **";
    assert LikesLine(m)[..4] == "- **";
  }

  /** An information block: its heading, up to six list items, and an
      empty line. */
  predicate InfoShaped(info: seq<string>)
  {
    && 2 <= |info| <= 8 && info[0] == "## Video Information\n" && info[|info| - 1] == ""
    && forall k :: 0 < k < |info| - 1 ==> IsItem(info[k])
  }

  /** The information block is so shaped. */
  lemma InfoLinesShape(m: Metadata, render: string -> Option<string>)
    ensures InfoShaped(InfoLines(m, render))
  {
    InfoLinesAreItems(m, render);
    SixItemsShaped(m.url != "", UrlLine(m), TextGiven(m.uploader), ChannelLine(m),
      TextGiven(m.uploadDate), PublishedLine(m, render),
      m.duration.Some? && m.duration.value != 0, DurationLine(m),
      CountGiven(m.viewCount), ViewsLine(m), CountGiven(m.likeCount), LikesLine(m));
  }

  /** Closing a block of at most six items with an empty line shapes it. */
  lemma ClosedBlock(lines: seq<string>, n: nat)
    requires InfoSoFar(lines, n) && n <= 6
    ensures InfoShaped(lines + [""])
  {
    var r := lines + [""];
    assert forall k :: 0 <= k < |lines| ==> r[k] == lines[k];
  }

  /** Six optional list items after the heading, closed by an empty line. */
  lemma SixItemsShaped(c1: bool, l1: string, c2: bool, l2: string, c3: bool, l3: string,
                       c4: bool, l4: string, c5: bool, l5: string, c6: bool, l6: string)
    requires IsItem(l1) && IsItem(l2) && IsItem(l3) && IsItem(l4) && IsItem(l5) && IsItem(l6)
    ensures InfoShaped(AddIfGiven(AddIfGiven(AddIfGiven(AddIfGiven(AddIfGiven(AddIfGiven(
      ["## Video Information\n"], c1, l1), c2, l2), c3, l3), c4, l4), c5, l5), c6, l6) + [""])
  {
    var s0 := ["## Video Information\n"];
    AddItemShape(s0, 0, c1, l1);
    var s1, n1 := AddIfGiven(s0, c1, l1), if c1 then 1 else 0;
    AddItemShape(s1, n1, c2, l2);
    var s2, n2 := AddIfGiven(s1, c2, l2), if c2 then n1 + 1 else n1;
    AddItemShape(s2, n2, c3, l3);
    var s3, n3 := AddIfGiven(s2, c3, l3), if c3 then n2 + 1 else n2;
    AddItemShape(s3, n3, c4, l4);
    var s4, n4 := AddIfGiven(s3, c4, l4), if c4 then n3 + 1 else n3;
    AddItemShape(s4, n4, c5, l5);
    var s5, n5 := AddIfGiven(s4, c5, l5), if c5 then n4 + 1 else n4;
    AddItemShape(s5, n5, c6, l6);
    var s6, n6 := AddIfGiven(s5, c6, l6), if c6 then n5 + 1 else n5;
    ClosedBlock(s6, n6);
  }

  /** Without metadata the page is its stem as title, the heading, the
      content and the footer; with metadata the information block follows
      the title. */
  lemma PageWithoutMetadata(stem: string, meta: Option<Metadata>, info: seq<string>, kind: TranscriptType,
                            body: string, generatedAt: string)
    requires meta.Some? ==> InfoShaped(info)
    ensures var p := PageLines(stem, meta, info, kind, body, generatedAt);
            && (meta.None? ==> p[0] == "# " + stem + "\n" && |p| == 5)
            && (p[1] == "## Video Information\n" <==> meta.Some?)
  {
    var p := PageLines(stem, meta, info, kind, body, generatedAt);
    if meta.Some? {
      assert p[1] == info[0];
    } else {
      assert p[1] == ContentHeading(kind);
    }
  }

  /** The page ends with the heading named after the transcript type, the
      content, the rule and the time stamp. */
  lemma PageEnding(stem: string, meta: Option<Metadata>, info: seq<string>, kind: TranscriptType,
                   body: string, generatedAt: string)
    ensures var p := PageLines(stem, meta, info, kind, body, generatedAt);
            && |p| >= 5
            && (p[|p| - 4] == "## Summary\n" <==> kind == Summary)
            && (p[|p| - 4] == "## Transcript\n" <==> kind != Summary)
            && p[|p| - 3] == body
            && p[|p| - 2] == "\n---\n"
            && p[|p| - 1] == "*Generated on " + generatedAt + "*"
  {
  }

  /** A description shows just before the content heading, cut to 500
      characters and "...". */
  lemma PageDescription(stem: string, m: Metadata, info: seq<string>, kind: TranscriptType,
                        body: string, generatedAt: string)
    requires InfoShaped(info) && TextGiven(m.description)
    ensures var p := PageLines(stem, Some(m), info, kind, body, generatedAt);
            var d := m.description.value;
            && |p| >= 9
            && p[|p| - 6] == "## Description\n"
            && p[|p| - 5] == ShortDescription(d) + "\n"
            && (|d| <= 500 ==> p[|p| - 5] == d + "\n")
  {
  }

  /** The text the captions script writes with timestamps is converted as
      a timestamped transcript: one "**MM:SS** - text" paragraph per entry. */
  lemma CaptionsPageBody(entries: seq<CaptionsApi.CaptionEntry>)
    requires |entries| >= 1
    requires forall k :: 0 <= k < |entries| ==> '\n' !in entries[k].text && Strip(entries[k].text) != ""
    ensures var text := Join("\n", CaptionsApi.StampedLines(entries));
            PageBody(DetectTranscriptType(text), text) == Join("\n\n", MarkdownLines(entries))
  {
    StampedTranscriptDetected(entries);
    CaptionsTranscriptFormatted(entries);
  }

  /** The page for "<stem>.txt" is "<stem>.md". */
  lemma PageFileName(stem: string)
    requires stem != ""
    ensures Stem(stem + ".txt") + ".md" == stem + ".md"
  {
    SuffixOfExtension(stem, ".txt");
  }
}
