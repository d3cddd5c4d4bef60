/** The helpers every transcriber script carries a copy of: recovering the
    11-character video identifier from a URL, making a title safe to use as a
    file name, and building the default output file name. The copies in
    transcribe_youtube.py, transcribe_youtube_smart.py,
    transcribe_youtube_ytdlp.py and transcribe_youtube_api.py are identical;
    the playlist script's `sanitize_filename` differs only in its length cap,
    which is a parameter here. */
module Naming {
  import opened Common
  import opened Text

  /** What `urlparse` and `parse_qs` give for a URL: the host name (lower-cased,
      absent when the string has no network location), the path, and the query
      as a map from each key to its non-blank values in order. */
  datatype ParsedUrl = ParsedUrl(host: Option<string>, path: string, query: map<string, seq<string>>)

  /** `parse_qs(query).get(key, [None])[0]`. */
  function FirstQueryValue(q: map<string, seq<string>>, key: string): (r: Option<string>)
    ensures r.Some? <==> key in q && |q[key]| > 0
    ensures r.Some? ==> r.value == q[key][0]
  {
    if key in q && |q[key]| > 0 then Some(q[key][0]) else None
  }

  predicate IsYoutubeHost(h: Option<string>)
  {
    h == Some("www.youtube.com") || h == Some("youtube.com")
  }

  predicate IsShortLinkHost(h: Option<string>)
  {
    h == Some("youtu.be") || h == Some("www.youtu.be")
  }

  // ---------------------------------------------------------------------
  // The fallback pattern (?:v=|/)([0-9A-Za-z_-]{11}).*

  const IdLength: nat := 11

  /** Eleven identifier characters start at `i`. */
  predicate IdRunAt(s: string, i: nat)
  {
    i + IdLength <= |s| && forall k :: i <= k < i + IdLength ==> IsIdChar(s[k])
  }

  /** The pattern matches at `i`: "v=" or "/" and then eleven identifier
      characters (the trailing `.*` matches anything, even nothing). */
  predicate IdPatternAt(s: string, i: nat)
  {
    || (i + 2 <= |s| && s[i] == 'v' && s[i + 1] == '=' && IdRunAt(s, i + 2))
    || (i < |s| && s[i] == '/' && IdRunAt(s, i + 1))
  }

  /** Where the captured group starts for a match at `i`. */
  function GroupStart(s: string, i: nat): (g: nat)
    requires IdPatternAt(s, i)
    ensures IdRunAt(s, g) && g == (if s[i] == '/' then i + 1 else i + 2)
  {
    if s[i] == '/' then i + 1 else i + 2
  }

  /** The leftmost position at or after `from` where the pattern matches,
      which is where `re.search` reports its match. */
  function FirstIdMatch(s: string, from: nat): (r: Option<nat>)
    ensures r.Some? ==> from <= r.value && IdPatternAt(s, r.value)
    ensures forall i :: from <= i && (r.None? || i < r.value) ==> !IdPatternAt(s, i)
    decreases |s| - from
  {
    if from >= |s| then None
    else if IdPatternAt(s, from) then Some(from)
    else FirstIdMatch(s, from + 1)
  }

  /** `re.search(r'(?:v=|/)([0-9A-Za-z_-]{11}).*', s).group(1)`, or None when
      the search fails. */
  function SearchVideoId(s: string): (r: Option<string>)
    ensures r.Some? ==> |r.value| == IdLength && forall k :: 0 <= k < |r.value| ==> IsIdChar(r.value[k])
    ensures r.None? <==> forall i :: 0 <= i ==> !IdPatternAt(s, i)
  {
    match FirstIdMatch(s, 0)
    case None => None
    case Some(i) =>
      var g := GroupStart(s, i);
      Some(s[g..g + IdLength])
  }

  /** The search returns the token of the leftmost match. */
  lemma SearchVideoIdLeftmost(s: string, i: nat)
    requires IdPatternAt(s, i)
    requires forall j :: 0 <= j < i ==> !IdPatternAt(s, j)
    ensures SearchVideoId(s) == Some(s[GroupStart(s, i)..GroupStart(s, i) + IdLength])
  {
    var r := FirstIdMatch(s, 0);
    assert r.Some? && r.value == i;
  }

  // ---------------------------------------------------------------------
  // extract_video_id

  /** `path.split('/')[2]` for a path that starts with "/embed/": the path
      segment right after "/embed/". */
  function EmbedSegment(path: string): (r: string)
    requires "/embed/" <= path
    ensures '/' !in r
    ensures r == SplitOn(path[7..], '/')[0]
  {
    EmbedSplit(path);
    SplitOn(path, '/')[2]
  }

  lemma EmbedSplit(path: string)
    requires "/embed/" <= path
    ensures SplitOn(path, '/') == ["", "embed"] + SplitOn(path[7..], '/')
  {
    var t := path[7..];
    assert path == [] + ['/'] + ("embed" + ['/'] + t);
    SplitOnAfterPiece([], '/', "embed" + ['/'] + t);
    SplitOnAfterPiece("embed", '/', t);
  }

  /** `extract_video_id(url)`: a watch URL on a YouTube host gives its first
      `v` query value (None without one) and never reaches the pattern; an
      embed path gives the segment after "/embed/"; a youtu.be link gives its
      path without the leading "/"; every other URL, other paths on a
      YouTube host such as "/shorts/ID" included, gives the token of the
      fallback pattern, or None. */
  function ExtractVideoId(u: ParsedUrl, url: string): (r: Option<string>)
    ensures IsYoutubeHost(u.host) && u.path == "/watch" ==> r == FirstQueryValue(u.query, "v")
    ensures IsYoutubeHost(u.host) && u.path != "/watch" && "/embed/" <= u.path ==> r == Some(EmbedSegment(u.path))
    ensures IsShortLinkHost(u.host) ==> r.Some? && r.value == (if |u.path| > 0 then u.path[1..] else "")
    ensures !IsShortLinkHost(u.host) && !(IsYoutubeHost(u.host) && (u.path == "/watch" || "/embed/" <= u.path)) ==>
      r == SearchVideoId(url)
    ensures r.Some? && !IsShortLinkHost(u.host) && !(IsYoutubeHost(u.host) && (u.path == "/watch" || "/embed/" <= u.path)) ==>
      |r.value| == IdLength
  {
    if IsYoutubeHost(u.host) && u.path == "/watch" then FirstQueryValue(u.query, "v")
    else if IsYoutubeHost(u.host) && "/embed/" <= u.path then Some(EmbedSegment(u.path))
    else if IsShortLinkHost(u.host) then Some(if |u.path| > 0 then u.path[1..] else "")
    else SearchVideoId(url)
  }

  /** An identifier the scripts accept (`if not video_id` rejects None and ""). */
  predicate UsableId(id: Option<string>)
  {
    Truthy(id)
  }

  predicate IsVideoToken(id: string)
  {
    |id| == IdLength && forall k :: 0 <= k < |id| ==> IsIdChar(id[k])
  }

  /** Every supported URL shape that wraps the same token yields that token:
      a watch URL, an embed URL, a short link, and any other URL whose path
      ends in "/" followed by the token. */
  lemma SameIdentifierForEveryShape(id: string, query: map<string, seq<string>>, prefix: string)
    requires IsVideoToken(id)
    requires "v" in query && |query["v"]| > 0 && query["v"][0] == id
    requires forall j :: 0 <= j <= |prefix| ==> !IdPatternAt(prefix + "/" + id, j) || j == |prefix|
    ensures ExtractVideoId(ParsedUrl(Some("www.youtube.com"), "/watch", query), "") == Some(id)
    ensures ExtractVideoId(ParsedUrl(Some("youtube.com"), "/embed/" + id, map[]), "") == Some(id)
    ensures ExtractVideoId(ParsedUrl(Some("youtu.be"), "/" + id, map[]), "") == Some(id)
    ensures ExtractVideoId(ParsedUrl(Some("example.com"), "/" + id, map[]), prefix + "/" + id) == Some(id)
  {
    assert '/' !in id by {
      forall k | 0 <= k < |id| ensures id[k] != '/' {
        assert IsIdChar(id[k]);
      }
    }
    var p := "/embed/" + id;
    assert p[7..] == id;
    SplitOnFree(id, '/');
    assert ("/" + id)[1..] == id;
    var s := prefix + "/" + id;
    assert s[|prefix| + 1..|prefix| + 1 + IdLength] == id;
    assert IdPatternAt(s, |prefix|);
    SearchVideoIdLeftmost(s, |prefix|);
  }

  /** A bare identifier with nothing around it is not recognised: the
      fallback pattern needs "v=" or "/" in front of the token. */
  lemma BareIdentifierIsRejected(id: string)
    requires IsVideoToken(id)
    ensures ExtractVideoId(ParsedUrl(None, id, map[]), id) == None
  {
    forall i: nat
      ensures !IdPatternAt(id, i)
    {
      if i < |id| {
        assert IsIdChar(id[i]);
      }
    }
  }

  // ---------------------------------------------------------------------
  // sanitize_filename

  /** The characters `sanitize_filename` deletes. */
  const InvalidChars: string := "<>:\"/\\|?*"

  /** `s` with every character of `cs` deleted (one `replace(c, '')` per
      character of `cs`). */
  function RemoveAll(s: string, cs: string): (r: string)
    ensures |r| <= |s|
    ensures forall k :: 0 <= k < |r| ==> r[k] !in cs && r[k] in s
  {
    if |s| == 0 then ""
    else (if s[0] in cs then "" else [s[0]]) + RemoveAll(s[1..], cs)
  }

  /** Deleting the characters of `a` and then those of `b` deletes those of `a + b`. */
  lemma {:induction false} RemoveAllTwice(s: string, a: string, b: string)
    ensures RemoveAll(RemoveAll(s, a), b) == RemoveAll(s, a + b)
  {
    if |s| > 0 {
      RemoveAllTwice(s[1..], a, b);
      var head := if s[0] in a then "" else [s[0]];
      var rest := RemoveAll(s[1..], a);
      if head != "" {
        assert (head + rest)[1..] == rest;
      } else {
        assert head + rest == rest;
      }
    }
  }

  lemma {:induction false} RemoveAllAbsent(s: string, cs: string)
    requires forall k :: 0 <= k < |s| ==> s[k] !in cs
    ensures RemoveAll(s, cs) == s
  {
    if |s| > 0 {
      RemoveAllAbsent(s[1..], cs);
      assert [s[0]] + s[1..] == s;
    }
  }

  /** Length of the run of non-space characters at the start of `s`. */
  function WordLength(s: string): (n: nat)
    ensures n <= |s|
    ensures forall i :: 0 <= i < n ==> !IsSpace(s[i])
    ensures n < |s| ==> IsSpace(s[n])
  {
    if |s| == 0 || IsSpace(s[0]) then 0 else 1 + WordLength(s[1..])
  }

  /** `s.split()`: the maximal runs of non-whitespace, in order. */
  function SplitWords(s: string): (ws: seq<string>)
    ensures forall k :: 0 <= k < |ws| ==> |ws[k]| > 0
    ensures forall k, x :: 0 <= k < |ws| && 0 <= x < |ws[k]| ==> !IsSpace(ws[k][x]) && ws[k][x] in s
    decreases |s|
  {
    if |s| == 0 then []
    else if IsSpace(s[0]) then SplitWords(s[1..])
    else
      var n := WordLength(s);
      [s[..n]] + SplitWords(s[n..])
  }

  /** Only plain spaces as whitespace, and never two in a row. */
  predicate SingleSpaced(s: string)
  {
    && (forall k :: 0 <= k < |s| && IsSpace(s[k]) ==> s[k] == ' ')
    && (forall k :: 0 < k < |s| && s[k] == ' ' ==> s[k - 1] != ' ')
  }

  predicate FreeOf(s: string, bad: string)
  {
    forall k :: 0 <= k < |s| ==> s[k] !in bad
  }

  /** Joining whitespace-free words with single spaces gives a single-spaced,
      trimmed string made of the words' characters and spaces. */
  lemma {:induction false} JoinWordsShape(ws: seq<string>)
    requires forall k :: 0 <= k < |ws| ==> |ws[k]| > 0
    requires forall k, x :: 0 <= k < |ws| && 0 <= x < |ws[k]| ==> !IsSpace(ws[k][x]) && ws[k][x] !in InvalidChars
    ensures SingleSpaced(Join(" ", ws)) && Trimmed(Join(" ", ws)) && FreeOf(Join(" ", ws), InvalidChars)
    ensures |ws| > 0 ==> |Join(" ", ws)| > 0
  {
    if |ws| == 1 {
      assert Join(" ", ws) == ws[0];
      assert forall x :: 0 <= x < |ws[0]| ==> !IsSpace(ws[0][x]);
    } else if |ws| > 1 {
      var w := ws[0];
      var rest := Join(" ", ws[1..]);
      JoinWordsShape(ws[1..]);
      var j := w + " " + rest;
      assert Join(" ", ws) == j;
      assert forall x :: 0 <= x < |w| ==> !IsSpace(w[x]) && w[x] !in InvalidChars;
      forall k | 0 <= k < |j|
        ensures IsSpace(j[k]) ==> j[k] == ' '
        ensures j[k] !in InvalidChars
        ensures 0 < k && j[k] == ' ' ==> j[k - 1] != ' '
      {
        if k < |w| {
          assert j[k] == w[k];
        } else if k == |w| {
          assert j[k - 1] == w[|w| - 1];
        } else {
          assert j[k] == rest[k - |w| - 1];
          if k > |w| + 1 {
            assert j[k - 1] == rest[k - |w| - 2];
          }
        }
      }
    }
  }

  /** A slice of a single-spaced string is single-spaced. */
  lemma SliceSingleSpaced(s: string, i: nat, j: nat)
    requires i <= j <= |s| && SingleSpaced(s)
    ensures SingleSpaced(s[i..j])
  {
    var t := s[i..j];
    forall k | 0 <= k < |t|
      ensures IsSpace(t[k]) ==> t[k] == ' '
      ensures 0 < k && t[k] == ' ' ==> t[k - 1] != ' '
    {
      assert t[k] == s[i + k];
      if 0 < k {
        assert t[k - 1] == s[i + k - 1];
      }
    }
  }

  /** A slice of a string free of some characters is free of them too. */
  lemma SliceFreeOf(s: string, i: nat, j: nat, bad: string)
    requires i <= j <= |s| && FreeOf(s, bad)
    ensures FreeOf(s[i..j], bad)
  {
    forall k | 0 <= k < j - i
      ensures s[i..j][k] !in bad
    {
      assert s[i..j][k] == s[i + k];
    }
  }

  /** Joining a word in front of at least one more word puts one separator
      between it and the join of the rest. */
  lemma JoinCons(w: string, ws: seq<string>)
    requires |ws| > 0
    ensures Join(" ", [w] + ws) == w + " " + Join(" ", ws)
  {
    assert ([w] + ws)[1..] == ws;
  }

  /** Splitting a single-spaced, trimmed string whose first word ends before
      its end: that word, then the split of what follows the one space. */
  lemma SplitFirstWord(s: string) returns (n: nat, t: string)
    requires SingleSpaced(s) && Trimmed(s) && WordLength(s) < |s|
    ensures n == WordLength(s) && s == s[..n] + " " + t
    ensures SplitWords(s) == [s[..n]] + SplitWords(t)
    ensures |t| < |s| && SingleSpaced(t) && Trimmed(t) && |SplitWords(t)| > 0
  {
    n := WordLength(s);
    assert s[n] == ' ';
    assert n > 0;
    t := s[n + 1..];
    assert SplitWords(s) == [s[..n]] + SplitWords(s[n..]);
    assert s[n..][1..] == t;
    assert SplitWords(s[n..]) == SplitWords(t);
    SliceSingleSpaced(s, n + 1, |s|);
    assert t[0] == s[n + 1] && !IsSpace(t[0]);
    assert t[|t| - 1] == s[|s| - 1];
    assert s == s[..n] + " " + t;
  }

  /** `' '.join(s.split())` leaves a single-spaced, trimmed string unchanged. */
  lemma {:induction false} CollapseKeepsSingleSpaced(s: string)
    requires SingleSpaced(s) && Trimmed(s)
    ensures Join(" ", SplitWords(s)) == s
    decreases |s|
  {
    if |s| > 0 {
      if WordLength(s) == |s| {
        assert SplitWords(s) == [s[..|s|]] + SplitWords(s[|s|..]);
        assert s[|s|..] == [];
      } else {
        var n, t := SplitFirstWord(s);
        CollapseKeepsSingleSpaced(t);
        JoinCons(s[..n], SplitWords(t));
      }
    }
  }

  /** The whole of `sanitize_filename(filename)` with a length cap of `limit`
      (200 in the transcriber scripts, 100 in the playlist script). */
  function Sanitized(filename: string, limit: nat): string
  {
    var collapsed := Join(" ", SplitWords(RemoveAll(filename, InvalidChars)));
    Strip(if |collapsed| > limit then collapsed[..limit] else collapsed)
  }

  /** What a sanitised name looks like. */
  predicate SafeName(r: string, limit: nat)
  {
    && FreeOf(r, InvalidChars)
    && SingleSpaced(r)
    && Trimmed(r)
    && |r| <= limit
  }

  /** A sanitised name has none of the invalid characters, no whitespace but
      single plain spaces, nothing to strip at either end, and at most
      `limit` characters. */
  lemma {:induction false} SanitizedShape(filename: string, limit: nat)
    ensures SafeName(Sanitized(filename, limit), limit)
  {
    var removed := RemoveAll(filename, InvalidChars);
    var ws := SplitWords(removed);
    JoinWordsShape(ws);
    var collapsed := Join(" ", ws);
    var cut := if |collapsed| > limit then collapsed[..limit] else collapsed;
    assert cut == collapsed[0..|cut|];
    SliceSingleSpaced(collapsed, 0, |cut|);
    SliceFreeOf(collapsed, 0, |cut|, InvalidChars);
    var i, j := StripSlice(cut);
    assert Sanitized(filename, limit) == cut[i..j];
    SliceSingleSpaced(cut, i, j);
    SliceFreeOf(cut, i, j, InvalidChars);
  }

  /** Sanitising a name that is already sanitised changes nothing. */
  lemma SanitizedIsIdempotent(filename: string, limit: nat)
    ensures Sanitized(Sanitized(filename, limit), limit) == Sanitized(filename, limit)
  {
    var once := Sanitized(filename, limit);
    SanitizedShape(filename, limit);
    RemoveAllAbsent(once, InvalidChars);
    CollapseKeepsSingleSpaced(once);
    StripOfTrimmed(once);
  }

  /** `sanitize_filename`: the loop deletes the invalid characters one by
      one, then runs of whitespace become single spaces, the result is cut to
      `limit` characters and stripped. */
  method SanitizeFilename(filename: string, limit: nat) returns (r: string)
    ensures r == Sanitized(filename, limit)
    ensures SafeName(r, limit)
  {
    var name := filename;
    var i := 0;
    RemoveAllAbsent(filename, "");
    assert InvalidChars[..0] == "";
    while i < |InvalidChars|
      invariant 0 <= i <= |InvalidChars|
      invariant name == RemoveAll(filename, InvalidChars[..i])
    {
      RemoveAllTwice(filename, InvalidChars[..i], [InvalidChars[i]]);
      assert InvalidChars[..i] + [InvalidChars[i]] == InvalidChars[..i + 1];
      name := RemoveAll(name, [InvalidChars[i]]);
      i := i + 1;
    }
    assert InvalidChars[..i] == InvalidChars;
    name := Join(" ", SplitWords(name));
    if |name| > limit {
      name := name[..limit];
    }
    r := Strip(name);
    SanitizedShape(filename, limit);
  }

  // ---------------------------------------------------------------------
  // generate_output_filename

  /** How an f-string renders an optional string: None prints as "None". */
  function OptionText(s: Option<string>): string
  {
    if s.Some? then s.value else "None"
  }

  /** The part of the output file name between the date and the mode: the
      sanitised title when a non-empty title is known, else "youtube_" and
      the video identifier. */
  function NameMiddle(u: ParsedUrl, url: string, title: Option<string>): string
  {
    if Truthy(title) then Sanitized(title.value, 200) else "youtube_" + OptionText(ExtractVideoId(u, url))
  }

  /** `generate_output_filename(url, mode)` with the date (`%Y%m%d`) and the
      looked-up title passed in: `{date}_{title}_{mode}.txt`, or
      `{date}_youtube_{video_id}_{mode}.txt` when no title is known. */
  function GenerateOutputFilename(u: ParsedUrl, url: string, mode: Mode, date: string, title: Option<string>): (r: string)
    ensures date + "_" <= r
    ensures |r| >= |date| + |ModeName(mode)| + 6
  {
    date + "_" + NameMiddle(u, url, title) + "_" + ModeName(mode) + ".txt"
  }

  /** The output name ends in "_{mode}.txt"; between the date and that
      suffix sits either a safe, at most 200-character rendering of the
      title or "youtube_" and the identifier. */
  lemma OutputFilenameShape(u: ParsedUrl, url: string, mode: Mode, date: string, title: Option<string>)
    ensures var r := GenerateOutputFilename(u, url, mode, date, title);
      var suffix := "_" + ModeName(mode) + ".txt";
      && r[|r| - |suffix|..] == suffix
      && (Truthy(title) ==> SafeName(r[|date| + 1..|r| - |suffix|], 200))
      && (!Truthy(title) ==> r[|date| + 1..|r| - |suffix|] == "youtube_" + OptionText(ExtractVideoId(u, url)))
  {
    var r := GenerateOutputFilename(u, url, mode, date, title);
    var suffix := "_" + ModeName(mode) + ".txt";
    var middle := NameMiddle(u, url, title);
    assert r == (date + "_") + middle + suffix;
    assert r[|date| + 1..|r| - |suffix|] == middle;
    assert r[|r| - |suffix|..] == suffix;
    if Truthy(title) {
      SanitizedShape(title.value, 200);
    }
  }

  /** Where a script writes its result: `--output`, else the generated name unless
      `--no-auto-output` was given. */
  function OutputTarget(url: string, parsed: ParsedUrl, mode: Mode, output: Option<string>, noAutoOutput: bool, date: string, title: Option<string>): (r: Option<string>)
    ensures Truthy(output) ==> r == output
    ensures !Truthy(output) && noAutoOutput ==> r.None?
    ensures !Truthy(output) && !noAutoOutput ==> r == Some(GenerateOutputFilename(parsed, url, mode, date, title))
  {
    if Truthy(output) then output
    else if noAutoOutput then None
    else Some(GenerateOutputFilename(parsed, url, mode, date, title))
  }
}
