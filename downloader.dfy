/** The post-processing half of the yt-dlp downloader: splitting the tool's
    standard output into lines, keeping every line that parses as media
    metadata, and building the HTML caption from the first such item. */
module Downloader {
  import opened Wrappers

  /** One JSON line printed by yt-dlp, reduced to the fields the bot declares. */
  datatype MediaMetadata = MediaMetadata(
    filepath: string,
    description: string,
    title: string,
    ext: string,
    mediaType: Option<string>,
    uploader: Option<string>,
    resolution: Option<string>,
    width: Option<nat>,
    height: Option<nat>)

  datatype DownloadError =
    | CommandFailed(message: string)
    | ParsingFailed(message: string)
    | IoError(message: string)

  /** The Display text of a DownloadError: a fixed prefix per variant,
      followed by the error's own message. */
  function ErrorText(e: DownloadError): (t: string)
    ensures |t| > |e.message| && t[|t| - |e.message|..] == e.message
  {
    match e
    case CommandFailed(m) => "yt-dlp command failed: " + m
    case ParsingFailed(m) => "Failed to parse yt-dlp output: " + m
    case IoError(m) => "Could not create temporary directory: " + m
  }

  /** What running the yt-dlp process produced: either it could not be
      started, or it exited with a status and its decoded output streams. */
  datatype ProcessOutput =
    | SpawnFailed(reason: string)
    | Exited(success: bool, stdout: string, stderr: string)

  /** A successful download: the caption and every parsed item, in order. */
  datatype Downloaded = Downloaded(caption: string, items: seq<MediaMetadata>)

  const ViaLink: string := "https://t.me/crabberbot?start=c"
  const MaxCaptionChars: nat := 1024
  const NoMetadataMessage: string := "Could not extract any media metadata from yt-dlp output."

  // ---------------------------------------------------------------------
  // Text helpers: Rust's char::is_whitespace, str::trim, str::lines, join
  // ---------------------------------------------------------------------

  /** The Unicode White_Space property, which is what Rust's trim strips. */
  predicate IsWhitespace(c: char)
  {
    ('\t' <= c <= '\r') || c == ' ' || c == '\U{0085}' || c == '\U{00A0}' ||
    c == '\U{1680}' || ('\U{2000}' <= c <= '\U{200A}') || c == '\U{2028}' ||
    c == '\U{2029}' || c == '\U{202F}' || c == '\U{205F}' || c == '\U{3000}'
  }

  predicate AllWhitespace(s: string)
  {
    forall k :: 0 <= k < |s| ==> IsWhitespace(s[k])
  }

  function TrimStart(s: string): (r: string)
    ensures |r| <= |s| && r == s[|s| - |r|..]
    ensures r == [] || !IsWhitespace(r[0])
    ensures AllWhitespace(s[..|s| - |r|])
  {
    if s != [] && IsWhitespace(s[0]) then TrimStart(s[1..]) else s
  }

  function TrimEnd(s: string): (r: string)
    ensures |r| <= |s| && r == s[..|r|]
    ensures r == [] || !IsWhitespace(r[|r| - 1])
    ensures AllWhitespace(s[|r|..])
  {
    if s != [] && IsWhitespace(s[|s| - 1]) then
      var r := TrimEnd(s[..|s| - 1]);
      assert s[|r|..] == s[..|s| - 1][|r|..] + [s[|s| - 1]];
      r
    else
      s
  }

  /** str::trim: the longest middle part that neither starts nor ends with
      white space; it is empty exactly when the whole string is white space. */
  function Trim(s: string): (r: string)
    ensures r == [] <==> AllWhitespace(s)
    ensures r != [] ==> !IsWhitespace(r[0]) && !IsWhitespace(r[|r| - 1])
  {
    var t := TrimStart(s);
    assert s == s[..|s| - |t|] + t;
    TrimEnd(t)
  }

  /** A white-space suffix `t` of `s`, cut to a prefix `r` with white space
      after it, is a slice of `s` with white space on both sides. */
  lemma SliceOfSuffix(s: string, t: string, r: string) returns (i: nat, j: nat)
    requires |t| <= |s| && t == s[|s| - |t|..] && AllWhitespace(s[..|s| - |t|])
    requires |r| <= |t| && r == t[..|r|] && AllWhitespace(t[|r|..])
    ensures i <= j <= |s| && r == s[i..j]
    ensures AllWhitespace(s[..i]) && AllWhitespace(s[j..])
  {
    i, j := |s| - |t|, |s| - |t| + |r|;
    assert t[|r|..] == s[j..];
  }

  /** What trim removes is white space only: the result is a slice of the
      input with nothing but white space before and after it. */
  lemma TrimIsSlice(s: string) returns (i: nat, j: nat)
    ensures i <= j <= |s| && Trim(s) == s[i..j]
    ensures AllWhitespace(s[..i]) && AllWhitespace(s[j..])
  {
    var t := TrimStart(s);
    var r := TrimEnd(t);
    i, j := SliceOfSuffix(s, t, r);
  }

  /** Index of the first '\n' in `s`, or |s| when there is none. */
  function LineEnd(s: string): (k: nat)
    ensures k <= |s|
    ensures k < |s| ==> s[k] == '\n'
    ensures forall j :: 0 <= j < k ==> s[j] != '\n'
  {
    if s == [] || s[0] == '\n' then 0 else 1 + LineEnd(s[1..])
  }

  /** A line that was ended by "\r\n" loses its '\r'. */
  function StripCr(line: string): string
  {
    if |line| > 0 && line[|line| - 1] == '\r' then line[..|line| - 1] else line
  }

  /** str::lines: split after every '\n', drop the '\n' and one '\r' just
      before it; a last line without a terminator is kept as it is, and an
      empty remainder after the final '\n' yields no line. */
  function Lines(s: string): (ls: seq<string>)
    ensures forall i :: 0 <= i < |ls| ==> '\n' !in ls[i]
    ensures ls == [] <==> s == []
    decreases |s|
  {
    if s == [] then []
    else
      var k := LineEnd(s);
      if k == |s| then [s]
      else [StripCr(s[..k])] + Lines(s[k + 1..])
  }

  /** Vec<String>::join. */
  function Join(parts: seq<string>, sep: string): string
  {
    if |parts| == 0 then ""
    else if |parts| == 1 then parts[0]
    else parts[0] + sep + Join(parts[1..], sep)
  }

  /** The first line of `first + sep + rest` is `first`, when `first` has no
      '\n' and `sep` ends the line: "\n", or "\r\n" whose '\r' is dropped. */
  lemma LinesStep(first: string, sep: string, rest: string)
    requires '\n' !in first && EndsLine(first, sep)
    ensures Lines(first + sep + rest) == [first] + Lines(rest)
  {
    var s := first + sep + rest;
    var n := |first| + |sep| - 1;
    assert forall j :: 0 <= j < |first| ==> s[j] == first[j] && s[j] in first;
    assert s[n] == '\n';
    assert forall j :: |first| <= j < n ==> s[j] == '\r';
    assert LineEnd(s) == n;
    assert s[..n] == first + sep[..|sep| - 1];
    if sep == "\n" {
      assert s[..n] == first;
    } else {
      assert s[..n] == first + "\r";
    }
    assert StripCr(s[..n]) == first;
    assert s[n + 1..] == rest;
  }

  /** A string free of '\n' is a single line. */
  lemma LinesOfOne(line: string)
    requires line != [] && '\n' !in line
    ensures Lines(line) == [line]
  {
    assert forall j :: 0 <= j < |line| ==> line[j] in line;
  }

  /** `sep` ends `line` as a line terminator that Lines removes whole. */
  predicate EndsLine(line: string, sep: string)
  {
    sep == "\r\n" || (sep == "\n" && (line == [] || line[|line| - 1] != '\r'))
  }

  /** Joining peels off its first line under Lines. */
  lemma JoinedLinesStep(ls: seq<string>, sep: string)
    requires |ls| >= 2 && '\n' !in ls[0] && EndsLine(ls[0], sep)
    ensures Lines(Join(ls, sep)) == [ls[0]] + Lines(Join(ls[1..], sep))
  {
    LinesStep(ls[0], sep, Join(ls[1..], sep));
  }

  /** Lines that a join with `sep` keeps apart: none contains '\n', `sep`
      ends every inner line, and the last line is non-empty. */
  predicate Joinable(ls: seq<string>, sep: string)
  {
    ls != [] && ls[|ls| - 1] != [] &&
    (forall i :: 0 <= i < |ls| ==> '\n' !in ls[i]) &&
    (forall i :: 0 <= i < |ls| - 1 ==> EndsLine(ls[i], sep))
  }

  lemma JoinableTail(ls: seq<string>, sep: string)
    requires Joinable(ls, sep) && |ls| >= 2
    ensures Joinable(ls[1..], sep) && '\n' !in ls[0] && EndsLine(ls[0], sep)
  {
    var tail := ls[1..];
    assert forall i :: 0 <= i < |tail| ==> tail[i] == ls[i + 1];
  }

  /** Lines undoes a join of lines that the join keeps apart. */
  lemma {:induction false} LinesOfJoinWith(ls: seq<string>, sep: string)
    requires Joinable(ls, sep)
    ensures Lines(Join(ls, sep)) == ls
  {
    if |ls| == 1 {
      LinesOfOne(ls[0]);
    } else {
      JoinableTail(ls, sep);
      JoinedLinesStep(ls, sep);
      LinesOfJoinWith(ls[1..], sep);
      assert ls == [ls[0]] + ls[1..];
    }
  }

  /** Lines undoes joining with "\n": lines free of '\n', none but the last
      ending in '\r', and a non-empty last line come back unchanged. */
  lemma LinesOfJoin(ls: seq<string>)
    requires ls != [] && ls[|ls| - 1] != []
    requires forall i :: 0 <= i < |ls| ==> '\n' !in ls[i]
    requires forall i :: 0 <= i < |ls| - 1 ==> ls[i] == [] || ls[i][|ls[i]| - 1] != '\r'
    ensures Lines(Join(ls, "\n")) == ls
  {
    LinesOfJoinWith(ls, "\n");
  }

  /** Lines also undoes joining with "\r\n": the '\r' before each '\n' is
      dropped with it, so here any line may itself end in '\r'. */
  lemma LinesOfCrlfJoin(ls: seq<string>)
    requires ls != [] && ls[|ls| - 1] != []
    requires forall i :: 0 <= i < |ls| ==> '\n' !in ls[i]
    ensures Lines(Join(ls, "\r\n")) == ls
  {
    LinesOfJoinWith(ls, "\r\n");
  }

  // ---------------------------------------------------------------------
  // Caption
  // ---------------------------------------------------------------------

  function Header(url: string): (h: string)
    ensures |h| > 0
  {
    "<a href=\"" + url + "\">Source</a> \U{2724} <a href=\"" + ViaLink + "\">Via</a>"
  }

  /** The blockquote lines for one item: "@uploader" when the uploader is
      present and non-empty, then the trimmed description when non-empty. */
  function QuoteParts(m: MediaMetadata): (parts: seq<string>)
    ensures var hasUploader := m.uploader.Some? && m.uploader.value != "";
      var hasDescription := Trim(m.description) != "";
      |parts| == (if hasUploader then 1 else 0) + (if hasDescription then 1 else 0) &&
      (hasUploader ==> parts[0] == "@" + m.uploader.value) &&
      (hasDescription ==> parts[|parts| - 1] == Trim(m.description))
  {
    (if m.uploader.Some? && m.uploader.value != "" then ["@" + m.uploader.value] else []) +
    (if Trim(m.description) != "" then [Trim(m.description)] else [])
  }

  /** The caption laid out from a header and quote parts: the bare header
      when there is nothing to quote, otherwise the header, a blank line and
      a blockquote holding the parts joined by "\n". */
  function Blockquote(header: string, parts: seq<string>): (c: string)
    ensures header <= c
    ensures c == header <==> parts == []
  {
    if parts == [] then header
    else header + "\n\n<blockquote>" + Join(parts, "\n") + "</blockquote>"
  }

  /** The untruncated caption of an item. It starts with the header and is
      the bare header exactly when there is nothing to quote. */
  function Caption(url: string, m: MediaMetadata): (c: string)
    ensures Header(url) <= c
    ensures c == Header(url) <==> QuoteParts(m) == []
  {
    Blockquote(Header(url), QuoteParts(m))
  }

  /** The layout for each combination of uploader and description, over any header. */
  lemma BlockquoteLayout(header: string, u: Option<string>, d: string, parts: seq<string>)
    requires parts == (if u.Some? && u.value != "" then ["@" + u.value] else []) + (if d != "" then [d] else [])
    ensures var open := header + "\n\n<blockquote>";
      (u.Some? && u.value != "" && d != "" ==> Blockquote(header, parts) == open + "@" + u.value + "\n" + d + "</blockquote>") &&
      (u.Some? && u.value != "" && d == "" ==> Blockquote(header, parts) == open + "@" + u.value + "</blockquote>") &&
      ((u.None? || u.value == "") && d != "" ==> Blockquote(header, parts) == open + d + "</blockquote>") &&
      ((u.None? || u.value == "") && d == "" ==> Blockquote(header, parts) == header)
  {
    if u.Some? && u.value != "" && d != "" {
      assert parts == ["@" + u.value, d];
      assert Join(parts, "\n") == "@" + u.value + "\n" + d;
    } else if u.Some? && u.value != "" {
      assert parts == ["@" + u.value];
    } else if d != "" {
      assert parts == [d];
    }
  }

  /** The blockquote holds "@" and the uploader, then the trimmed
      description, separated by one "\n"; a missing or empty part is left
      out together with its separator, and with neither the caption is the
      bare header. */
  lemma CaptionLayout(url: string, m: MediaMetadata)
    ensures var u := m.uploader; var d := Trim(m.description);
      var open := Header(url) + "\n\n<blockquote>";
      (u.Some? && u.value != "" && d != "" ==> Caption(url, m) == open + "@" + u.value + "\n" + d + "</blockquote>") &&
      (u.Some? && u.value != "" && d == "" ==> Caption(url, m) == open + "@" + u.value + "</blockquote>") &&
      ((u.None? || u.value == "") && d != "" ==> Caption(url, m) == open + d + "</blockquote>") &&
      ((u.None? || u.value == "") && d == "" ==> Caption(url, m) == Header(url))
  {
    BlockquoteLayout(Header(url), m.uploader, Trim(m.description), QuoteParts(m));
  }

  /** chars().take(n).collect(): the first n characters, or all of them. */
  function Take(s: string, n: nat): (r: string)
    ensures |r| <= n && r <= s
    ensures |s| <= n ==> r == s
    ensures |s| > n ==> |r| == n
  {
    if |s| <= n then s else s[..n]
  }

  // ---------------------------------------------------------------------
  // The output loop
  // ---------------------------------------------------------------------

  /** A line contributes an item when it is not blank and it parses. */
  predicate Kept(line: string, parse: string -> Option<MediaMetadata>)
  {
    Trim(line) != "" && parse(line).Some?
  }

  /** The items the loop collects from `lines`, in line order. */
  function ParsedItems(lines: seq<string>, parse: string -> Option<MediaMetadata>): seq<MediaMetadata>
  {
    if lines == [] then []
    else
      var last := lines[|lines| - 1];
      ParsedItems(lines[..|lines| - 1], parse) + (if Kept(last, parse) then [parse(last).value] else [])
  }

  lemma {:induction false} ParsedItemsAppend(a: seq<string>, b: seq<string>, parse: string -> Option<MediaMetadata>)
    ensures ParsedItems(a + b, parse) == ParsedItems(a, parse) + ParsedItems(b, parse)
    decreases |b|
  {
    if b != [] {
      var b' := b[..|b| - 1];
      assert (a + b)[..|a + b| - 1] == a + b';
      ParsedItemsAppend(a, b', parse);
    } else {
      assert a + b == a;
    }
  }

  /** Extending a prefix of the lines by one line adds that line's item, if any. */
  lemma ParsedItemsStep(lines: seq<string>, i: nat, parse: string -> Option<MediaMetadata>)
    requires i < |lines|
    ensures ParsedItems(lines[..i + 1], parse) ==
      ParsedItems(lines[..i], parse) + (if Kept(lines[i], parse) then [parse(lines[i]).value] else [])
  {
    var head := lines[..i + 1];
    assert head[..|head| - 1] == lines[..i];
    assert head[|head| - 1] == lines[i];
  }

  /** Every kept line yields exactly its parsed item, at the position given
      by the number of items before it; blank and unparseable lines yield none. */
  lemma ParsedItemsSplit(lines: seq<string>, i: nat, parse: string -> Option<MediaMetadata>)
    requires i < |lines|
    ensures ParsedItems(lines, parse) ==
      ParsedItems(lines[..i], parse) +
      (if Kept(lines[i], parse) then [parse(lines[i]).value] else []) +
      ParsedItems(lines[i + 1..], parse)
  {
    var head := lines[..i + 1];
    assert lines == head + lines[i + 1..];
    ParsedItemsAppend(head, lines[i + 1..], parse);
    ParsedItemsStep(lines, i, parse);
  }

  /** A line of nothing but white space contributes nothing, whatever the
      parser would make of it. */
  lemma BlankLineIsSkipped(lines: seq<string>, i: nat, parse: string -> Option<MediaMetadata>)
    requires i < |lines| && AllWhitespace(lines[i])
    ensures ParsedItems(lines, parse) == ParsedItems(lines[..i], parse) + ParsedItems(lines[i + 1..], parse)
  {
    ParsedItemsSplit(lines, i, parse);
  }

  /** Lines after the first item never change it, hence never change the caption. */
  lemma FirstItemIsFixed(lines: seq<string>, more: seq<string>, parse: string -> Option<MediaMetadata>)
    requires ParsedItems(lines, parse) != []
    ensures ParsedItems(lines + more, parse) != []
    ensures ParsedItems(lines + more, parse)[0] == ParsedItems(lines, parse)[0]
  {
    ParsedItemsAppend(lines, more, parse);
  }

  /** The caption assembly done for the first parsed item: the quote parts
      are pushed one by one and then joined into a blockquote. */
  method BuildCaption(url: string, metadata: MediaMetadata) returns (caption: string)
    ensures caption == Caption(url, metadata)
  {
    var header := Header(url);
    var quoteParts: seq<string> := [];
    if metadata.uploader.Some? {
      if metadata.uploader.value != "" {
        quoteParts := quoteParts + ["@" + metadata.uploader.value];
      }
    }
    var description := Trim(metadata.description);
    if description != "" {
      quoteParts := quoteParts + [description];
    }
    caption := if quoteParts != [] then
      header + "\n\n<blockquote>" + Join(quoteParts, "\n") + "</blockquote>"
    else
      header;
  }

  /** The caption the loop holds after collecting `items`: empty until the
      first item arrives, then that item's caption. */
  predicate CaptionOfFirst(url: string, items: seq<MediaMetadata>, caption: string)
  {
    if items == [] then caption == [] else caption == Caption(url, items[0])
  }

  /** One pass of the loop body on `line`. */
  method ProcessLine(url: string, line: string, parse: string -> Option<MediaMetadata>,
                     items: seq<MediaMetadata>, untruncated: string)
    returns (items': seq<MediaMetadata>, untruncated': string)
    requires CaptionOfFirst(url, items, untruncated)
    ensures items' == items + (if Kept(line, parse) then [parse(line).value] else [])
    ensures CaptionOfFirst(url, items', untruncated')
  {
    items', untruncated' := items, untruncated;
    if Trim(line) != "" {
      match parse(line)
      case Some(metadata) =>
        if untruncated' == "" {
          untruncated' := BuildCaption(url, metadata);
        }
        items' := items' + [metadata];
      case None =>
    }
  }

  /** The `for line in stdout.lines()` loop: it skips blank and unparseable
      lines, keeps every parsed item in order, and builds the caption once,
      from the first item, while the caption is still empty. */
  method CollectItems(url: string, lines: seq<string>, parse: string -> Option<MediaMetadata>)
    returns (items: seq<MediaMetadata>, untruncated: string)
    ensures items == ParsedItems(lines, parse)
    ensures CaptionOfFirst(url, items, untruncated)
  {
    items, untruncated := [], "";
    for i := 0 to |lines|
      invariant items == ParsedItems(lines[..i], parse)
      invariant CaptionOfFirst(url, items, untruncated)
    {
      ParsedItemsStep(lines, i, parse);
      items, untruncated := ProcessLine(url, lines[i], parse, items, untruncated);
    }
    assert lines[..|lines|] == lines;
  }

  /** YtDlpDownloader::download_media after the process has run. */
  method DownloadMedia(url: string, output: ProcessOutput, parse: string -> Option<MediaMetadata>)
    returns (r: Result<Downloaded, DownloadError>)
    ensures output.SpawnFailed? ==> r == Err(CommandFailed(output.reason))
    ensures output.Exited? && !output.success ==> r == Err(CommandFailed(output.stderr))
    ensures output.Exited? && output.success ==>
      var items := ParsedItems(Lines(output.stdout), parse);
      (items == [] ==> r == Err(ParsingFailed(NoMetadataMessage))) &&
      (items != [] ==> r == Ok(Downloaded(Take(Caption(url, items[0]), MaxCaptionChars), items)))
    ensures r.Ok? ==> r.value.items != [] && |r.value.caption| <= MaxCaptionChars
  {
    match output
    case SpawnFailed(reason) =>
      return Err(CommandFailed(reason));
    case Exited(success, stdout, stderr) =>
      if !success {
        return Err(CommandFailed(stderr));
      }
      var items, untruncated := CollectItems(url, Lines(stdout), parse);
      if items == [] {
        return Err(ParsingFailed(NoMetadataMessage));
      }
      r := Ok(Downloaded(Take(untruncated, MaxCaptionChars), items));
  }
}
