/**
 * The helpers of the article page (src/views/NewsDetail.tsx): the HTML escaper, the YouTube
 * embed address, the reading time, the related-news selection and the injection of the
 * related links after the first paragraph.
 */
module NewsDetail {
  import opened Wrappers
  import opened Strings
  import opened Seqs
  import opened Urls
  import ApiUrl
  import TextUtils

  // ---- escapeHtml ----

  const Amp := "&amp;"
  const Lt := "&lt;"
  const Gt := "&gt;"
  const Quot := "&quot;"
  const Apos := "&#39;"

  /** `escapeHtml(value)`: five global replacements, the ampersand first. */
  function EscapeHtml(value: string): string {
    ReplaceAll(ReplaceAll(ReplaceAll(ReplaceAll(ReplaceAll(value, '&', Amp), '<', Lt), '>', Gt), '"', Quot), '\'', Apos)
  }

  /** The escape of one character. */
  function EscapeChar(c: char): (r: string)
    ensures r != []
  {
    if c == '&' then Amp
    else if c == '<' then Lt
    else if c == '>' then Gt
    else if c == '"' then Quot
    else if c == '\'' then Apos
    else [c]
  }

  /** Escaping character by character, the reference the chained replacements are compared with. */
  function EscapeEach(s: string): string {
    if s == [] then [] else EscapeChar(s[0]) + EscapeEach(s[1..])
  }

  predicate Special(c: char) {
    c == '&' || c == '<' || c == '>' || c == '"' || c == '\''
  }

  lemma EscapeHtmlAppend(a: string, b: string)
    ensures EscapeHtml(a + b) == EscapeHtml(a) + EscapeHtml(b)
  {
    var a1, b1 := ReplaceAll(a, '&', Amp), ReplaceAll(b, '&', Amp);
    ReplaceAllAppend(a, b, '&', Amp);
    var a2, b2 := ReplaceAll(a1, '<', Lt), ReplaceAll(b1, '<', Lt);
    ReplaceAllAppend(a1, b1, '<', Lt);
    var a3, b3 := ReplaceAll(a2, '>', Gt), ReplaceAll(b2, '>', Gt);
    ReplaceAllAppend(a2, b2, '>', Gt);
    var a4, b4 := ReplaceAll(a3, '"', Quot), ReplaceAll(b3, '"', Quot);
    ReplaceAllAppend(a3, b3, '"', Quot);
    ReplaceAllAppend(a4, b4, '\'', Apos);
  }

  /** No replacement after the first meets a character of an earlier replacement's entity. */
  lemma EscapeSingle(c: char)
    ensures EscapeHtml([c]) == EscapeChar(c)
  {
    if c == '&' {
      EscapeSingleAmp(c);
    } else if c == '<' {
      EscapeSingleLt(c);
    } else {
      ReplaceAllSingle([c], '&', Amp);
      ReplaceAllSingle([c], '<', Lt);
      EscapeSingleTail(c);
    }
  }

  lemma EscapeSingleAmp(c: char)
    requires c == '&'
    ensures EscapeHtml([c]) == Amp
  {
    ReplaceAllSingle([c], '&', Amp);
    LaterStepsKeep(Amp);
  }

  lemma EscapeSingleLt(c: char)
    requires c == '<'
    ensures EscapeHtml([c]) == Lt
  {
    ReplaceAllSingle([c], '&', Amp);
    ReplaceAllSingle([c], '<', Lt);
    LtPlain(Lt);
    ReplaceAllAbsent(Lt, '<', Lt);
    LaterStepsKeep(Lt);
  }

  /** The entity of `<` holds none of the characters the later steps replace. */
  lemma LtPlain(x: string)
    requires x == Lt
    ensures '<' !in x && '>' !in x && '"' !in x && '\'' !in x
  {
    assert x == ['&', 'l', 't', ';'];
  }

  /** The last four replacements leave text without their characters as it is. */
  lemma LaterStepsKeep(x: string)
    requires '<' !in x && '>' !in x && '"' !in x && '\'' !in x
    ensures ReplaceAll(ReplaceAll(ReplaceAll(ReplaceAll(x, '<', Lt), '>', Gt), '"', Quot), '\'', Apos) == x
  {
    ReplaceAllAbsent(x, '<', Lt);
    ReplaceAllAbsent(x, '>', Gt);
    ReplaceAllAbsent(x, '"', Quot);
    ReplaceAllAbsent(x, '\'', Apos);
  }

  lemma EscapeSingleTail(c: char)
    requires c != '&' && c != '<'
    ensures ReplaceAll(ReplaceAll(ReplaceAll([c], '>', Gt), '"', Quot), '\'', Apos) == EscapeChar(c)
  {
    var s := [c];
    var s3 := ReplaceAll(s, '>', Gt);
    ReplaceAllSingle(s, '>', Gt);
    if c == '>' {
      assert s3 == Gt;
      ReplaceAllAbsent(Gt, '"', Quot);
      ReplaceAllAbsent(Gt, '\'', Apos);
    } else {
      assert s3 == s;
      var s4 := ReplaceAll(s, '"', Quot);
      ReplaceAllSingle(s, '"', Quot);
      if c == '"' {
        assert s4 == Quot;
        ReplaceAllAbsent(Quot, '\'', Apos);
      } else {
        assert s4 == s;
        ReplaceAllSingle(s, '\'', Apos);
      }
    }
  }

  lemma ReplaceAllSingle(s: string, c: char, rep: string)
    requires |s| == 1
    ensures ReplaceAll(s, c, rep) == if s[0] == c then rep else s
  {
    assert s[1..] == [];
  }

  /** Because the ampersand is replaced first, the chain escapes every character on its own. */
  lemma {:induction false} EscapeHtmlPerChar(s: string)
    ensures EscapeHtml(s) == EscapeEach(s)
  {
    if s == [] {
    } else {
      assert s == [s[0]] + s[1..];
      EscapeHtmlAppend([s[0]], s[1..]);
      EscapeSingle(s[0]);
      EscapeHtmlPerChar(s[1..]);
    }
  }

  /** Text without the five characters is left as it is. */
  lemma EscapeHtmlIdentity(s: string)
    requires forall i :: 0 <= i < |s| ==> !Special(s[i])
    ensures EscapeHtml(s) == s
  {
    ReplaceAllAbsent(s, '&', Amp);
    ReplaceAllAbsent(s, '<', Lt);
    ReplaceAllAbsent(s, '>', Gt);
    ReplaceAllAbsent(s, '"', Quot);
    ReplaceAllAbsent(s, '\'', Apos);
  }

  /** The escaped text has no `<`, `>`, `"` or `'`. */
  lemma {:induction false} EscapeHtmlSafe(s: string)
    ensures forall i :: 0 <= i < |EscapeHtml(s)| ==> !Special(EscapeHtml(s)[i]) || EscapeHtml(s)[i] == '&'
  {
    EscapeHtmlPerChar(s);
    EscapeEachSafe(s);
  }

  lemma {:induction false} EscapeEachSafe(s: string)
    ensures forall i :: 0 <= i < |EscapeEach(s)| ==> !Special(EscapeEach(s)[i]) || EscapeEach(s)[i] == '&'
  {
    if s != [] {
      EscapeEachSafe(s[1..]);
      var e, rest := EscapeChar(s[0]), EscapeEach(s[1..]);
      forall i | 0 <= i < |e + rest| ensures !Special((e + rest)[i]) || (e + rest)[i] == '&' {
        if i >= |e| {
          assert (e + rest)[i] == rest[i - |e|];
        }
      }
    }
  }

  /** Each ampersand of the escaped text starts one of the five entities. */
  predicate EntityAt(t: string, i: int) {
    MatchAt(t, Amp, i) || MatchAt(t, Lt, i) || MatchAt(t, Gt, i) || MatchAt(t, Quot, i) || MatchAt(t, Apos, i)
  }

  lemma {:induction false} EscapeHtmlAmpersands(s: string)
    ensures forall i :: 0 <= i < |EscapeHtml(s)| && EscapeHtml(s)[i] == '&' ==> EntityAt(EscapeHtml(s), i)
  {
    EscapeHtmlPerChar(s);
    EscapeEachAmpersands(s);
  }

  lemma {:induction false} EscapeEachAmpersands(s: string)
    ensures forall i :: 0 <= i < |EscapeEach(s)| && EscapeEach(s)[i] == '&' ==> EntityAt(EscapeEach(s), i)
  {
    if s != [] {
      EscapeEachAmpersands(s[1..]);
      var e, rest := EscapeChar(s[0]), EscapeEach(s[1..]);
      var t := e + rest;
      forall i | 0 <= i < |t| && t[i] == '&' ensures EntityAt(t, i) {
        if i >= |e| {
          assert t[i] == rest[i - |e|];
          MatchShift(e, rest, i - |e|);
        } else {
          assert t[..|e|] == e;
          assert i == 0 && Special(s[0]);
        }
      }
    }
  }

  lemma MatchShift(e: string, rest: string, j: int)
    requires EntityAt(rest, j)
    ensures EntityAt(e + rest, j + |e|)
  {
    var t := e + rest;
    forall sub: string | MatchAt(rest, sub, j) ensures MatchAt(t, sub, j + |e|) {
      assert t[j + |e|..j + |e| + |sub|] == rest[j..j + |sub|];
    }
  }

  /** Decoding the five entities, the inverse of the escaper. */
  function Unescape(t: string): string
    decreases |t|
  {
    if t == [] then []
    else if StartsWith(t, Amp) then "&" + Unescape(t[|Amp|..])
    else if StartsWith(t, Lt) then "<" + Unescape(t[|Lt|..])
    else if StartsWith(t, Gt) then ">" + Unescape(t[|Gt|..])
    else if StartsWith(t, Quot) then "\"" + Unescape(t[|Quot|..])
    else if StartsWith(t, Apos) then "'" + Unescape(t[|Apos|..])
    else [t[0]] + Unescape(t[1..])
  }

  lemma UnescapeStep(c: char, rest: string)
    ensures Unescape(EscapeChar(c) + rest) == [c] + Unescape(rest)
  {
    var e := EscapeChar(c);
    var t := e + rest;
    assert t[..|e|] == e && t[|e|..] == rest;
    if !Special(c) {
      assert t[0] == c && t[1..] == rest;
      NotAt(t, Amp, 0);
      NotAt(t, Lt, 0);
      NotAt(t, Gt, 0);
      NotAt(t, Quot, 0);
      NotAt(t, Apos, 0);
    } else if c != '&' {
      assert t[1] == e[1];
      NotAt(t, Amp, 1);
      if c != '<' {
        NotAt(t, Lt, 1);
        if c != '>' {
          NotAt(t, Gt, 1);
          if c != '"' {
            NotAt(t, Quot, 1);
          }
        }
      }
    }
  }

  /** A text that differs from `e` at index `i` does not start with `e`. */
  lemma NotAt(t: string, e: string, i: nat)
    requires i < |e| && i < |t| && t[i] != e[i]
    ensures !StartsWith(t, e)
  {
  }

  /** Unescaping gives back the original text: the escaper loses nothing and is injective. */
  lemma {:induction false} EscapeHtmlRoundTrip(s: string)
    ensures Unescape(EscapeHtml(s)) == s
  {
    EscapeHtmlPerChar(s);
    UnescapeEach(s);
  }

  lemma {:induction false} UnescapeEach(s: string)
    ensures Unescape(EscapeEach(s)) == s
  {
    if s != [] {
      UnescapeEach(s[1..]);
      UnescapeStep(s[0], EscapeEach(s[1..]));
      assert [s[0]] + s[1..] == s;
    }
  }

  // ---- getYouTubeEmbedUrl ----

  const EmbedPrefix := "https://www.youtube-nocookie.com/embed/"
  const EmbedSuffix := "?rel=0"

  function Embed(id: string): string {
    EmbedPrefix + id + EmbedSuffix
  }

  /** The id between the prefix and the suffix of an embed address. */
  function EmbedId(r: string): string
    requires |r| >= |EmbedPrefix| + |EmbedSuffix|
  {
    r[|EmbedPrefix|..|r| - |EmbedSuffix|]
  }

  lemma EmbedIdOfEmbed(id: string)
    ensures |Embed(id)| >= |EmbedPrefix| + |EmbedSuffix| && EmbedId(Embed(id)) == id
  {
  }

  /** `pathname.split("/").filter(Boolean)[k] || ""`. */
  function PathSegment(path: string, k: nat): (r: string)
    ensures r == "" || '/' !in r
  {
    var segments := NonEmpty(Split(path, '/'));
    if k < |segments| then segments[k] else ""
  }

  predicate IdChar(c: char) {
    'a' <= c <= 'z' || 'A' <= c <= 'Z' || '0' <= c <= '9' || c == '_' || c == '-'
  }

  /** `/^[a-zA-Z0-9_-]{11}$/.test(raw)`. */
  predicate IsVideoId(s: string) {
    |s| == 11 && forall i :: 0 <= i < |s| ==> IdChar(s[i])
  }

  predicate IsYouTubeHost(hostname: string) {
    EndsWith(hostname, "youtube.com") || EndsWith(hostname, "youtube-nocookie.com")
  }

  /** What a parsed URL decides: an id (possibly empty), or not a YouTube address at all. */
  datatype UrlVideo = VideoId(id: string) | NotYouTube

  function VideoOfUrl(u: Url): UrlVideo {
    if u.hostname == "youtu.be" then VideoId(PathSegment(u.pathname, 0))
    else if IsYouTubeHost(u.hostname) then
      if StartsWith(u.pathname, "/embed/") || StartsWith(u.pathname, "/shorts/") then VideoId(PathSegment(u.pathname, 1))
      else VideoId(SearchParam(u, "v").GetOr(""))
    else NotYouTube
  }

  /** `getYouTubeEmbedUrl(input)`; `parse` is `new URL`. */
  function YouTubeEmbedUrl(input: string, parse: Parser): (r: string)
    ensures Trim(input) == "" ==> r == ""
    ensures r != "" ==> |r| > |EmbedPrefix| + |EmbedSuffix| && r == Embed(EmbedId(r))
  {
    var raw := Trim(input);
    if raw == "" then ""
    else
      var decided := if parse(raw).Some? then VideoOfUrl(parse(raw).value) else NotYouTube;
      match decided
      case VideoId(id) => if id != "" then Embed(id) else ""
      case NotYouTube => if IsVideoId(raw) then Embed(raw) else ""
  }

  /** The pieces of `/` + `id` are the empty one and `id`. */
  lemma SegmentsOfOne(id: string)
    requires id != "" && '/' !in id
    ensures NonEmpty(Split("/" + id, '/')) == [id]
  {
    SplitAfterPiece("", '/', id);
    assert "" + ['/'] + id == "/" + id;
    SplitNoSeparator(id, '/');
    assert [""] + [id] == ["", id];
    assert ["", id][1..] == [id];
    assert [id][1..] == [];
  }

  /** The pieces of `/` + `kind` + `/` + `id` are the empty one, `kind` and `id`. */
  lemma SegmentsOfTwo(kind: string, id: string)
    requires kind != "" && '/' !in kind && id != "" && '/' !in id
    ensures NonEmpty(Split("/" + kind + "/" + id, '/')) == [kind, id]
  {
    var tail := kind + ['/'] + id;
    SplitAfterPiece(kind, '/', id);
    SplitNoSeparator(id, '/');
    assert Split(tail, '/') == [kind, id];
    SplitAfterPiece("", '/', tail);
    assert "" + ['/'] + tail == "/" + kind + "/" + id;
    var pieces := ["", kind, id];
    assert Split("/" + kind + "/" + id, '/') == pieces;
    assert pieces[1..] == [kind, id];
    assert NonEmpty(pieces) == NonEmpty([kind, id]);
    assert [kind, id][1..] == [id];
    assert [id][1..] == [];
  }

  /** A segment-taking branch of `VideoOfUrl` reads the segment it names. */
  lemma VideoOfEmbedPath(u: Url)
    requires u.hostname != "youtu.be" && IsYouTubeHost(u.hostname)
    requires StartsWith(u.pathname, "/embed/") || StartsWith(u.pathname, "/shorts/")
    ensures VideoOfUrl(u) == VideoId(PathSegment(u.pathname, 1))
  {
  }

  /** A `youtu.be/<id>` address embeds its first path segment. */
  lemma ShortLinkTakesFirstSegment(input: string, parse: Parser, u: Url, id: string)
    requires Trim(input) != "" && parse(Trim(input)) == Some(u)
    requires u.hostname == "youtu.be" && u.pathname == "/" + id && id != "" && '/' !in id
    ensures YouTubeEmbedUrl(input, parse) == Embed(id)
  {
    SegmentsOfOne(id);
  }

  /** An `/embed/<id>` or `/shorts/<id>` address on a YouTube host embeds its second segment. */
  lemma EmbedPathTakesSecondSegment(input: string, parse: Parser, u: Url, kind: string, id: string)
    requires Trim(input) != "" && parse(Trim(input)) == Some(u)
    requires u.hostname != "youtu.be" && IsYouTubeHost(u.hostname)
    requires (kind == "embed" || kind == "shorts") && u.pathname == "/" + kind + "/" + id && id != "" && '/' !in id
    ensures YouTubeEmbedUrl(input, parse) == Embed(id)
  {
    EmbedPathVideo(u, kind, id);
    DecidedId(input, parse, u, id);
  }

  lemma EmbedPathVideo(u: Url, kind: string, id: string)
    requires u.hostname != "youtu.be" && IsYouTubeHost(u.hostname)
    requires (kind == "embed" || kind == "shorts") && u.pathname == "/" + kind + "/" + id && id != "" && '/' !in id
    ensures VideoOfUrl(u) == VideoId(id)
  {
    SegmentsOfTwo(kind, id);
    var marker := "/" + kind + "/";
    assert u.pathname == marker + id;
    assert StartsWith(u.pathname, marker) by {
      assert u.pathname[..|marker|] == marker;
    }
    VideoOfEmbedPath(u);
  }

  /** A URL that names a non-empty id embeds it. */
  lemma DecidedId(input: string, parse: Parser, u: Url, id: string)
    requires Trim(input) != "" && parse(Trim(input)) == Some(u)
    requires VideoOfUrl(u) == VideoId(id) && id != ""
    ensures YouTubeEmbedUrl(input, parse) == Embed(id)
  {
  }

  /** Any other address on a YouTube host embeds its `v` parameter, and nothing without one. */
  lemma WatchPageTakesV(input: string, parse: Parser, u: Url)
    requires Trim(input) != "" && parse(Trim(input)) == Some(u)
    requires u.hostname != "youtu.be" && IsYouTubeHost(u.hostname)
    requires !StartsWith(u.pathname, "/embed/") && !StartsWith(u.pathname, "/shorts/")
    ensures SearchParam(u, "v").Some? && SearchParam(u, "v").value != "" ==>
              YouTubeEmbedUrl(input, parse) == Embed(SearchParam(u, "v").value)
    ensures SearchParam(u, "v").None? ==> YouTubeEmbedUrl(input, parse) == ""
  {
  }

  /** Text that is not a URL is accepted exactly when it is an eleven-character id. */
  lemma BareIdFallback(input: string, parse: Parser)
    requires Trim(input) != "" && parse(Trim(input)).None?
    ensures IsVideoId(Trim(input)) ==> YouTubeEmbedUrl(input, parse) == Embed(Trim(input))
    ensures !IsVideoId(Trim(input)) ==> YouTubeEmbedUrl(input, parse) == ""
  {
  }

  /** A URL that parses but is on another host goes on to the bare-id test, like text that does not parse. */
  lemma OtherHostFallsBack(input: string, parse: Parser, u: Url)
    requires Trim(input) != "" && parse(Trim(input)) == Some(u)
    requires u.hostname != "youtu.be" && !IsYouTubeHost(u.hostname)
    ensures IsVideoId(Trim(input)) ==> YouTubeEmbedUrl(input, parse) == Embed(Trim(input))
    ensures !IsVideoId(Trim(input)) ==> YouTubeEmbedUrl(input, parse) == ""
  {
    assert VideoOfUrl(u) == NotYouTube;
  }

  /** A `youtu.be` address with the bare path `/` yields nothing, without trying the bare-id test. */
  lemma ShortLinkWithoutId(input: string, parse: Parser, u: Url)
    requires Trim(input) != "" && parse(Trim(input)) == Some(u)
    requires u.hostname == "youtu.be" && u.pathname == "/"
    ensures YouTubeEmbedUrl(input, parse) == ""
  {
    NoSegment(u.pathname);
    assert VideoOfUrl(u) == VideoId("");
  }

  lemma NoSegment(path: string)
    requires path == "/"
    ensures PathSegment(path, 0) == ""
  {
    SplitAfterPiece("", '/', "");
    assert "" + ['/'] + "" == path;
    assert ["", ""][1..] == [""];
  }

  // ---- getReadingTime ----

  /** `getReadingTime(content, excerpt)` in minutes: `text.split(/\s+/).length` pieces at 200 a minute. */
  function ReadingMinutes(content: Option<string>, excerpt: string): (r: int)
    ensures var text := if content.Some? && content.value != "" then content.value else excerpt;
            r >= 1 && 200 * (r - 1) < |SplitSpaces(text)| <= 200 * r
  {
    var text := if content.Some? && content.value != "" then content.value else excerpt;
    CeilDiv(|SplitSpaces(text)|, 200)
  }

  /** The unit after the minutes: a space and the Hindi word for minutes. */
  const MinuteUnit := " \U{092E}\U{093F}\U{0928}\U{091F}"

  /**
   * The label the page shows: decimal digits followed by the unit, where the digits read back
   * as the minutes.
   */
  function ReadingTimeLabel(content: Option<string>, excerpt: string): (r: string)
    ensures EndsWith(r, MinuteUnit) && |r| > |MinuteUnit|
    ensures forall i :: 0 <= i < |r| - |MinuteUnit| ==> IsDigit(r[i])
    ensures ParseNat(r[..|r| - |MinuteUnit|]) == ReadingMinutes(content, excerpt)
    ensures r[0] != '0'
  {
    var digits := NatToString(ReadingMinutes(content, excerpt));
    ParseNatToString(ReadingMinutes(content, excerpt));
    assert (digits + MinuteUnit)[..|digits|] == digits;
    digits + MinuteUnit
  }

  /** On trimmed content the article page and `computeReadTimeMinutes` give the same minutes. */
  lemma ReadingMinutesAgree(text: string, excerpt: string)
    requires text != "" && IsTrimmed(text)
    ensures ReadingMinutes(Some(text), excerpt) == TextUtils.ReadTimeMinutes(text)
  {
    TailPiecesNonEmpty(text);
    NonEmptyOfNonEmpty(SplitSpaces(text));
    TrimOfTrimmed(text);
  }

  /**
   * Splitting text that ends in a non-space gives only non-empty pieces after the first,
   * and a non-empty first piece when the text starts with a non-space.
   */
  lemma {:induction false} TailPiecesNonEmpty(s: string)
    requires s != [] && !IsSpace(s[|s| - 1])
    ensures forall k :: 1 <= k < |SplitSpaces(s)| ==> SplitSpaces(s)[k] != ""
    ensures !IsSpace(s[0]) ==> SplitSpaces(s)[0] != ""
    decreases |s|, 1
  {
    if IsSpace(s[0]) {
      TailPiecesAfterSpace(s);
    } else if |s| > 1 {
      TailPiecesAfterChar(s);
    } else {
      assert s[1..] == [];
      assert SplitSpaces(s[1..]) == [""];
    }
  }

  /** The case of a leading space: an empty piece, then the pieces of the rest without its spaces. */
  lemma {:induction false} TailPiecesAfterSpace(s: string)
    requires s != [] && !IsSpace(s[|s| - 1]) && IsSpace(s[0])
    ensures forall k :: 1 <= k < |SplitSpaces(s)| ==> SplitSpaces(s)[k] != ""
    decreases |s|, 0
  {
    var r := SplitSpaces(s);
    var u := TrimStart(s[1..]);
    assert |s[1..]| >= 1 && s[1..][|s[1..]| - 1] == s[|s| - 1];
    assert u != [];
    assert u[|u| - 1] == s[|s| - 1];
    TailPiecesNonEmpty(u);
    var pieces := SplitSpaces(u);
    assert !IsSpace(u[0]);
    assert pieces[0] != "";
    assert r == [""] + pieces;
    forall k | 1 <= k < |r| ensures r[k] != "" {
      assert r[k] == pieces[k - 1];
    }
  }

  /** The case of a leading non-space: it joins the first piece of the rest. */
  lemma {:induction false} TailPiecesAfterChar(s: string)
    requires |s| > 1 && !IsSpace(s[|s| - 1]) && !IsSpace(s[0])
    ensures forall k :: 1 <= k < |SplitSpaces(s)| ==> SplitSpaces(s)[k] != ""
    ensures SplitSpaces(s)[0] != ""
    decreases |s|, 0
  {
    var r := SplitSpaces(s);
    assert s[1..][|s[1..]| - 1] == s[|s| - 1];
    TailPiecesNonEmpty(s[1..]);
    var rest := SplitSpaces(s[1..]);
    assert r == [[s[0]] + rest[0]] + rest[1..];
    forall k | 1 <= k < |r| ensures r[k] != "" {
      assert r[k] == rest[k];
    }
  }

  // ---- related news and contentWithInternalLinks ----

  /** The fields of an article the selection reads; a missing slug or title is `""`. */
  datatype NewsItem = NewsItem(id: string, slug: string, title: string)

  datatype Link = Link(href: string, title: string)

  function NotCurrent(currentId: string): NewsItem -> bool {
    (a: NewsItem) => a.id != currentId
  }

  /** `categoryNews.filter((a) => a.id !== article.id).slice(0, 4)`. */
  function RelatedNews(categoryNews: seq<NewsItem>, currentId: string): (r: seq<NewsItem>)
    ensures |r| <= 4
    ensures forall k :: 0 <= k < |r| ==> r[k] in categoryNews && r[k].id != currentId
    ensures |r| == if |Filter(categoryNews, NotCurrent(currentId))| < 4 then |Filter(categoryNews, NotCurrent(currentId))| else 4
    ensures r == Filter(categoryNews, NotCurrent(currentId))[..|r|]
  {
    var others := Filter(categoryNews, NotCurrent(currentId));
    var r := Slice(others, 0, 4);
    assert forall k :: 0 <= k < |r| ==> r[k] == others[k];
    r
  }

  /** With at most four other articles in the category, every one of them is related. */
  lemma RelatedNewsComplete(categoryNews: seq<NewsItem>, currentId: string)
    requires |Filter(categoryNews, NotCurrent(currentId))| <= 4
    ensures forall a :: a in categoryNews && a.id != currentId ==> a in RelatedNews(categoryNews, currentId)
  {
    var others := Filter(categoryNews, NotCurrent(currentId));
    assert RelatedNews(categoryNews, currentId) == others;
    forall a | a in categoryNews && a.id != currentId ensures a in others {
      var i :| 0 <= i < |categoryNews| && categoryNews[i] == a;
      assert NotCurrent(currentId)(categoryNews[i]);
    }
  }

  /** The related articles keep the order of the category list. */
  lemma RelatedNewsOrdered(categoryNews: seq<NewsItem>, currentId: string)
    ensures IsSubsequence(RelatedNews(categoryNews, currentId), categoryNews)
  {
    var others := Filter(categoryNews, NotCurrent(currentId));
    FilterSubsequence(categoryNews, NotCurrent(currentId));
    PrefixSubsequence(others, |RelatedNews(categoryNews, currentId)|, categoryNews);
  }

  predicate HasSlugAndTitle(n: NewsItem) {
    n.slug != "" && n.title != ""
  }

  function ToLinks(items: seq<NewsItem>, category: string): (r: seq<Link>)
    ensures |r| == |items|
    ensures forall k :: 0 <= k < |r| ==> r[k] == Link("/" + category + "/" + items[k].slug, items[k].title)
  {
    if items == [] then [] else [Link("/" + category + "/" + items[0].slug, items[0].title)] + ToLinks(items[1..], category)
  }

  /** `relatedNews.slice(0, 2).filter((n) => n.slug && n.title).map(...)`. */
  function RelatedLinks(related: seq<NewsItem>, category: string): (r: seq<Link>)
    ensures |r| <= 2
    ensures forall k :: 0 <= k < |r| ==> r[k].title != "" && StartsWith(r[k].href, "/" + category + "/")
    ensures r == LinkAt(related, 0, category) + LinkAt(related, 1, category)
  {
    var chosen := Filter(Slice(related, 0, 2), HasSlugAndTitle);
    var r := ToLinks(chosen, category);
    assert forall k :: 0 <= k < |r| ==> r[k].href[..|"/" + category + "/"|] == "/" + category + "/";
    FirstTwoLinks(related, category);
    r
  }

  /** The link of the `i`-th related article, when it exists and has a slug and a title. */
  function LinkAt(related: seq<NewsItem>, i: nat, category: string): seq<Link> {
    if i < |related| && HasSlugAndTitle(related[i]) then [Link("/" + category + "/" + related[i].slug, related[i].title)] else []
  }

  /** Position by position: each of the first two articles gives its link when it is complete. */
  lemma FirstTwoLinks(related: seq<NewsItem>, category: string)
    ensures ToLinks(Filter(Slice(related, 0, 2), HasSlugAndTitle), category) == LinkAt(related, 0, category) + LinkAt(related, 1, category)
  {
    var two := Slice(related, 0, 2);
    if |related| == 0 {
      assert two == [];
    } else if |related| == 1 {
      assert two == [related[0]];
      assert two[1..] == [];
    } else {
      assert two == [related[0], related[1]];
      assert two[1..] == [related[1]];
      assert two[1..][1..] == [];
    }
  }

  /** When the first two related articles both have a slug and a title, both become links, in order. */
  lemma RelatedLinksOfComplete(related: seq<NewsItem>, category: string)
    requires |related| >= 2 && HasSlugAndTitle(related[0]) && HasSlugAndTitle(related[1])
    ensures RelatedLinks(related, category) ==
              [Link("/" + category + "/" + related[0].slug, related[0].title),
               Link("/" + category + "/" + related[1].slug, related[1].title)]
  {
    var two := Slice(related, 0, 2);
    assert two == [related[0], related[1]];
    assert two[1..] == [related[1]];
    assert two[1..][1..] == [];
  }

  /** A first related article without a slug or a title is skipped; the second one still becomes a link. */
  lemma RelatedLinksSkipIncomplete(related: seq<NewsItem>, category: string)
    requires |related| >= 2 && !HasSlugAndTitle(related[0]) && HasSlugAndTitle(related[1])
    ensures RelatedLinks(related, category) == [Link("/" + category + "/" + related[1].slug, related[1].title)]
  {
    assert LinkAt(related, 0, category) == [];
  }

  const Marker := "</p>"
  const Bullet := " \U{2022} "
  /** The opening of the injected block, up to the links; its heading reads "related news". */
  const InjectionOpen := "<div class=\"my-6 rounded-lg border border-border bg-muted/40 p-4\"><div class=\"text-sm font-semibold text-foreground mb-2\">"
    + "\U{0938}\U{0902}\U{092C}\U{0902}\U{0927}\U{093F}\U{0924} \U{0916}\U{092C}\U{0930}\U{0947}\U{0902}"
    + "</div><div class=\"text-sm\">"
  const InjectionClose := "</div></div>"

  /** One anchor, with the address and the title escaped. */
  function AnchorHtml(l: Link): string {
    "<a href=\"" + EscapeHtml(l.href) + "\" class=\"underline\">" + EscapeHtml(l.title) + "</a>"
  }

  function Anchors(links: seq<Link>): (r: seq<string>)
    ensures |r| == |links|
    ensures forall k :: 0 <= k < |r| ==> r[k] == AnchorHtml(links[k])
  {
    if links == [] then [] else [AnchorHtml(links[0])] + Anchors(links[1..])
  }

  function Injection(links: seq<Link>): string {
    InjectionOpen + Join(Anchors(links), Bullet) + InjectionClose
  }

  /** The text with ASCII capitals lowered and every other character kept, position for position. */
  function LowerAscii(s: string): (r: string)
    ensures |r| == |s|
    ensures forall i :: 0 <= i < |s| ==> r[i] == ApiUrl.AsciiLower(s[i])
  {
    seq(|s|, i requires 0 <= i < |s| => ApiUrl.AsciiLower(s[i]))
  }

  /** `html` has a closing paragraph tag, in any letter case, at `i`. */
  predicate ParagraphEndAt(html: string, i: int) {
    0 <= i && i + |Marker| <= |html| && ApiUrl.AsciiEqualIgnoringCase(html[i..i + |Marker|], Marker)
  }

  /** The index of the first `</p>` in any letter case, or -1. */
  function FirstParagraphEnd(html: string): (r: int)
    ensures r == -1 || ParagraphEndAt(html, r)
    ensures forall i :: 0 <= i && (r == -1 || i < r) ==> !ParagraphEndAt(html, i)
  {
    var lowered := LowerAscii(html);
    var r := IndexOf(lowered, Marker);
    forall i | 0 <= i && i + |Marker| <= |html| ensures MatchAt(lowered, Marker, i) <==> ParagraphEndAt(html, i) {
      MarkerLowered(html, i);
    }
    r
  }

  lemma MarkerLowered(html: string, i: int)
    requires 0 <= i && i + |Marker| <= |html|
    ensures MatchAt(LowerAscii(html), Marker, i) <==> ParagraphEndAt(html, i)
  {
    var lowered := LowerAscii(html);
    var w := html[i..i + |Marker|];
    assert forall j :: 0 <= j < |Marker| ==> ApiUrl.AsciiLower(Marker[j]) == Marker[j];
    assert forall j :: 0 <= j < |Marker| ==> lowered[i..i + |Marker|][j] == ApiUrl.AsciiLower(w[j]);
  }

  /** The injected block right after the first `</p>`, or in front when there is none. */
  function InjectLinks(html: string, injection: string): (r: string)
    ensures FirstParagraphEnd(html) == -1 ==> r == injection + html
    ensures FirstParagraphEnd(html) >= 0 ==>
              var cut := FirstParagraphEnd(html) + |Marker|;
              cut <= |html| && r == html[..cut] + injection + html[cut..] && ParagraphEndAt(html, cut - |Marker|)
  {
    var idx := FirstParagraphEnd(html);
    if idx == -1 then injection + html
    else html[..idx + |Marker|] + injection + html[idx + |Marker|..]
  }

  /** `contentWithInternalLinks`, with the closing tag looked for in the text itself. */
  function ContentWithInternalLinks(content: Option<string>, links: seq<Link>): (r: string)
    ensures links == [] ==> r == content.GetOr("")
    ensures links != [] ==> r == InjectLinks(content.GetOr(""), Injection(links))
  {
    var baseHtml := content.GetOr("");
    if links == [] then baseHtml else InjectLinks(baseHtml, Injection(links))
  }

  /** Removing the injected block gives back the content: the injection only inserts. */
  lemma InjectionOnlyInserts(html: string, injection: string)
    ensures exists cut :: 0 <= cut <= |html| && InjectLinks(html, injection) == html[..cut] + injection + html[cut..]
  {
    if FirstParagraphEnd(html) == -1 {
      assert html[..0] == [] && html[0..] == html;
      assert InjectLinks(html, injection) == html[..0] + injection + html[0..];
    } else {
      var cut := FirstParagraphEnd(html) + |Marker|;
      assert InjectLinks(html, injection) == html[..cut] + injection + html[cut..];
    }
  }

  /**
   * The injection as written: the index is found in `baseHtml.toLowerCase()` and used to cut
   * `baseHtml` itself.
   */
  function InjectLinksAsWritten(html: string, injection: string): string {
    var idx := IndexOf(Lower(html), Marker);
    if idx == -1 then injection + html
    else Slice(html, 0, idx + |Marker|) + injection + Slice(html, idx + |Marker|, |html|)
  }

  /** Lower-casing text without U+0130 keeps every position. */
  lemma {:induction false} LowerWithoutDottedI(s: string)
    requires '\U{0130}' !in s
    ensures Lower(s) == LowerAscii(s)
  {
    if s != [] {
      LowerWithoutDottedI(s[1..]);
      assert LowerChar(s[0]) == [ApiUrl.AsciiLower(s[0])];
      assert LowerAscii(s) == [ApiUrl.AsciiLower(s[0])] + LowerAscii(s[1..]);
    }
  }

  /** Without U+0130 the code as written puts the links where they belong. */
  lemma AsWrittenAgreesWithoutDottedI(html: string, injection: string)
    requires '\U{0130}' !in html
    ensures InjectLinksAsWritten(html, injection) == InjectLinks(html, injection)
  {
    LowerWithoutDottedI(html);
    var idx := IndexOf(LowerAscii(html), Marker);
    assert idx == FirstParagraphEnd(html);
    if idx != -1 {
      assert Slice(html, 0, idx + |Marker|) == html[..idx + |Marker|];
      assert Slice(html, idx + |Marker|, |html|) == html[idx + |Marker|..];
    }
  }

  /**
   * With U+0130 in front of the first paragraph end, lower-casing lengthens the text by one
   * and the links land one character after the `</p>`.
   */
  lemma DottedIMisplacesLinks(html: string, injection: string, dotted: char, lt: char, slash: char, p: char, gt: char, a: char)
    requires dotted == '\U{0130}' && lt == '<' && slash == '/' && p == 'p' && gt == '>' && a == 'a'
    requires html == [dotted, lt, slash, p, gt, a]
    ensures InjectLinksAsWritten(html, injection) == html + injection
    ensures InjectLinks(html, injection) == html[..5] + injection + [a]
  {
    var lowered := ['i', '\U{0307}', lt, slash, p, gt, a];
    LowerOfDotted(html, dotted, lt, slash, p, gt, a);
    assert MatchAt(lowered, Marker, 2) by {
      assert lowered[2..6] == Marker;
    }
    assert !MatchAt(lowered, Marker, 0) && !MatchAt(lowered, Marker, 1) by {
      assert lowered[0..4][0] == 'i' && lowered[1..5][0] == '\U{0307}';
    }
    assert IndexOf(lowered, Marker) == 2;
    assert Slice(html, 0, 6) == html && Slice(html, 6, 6) == [];
    assert html + injection + [] == html + injection;
    DottedIParagraphEnd(html, dotted, lt, slash, p, gt, a);
  }

  lemma LowerOfDotted(html: string, dotted: char, lt: char, slash: char, p: char, gt: char, a: char)
    requires dotted == '\U{0130}' && lt == '<' && slash == '/' && p == 'p' && gt == '>' && a == 'a'
    requires html == [dotted, lt, slash, p, gt, a]
    ensures Lower(html) == ['i', '\U{0307}', lt, slash, p, gt, a]
  {
    var rest := html[1..];
    assert rest == [lt, slash, p, gt, a];
    assert Lower(html) == LowerChar(dotted) + Lower(rest);
    assert LowerChar(dotted) == ['i', '\U{0307}'];
    assert '\U{0130}' !in rest;
    LowerWithoutDottedI(rest);
    assert LowerAscii(rest) == [lt, slash, p, gt, a];
  }

  lemma DottedIParagraphEnd(html: string, dotted: char, lt: char, slash: char, p: char, gt: char, a: char)
    requires dotted == '\U{0130}' && lt == '<' && slash == '/' && p == 'p' && gt == '>' && a == 'a'
    requires html == [dotted, lt, slash, p, gt, a]
    ensures FirstParagraphEnd(html) == 1
  {
    assert ParagraphEndAt(html, 1) by {
      assert html[1..5] == Marker;
    }
    assert !ParagraphEndAt(html, 0) by {
      assert html[0..4][0] == dotted;
    }
  }
}
