/** Link previews (utils/url_content_fetcher.py): URLs are found with the
    pattern `https?://\S+`, fetched, reduced to a title and a bounded text, and
    the per-URL blocks are joined. The network (and the browser used for
    dynamic pages) is a parameter: the outcome of the request. */
module UrlContent {
  import opened Wrappers
  import opened Text

  /** The end of a match of `https?://\S+` starting at `i`, if there is one:
      the scheme followed by the longest run of non-whitespace (at least one
      character). */
  function MatchAt(s: string, i: nat): (e: Option<nat>)
    requires i <= |s|
    ensures e.Some? ==> i < e.value <= |s|
  {
    var t := s[i..];
    if StartsWith(t, "https://") && |t| > 8 && !IsSpace(t[8]) then Some(i + 8 + |Word(t[8..])|)
    else if StartsWith(t, "http://") && |t| > 7 && !IsSpace(t[7]) then Some(i + 7 + |Word(t[7..])|)
    else None
  }

  /** `re.findall` of the pattern from position `i`: non-overlapping matches,
      left to right. */
  function UrlsFrom(s: string, i: nat): seq<string>
    requires i <= |s|
    decreases |s| - i
  {
    if i == |s| then []
    else match MatchAt(s, i)
      case Some(e) => [s[i..e]] + UrlsFrom(s, e)
      case None => UrlsFrom(s, i + 1)
  }

  /** `extract_urls`. */
  function ExtractUrls(content: string): seq<string> {
    UrlsFrom(content, 0)
  }

  /** A string the pattern matches in full: a scheme, then at least one
      character, and no whitespace anywhere. */
  predicate IsUrl(u: string) {
    && NoSpace(u)
    && ((StartsWith(u, "https://") && |u| > 8) || (StartsWith(u, "http://") && |u| > 7))
  }

  lemma WordOfNoSpace(s: string)
    requires NoSpace(s)
    ensures Word(s) == s
    decreases |s|
  {
    if s != [] {
      WordOfNoSpace(s[1..]);
    }
  }

  lemma MatchIsUrl(s: string, i: nat)
    requires i <= |s| && MatchAt(s, i).Some?
    ensures IsUrl(s[i..MatchAt(s, i).value])
  {
    var t := s[i..];
    var u := s[i..MatchAt(s, i).value];
    var k := if StartsWith(t, "https://") && |t| > 8 && !IsSpace(t[8]) then 8 else 7;
    var w := Word(t[k..]);
    assert u == t[..k] + w;
    assert t[..k] == (if k == 8 then "https://" else "http://");
    forall j | 0 <= j < |u| ensures !IsSpace(u[j]) {
      if j >= k {
        assert u[j] == w[j - k];
      }
    }
  }

  /** Every extracted URL is a scheme followed by non-whitespace. */
  lemma {:induction false} UrlsFromAreUrls(s: string, i: nat)
    requires i <= |s|
    ensures forall u | u in UrlsFrom(s, i) :: IsUrl(u)
    decreases |s| - i
  {
    if i < |s| {
      match MatchAt(s, i)
      case Some(e) =>
        MatchIsUrl(s, i);
        UrlsFromAreUrls(s, e);
      case None =>
        UrlsFromAreUrls(s, i + 1);
    }
  }

  lemma ExtractedAreUrls(content: string)
    ensures forall u | u in ExtractUrls(content) :: IsUrl(u)
  {
    UrlsFromAreUrls(content, 0);
  }

  /** A message that is one URL yields exactly that URL: the match runs to the
      end however many schemes the URL contains. */
  lemma ExtractSingleUrl(u: string)
    requires IsUrl(u)
    ensures ExtractUrls(u) == [u]
  {
    var k := if StartsWith(u, "https://") && |u| > 8 then 8 else 7;
    assert u[0..] == u;
    assert !IsSpace(u[k]);
    WordOfNoSpace(u[k..]);
    assert |Word(u[k..])| == |u| - k;
    assert MatchAt(u, 0) == Some(|u|);
    assert u[0..|u|] == u;
    assert UrlsFrom(u, |u|) == [];
  }

  /** The length of the non-whitespace run at `a` is found from where the
      run ends. */
  lemma WordEndsAtSpace(s: string, a: nat, e: nat)
    requires a <= e <= |s|
    requires NoSpace(s[a..e]) && (e == |s| || IsSpace(s[e]))
    ensures |Word(s[a..])| == e - a
    decreases e - a
  {
    if a < e {
      assert s[a..][0] == s[a..e][0];
      assert s[a..][1..] == s[a + 1..];
      assert s[a + 1..e] == s[a..e][1..];
      WordEndsAtSpace(s, a + 1, e);
    }
  }

  /** A match stops at whitespace or at the end of the text. */
  lemma MatchEndsAtSpace(s: string, i: nat)
    requires i <= |s| && MatchAt(s, i).Some?
    ensures var e := MatchAt(s, i).value; e == |s| || IsSpace(s[e])
  {
    var t := s[i..];
    var k := if StartsWith(t, "https://") && |t| > 8 && !IsSpace(t[8]) then 8 else 7;
    var w := Word(t[k..]);
    if i + k + |w| < |s| {
      assert s[i + k + |w|] == t[k..][|w|];
    }
  }

  /** Past the scheme of a URL `s[i..e]` that runs up to whitespace or the
      end, the non-whitespace run ends at `e`. */
  lemma RunAfterScheme(s: string, i: nat, e: nat, k: nat)
    requires i + k < e <= |s| && NoSpace(s[i..e]) && (e == |s| || IsSpace(s[e]))
    ensures !IsSpace(s[i..][k]) && i + k + |Word(s[i..][k..])| == e
  {
    assert s[i..][k] == s[i..e][k];
    assert s[i..][k..] == s[i + k..];
    var rest := s[i + k..e];
    assert NoSpace(rest) by {
      forall j | 0 <= j < |rest| ensures !IsSpace(rest[j]) {
        assert rest[j] == s[i..e][k + j];
      }
    }
    WordEndsAtSpace(s, i + k, e);
  }

  /** An "https://" URL running up to whitespace or the end is matched in
      full. */
  lemma HttpsUrlMatches(s: string, i: nat, e: nat)
    requires i + 8 < e <= |s| && s[i..i + 8] == "https://"
    requires NoSpace(s[i..e]) && (e == |s| || IsSpace(s[e]))
    ensures MatchAt(s, i) == Some(e)
  {
    assert s[i..][..8] == s[i..i + 8];
    RunAfterScheme(s, i, e, 8);
  }

  /** An "http://" URL running up to whitespace or the end is matched in
      full; it cannot also read as "https://". */
  lemma HttpUrlMatches(s: string, i: nat, e: nat)
    requires i + 7 < e <= |s| && s[i..i + 7] == "http://"
    requires NoSpace(s[i..e]) && (e == |s| || IsSpace(s[e]))
    ensures MatchAt(s, i) == Some(e)
  {
    var t := s[i..];
    assert t[..7] == s[i..i + 7];
    assert t[4] == s[i..i + 7][4] == ':';
    assert !StartsWith(t, "https://") by {
      if |t| >= 8 {
        assert t[..8][4] == t[4];
      }
    }
    RunAfterScheme(s, i, e, 7);
  }

  /** A URL that runs up to whitespace or the end of the text is matched in
      full. */
  lemma MaximalUrlMatches(s: string, i: nat, e: nat)
    requires i < e <= |s| && IsUrl(s[i..e]) && (e == |s| || IsSpace(s[e]))
    ensures MatchAt(s, i) == Some(e)
  {
    var u := s[i..e];
    if StartsWith(u, "https://") && |u| > 8 {
      assert s[i..i + 8] == u[..8];
      HttpsUrlMatches(s, i, e);
    } else {
      assert StartsWith(u, "http://") && |u| > 7;
      assert s[i..i + 7] == u[..7];
      HttpUrlMatches(s, i, e);
    }
  }

  /** A match at `i` ends at `e` exactly when `s[i..e]` is a URL that runs up
      to whitespace or the end of the text: the greedy `\S+` takes the whole
      run. */
  lemma MatchAtIsMaximalUrl(s: string, i: nat, e: nat)
    requires i <= |s|
    ensures MatchAt(s, i) == Some(e) <==>
              i < e <= |s| && IsUrl(s[i..e]) && (e == |s| || IsSpace(s[e]))
  {
    if MatchAt(s, i) == Some(e) {
      MatchIsUrl(s, i);
      MatchEndsAtSpace(s, i);
    }
    if i < e <= |s| && IsUrl(s[i..e]) && (e == |s| || IsSpace(s[e])) {
      MaximalUrlMatches(s, i, e);
    }
  }

  /** `findall` from `i` yields the first match at or after `i` first, then
      continues after that match's end: no match is skipped and the order is
      the text's. */
  lemma {:induction false} UrlsFromFirstMatch(s: string, i: nat, j: nat)
    requires i <= j <= |s| && MatchAt(s, j).Some?
    requires forall k | i <= k < j :: MatchAt(s, k).None?
    ensures UrlsFrom(s, i) == [s[j..MatchAt(s, j).value]] + UrlsFrom(s, MatchAt(s, j).value)
    decreases j - i
  {
    if i < j {
      UrlsFromFirstMatch(s, i + 1, j);
    }
  }

  /** `findall` from `i` finds nothing exactly when no match starts at or
      after `i`. */
  lemma {:induction false} UrlsFromEmpty(s: string, i: nat)
    requires i <= |s|
    ensures UrlsFrom(s, i) == [] <==> forall k | i <= k < |s| :: MatchAt(s, k).None?
    decreases |s| - i
  {
    if i < |s| {
      UrlsFromEmpty(s, i + 1);
    }
  }

  /** The first URL extracted from a message is its leftmost match, and a
      message yields no URL exactly when nothing in it matches. */
  lemma ExtractUrlsComplete(content: string, j: nat)
    requires j <= |content| && MatchAt(content, j).Some?
    requires forall k | 0 <= k < j :: MatchAt(content, k).None?
    ensures ExtractUrls(content) != [] && ExtractUrls(content)[0] == content[j..MatchAt(content, j).value]
    ensures ExtractUrls(content) == [] <==> forall k | 0 <= k < |content| :: MatchAt(content, k).None?
  {
    UrlsFromFirstMatch(content, 0, j);
    UrlsFromEmpty(content, 0);
  }

  /** Text with no "://" holds no URL. */
  lemma {:induction false} NoSchemeNoUrls(s: string, i: nat)
    requires i <= |s|
    requires !Contains(s, "://")
    ensures UrlsFrom(s, i) == []
    decreases |s| - i
  {
    if i < |s| {
      if MatchAt(s, i).Some? {
        var k := if StartsWith(s[i..], "https://") then 5 else 4;
        assert s[i + k..i + k + 3] == s[i..][k..k + 3];
        assert OccursAt(s, "://", i + k);
        assert false;
      }
      NoSchemeNoUrls(s, i + 1);
    }
  }

  const DynamicContentDomains: seq<string> :=
    ["notion.so", "notion.site", "twitter.com", "x.com", "facebook.com", "instagram.com",
     "linkedin.com", "react", "angular", "vue", "spa"]

  /** `is_dynamic_content_url`: some listed token occurs in the lower-cased URL. */
  predicate IsDynamicContentUrl(url: string) {
    exists d | d in DynamicContentDomains :: Contains(Lower(url), d)
  }

  /** The check ignores case: a URL and its lower-cased form are judged
      alike. */
  lemma DynamicContentIgnoresCase(url: string)
    ensures IsDynamicContentUrl(url) <==> IsDynamicContentUrl(Lower(url))
  {
    assert Lower(Lower(url)) == Lower(url);
  }

  /** A Notion page is dynamic, whatever the case of its host name. */
  lemma NotionPageIsDynamic()
    ensures IsDynamicContentUrl("https://www.Notion.so/page")
  {
    var n := Lower("https://www.Notion.so/page");
    assert n == "https://www.notion.so/page";
    assert OccursAt(n, "notion.so", 12);
    assert Contains(n, DynamicContentDomains[0]);
  }

  /** The end (just past the '>') of a tag `<[^>]+>` starting at the front of
      `s`, if there is one. */
  function TagEnd(s: string): (e: Option<nat>)
    ensures e.Some? ==> 3 <= e.value <= |s|
  {
    if |s| >= 3 && s[0] == '<' && s[1] != '>' then
      var k := FirstGt(s, 2);
      if k < |s| then Some(k + 1) else None
    else None
  }

  /** The first position at or after `i` holding '>', or `|s|` if none. */
  function FirstGt(s: string, i: nat): (k: nat)
    requires i <= |s|
    ensures i <= k <= |s|
    ensures k < |s| ==> s[k] == '>'
    ensures forall j | i <= j < k :: s[j] != '>'
    decreases |s| - i
  {
    if i == |s| || s[i] == '>' then i else FirstGt(s, i + 1)
  }

  /** `re.sub(r'<[^>]+>', ' ', html)`. */
  function ReplaceTags(s: string): string
    decreases |s|
  {
    if s == [] then []
    else match TagEnd(s)
      case Some(e) => " " + ReplaceTags(s[e..])
      case None => [s[0]] + ReplaceTags(s[1..])
  }

  /** Text without '<' holds no tag and is kept as it is. */
  lemma {:induction false} ReplaceTagsKeepsPlainText(s: string)
    requires forall i | 0 <= i < |s| :: s[i] != '<'
    ensures ReplaceTags(s) == s
    decreases |s|
  {
    if s != [] {
      assert s[1..] == s[..][1..];
      ReplaceTagsKeepsPlainText(s[1..]);
    }
  }

  /** Each tag shrinks to one space, so the result is never longer, and a
      lone tag becomes a single space. */
  lemma {:induction false} ReplaceTagsShrinks(s: string)
    ensures |ReplaceTags(s)| <= |s|
    ensures ReplaceTags("<br>") == " "
    decreases |s|
  {
    if s != [] {
      match TagEnd(s)
      case Some(e) => ReplaceTagsShrinks(s[e..]);
      case None => ReplaceTagsShrinks(s[1..]);
    }
    assert FirstGt("<br>", 2) == 3;
    assert TagEnd("<br>") == Some(4);
    assert "<br>"[4..] == [];
  }

  /** `re.sub(r'\s+', ' ', text)`. */
  function CollapseSpaces(s: string): (r: string)
    ensures forall i | 0 <= i < |r| && IsSpace(r[i]) :: r[i] == ' '
    ensures forall i | 0 <= i < |r| - 1 :: !(IsSpace(r[i]) && IsSpace(r[i + 1]))
    ensures s != [] && IsSpace(s[0]) ==> r != [] && r[0] == ' '
    ensures s != [] && !IsSpace(s[0]) ==> r != [] && r[0] == s[0]
    decreases |s|
  {
    if s == [] then []
    else if IsSpace(s[0]) then
      var rest := StripStart(s);
      assert rest != [] ==> !IsSpace(rest[0]);
      " " + CollapseSpaces(rest)
    else [s[0]] + CollapseSpaces(s[1..])
  }

  /** `text[:max_length] + "..."` when longer than `max_length`. */
  function TruncateText(text: string, maxLength: int): (r: string)
    ensures |text| <= maxLength ==> r == text
    ensures maxLength >= 0 && |text| > maxLength ==> r == text[..maxLength] + "..."
    ensures maxLength >= 0 ==> |r| <= maxLength + 3
  {
    if |text| > maxLength then PyTake(text, maxLength) + "..." else text
  }

  /** The extraction used without an HTML parser: tags become spaces,
      whitespace runs become one space, the ends are stripped, and more than
      1000 characters are cut to 1000 plus "...". */
  function ExtractTextFromHtml(html: string): (r: string)
    ensures |r| <= 1003
  {
    TruncateText(Strip(CollapseSpaces(ReplaceTags(html))), 1000)
  }

  /** No two adjacent whitespace characters. */
  predicate SingleSpaced(s: string) {
    forall i | 0 <= i < |s| - 1 :: !(IsSpace(s[i]) && IsSpace(s[i + 1]))
  }

  lemma SingleSpacedSlice(s: string, lo: nat, hi: nat)
    requires lo <= hi <= |s| && SingleSpaced(s)
    ensures SingleSpaced(s[lo..hi])
  {
    var t := s[lo..hi];
    forall i | 0 <= i < |t| - 1 ensures !(IsSpace(t[i]) && IsSpace(t[i + 1])) {
      assert t[i] == s[lo + i] && t[i + 1] == s[lo + i + 1];
    }
  }

  /** Stripping a single-spaced text keeps it single-spaced. */
  lemma StripKeepsSingleSpaced(c: string)
    requires SingleSpaced(c)
    ensures SingleSpaced(Strip(c))
  {
    var a := StripStart(c);
    SingleSpacedSlice(c, |c| - |a|, |c|);
    assert c[|c| - |a|..|c|] == a;
    var b := StripEnd(a);
    SingleSpacedSlice(a, 0, |b|);
    assert a[0..|b|] == b;
  }

  /** Short extracted text is single-spaced, with no space at either end. */
  lemma ExtractedTextIsCollapsed(html: string)
    requires |Strip(CollapseSpaces(ReplaceTags(html)))| <= 1000
    ensures var r := ExtractTextFromHtml(html);
            && (r != [] ==> !IsSpace(r[0]) && !IsSpace(r[|r| - 1]))
            && SingleSpaced(r)
  {
    var c := CollapseSpaces(ReplaceTags(html));
    assert SingleSpaced(c);
    StripKeepsSingleSpaced(c);
    assert ExtractTextFromHtml(html) == Strip(c);
  }

  /** `url.split('/')[-1]`: the text after the last '/'. */
  function LastSegment(url: string): (r: string)
    ensures '/' !in r
    ensures EndsWith(url, r)
    decreases |url|
  {
    if url == [] then []
    else if url[|url| - 1] == '/' then []
    else
      var r := LastSegment(url[..|url| - 1]) + [url[|url| - 1]];
      assert url == url[..|url| - 1] + [url[|url| - 1]];
      r
  }

  /** What the request for a URL produced: a response (with its body, or the
      error reading it raised), a timeout, a client error, or another error. */
  datatype HttpOutcome =
    | Response(status: int, contentType: string, body: Result<string>)
    | Timeout
    | ClientError
    | OtherError(message: string)

  /** What the headless browser produced for a dynamic page: the page title
      and HTML, or None when it is unavailable or raised (the plain request is
      used then). */
  datatype Rendered = Rendered(title: Option<string>, html: string)

  /** A fetch result: the title (None on error) and the text. */
  datatype Fetched = Fetched(title: Option<string>, text: string)

  /** The title for a non-HTML document: the last path segment, or `default`. */
  function SegmentTitle(url: string, default: string): string {
    if LastSegment(url) != "" then LastSegment(url) else default
  }

  /** The content types whose body is read. */
  predicate KnownContentType(contentType: string) {
    Contains(contentType, "text/html") || Contains(contentType, "text/plain")
    || Contains(contentType, "application/json")
  }

  /** The plain-request part of `fetch_url_content`; `htmlTitle` is what the
      `<title>` search found in an HTML body. */
  function FetchOverHttp(url: string, maxLength: int, outcome: HttpOutcome, htmlTitle: Option<string>): (f: Fetched)
    ensures !outcome.Response? ==> f.title.None?
    ensures outcome.Response? && outcome.status != 200 ==>
              f == Fetched(None, "[リンク先のステータスコード: " + IntToString(outcome.status) + "]")
    ensures outcome.Response? && outcome.status == 200 && outcome.body.Ok? ==> f.title.Some?
    ensures outcome.Response? && outcome.status == 200 && outcome.body.Err? ==>
              (f.title.None? <==> KnownContentType(outcome.contentType))
    ensures maxLength >= 0 && f.title.Some? ==> |f.text| <= maxLength + 3
    ensures f.title.Some? && !Contains(outcome.contentType, "text/html") ==>
              (LastSegment(url) != "" && f.title.value == LastSegment(url))
              || f.title.value in {"Text document", "JSON document", "Unknown document"}
  {
    match outcome
    case Response(status, contentType, body) =>
      if status != 200 then Fetched(None, "[リンク先のステータスコード: " + IntToString(status) + "]")
      else if KnownContentType(contentType) then
        if body.Err? then Fetched(None, "[コンテンツ処理エラー: " + body.error + "]")
        else if Contains(contentType, "text/html") then
          Fetched(Some(htmlTitle.GetOr("No title")), TruncateText(ExtractTextFromHtml(body.value), maxLength))
        else if Contains(contentType, "text/plain") then
          Fetched(Some(SegmentTitle(url, "Text document")), TruncateText(body.value, maxLength))
        else
          Fetched(Some(SegmentTitle(url, "JSON document")), TruncateText("JSON content: " + body.value, maxLength))
      else
        Fetched(Some(SegmentTitle(url, "Unknown document")),
                TruncateText("[リンク先のコンテンツタイプ: " + contentType + "]", maxLength))
    case Timeout => Fetched(None, "[リンク取得タイムアウト: URLの読み込みに時間がかかりすぎました]")
    case ClientError => Fetched(None, "[リンク取得エラー: 接続に問題が発生しました]")
    case OtherError(message) => Fetched(None, "[リンク取得エラー: " + message + "]")
  }

  /** `fetch_url_content`: a dynamic page the browser rendered is used when its
      HTML is non-empty (an HTML starting with '[' is the browser's error
      text); otherwise the plain request decides. */
  function FetchUrlContent(url: string, maxLength: int, rendered: Option<Rendered>,
                           outcome: HttpOutcome, htmlTitle: Option<string>): Fetched {
    if IsDynamicContentUrl(url) && rendered.Some? && rendered.value.html != "" then
      var html := rendered.value.html;
      if !StartsWith(html, "[") then
        Fetched(Some(if Truthy(rendered.value.title) then rendered.value.title.value else "No title"),
                TruncateText(ExtractTextFromHtml(html), maxLength))
      else Fetched(None, html)
    else FetchOverHttp(url, maxLength, outcome, htmlTitle)
  }

  /** A page that is not dynamic, or that the browser could not render to
      non-empty HTML, is fetched by the plain request; a rendered page yields
      its title (or "No title") and its extracted text, and the browser's
      error text is passed on without a title. */
  lemma FetchUrlContentRoutes(url: string, maxLength: int, rendered: Option<Rendered>,
                              outcome: HttpOutcome, htmlTitle: Option<string>)
    ensures !IsDynamicContentUrl(url) || rendered.None? || rendered.value.html == "" ==>
              FetchUrlContent(url, maxLength, rendered, outcome, htmlTitle)
              == FetchOverHttp(url, maxLength, outcome, htmlTitle)
    ensures IsDynamicContentUrl(url) && rendered.Some? && rendered.value.html != ""
            && !StartsWith(rendered.value.html, "[") ==>
              FetchUrlContent(url, maxLength, rendered, outcome, htmlTitle).title.Some?
              && FetchUrlContent(url, maxLength, rendered, outcome, htmlTitle).text
                 == TruncateText(ExtractTextFromHtml(rendered.value.html), maxLength)
    ensures IsDynamicContentUrl(url) && rendered.Some? && StartsWith(rendered.value.html, "[") ==>
              FetchUrlContent(url, maxLength, rendered, outcome, htmlTitle)
              == Fetched(None, rendered.value.html)
  {
  }

  /** The block a URL contributes, given what fetching it returned or raised. */
  function UrlBlock(url: string, fetched: Result<Fetched>): (b: string)
    ensures StartsWith(b, "URL: " + url + "\n")
  {
    var head := "URL: " + url + "\n";
    var b :=
      if fetched.Err? then head + "[処理エラー: URLの取得中に問題が発生しました]"
      else if Truthy(fetched.value.title) then
        head + ("タイトル: " + fetched.value.title.value + "\nコンテンツ:\n" + fetched.value.text)
      else head + ("コンテンツ:\n" + fetched.value.text);
    assert b[..|head|] == head;
    b
  }

  function UrlBlocks(urls: seq<string>, fetch: string -> Result<Fetched>): (bs: seq<string>)
    ensures |bs| == |urls|
    ensures forall i | 0 <= i < |urls| :: bs[i] == UrlBlock(urls[i], fetch(urls[i]))
  {
    if urls == [] then []
    else UrlBlocks(urls[..|urls| - 1], fetch) + [UrlBlock(urls[|urls| - 1], fetch(urls[|urls| - 1]))]
  }

  /** Every kept URL is announced in the joined blocks. */
  lemma JoinedBlocksNameEveryUrl(urls: seq<string>, fetch: string -> Result<Fetched>)
    ensures forall i | 0 <= i < |urls| ::
              Contains(Join(UrlBlocks(urls, fetch), "\n\n"), "URL: " + urls[i] + "\n")
  {
    var bs := UrlBlocks(urls, fetch);
    JoinContainsEach(bs, "\n\n");
    forall i | 0 <= i < |urls|
      ensures Contains(Join(bs, "\n\n"), "URL: " + urls[i] + "\n")
    {
      ContainsPrefix(bs[i], "URL: " + urls[i] + "\n");
      ContainsTrans(Join(bs, "\n\n"), bs[i], "URL: " + urls[i] + "\n");
    }
  }

  /** `process_message_urls`: None when the message holds no URL (or none is
      kept); otherwise one block per URL among the first `maxUrls`, in order,
      joined by blank lines. `fetch` gives what fetching a URL returned or
      raised. */
  method ProcessMessageUrls(messageContent: string, maxUrls: int, fetch: string -> Result<Fetched>)
    returns (r: Option<string>)
    ensures ExtractUrls(messageContent) == [] ==> r == None
    ensures var kept := PyTake(ExtractUrls(messageContent), maxUrls);
            r == if kept == [] then None else Some(Join(UrlBlocks(kept, fetch), "\n\n"))
    ensures maxUrls >= 0 && r.Some? ==>
              |UrlBlocks(PyTake(ExtractUrls(messageContent), maxUrls), fetch)| <= maxUrls
  {
    var urls := ExtractUrls(messageContent);
    if urls == [] {
      return None;
    }
    urls := PyTake(urls, maxUrls);
    var urlContents: seq<string> := [];
    var i := 0;
    while i < |urls|
      invariant 0 <= i <= |urls|
      invariant urlContents == UrlBlocks(urls[..i], fetch)
    {
      assert urls[..i + 1][..i] == urls[..i];
      urlContents := urlContents + [UrlBlock(urls[i], fetch(urls[i]))];
      i := i + 1;
    }
    assert urls[..i] == urls;
    if urlContents != [] {
      return Some(Join(urlContents, "\n\n"));
    }
    return None;
  }
}
