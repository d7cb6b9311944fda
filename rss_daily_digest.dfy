/**
 * The RSS daily digest workflow: configuration and override resolution,
 * feed fetching, item extraction, de-duplication by URL, newest-first
 * ordering, and the wrapping of errors. Fetching, JSON parsing, date parsing
 * and digest synthesis by the language model are parameters.
 */
module RssDailyDigest {
  import opened Optional
  import opened JsText
  import opened JsonValue
  import opened HtmlText
  import PriorityOrder

  // ---------------------------------------------------------------------
  // stripHtml
  // ---------------------------------------------------------------------

  /** Removes style and script blocks, then replaces every tag by a space. */
  function RemoveMarkup(html: string): string {
    var t1 := ReplaceMatches(html, TaggedBlock("<style", "</style>"), "");
    var t2 := ReplaceMatches(t1, TaggedBlock("<script", "</script>"), "");
    ReplaceMatches(t2, Tag, " ")
  }

  /** Decodes `&nbsp;`, `&lt;`, `&gt;` and, last, `&amp;`. */
  function DecodeEntities(t: string): string {
    var t4 := ReplaceMatches(t, Literal("&nbsp;", false), " ");
    var t5 := ReplaceMatches(t4, Literal("&lt;", false), "<");
    var t6 := ReplaceMatches(t5, Literal("&gt;", false), ">");
    ReplaceMatches(t6, Literal("&amp;", false), "&")
  }

  /** Removes style and script blocks and tags, decodes four entities, collapses white space and trims. */
  function StripHtml(html: string): string {
    Trim(CollapseSpaces(DecodeEntities(RemoveMarkup(html))))
  }

  /** The output is trimmed and separates words by single plain spaces. */
  lemma StripHtmlIsTidy(html: string)
    ensures Tidy(StripHtml(html))
  {
    CollapseThenTrimIsTidy(DecodeEntities(RemoveMarkup(html)));
  }

  /** Text without markup, entities or white space passes through unchanged. */
  lemma StripHtmlPlainText(s: string)
    requires forall i :: 0 <= i < |s| ==> s[i] != '<' && s[i] != '&' && !IsSpace(s[i])
    ensures StripHtml(s) == s
  {
    MarkupFree(s);
    ReplaceMatchesUntouched(s, Literal("&nbsp;", false), " ");
    ReplaceMatchesUntouched(s, Literal("&lt;", false), "<");
    ReplaceMatchesUntouched(s, Literal("&gt;", false), ">");
    ReplaceMatchesUntouched(s, Literal("&amp;", false), "&");
    CollapseThenTrimWithoutSpaces(s);
  }

  /**
   * `&amp;` is decoded last, so an escaped entity is decoded only once:
   * with `x` = "lt;", `&amp;lt;` yields `&lt;`, not `<`.
   */
  lemma AmpersandDecodedLast(x: string)
    requires forall i :: 0 <= i < |x| ==> x[i] != '<' && x[i] != '&' && !IsSpace(x[i])
    ensures StripHtml("&amp;" + x) == "&" + x
  {
    var s := "&amp;" + x;
    assert s[..5] == "&amp;" && s[5..] == x;
    forall i | 0 <= i < |s|
      ensures s[i] != '<' && (0 < i ==> s[i] != '&')
    {
      if i >= 5 {
        assert s[i] == x[i - 5];
      }
    }
    MarkupFree(s);
    LiteralNowhere(s, "&nbsp;");
    LiteralNowhere(s, "&lt;");
    LiteralNowhere(s, "&gt;");
    LiteralAbsent(s, "&nbsp;", " ");
    LiteralAbsent(s, "&lt;", "<");
    LiteralAbsent(s, "&gt;", ">");
    assert MatchEnd(s, Literal("&amp;", false)) == Some(5);
    ReplaceMatchesUntouched(x, Literal("&amp;", false), "&");
    assert DecodeEntities(s) == "&" + x;
    var t := "&" + x;
    forall i | 0 <= i < |t|
      ensures !IsSpace(t[i])
    {
      if i > 0 {
        assert t[i] == x[i - 1];
      }
    }
    CollapseThenTrimWithoutSpaces(t);
  }

  /** Text without '<' has no markup to remove. */
  lemma MarkupFree(s: string)
    requires forall i :: 0 <= i < |s| ==> s[i] != '<'
    ensures RemoveMarkup(s) == s
  {
    ReplaceMatchesUntouched(s, TaggedBlock("<style", "</style>"), "");
    ReplaceMatchesUntouched(s, TaggedBlock("<script", "</script>"), "");
    ReplaceMatchesUntouched(s, Tag, " ");
  }

  /** A literal that agrees with `s` only on its first character, which occurs only at the head of `s`, matches nowhere. */
  lemma LiteralNowhere(s: string, t: string)
    requires |s| >= 2 && |t| >= 2 && t[0] == s[0] && t[1] != s[1]
    requires forall i :: 0 < i < |s| ==> s[i] != t[0]
    ensures forall i :: 0 <= i < |s| ==> !MatchesAt(s, t, i, false)
  {
    forall i | 0 <= i < |s|
      ensures !MatchesAt(s, t, i, false)
    {
      if i + |t| <= |s| {
        assert s[i..i + |t|][0] == s[i] && s[i..i + |t|][1] == s[i + 1];
      }
    }
  }

  // ---------------------------------------------------------------------
  // Feed items
  // ---------------------------------------------------------------------

  /** One item of an RSSHub JSON feed; every field may be absent. */
  datatype FeedItem = FeedItem(
    url: Option<string>,
    title: Option<string>,
    contentHtml: Option<string>,
    contentText: Option<string>,
    summary: Option<string>,
    description: Option<string>,
    datePublished: Option<string>,
    pubDate: Option<string>,
    updated: Option<string>)

  datatype Feed = Feed(title: Option<string>, items: Option<seq<FeedItem>>)

  /** What requesting one feed produced: the parsed body (possibly `null`), or an error. */
  datatype FetchReply = Fetched(feed: Option<Feed>) | FetchFailed(message: string)

  /** An article prepared for the digest. */
  datatype Article = Article(
    title: string,
    url: string,
    publishedDate: Option<string>,
    sourceFeedTitle: Option<string>,
    mainContent: string)

  const MaxContentLength: nat := 1000
  const Ellipsis: string := "..."
  const NoTitle: string := "No Title"
  const NoUrl: string := "#"

  /** The first truthy content field; only `content_text` is taken without stripping. */
  function RawContent(item: FeedItem): string {
    if Truthy(item.contentText) then item.contentText.value
    else if Truthy(item.contentHtml) then StripHtml(item.contentHtml.value)
    else if Truthy(item.summary) then StripHtml(item.summary.value)
    else if Truthy(item.description) then StripHtml(item.description.value)
    else ""
  }

  /** Content over the limit keeps its first 1000 characters followed by "...". */
  function Truncate(content: string): (r: string)
    ensures |r| <= MaxContentLength + |Ellipsis|
    ensures |content| <= MaxContentLength ==> r == content
    ensures |content| > MaxContentLength ==> |r| == MaxContentLength + |Ellipsis| && r[..MaxContentLength] <= content && r[MaxContentLength..] == Ellipsis
  {
    if |content| > MaxContentLength then content[..MaxContentLength] + Ellipsis else content
  }

  function MainContent(item: FeedItem): string {
    Truncate(RawContent(item))
  }

  /** Content that does not come from `content_text` is always tidy. */
  lemma RawContentTidyUnlessText(item: FeedItem)
    requires !Truthy(item.contentText)
    ensures Tidy(RawContent(item))
  {
    if Truthy(item.contentHtml) {
      StripHtmlIsTidy(item.contentHtml.value);
    } else if Truthy(item.summary) {
      StripHtmlIsTidy(item.summary.value);
    } else if Truthy(item.description) {
      StripHtmlIsTidy(item.description.value);
    }
  }

  /** `date_published || pubDate || updated`. */
  function PublishedDate(item: FeedItem): Option<string> {
    OrElse(OrElse(item.datePublished, item.pubDate), item.updated)
  }

  /** The date is the first truthy date field, and is truthy only when one of them is. */
  lemma PublishedDateIsFirstTruthy(item: FeedItem)
    ensures Truthy(PublishedDate(item)) <==> Truthy(item.datePublished) || Truthy(item.pubDate) || Truthy(item.updated)
    ensures Truthy(item.datePublished) ==> PublishedDate(item) == item.datePublished
    ensures !Truthy(item.datePublished) && Truthy(item.pubDate) ==> PublishedDate(item) == item.pubDate
    ensures !Truthy(item.datePublished) && !Truthy(item.pubDate) ==> PublishedDate(item) == item.updated
  {
  }

  /** The article built for an item of a feed titled `feedTitle`. */
  function Extract(item: FeedItem, feedTitle: Option<string>): (a: Article)
    ensures a.url != ""
    ensures a.url == NoUrl <==> !Truthy(item.url) || item.url.value == NoUrl
    ensures a.title != ""
    ensures |a.mainContent| <= MaxContentLength + |Ellipsis|
  {
    Article(
      OrElse(item.title, Some(NoTitle)).value,
      OrElse(item.url, Some(NoUrl)).value,
      PublishedDate(item),
      feedTitle,
      MainContent(item))
  }

  /** The articles for the items of one feed, one per item and in item order. */
  function ExtractAll(items: seq<FeedItem>, feedTitle: Option<string>): (r: seq<Article>)
    ensures |r| == |items|
    ensures forall k :: 0 <= k < |r| ==> r[k] == Extract(items[k], feedTitle)
    decreases |items|
  {
    if |items| == 0 then [] else ExtractAll(items[..|items| - 1], feedTitle) + [Extract(items[|items| - 1], feedTitle)]
  }

  /** The articles one fetch contributes: none for an error, a `null` body or a missing item list. */
  function FeedArticles(reply: FetchReply): (r: seq<Article>)
    ensures reply.FetchFailed? || reply.feed.None? || reply.feed.value.items.None? ==> r == []
  {
    if reply.Fetched? && reply.feed.Some? && reply.feed.value.items.Some? then
      ExtractAll(reply.feed.value.items.value, reply.feed.value.title)
    else []
  }

  /** Every feed's articles, in feed order, for a time window of `windowSeconds`. */
  function Collected(paths: seq<string>, windowSeconds: int, fetch: (string, int) -> FetchReply): seq<Article>
    decreases |paths|
  {
    if |paths| == 0 then []
    else Collected(paths[..|paths| - 1], windowSeconds, fetch) + FeedArticles(fetch(paths[|paths| - 1], windowSeconds))
  }

  /** Fetching two lists of feeds one after the other gives the two results concatenated. */
  lemma {:induction false} CollectedAppend(p1: seq<string>, p2: seq<string>, windowSeconds: int, fetch: (string, int) -> FetchReply)
    ensures Collected(p1 + p2, windowSeconds, fetch) == Collected(p1, windowSeconds, fetch) + Collected(p2, windowSeconds, fetch)
    decreases |p2|
  {
    if |p2| > 0 {
      var init := p2[..|p2| - 1];
      assert (p1 + p2)[..|p1 + p2| - 1] == p1 + init;
      CollectedAppend(p1, init, windowSeconds, fetch);
    } else {
      assert p1 + p2 == p1;
    }
  }

  /** A feed whose request fails contributes nothing, and the other feeds are still collected. */
  lemma FailedFeedSkipped(p1: seq<string>, path: string, p2: seq<string>, windowSeconds: int, fetch: (string, int) -> FetchReply)
    requires fetch(path, windowSeconds).FetchFailed?
    ensures Collected(p1 + [path] + p2, windowSeconds, fetch) == Collected(p1, windowSeconds, fetch) + Collected(p2, windowSeconds, fetch)
  {
    CollectedAppend(p1 + [path], p2, windowSeconds, fetch);
    CollectedAppend(p1, [path], windowSeconds, fetch);
    FailedFeedContributesNothing(path, windowSeconds, fetch);
  }

  lemma FailedFeedContributesNothing(path: string, windowSeconds: int, fetch: (string, int) -> FetchReply)
    requires fetch(path, windowSeconds).FetchFailed?
    ensures Collected([path], windowSeconds, fetch) == []
  {
    assert [path][..0] == [];
  }

  /** The loop over feed paths, each fetched with the `filterTime` window and read as JSON. */
  method CollectItems(paths: seq<string>, windowSeconds: int, fetch: (string, int) -> FetchReply) returns (all: seq<Article>)
    ensures all == Collected(paths, windowSeconds, fetch)
  {
    all := [];
    var i := 0;
    while i < |paths|
      invariant 0 <= i <= |paths|
      invariant all == Collected(paths[..i], windowSeconds, fetch)
    {
      var reply := fetch(paths[i], windowSeconds);
      all := PushFeedItems(all, reply);
      assert paths[..i + 1][..i] == paths[..i];
      i := i + 1;
    }
    assert paths[..i] == paths;
  }

  /** The inner loop of one feed: push one article per item when the body has items. */
  method PushFeedItems(all: seq<Article>, reply: FetchReply) returns (result: seq<Article>)
    ensures result == all + FeedArticles(reply)
  {
    result := all;
    if reply.Fetched? && reply.feed.Some? && reply.feed.value.items.Some? {
      var feed := reply.feed.value;
      var items := feed.items.value;
      var j := 0;
      while j < |items|
        invariant 0 <= j <= |items|
        invariant result == all + ExtractAll(items[..j], feed.title)
      {
        assert items[..j + 1][..j] == items[..j];
        result := result + [Extract(items[j], feed.title)];
        j := j + 1;
      }
      assert items[..j] == items;
    }
  }

  // ---------------------------------------------------------------------
  // De-duplication by URL
  // ---------------------------------------------------------------------

  /** A URL that takes part in de-duplication: present and not the placeholder. */
  predicate UsableUrl(url: string) {
    url != "" && url != NoUrl
  }

  /** Keeps the first article for each usable URL not in `seen`, in order. */
  function DedupWith(items: seq<Article>, seen: set<string>): seq<Article>
    decreases |items|
  {
    if |items| == 0 then []
    else if UsableUrl(items[0].url) && items[0].url !in seen then [items[0]] + DedupWith(items[1..], seen + {items[0].url})
    else DedupWith(items[1..], seen)
  }

  function Dedup(items: seq<Article>): seq<Article> {
    DedupWith(items, {})
  }

  /** The loop filling `seenUrls` and `uniqueItems`. */
  method DedupItems(items: seq<Article>) returns (unique: seq<Article>)
    ensures unique == Dedup(items)
  {
    unique := [];
    var seenUrls: set<string> := {};
    var i := 0;
    while i < |items|
      invariant 0 <= i <= |items|
      invariant Dedup(items) == unique + DedupWith(items[i..], seenUrls)
    {
      var item := items[i];
      assert items[i..][1..] == items[i + 1..];
      if UsableUrl(item.url) && item.url !in seenUrls {
        unique := unique + [item];
        seenUrls := seenUrls + {item.url};
      }
      i := i + 1;
    }
  }

  /** The output URLs are usable, pairwise distinct and not already seen. */
  lemma {:induction false} DedupWithDistinct(items: seq<Article>, seen: set<string>)
    ensures forall k :: 0 <= k < |DedupWith(items, seen)| ==> UsableUrl(DedupWith(items, seen)[k].url) && DedupWith(items, seen)[k].url !in seen
    ensures forall p, q :: 0 <= p < q < |DedupWith(items, seen)| ==> DedupWith(items, seen)[p].url != DedupWith(items, seen)[q].url
    decreases |items|
  {
    if |items| > 0 {
      if UsableUrl(items[0].url) && items[0].url !in seen {
        DedupWithDistinct(items[1..], seen + {items[0].url});
      } else {
        DedupWithDistinct(items[1..], seen);
      }
    }
  }

  /** After de-duplication every URL is usable and occurs once. */
  lemma DedupDistinctUrls(items: seq<Article>)
    ensures forall k :: 0 <= k < |Dedup(items)| ==> UsableUrl(Dedup(items)[k].url)
    ensures forall p, q :: 0 <= p < q < |Dedup(items)| ==> Dedup(items)[p].url != Dedup(items)[q].url
  {
    DedupWithDistinct(items, {});
  }

  /** The article at `i` is the first one carrying its usable URL. */
  predicate FirstOfUrl(items: seq<Article>, i: nat)
    requires i < |items|
  {
    UsableUrl(items[i].url) && forall j :: 0 <= j < i ==> items[j].url != items[i].url
  }

  /** The reference result: the first articles of each usable URL, from position `k` on, in input order. */
  function FirstsFrom(items: seq<Article>, k: nat): seq<Article>
    requires k <= |items|
    decreases |items| - k
  {
    if k == |items| then []
    else (if FirstOfUrl(items, k) then [items[k]] else []) + FirstsFrom(items, k + 1)
  }

  /** The usable URLs among the first `k` articles. */
  function UrlsBefore(items: seq<Article>, k: nat): set<string>
    requires k <= |items|
  {
    set j | 0 <= j < k && UsableUrl(items[j].url) :: items[j].url
  }

  lemma {:induction false} DedupWithIsFirsts(items: seq<Article>, k: nat)
    requires k <= |items|
    ensures DedupWith(items[k..], UrlsBefore(items, k)) == FirstsFrom(items, k)
    decreases |items| - k
  {
    if k < |items| {
      var seen := UrlsBefore(items, k);
      var it := items[k];
      assert items[k..][0] == it && items[k..][1..] == items[k + 1..];
      assert FirstOfUrl(items, k) <==> UsableUrl(it.url) && it.url !in seen by {
        if UsableUrl(it.url) && it.url in seen {
          var j :| 0 <= j < k && UsableUrl(items[j].url) && items[j].url == it.url;
        }
      }
      UrlsBeforeStep(items, k);
      DedupWithIsFirsts(items, k + 1);
      if UsableUrl(it.url) && it.url !in seen {
        assert DedupWith(items[k..], seen) == [it] + DedupWith(items[k + 1..], seen + {it.url});
      } else {
        assert DedupWith(items[k..], seen) == DedupWith(items[k + 1..], seen);
        assert UsableUrl(it.url) ==> seen + {it.url} == seen;
        assert UrlsBefore(items, k + 1) == seen;
        assert !FirstOfUrl(items, k);
      }
    } else {
      assert items[k..] == [];
    }
  }

  lemma UrlsBeforeStep(items: seq<Article>, k: nat)
    requires k < |items|
    ensures UrlsBefore(items, k + 1) == UrlsBefore(items, k) + (if UsableUrl(items[k].url) then {items[k].url} else {})
  {
    var extra: set<string> := if UsableUrl(items[k].url) then {items[k].url} else {};
    forall u | u in UrlsBefore(items, k + 1)
      ensures u in UrlsBefore(items, k) + extra
    {
      var j :| 0 <= j < k + 1 && UsableUrl(items[j].url) && items[j].url == u;
      if j < k {
        assert u in UrlsBefore(items, k);
      }
    }
  }

  /**
   * De-duplication keeps exactly the first article of each usable URL, in
   * input order: nothing else is kept and none of those is dropped.
   */
  lemma DedupKeepsFirstOccurrences(items: seq<Article>)
    ensures Dedup(items) == FirstsFrom(items, 0)
  {
    assert UrlsBefore(items, 0) == {};
    assert items[0..] == items;
    DedupWithIsFirsts(items, 0);
  }

  /** Every first occurrence of a usable URL is in the result. */
  lemma {:induction false} FirstsFromContains(items: seq<Article>, k: nat, i: nat)
    requires k <= i < |items| && FirstOfUrl(items, i)
    ensures items[i] in FirstsFrom(items, k)
    decreases i - k
  {
    if k < i {
      FirstsFromContains(items, k + 1, i);
    }
  }

  /** Every result article is an input article. */
  lemma {:induction false} FirstsFromSubset(items: seq<Article>, k: nat)
    requires k <= |items|
    ensures forall a :: a in FirstsFrom(items, k) ==> a in items[k..]
    decreases |items| - k
  {
    if k < |items| {
      FirstsFromSubset(items, k + 1);
    }
  }

  /** Every usable URL of the input survives de-duplication, and no article is invented. */
  lemma DedupComplete(items: seq<Article>)
    ensures forall i :: 0 <= i < |items| && UsableUrl(items[i].url) ==> exists k :: 0 <= k < |Dedup(items)| && Dedup(items)[k].url == items[i].url
    ensures forall a :: a in Dedup(items) ==> a in items
  {
    DedupKeepsFirstOccurrences(items);
    FirstsFromSubset(items, 0);
    assert items[0..] == items;
    forall i | 0 <= i < |items| && UsableUrl(items[i].url)
      ensures exists k :: 0 <= k < |Dedup(items)| && Dedup(items)[k].url == items[i].url
    {
      var f := FirstIndexOfUrl(items, i);
      FirstsFromContains(items, 0, f);
      var k :| 0 <= k < |Dedup(items)| && Dedup(items)[k] == items[f];
    }
  }

  /** The first position carrying the URL of the article at `i`. */
  function FirstIndexOfUrl(items: seq<Article>, i: nat): (f: nat)
    requires i < |items| && UsableUrl(items[i].url)
    ensures f <= i && items[f].url == items[i].url && FirstOfUrl(items, f)
    decreases i
  {
    if exists j :: 0 <= j < i && items[j].url == items[i].url then
      var j :| 0 <= j < i && items[j].url == items[i].url;
      FirstIndexOfUrl(items, j)
    else i
  }

  // ---------------------------------------------------------------------
  // Newest-first ordering
  // ---------------------------------------------------------------------

  /** The publish time in milliseconds; an article without a date counts as 0. */
  function PublishTime(a: Article, timeOf: string -> int): int {
    if Truthy(a.publishedDate) then timeOf(a.publishedDate.value) else 0
  }

  /** The key under which an ascending stable sort is the comparator `dateB - dateA`. */
  function NewestFirstKey(timeOf: string -> int): Article -> int {
    a => -PublishTime(a, timeOf)
  }

  function SortNewestFirst(items: seq<Article>, timeOf: string -> int): seq<Article> {
    PriorityOrder.SortBy(items, NewestFirstKey(timeOf))
  }

  /** The sorted articles are the same articles, in non-increasing publish time. */
  lemma SortNewestFirstCorrect(items: seq<Article>, timeOf: string -> int)
    ensures multiset(SortNewestFirst(items, timeOf)) == multiset(items)
    ensures forall i, j :: 0 <= i < j < |SortNewestFirst(items, timeOf)| ==>
      PublishTime(SortNewestFirst(items, timeOf)[i], timeOf) >= PublishTime(SortNewestFirst(items, timeOf)[j], timeOf)
  {
    PriorityOrder.SortByCorrect(items, NewestFirstKey(timeOf));
    var s := SortNewestFirst(items, timeOf);
    forall i, j | 0 <= i < j < |s|
      ensures PublishTime(s[i], timeOf) >= PublishTime(s[j], timeOf)
    {
      assert NewestFirstKey(timeOf)(s[i]) <= NewestFirstKey(timeOf)(s[j]);
    }
  }

  // ---------------------------------------------------------------------
  // Configuration and overrides
  // ---------------------------------------------------------------------

  /** The two kinds of error `run` lets escape. */
  datatype Failure = Terminate(message: string) | Plain(message: string)

  const FeedsParseError: string := "Failed to parse RSS_DAILY_DIGEST_FEEDS configuration."
  const CriticalPrefix: string := "Workflow failed critically: "
  const DefaultLlmProvider: string := "DEFAULT_LLM_PROVIDER"
  const DefaultHoursAgo: int := 24
  const NoFeedsMessage: string := "# RSS Daily Digest\n\nNo RSS feeds configured or configuration is invalid."

  /** The catch block: a termination error is re-thrown as it is, any other becomes a critical failure. */
  function WrapError(e: Failure): (r: Failure)
    ensures r.Terminate? <==> e.Terminate?
    ensures e.Terminate? ==> r == e
    ensures r.Plain? ==> r.message == CriticalPrefix + e.message
  {
    if e.Terminate? then e else Plain(CriticalPrefix + e.message)
  }

  /** The run's parameters; absent fields are `undefined`. */
  datatype Payload = Payload(
    overrideFeedPaths: Option<seq<string>>,
    overrideHoursAgo: Option<int>,
    overrideLlmProvider: Option<string>,
    outputAction: Option<string>)

  /** What the configuration lookups gave; `None` where the lookup threw. */
  datatype Settings = Settings(
    llmProvider: Option<string>,
    feeds: Option<string>,
    hoursAgo: Option<int>)

  /** The feed paths: a non-empty override, else the configured JSON array of strings ("[]" when unset). */
  function ResolveFeedPaths(overridePaths: Option<seq<string>>, feedsSetting: Option<string>, parse: string -> Option<Json>): (r: Result<seq<string>, Failure>)
    ensures overridePaths.Some? && |overridePaths.value| > 0 ==> r == Ok(overridePaths.value)
    ensures r.Err? ==> r.error == Terminate(FeedsParseError)
    ensures !(overridePaths.Some? && |overridePaths.value| > 0) ==>
      (r.Ok? <==> parse(feedsSetting.GetOr("[]")).Some? && StringArray(parse(feedsSetting.GetOr("[]")).value).Some?)
  {
    if overridePaths.Some? && |overridePaths.value| > 0 then Ok(overridePaths.value)
    else
      match parse(feedsSetting.GetOr("[]"))
      case None => Err(Terminate(FeedsParseError))
      case Some(v) =>
        match StringArray(v)
        case None => Err(Terminate(FeedsParseError))
        case Some(paths) => Ok(paths)
  }

  /** When the feeds setting is missing, the run sees an empty list. */
  lemma MissingFeedsSettingIsEmpty(parse: string -> Option<Json>)
    requires parse("[]") == Some(JArr([]))
    ensures ResolveFeedPaths(None, None, parse) == Ok([])
  {
  }

  /** `overrideHoursAgo || configuredHoursAgo`, where the configured value is 24 when the lookup threw. */
  function ResolveHoursAgo(overrideHours: Option<int>, configured: Option<int>): (h: int)
    ensures overrideHours.Some? && overrideHours.value != 0 ==> h == overrideHours.value
    ensures (overrideHours.None? || overrideHours.value == 0) && configured.None? ==> h == DefaultHoursAgo
    ensures (overrideHours.None? || overrideHours.value == 0) && configured.Some? ==> h == configured.value
  {
    if overrideHours.Some? && overrideHours.value != 0 then overrideHours.value else configured.GetOr(DefaultHoursAgo)
  }

  /** `overrideLlmProvider || configured`, where the configured value is "DEFAULT_LLM_PROVIDER" when the lookup threw. */
  function ResolveLlmProvider(overrideProvider: Option<string>, configured: Option<string>): (p: string)
    ensures Truthy(overrideProvider) ==> p == overrideProvider.value
    ensures !Truthy(overrideProvider) && configured.None? ==> p == DefaultLlmProvider
    ensures !Truthy(overrideProvider) && configured.Some? ==> p == configured.value
  {
    OrElse(overrideProvider, Some(configured.GetOr(DefaultLlmProvider))).value
  }

  /** The message when no article is left: the date part of the ISO time and the window in hours. */
  function NoArticlesMessage(isoNow: string, hoursAgo: int): string {
    "# Daily Digest - " + SplitOn(isoNow, 'T')[0] + "\n\nNo new articles found in the last " + IntToString(hoursAgo) + " hours."
  }

  /** The date shown is the text before the first 'T'. */
  lemma NoArticlesMessageDate(date: string, rest: string, hoursAgo: int)
    requires forall i :: 0 <= i < |date| ==> date[i] != 'T'
    ensures NoArticlesMessage(date + "T" + rest, hoursAgo)
      == "# Daily Digest - " + date + "\n\nNo new articles found in the last " + IntToString(hoursAgo) + " hours."
  {
    SplitOnFirstPiece(date, rest, 'T');
  }

  // ---------------------------------------------------------------------
  // run
  // ---------------------------------------------------------------------

  /** The articles handed to the language model. */
  function Prepared(paths: seq<string>, hoursAgo: int, fetch: (string, int) -> FetchReply, timeOf: string -> int): seq<Article> {
    SortNewestFirst(Dedup(Collected(paths, hoursAgo * 60 * 60, fetch)), timeOf)
  }

  /** The prepared articles have distinct usable URLs and are newest first. */
  lemma PreparedDistinctAndOrdered(paths: seq<string>, hoursAgo: int, fetch: (string, int) -> FetchReply, timeOf: string -> int)
    ensures var p := Prepared(paths, hoursAgo, fetch, timeOf);
      (forall k :: 0 <= k < |p| ==> UsableUrl(p[k].url))
      && (forall a, b :: 0 <= a < b < |p| ==> p[a].url != p[b].url)
      && (forall a, b :: 0 <= a < b < |p| ==> PublishTime(p[a], timeOf) >= PublishTime(p[b], timeOf))
  {
    var d := Dedup(Collected(paths, hoursAgo * 60 * 60, fetch));
    var p := Prepared(paths, hoursAgo, fetch, timeOf);
    DedupDistinctUrls(d);
    DedupDistinctUrls(Collected(paths, hoursAgo * 60 * 60, fetch));
    SortNewestFirstCorrect(d, timeOf);
    forall k | 0 <= k < |p|
      ensures UsableUrl(p[k].url)
    {
      assert p[k] in multiset(d);
      var m :| 0 <= m < |d| && d[m] == p[k];
    }
    forall a, b | 0 <= a < b < |p|
      ensures p[a].url != p[b].url
    {
      UrlsDistinctAfterPermutation(d, p, a, b);
    }
  }

  /** A permutation of a list with distinct URLs still has distinct URLs. */
  lemma UrlsDistinctAfterPermutation(d: seq<Article>, p: seq<Article>, a: nat, b: nat)
    requires multiset(p) == multiset(d)
    requires forall x, y :: 0 <= x < y < |d| ==> d[x].url != d[y].url
    requires a < b < |p|
    ensures p[a].url != p[b].url
  {
    assert p[a] in multiset(d) && p[b] in multiset(d);
    var x :| 0 <= x < |d| && d[x] == p[a];
    var y :| 0 <= y < |d| && d[y] == p[b];
    DistinctUrlsCountOnce(d, x);
    if p[a] == p[b] {
      // The same article twice in `p` would occur twice in `d`.
      TwiceCounted(p, a, b);
      assert false;
    }
  }

  lemma TwiceCounted(p: seq<Article>, a: nat, b: nat)
    requires a < b < |p| && p[a] == p[b]
    ensures multiset(p)[p[a]] >= 2
  {
    assert p == p[..a] + [p[a]] + p[a + 1..b] + [p[b]] + p[b + 1..];
  }

  /** In a list with distinct URLs, each article occurs once. */
  lemma DistinctUrlsCountOnce(d: seq<Article>, x: nat)
    requires x < |d|
    requires forall i, j :: 0 <= i < j < |d| ==> d[i].url != d[j].url
    ensures multiset(d)[d[x]] == 1
  {
    assert d == d[..x] + [d[x]] + d[x + 1..];
  }

  /** What `run` returns: the digest (absent for the "file" action) or the error it throws. */
  function RunResult(payload: Payload, settings: Settings, parse: string -> Option<Json>,
                     fetch: (string, int) -> FetchReply, timeOf: string -> int, isoNow: string,
                     synthesize: (string, seq<Article>) -> Result<string, Failure>): Result<Option<string>, Failure>
  {
    var provider := ResolveLlmProvider(payload.overrideLlmProvider, settings.llmProvider);
    var hoursAgo := ResolveHoursAgo(payload.overrideHoursAgo, settings.hoursAgo);
    match ResolveFeedPaths(payload.overrideFeedPaths, settings.feeds, parse)
    case Err(e) => Err(WrapError(e))
    case Ok(paths) =>
      if |paths| == 0 then Ok(Some(NoFeedsMessage))
      else
        var articles := Prepared(paths, hoursAgo, fetch, timeOf);
        if |articles| == 0 then Ok(Some(NoArticlesMessage(isoNow, hoursAgo)))
        else
          match synthesize(provider, articles)
          case Err(e) => Err(WrapError(e))
          case Ok(markdown) =>
            if OrElse(payload.outputAction, Some("log")).value == "file" then Ok(None) else Ok(Some(markdown))
  }

  /**
   * The workflow's `run`: resolve configuration, fetch every feed, de-duplicate,
   * sort newest first, synthesize and choose the output.
   */
  method Run(payload: Payload, settings: Settings, parse: string -> Option<Json>,
             fetch: (string, int) -> FetchReply, timeOf: string -> int, isoNow: string,
             synthesize: (string, seq<Article>) -> Result<string, Failure>)
    returns (r: Result<Option<string>, Failure>)
    ensures r == RunResult(payload, settings, parse, fetch, timeOf, isoNow, synthesize)
  {
    var provider := ResolveLlmProvider(payload.overrideLlmProvider, settings.llmProvider);
    var hoursAgo := ResolveHoursAgo(payload.overrideHoursAgo, settings.hoursAgo);
    var feedPaths := ResolveFeedPaths(payload.overrideFeedPaths, settings.feeds, parse);
    if feedPaths.Err? {
      return Err(WrapError(feedPaths.error));
    }
    var paths := feedPaths.value;
    if |paths| == 0 {
      return Ok(Some(NoFeedsMessage));
    }
    var allFetched := CollectItems(paths, hoursAgo * 60 * 60, fetch);
    var unique := DedupItems(allFetched);
    var articles := SortNewestFirst(unique, timeOf);
    if |articles| == 0 {
      return Ok(Some(NoArticlesMessage(isoNow, hoursAgo)));
    }
    var digest := synthesize(provider, articles);
    if digest.Err? {
      return Err(WrapError(digest.error));
    }
    var outputAction := OrElse(payload.outputAction, Some("log")).value;
    if outputAction == "file" {
      r := Ok(None);
    } else {
      r := Ok(Some(digest.value));
    }
  }

  /** Without feeds the run ends before any synthesis: the synthesizer cannot affect the result. */
  lemma NoFeedsSkipsSynthesis(payload: Payload, settings: Settings, parse: string -> Option<Json>,
                              fetch: (string, int) -> FetchReply, timeOf: string -> int, isoNow: string,
                              s1: (string, seq<Article>) -> Result<string, Failure>,
                              s2: (string, seq<Article>) -> Result<string, Failure>)
    requires ResolveFeedPaths(payload.overrideFeedPaths, settings.feeds, parse) == Ok([])
    ensures RunResult(payload, settings, parse, fetch, timeOf, isoNow, s1) == Ok(Some(NoFeedsMessage))
    ensures RunResult(payload, settings, parse, fetch, timeOf, isoNow, s1) == RunResult(payload, settings, parse, fetch, timeOf, isoNow, s2)
  {
  }

  /** A configuration that is not a JSON array of strings terminates the run with the fixed message. */
  lemma BadFeedsConfigurationTerminates(payload: Payload, settings: Settings, parse: string -> Option<Json>,
                                        fetch: (string, int) -> FetchReply, timeOf: string -> int, isoNow: string,
                                        synthesize: (string, seq<Article>) -> Result<string, Failure>)
    requires payload.overrideFeedPaths.None? || |payload.overrideFeedPaths.value| == 0
    requires parse(settings.feeds.GetOr("[]")).None? || StringArray(parse(settings.feeds.GetOr("[]")).value).None?
    ensures RunResult(payload, settings, parse, fetch, timeOf, isoNow, synthesize) == Err(Terminate(FeedsParseError))
  {
  }

  /** Every error the run throws is either the parse termination, a termination from synthesis, or a critical failure. */
  lemma RunErrorsAreWrapped(payload: Payload, settings: Settings, parse: string -> Option<Json>,
                            fetch: (string, int) -> FetchReply, timeOf: string -> int, isoNow: string,
                            synthesize: (string, seq<Article>) -> Result<string, Failure>)
    ensures var r := RunResult(payload, settings, parse, fetch, timeOf, isoNow, synthesize);
      r.Err? ==> r.error.Terminate? || (|r.error.message| >= |CriticalPrefix| && r.error.message[..|CriticalPrefix|] == CriticalPrefix)
  {
  }
}
