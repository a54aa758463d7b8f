/** services/news_fetcher.py: three provider adapters that normalise their records into
    `Article`, and `fetch_news`, which concatenates them and sorts newest first. The HTTP
    calls, feedparser, the clock (`datetime.now().isoformat()`) and BeautifulSoup's
    `get_text` are parameters. */
module NewsFetcher {
  import opened Wrappers
  import opened Articles

  // ---------------------------------------------------------------------------
  // Category vocabularies. Association lists keep the declaration order of the dicts.
  // ---------------------------------------------------------------------------

  const NewsApiCategories: seq<(string, string)> := [
    ("Technology", "technology"), ("Business", "business"), ("Entertainment", "entertainment"),
    ("Health", "health"), ("Science", "science"), ("Sports", "sports"), ("General", "general")]

  const GNewsCategories: seq<(string, string)> := [
    ("Technology", "technology"), ("Business", "business"), ("Entertainment", "entertainment"),
    ("Health", "health"), ("Science", "science"), ("Sports", "sports"), ("World", "world"),
    ("Nation", "nation")]

  const GeneralFeeds: seq<string> := [
    "https://feeds.bbci.co.uk/news/rss.xml", "https://rss.cnn.com/rss/edition.rss"]

  const RssFeeds: seq<(string, seq<string>)> := [
    ("Technology", ["https://feeds.bbci.co.uk/news/technology/rss.xml",
                    "https://techcrunch.com/feed/", "https://www.wired.com/feed/rss"]),
    ("Business", ["https://feeds.bbci.co.uk/news/business/rss.xml",
                  "https://www.cnbc.com/id/100003114/device/rss/rss.html"]),
    ("Entertainment", ["https://feeds.bbci.co.uk/news/entertainment_and_arts/rss.xml",
                       "https://ew.com/feed/"]),
    ("Health", ["https://feeds.bbci.co.uk/news/health/rss.xml",
                "https://www.medicalnewstoday.com/rss"]),
    ("Science", ["https://feeds.bbci.co.uk/news/science_and_environment/rss.xml",
                 "https://www.sciencedaily.com/rss/all.xml"]),
    ("Sports", ["https://feeds.bbci.co.uk/sport/rss.xml", "https://www.espn.com/espn/rss/news"]),
    ("General", GeneralFeeds)]

  /** `dict.get(key)` on an association list with distinct keys. */
  function Lookup<V>(table: seq<(string, V)>, key: string): (r: Option<V>)
    ensures r.None? <==> forall i :: 0 <= i < |table| ==> table[i].0 != key
    ensures r.Some? ==> exists i :: 0 <= i < |table| && table[i] == (key, r.value)
  {
    if table == [] then None
    else if table[0].0 == key then Some(table[0].1)
    else Lookup(table[1..], key)
  }

  /** With no earlier entry for the same key, looking up the key of entry `i` finds entry `i`. */
  lemma {:induction false} LookupAt<V>(table: seq<(string, V)>, i: nat)
    requires i < |table|
    requires forall j :: 0 <= j < i ==> table[j].0 != table[i].0
    ensures Lookup(table, table[i].0) == Some(table[i].1)
  {
    if i > 0 {
      LookupAt(table[1..], i - 1);
    }
  }

  /** The `category` parameter sent to NewsAPI; unknown categories fall back to "general".
      Whatever the category, NewsAPI is sent one of its own category values. */
  function NewsApiCategory(category: string): (r: string)
    ensures exists i :: 0 <= i < |NewsApiCategories| && NewsApiCategories[i].1 == r
  {
    assert NewsApiCategories[6].1 == "general";
    Lookup(NewsApiCategories, category).GetOr("general")
  }

  /** The `category` parameter sent to GNews; GNews has no "General" entry, so it falls back too.
      Anything but "general" is the GNews value listed for that very category. */
  function GNewsCategory(category: string): (r: string)
    ensures r != "general" ==> exists i :: 0 <= i < |GNewsCategories| && GNewsCategories[i] == (category, r)
  {
    Lookup(GNewsCategories, category).GetOr("general")
  }

  /** The feed URLs read for a category; unknown categories read the General feeds. The result
      is always one of the table's feed lists. */
  function RssFeedsFor(category: string): (r: seq<string>)
    ensures exists i :: 0 <= i < |RssFeeds| && RssFeeds[i].1 == r
  {
    assert RssFeeds[6].1 == GeneralFeeds;
    Lookup(RssFeeds, category).GetOr(GeneralFeeds)
  }

  /** `get_available_categories`: the NewsAPI keys in declaration order. */
  function AvailableCategories(): (r: seq<string>)
    ensures r == ["Technology", "Business", "Entertainment", "Health", "Science", "Sports", "General"]
  {
    seq(|NewsApiCategories|, i requires 0 <= i < |NewsApiCategories| => NewsApiCategories[i].0)
  }

  /** The only NewsAPI entry whose value is "general" is the one for "General". */
  lemma NewsApiGeneralEntry()
    ensures forall i :: 0 <= i < |NewsApiCategories| ==>
      (NewsApiCategories[i].1 == "general" <==> NewsApiCategories[i].0 == "General")
  {
  }

  /** No GNews entry has the value "general", and none has the key "General". */
  lemma GNewsHasNoGeneral()
    ensures forall i :: 0 <= i < |GNewsCategories| ==>
      GNewsCategories[i].1 != "general" && GNewsCategories[i].0 != "General"
  {
  }

  /** NewsAPI is asked for "general" exactly for "General" and for categories it does not list. */
  lemma NewsApiFallback(category: string)
    ensures NewsApiCategory(category) == "general" <==>
      (category == "General" || category !in AvailableCategories())
  {
    NewsApiGeneralEntry();
    var names := AvailableCategories();
    assert names == seq(|NewsApiCategories|, i requires 0 <= i < |NewsApiCategories| => NewsApiCategories[i].0);
    match Lookup(NewsApiCategories, category)
    case None =>
      assert forall i :: 0 <= i < |names| ==> names[i] != category;
    case Some(v) =>
      var j :| 0 <= j < |NewsApiCategories| && NewsApiCategories[j] == (category, v);
      assert names[j] == category;
  }

  /** GNews is asked for "general" exactly for the categories missing from its map, which include
      "General"; every other category offered to the user has its own GNews category. */
  lemma GNewsFallback(category: string)
    ensures GNewsCategory(category) == "general" <==>
      forall i :: 0 <= i < |GNewsCategories| ==> GNewsCategories[i].0 != category
    ensures GNewsCategory("General") == "general"
  {
    GNewsHasNoGeneral();
    if Lookup(GNewsCategories, category).Some? {
      var j :| 0 <= j < |GNewsCategories| && GNewsCategories[j] == (category, GNewsCategory(category));
    }
  }

  /** Two tables that share their first `n` entries agree on every key among those entries. */
  lemma {:induction false} LookupSharedPrefix<V>(t1: seq<(string, V)>, t2: seq<(string, V)>, n: nat, i: nat)
    requires i < n <= |t1| && n <= |t2| && t1[..n] == t2[..n]
    ensures Lookup(t1, t1[i].0) == Lookup(t2, t1[i].0)
  {
    assert t1[0] == t1[..n][0] == t2[0];
    if t1[0].0 != t1[i].0 {
      assert t1[1..][..n - 1] == t1[..n][1..] == t2[..n][1..] == t2[1..][..n - 1];
      LookupSharedPrefix(t1[1..], t2[1..], n - 1, i - 1);
    }
  }

  /** Both REST providers are asked for the same category for every category the user is
      offered except "General". */
  lemma NewsApiAndGNewsAgree(i: nat)
    requires i < |AvailableCategories()| && AvailableCategories()[i] != "General"
    ensures GNewsCategory(AvailableCategories()[i]) == NewsApiCategory(AvailableCategories()[i])
  {
    assert AvailableCategories()[6] == "General";
    assert NewsApiCategories[..6] == GNewsCategories[..6];
    assert NewsApiCategories[i].0 == AvailableCategories()[i];
    LookupSharedPrefix(NewsApiCategories, GNewsCategories, 6, i);
  }

  /** The feed table is keyed by exactly the offered categories, in the same order. */
  lemma RssKeysAreCategories()
    ensures |RssFeeds| == |AvailableCategories()|
    ensures forall i :: 0 <= i < |RssFeeds| ==> RssFeeds[i].0 == AvailableCategories()[i]
  {
  }

  /** Every category offered to the user has a feed list of its own; only other names read the
      General feeds. */
  lemma RssFallback(category: string)
    ensures category in AvailableCategories() <==> Lookup(RssFeeds, category).Some?
    ensures category !in AvailableCategories() ==> RssFeedsFor(category) == GeneralFeeds
  {
    RssKeysAreCategories();
    var names := AvailableCategories();
    match Lookup(RssFeeds, category)
    case None =>
      assert forall i :: 0 <= i < |names| ==> names[i] != category;
    case Some(v) =>
      var j :| 0 <= j < |RssFeeds| && RssFeeds[j] == (category, v);
      assert names[j] == category;
  }

  // ---------------------------------------------------------------------------
  // NewsAPI and GNews
  // ---------------------------------------------------------------------------

  /** An article record of either REST API; `None` is a missing key. `image` is NewsAPI's
      `urlToImage` and GNews's `image`; `sourceName` is `source.name`. */
  datatype RawArticle = RawArticle(
    title: Option<string>,
    url: Option<string>,
    publishedAt: Option<string>,
    description: Option<string>,
    image: Option<string>,
    sourceName: Option<string>)

  /** The query an adapter sends: the provider's category and the page size. */
  datatype ApiRequest = ApiRequest(category: string, maxResults: nat)

  /** A decoded JSON body: `status` and `articles` (a missing `articles` is `[]`). */
  datatype ApiResponse = ApiResponse(status: Option<string>, articles: seq<RawArticle>)

  /** `if not API_KEY`: an unset or empty key. */
  predicate Configured(apiKey: Option<string>) {
    apiKey.Some? && apiKey.value != ""
  }

  function FromApiArticle(a: RawArticle, provider: string, now: string): Article {
    Article(
      a.title.GetOr("No Title"),
      a.url.GetOr("#"),
      a.publishedAt.GetOr(now),
      a.description.GetOr("No description available"),
      a.image,
      provider + " - " + a.sourceName.GetOr("Unknown"))
  }

  function FromApiArticles(articles: seq<RawArticle>, provider: string, now: string): seq<Article> {
    seq(|articles|, i requires 0 <= i < |articles| => FromApiArticle(articles[i], provider, now))
  }

  /** What `fetch_from_newsapi` returns; `http` is `requests.get(...).json()`, `None` when it
      raises a `RequestException`. */
  function NewsApiItems(category: string, maxResults: nat, apiKey: Option<string>,
                        http: ApiRequest -> Option<ApiResponse>, now: string): (r: seq<Article>)
    ensures var response := http(ApiRequest(NewsApiCategory(category), maxResults));
      r != [] <==> Configured(apiKey) && response.Some? && response.value.status == Some("ok") &&
                   response.value.articles != []
    ensures var response := http(ApiRequest(NewsApiCategory(category), maxResults));
      r != [] ==> r == FromApiArticles(response.value.articles, "NewsAPI", now)
  {
    if !Configured(apiKey) then []
    else match http(ApiRequest(NewsApiCategory(category), maxResults))
      case None => []
      case Some(response) =>
        if response.status == Some("ok") then FromApiArticles(response.articles, "NewsAPI", now)
        else []
  }

  /** What `fetch_from_gnews` returns; unlike NewsAPI, `status` is not consulted. */
  function GNewsItems(category: string, maxResults: nat, apiKey: Option<string>,
                      http: ApiRequest -> Option<ApiResponse>, now: string): (r: seq<Article>)
    ensures var response := http(ApiRequest(GNewsCategory(category), maxResults));
      r != [] <==> Configured(apiKey) && response.Some? && response.value.articles != []
    ensures var response := http(ApiRequest(GNewsCategory(category), maxResults));
      r != [] ==> r == FromApiArticles(response.value.articles, "GNews", now)
  {
    if !Configured(apiKey) then []
    else match http(ApiRequest(GNewsCategory(category), maxResults))
      case None => []
      case Some(response) => FromApiArticles(response.articles, "GNews", now)
  }

  /** The `append` loop shared by both REST adapters. */
  method NormaliseArticles(articles: seq<RawArticle>, provider: string, now: string)
    returns (items: seq<Article>)
    ensures |items| == |articles|
    ensures forall i :: 0 <= i < |items| ==>
      && items[i].title == articles[i].title.GetOr("No Title")
      && items[i].link == articles[i].url.GetOr("#")
      && items[i].published == articles[i].publishedAt.GetOr(now)
      && items[i].summary == articles[i].description.GetOr("No description available")
      && items[i].image == articles[i].image
      && items[i].source == provider + " - " + articles[i].sourceName.GetOr("Unknown")
    ensures items == FromApiArticles(articles, provider, now)
  {
    items := [];
    var i := 0;
    while i < |articles|
      invariant 0 <= i <= |articles|
      invariant items == FromApiArticles(articles[..i], provider, now)
    {
      items := items + [FromApiArticle(articles[i], provider, now)];
      i := i + 1;
      assert articles[..i][i - 1] == articles[i - 1];
    }
    assert articles[..i] == articles;
  }

  /** `fetch_from_newsapi`: nothing without a key, on a failed request or unless
      `status == 'ok'`; otherwise every returned article, in order, with NewsAPI defaults. */
  method FetchFromNewsApi(category: string, maxResults: nat, apiKey: Option<string>,
                          http: ApiRequest -> Option<ApiResponse>, now: string)
    returns (items: seq<Article>)
    ensures items == NewsApiItems(category, maxResults, apiKey, http, now)
    ensures items != [] ==> Configured(apiKey)
    ensures forall i :: 0 <= i < |items| ==> "NewsAPI - " <= items[i].source
  {
    if !Configured(apiKey) {
      return [];
    }
    var response := http(ApiRequest(NewsApiCategory(category), maxResults));
    if response.None? {
      return [];
    }
    items := [];
    if response.value.status == Some("ok") {
      items := NormaliseArticles(response.value.articles, "NewsAPI", now);
    }
  }

  /** `fetch_from_gnews`: nothing without a key or on a failed request; otherwise every
      returned article, in order, with GNews defaults. */
  method FetchFromGNews(category: string, maxResults: nat, apiKey: Option<string>,
                        http: ApiRequest -> Option<ApiResponse>, now: string)
    returns (items: seq<Article>)
    ensures items == GNewsItems(category, maxResults, apiKey, http, now)
    ensures items != [] ==> Configured(apiKey)
    ensures forall i :: 0 <= i < |items| ==> "GNews - " <= items[i].source
  {
    if !Configured(apiKey) {
      return [];
    }
    var response := http(ApiRequest(GNewsCategory(category), maxResults));
    if response.None? {
      return [];
    }
    items := NormaliseArticles(response.value.articles, "GNews", now);
  }

  // ---------------------------------------------------------------------------
  // RSS
  // ---------------------------------------------------------------------------

  /** A feed entry; `None` is a missing key. `media` holds the `url` of each `media_content`. */
  datatype RawEntry = RawEntry(
    title: Option<string>,
    link: Option<string>,
    published: Option<string>,
    updated: Option<string>,
    summary: Option<string>,
    description: Option<string>,
    media: seq<Option<string>>)

  /** `feedparser.parse(url)`: a feed title and entries, or a feed whose processing raised. */
  datatype ParsedFeed = Unreachable | Parsed(title: Option<string>, entries: seq<RawEntry>)

  const SummaryLimit: nat := 500

  /** Python's `s[:n]`. */
  function Take<T>(s: seq<T>, n: nat): (r: seq<T>)
    ensures |r| == (if |s| <= n then |s| else n) && r <= s
  {
    if |s| <= n then s else s[..n]
  }

  function FromRssEntry(e: RawEntry, feedTitle: Option<string>, now: string,
                        stripTags: string -> string): (r: Article)
    ensures |r.summary| <= SummaryLimit
    ensures "RSS - " <= r.source
  {
    var raw := e.summary.GetOr(e.description.GetOr("No description available"));
    var text := if '<' in raw then stripTags(raw) else raw;
    Article(
      e.title.GetOr("No Title"),
      e.link.GetOr("#"),
      e.published.GetOr(e.updated.GetOr(now)),
      Take(text, SummaryLimit),
      if |e.media| > 0 then e.media[0] else None,
      "RSS - " + feedTitle.GetOr("RSS Feed"))
  }

  /** One feed's contribution: its first `maxResults` entries; nothing if it failed. */
  function FeedItems(feed: ParsedFeed, maxResults: nat, now: string,
                     stripTags: string -> string): (r: seq<Article>)
    ensures |r| <= maxResults
    ensures feed.Unreachable? ==> r == []
  {
    match feed
    case Unreachable => []
    case Parsed(title, entries) =>
      var kept := Take(entries, maxResults);
      seq(|kept|, i requires 0 <= i < |kept| => FromRssEntry(kept[i], title, now, stripTags))
  }

  /** Every item a feed contributes has a summary of at most `SummaryLimit` characters. */
  lemma FeedItemsShape(feed: ParsedFeed, maxResults: nat, now: string, stripTags: string -> string)
    ensures forall i :: 0 <= i < |FeedItems(feed, maxResults, now, stripTags)| ==>
      |FeedItems(feed, maxResults, now, stripTags)[i].summary| <= SummaryLimit
  {
  }

  /** All feeds' contributions, in feed order; when every feed fails there is nothing. */
  function CollectFeeds(feeds: seq<ParsedFeed>, maxResults: nat, now: string,
                        stripTags: string -> string): (r: seq<Article>)
    ensures (forall i :: 0 <= i < |feeds| ==> feeds[i].Unreachable?) ==> r == []
  {
    if feeds == [] then []
    else FeedItems(feeds[0], maxResults, now, stripTags) + CollectFeeds(feeds[1..], maxResults, now, stripTags)
  }

  /** Every collected item has a summary of at most `SummaryLimit` characters. */
  lemma {:induction false} CollectFeedsShape(feeds: seq<ParsedFeed>, maxResults: nat, now: string,
                                             stripTags: string -> string)
    ensures forall i :: 0 <= i < |CollectFeeds(feeds, maxResults, now, stripTags)| ==>
      |CollectFeeds(feeds, maxResults, now, stripTags)[i].summary| <= SummaryLimit
  {
    if feeds != [] {
      var head := FeedItems(feeds[0], maxResults, now, stripTags);
      var rest := CollectFeeds(feeds[1..], maxResults, now, stripTags);
      CollectFeedsShape(feeds[1..], maxResults, now, stripTags);
      FeedItemsShape(feeds[0], maxResults, now, stripTags);
      var all: seq<Article> := head + rest;
      assert CollectFeeds(feeds, maxResults, now, stripTags) == all;
      forall i | 0 <= i < |all| ensures |all[i].summary| <= SummaryLimit {
        if i < |head| {
          assert all[i] == head[i];
        } else {
          assert all[i] == rest[i - |head|];
        }
      }
    }
  }

  function ParseAll(urls: seq<string>, parse: string -> ParsedFeed): seq<ParsedFeed> {
    seq(|urls|, i requires 0 <= i < |urls| => parse(urls[i]))
  }

  /** What `fetch_from_rss` returns. */
  function RssItems(category: string, maxResults: nat, parse: string -> ParsedFeed, now: string,
                    stripTags: string -> string): (r: seq<Article>)
    ensures |r| <= maxResults
    ensures forall i :: 0 <= i < |r| ==> |r[i].summary| <= SummaryLimit
  {
    var feeds := ParseAll(RssFeedsFor(category), parse);
    CollectFeedsShape(feeds, maxResults, now, stripTags);
    Take(CollectFeeds(feeds, maxResults, now, stripTags), maxResults)
  }

  /** Feeds contribute in order: the items of `a`'s feeds come before those of `b`'s. */
  lemma {:induction false} CollectFeedsConcat(a: seq<ParsedFeed>, b: seq<ParsedFeed>, maxResults: nat,
                                              now: string, stripTags: string -> string)
    ensures CollectFeeds(a + b, maxResults, now, stripTags) ==
      CollectFeeds(a, maxResults, now, stripTags) + CollectFeeds(b, maxResults, now, stripTags)
  {
    if a == [] {
      assert a + b == b;
    } else {
      assert (a + b)[1..] == a[1..] + b;
      CollectFeedsConcat(a[1..], b, maxResults, now, stripTags);
    }
  }

  /** One more feed appends its own contribution. */
  lemma CollectFeedsStep(feeds: seq<ParsedFeed>, f: nat, maxResults: nat, now: string,
                         stripTags: string -> string)
    requires f < |feeds|
    ensures CollectFeeds(feeds[..f + 1], maxResults, now, stripTags) ==
      CollectFeeds(feeds[..f], maxResults, now, stripTags) + FeedItems(feeds[f], maxResults, now, stripTags)
  {
    var last := [feeds[f]];
    assert feeds[..f + 1] == feeds[..f] + last;
    CollectFeedsConcat(feeds[..f], last, maxResults, now, stripTags);
    assert last[1..] == [];
    assert CollectFeeds(last, maxResults, now, stripTags) == FeedItems(feeds[f], maxResults, now, stripTags) + [];
  }

  /** A failing feed is skipped and changes nothing about what the other feeds contribute. */
  lemma UnreachableFeedIsSkipped(a: seq<ParsedFeed>, b: seq<ParsedFeed>, maxResults: nat,
                                 now: string, stripTags: string -> string)
    ensures CollectFeeds(a + [Unreachable] + b, maxResults, now, stripTags) ==
      CollectFeeds(a + b, maxResults, now, stripTags)
  {
    var skipped: seq<ParsedFeed> := [Unreachable];
    assert CollectFeeds(skipped, maxResults, now, stripTags) == [] by {
      assert skipped[1..] == [];
    }
    CollectFeedsConcat(a + skipped, b, maxResults, now, stripTags);
    CollectFeedsConcat(a, skipped, maxResults, now, stripTags);
    CollectFeedsConcat(a, b, maxResults, now, stripTags);
    assert CollectFeeds(a + skipped, maxResults, now, stripTags) == CollectFeeds(a, maxResults, now, stripTags);
  }

  /** The body of the `try` in `fetch_from_rss` for one feed: its first `maxResults` entries
      appended in order, or nothing when processing the feed raises. */
  method FeedToItems(feed: ParsedFeed, maxResults: nat, now: string, stripTags: string -> string)
    returns (items: seq<Article>)
    ensures items == FeedItems(feed, maxResults, now, stripTags)
  {
    items := [];
    if feed.Unreachable? {
      return;
    }
    var kept := Take(feed.entries, maxResults);
    var e := 0;
    while e < |kept|
      invariant 0 <= e <= |kept|
      invariant |items| == e
      invariant forall m :: 0 <= m < e ==> items[m] == FromRssEntry(kept[m], feed.title, now, stripTags)
    {
      items := items + [FromRssEntry(kept[e], feed.title, now, stripTags)];
      e := e + 1;
    }
  }

  /** The outer loop of `fetch_from_rss`: each feed URL in turn, its entries appended, a feed
      that raises skipped. */
  method CollectFromUrls(urls: seq<string>, maxResults: nat, parse: string -> ParsedFeed, now: string,
                         stripTags: string -> string)
    returns (collected: seq<Article>)
    ensures collected == CollectFeeds(ParseAll(urls, parse), maxResults, now, stripTags)
  {
    ghost var feeds := ParseAll(urls, parse);
    collected := [];
    var f := 0;
    while f < |urls|
      invariant 0 <= f <= |urls|
      invariant collected == CollectFeeds(feeds[..f], maxResults, now, stripTags)
    {
      var feed := parse(urls[f]);
      assert feed == feeds[f];
      var fromFeed := FeedToItems(feed, maxResults, now, stripTags);
      CollectFeedsStep(feeds, f, maxResults, now, stripTags);
      collected := collected + fromFeed;
      f := f + 1;
    }
    assert f == |feeds|;
    assert feeds[..f] == feeds;
  }

  /** `fetch_from_rss`: for each feed of the category, its first `maxResults` entries in order,
      feeds that raise skipped; then the first `maxResults` items overall. */
  method FetchFromRss(category: string, maxResults: nat, parse: string -> ParsedFeed, now: string,
                      stripTags: string -> string)
    returns (items: seq<Article>)
    ensures items == RssItems(category, maxResults, parse, now, stripTags)
  {
    var collected := CollectFromUrls(RssFeedsFor(category), maxResults, parse, now, stripTags);
    items := Take(collected, maxResults);
  }

  // ---------------------------------------------------------------------------
  // fetch_news
  // ---------------------------------------------------------------------------

  const NewsApiLimit: nat := 10
  const GNewsLimit: nat := 10
  const RssLimit: nat := 20

  /** Everything outside the program that `fetch_news` reads. */
  datatype Sources = Sources(
    newsApiKey: Option<string>,
    newsApi: ApiRequest -> Option<ApiResponse>,
    gnewsKey: Option<string>,
    gnews: ApiRequest -> Option<ApiResponse>,
    parse: string -> ParsedFeed,
    now: string,
    stripTags: string -> string)

  /** `newsapi_items + gnews_items + rss_items`, before sorting. */
  function Merged(category: string, env: Sources): seq<Article> {
    NewsApiItems(category, NewsApiLimit, env.newsApiKey, env.newsApi, env.now)
    + GNewsItems(category, GNewsLimit, env.gnewsKey, env.gnews, env.now)
    + RssItems(category, RssLimit, env.parse, env.now, env.stripTags)
  }

  /** `all_news.sort(key=lambda x: x['published'], reverse=True)`. */
  method SortByPublished(s: seq<Article>) returns (r: seq<Article>)
    ensures r == SortNewestFirst(s)
  {
    r := [];
    var i := 0;
    while i < |s|
      invariant 0 <= i <= |s|
      invariant r == SortNewestFirst(s[..i])
    {
      assert s[..i + 1][..i] == s[..i];
      r := Insert(r, s[i]);
      i := i + 1;
    }
    assert s[..i] == s;
  }

  /** `fetch_news`: every adapter's items, none dropped or duplicated and no cap, newest first,
      with items of equal `published` in concatenation order. */
  method FetchNews(category: string, env: Sources) returns (news: seq<Article>)
    ensures multiset(news) == multiset(Merged(category, env))
    ensures |news| == |NewsApiItems(category, NewsApiLimit, env.newsApiKey, env.newsApi, env.now)|
                    + |GNewsItems(category, GNewsLimit, env.gnewsKey, env.gnews, env.now)|
                    + |RssItems(category, RssLimit, env.parse, env.now, env.stripTags)|
    ensures NewestFirst(news)
    ensures forall key :: WithPublished(news, key) == WithPublished(Merged(category, env), key)
  {
    var newsApiItems := FetchFromNewsApi(category, NewsApiLimit, env.newsApiKey, env.newsApi, env.now);
    var gnewsItems := FetchFromGNews(category, GNewsLimit, env.gnewsKey, env.gnews, env.now);
    var rssItems := FetchFromRss(category, RssLimit, env.parse, env.now, env.stripTags);
    var all := newsApiItems + gnewsItems + rssItems;
    news := SortByPublished(all);
    SortNewestFirstCorrect(all);
  }
}
