/** scripts/simpleNewsFetcher.js: the corpus the running server answers from.
    Five RSS feeds are read in order; up to 5 items per feed become articles,
    and collection stops at 25 articles. The HTTP responses (the feed bodies
    after XML parsing, and the article pages fetched for short descriptions)
    are inputs here: one FeedOutcome per feed and one PageOutcome per item. */
module SimpleNews {
  import opened Base
  import opened Documents

  const MaxItemsPerFeed: nat := 5
  const MaxArticles: nat := 25
  /** a description shorter than this prompts a fetch of the article page */
  const ShortDescription: nat := 100
  /** how much of the stripped page is kept */
  const PageTextLimit: nat := 500
  const NoContent := "No content available"

  const RssFeeds: seq<string> := [
    "https://feeds.bbci.co.uk/news/technology/rss.xml",
    "https://rss.nytimes.com/services/xml/rss/nyt/Technology.xml",
    "https://feeds.bbci.co.uk/news/business/rss.xml",
    "https://rss.nytimes.com/services/xml/rss/nyt/Business.xml",
    "https://feeds.bbci.co.uk/news/world/rss.xml"
  ]

  /** An article as the RAG service reads it. */
  datatype Article = Article(url: string, title: string, content: string, published: string, source: string)

  /** The outcome of fetching an item's link. */
  datatype PageOutcome = PageFailed | Page(html: string)

  /** One parsed `<item>`: the first value of each element, when the element is present,
      the outcome of fetching its page, and what `new Date().toISOString()` returns
      while the item is processed (the items are processed one after another, between
      awaited requests, so each item reads the clock at its own time). */
  datatype RssItem = RssItem(
    title: Option<string>,
    link: Option<string>,
    description: Option<string>,
    pubDate: Option<string>,
    page: PageOutcome,
    clock: string)

  /** The outcome of fetching and parsing one feed. FeedParsed(None) is a document
      without `rss.channel[0].item`; FeedFailed is a fetch, parse or shape error. */
  datatype FeedOutcome = FeedFailed | FeedParsed(items: Option<seq<RssItem>>)

  /** The source label chosen from the feed URL. */
  function SourceLabel(feedUrl: string): (name: string)
    ensures name in {"New York Times", "BBC News", "News Feed"}
    ensures name == "New York Times" <==> Contains(feedUrl, "nytimes")
    ensures name == "BBC News" <==> !Contains(feedUrl, "nytimes") && Contains(feedUrl, "bbci")
  {
    if Contains(feedUrl, "nytimes") then "New York Times"
    else if Contains(feedUrl, "bbci") then "BBC News"
    else "News Feed"
  }

  /** no '<' is followed, anywhere later, by a '>' */
  ghost predicate NoTagLeft(s: string) {
    forall i, j :: 0 <= i < j < |s| && s[i] == '<' ==> s[j] != '>'
  }

  /** The part of s after its first occurrence of c. */
  function After(s: string, c: char): (r: string)
    requires c in s
    ensures |r| < |s|
    ensures forall x :: x in r ==> x in s
  {
    if s[0] == c then s[1..] else After(s[1..], c)
  }

  /** `html.replace(/<[^>]*>/g, ' ')`: scanning left to right, a '<' that has a
      '>' somewhere after it starts a match that ends at the first such '>',
      and the whole match becomes one space; a '<' with no '>' after it is kept. */
  function StripTags(s: string): (r: string)
    ensures |r| <= |s|
    ensures forall c :: c in r ==> c in s || c == ' '
    ensures '<' !in s ==> r == s
    ensures NoTagLeft(r)
    decreases |s|
  {
    if s == [] then []
    else if s[0] == '<' && '>' in s[1..] then [' '] + StripTags(After(s[1..], '>'))
    else [s[0]] + StripTags(s[1..])
  }

  /** The text after the first '>' of t + ['>'] + b, when t has no '>', is b. */
  lemma {:induction false} AfterFirstClose(t: string, b: string)
    requires '>' !in t
    ensures '>' in t + ['>'] + b
    ensures After(t + ['>'] + b, '>') == b
  {
    var s := t + ['>'] + b;
    assert s[|t|] == '>';
    if t != [] {
      assert s[1..] == t[1..] + ['>'] + b;
      AfterFirstClose(t[1..], b);
    }
  }

  /** Text without '<' in front of s is copied unchanged. */
  lemma {:induction false} StripTagsKeepsPlainPrefix(a: string, s: string)
    requires '<' !in a
    ensures StripTags(a + s) == a + StripTags(s)
  {
    if a != [] {
      var x := a + s;
      assert x[0] == a[0] != '<';
      assert x[1..] == a[1..] + s;
      assert StripTags(x) == [a[0]] + StripTags(a[1..] + s);
      StripTagsKeepsPlainPrefix(a[1..], s);
      assert [a[0]] + a[1..] == a;
      AppendAssoc([a[0]], a[1..], StripTags(s));
    } else {
      assert a + s == s;
    }
  }

  /** One match of `/<[^>]*>/`: the text before the first '<' is kept, the tag up to
      the first '>' after it becomes a single space, and stripping goes on after it. */
  lemma StripTagsReplacesTag(a: string, t: string, b: string)
    requires '<' !in a && '>' !in t
    ensures StripTags(a + ['<'] + t + ['>'] + b) == a + [' '] + StripTags(b)
  {
    var rest := ['<'] + t + ['>'] + b;
    assert a + ['<'] + t + ['>'] + b == a + rest;
    StripTagsKeepsPlainPrefix(a, rest);
    StripTagsOpenTag(t, b);
  }

  /** A text opening with a tag: the tag becomes one space. */
  lemma StripTagsOpenTag(t: string, b: string)
    requires '>' !in t
    ensures StripTags(['<'] + t + ['>'] + b) == [' '] + StripTags(b)
  {
    var tail := t + ['>'] + b;
    assert (['<'] + t + ['>'] + b)[1..] == tail;
    AfterFirstClose(t, b);
  }

  /** No match: text without a '>' is left as it is, whatever '<' it holds. */
  lemma {:induction false} StripTagsKeepsUnclosed(s: string)
    requires '>' !in s
    ensures StripTags(s) == s
  {
    if s != [] {
      assert '>' !in s[1..];
      StripTagsKeepsUnclosed(s[1..]);
      assert [s[0]] + s[1..] == s;
    }
  }

  /** The article text: the description, replaced by the stripped page text when
      the description is short, the item has a link, the page was fetched and its
      stripped text (cut to 500 characters) is longer than 100 characters. */
  function SelectContent(item: RssItem): (content: string)
    ensures var description := item.description.GetOr(NoContent);
      || content == description
      || (&& |description| < ShortDescription
          && item.link.Some? && item.link.value != ""
          && item.page.Page?
          && content == Take(StripTags(item.page.html), PageTextLimit)
          && ShortDescription < |content| <= PageTextLimit)
    ensures |item.description.GetOr(NoContent)| >= ShortDescription ==> content == item.description.GetOr(NoContent)
    ensures && |item.description.GetOr(NoContent)| < ShortDescription
            && item.link.Some? && item.link.value != ""
            && item.page.Page?
            && |Take(StripTags(item.page.html), PageTextLimit)| > ShortDescription
            ==> content == Take(StripTags(item.page.html), PageTextLimit)
  {
    var description := item.description.GetOr(NoContent);
    if |description| < ShortDescription && item.link.Some? && item.link.value != "" then
      match item.page
      case PageFailed => description
      case Page(html) =>
        var text := Take(StripTags(html), PageTextLimit);
        if |text| > ShortDescription then text else description
    else description
  }

  /** The article built from an item, or None when building it throws
      (an item without a link or without a title). */
  function BuildArticle(feedUrl: string, item: RssItem): (a: Option<Article>)
    ensures a.Some? <==> item.link.Some? && item.title.Some?
    ensures a.Some? ==>
      && a.value.url == item.link.value
      && a.value.title == item.title.value
      && a.value.content == SelectContent(item)
      && a.value.published == item.pubDate.GetOr(item.clock)
      && a.value.source == SourceLabel(feedUrl)
  {
    if item.link.None? || item.title.None? then None
    else Some(Article(item.link.value, item.title.value, SelectContent(item), item.pubDate.GetOr(item.clock), SourceLabel(feedUrl)))
  }

  /** The items a feed offers: the first five of a well-formed feed, none otherwise. */
  function FeedItems(outcome: FeedOutcome): (items: seq<RssItem>)
    ensures |items| <= MaxItemsPerFeed
    ensures outcome.FeedParsed? && outcome.items.Some? ==> items == Take(outcome.items.value, MaxItemsPerFeed)
    ensures !(outcome.FeedParsed? && outcome.items.Some?) ==> items == []
  {
    match outcome
    case FeedParsed(Some(items)) => Take(items, MaxItemsPerFeed)
    case _ => []
  }

  /** The inner loop over one feed's items, starting from the articles collected so far:
      an item is considered only while fewer than 25 articles are collected. */
  function AddItems(feedUrl: string, items: seq<RssItem>, acc: seq<Article>): (r: seq<Article>)
    ensures |acc| <= |r| <= |acc| + |items|
    ensures r[..|acc|] == acc
    ensures |acc| <= MaxArticles ==> |r| <= MaxArticles
    ensures forall k :: |acc| <= k < |r| ==> r[k].source == SourceLabel(feedUrl)
    decreases |items|
  {
    if items == [] then acc
    else
      var before := AddItems(feedUrl, items[..|items| - 1], acc);
      if |before| >= MaxArticles then before
      else match BuildArticle(feedUrl, items[|items| - 1])
        case None => before
        case Some(a) => before + [a]
  }

  /** The articles the items build, in item order, without a cap: items lacking
      a link or a title contribute nothing. */
  function Built(feedUrl: string, items: seq<RssItem>): (r: seq<Article>)
    ensures |r| <= |items|
    ensures forall k :: 0 <= k < |r| ==> r[k].source == SourceLabel(feedUrl)
    ensures (forall j :: 0 <= j < |items| ==> items[j].link.Some? && items[j].title.Some?) ==> |r| == |items|
    decreases |items|
  {
    if items == [] then []
    else
      var before := Built(feedUrl, items[..|items| - 1]);
      match BuildArticle(feedUrl, items[|items| - 1])
      case None => before
      case Some(a) => before + [a]
  }

  /** The item loop appends the built articles in order until 25 are held. */
  lemma {:induction false} AddItemsClosed(feedUrl: string, items: seq<RssItem>, acc: seq<Article>)
    requires |acc| <= MaxArticles
    ensures AddItems(feedUrl, items, acc) == acc + Take(Built(feedUrl, items), MaxArticles - |acc|)
    decreases |items|
  {
    if items != [] {
      AddItemsClosed(feedUrl, items[..|items| - 1], acc);
    }
  }

  /** Once 25 articles are collected, further items change nothing (the loop's `break`). */
  lemma {:induction false} AddItemsSaturated(feedUrl: string, items: seq<RssItem>, j: nat, acc: seq<Article>)
    requires j <= |items|
    requires |AddItems(feedUrl, items[..j], acc)| >= MaxArticles
    ensures AddItems(feedUrl, items, acc) == AddItems(feedUrl, items[..j], acc)
    decreases |items| - j
  {
    if j < |items| {
      var next := items[..j + 1];
      assert next[..|next| - 1] == items[..j];
      AddItemsSaturated(feedUrl, items, j + 1, acc);
    } else {
      assert items[..j] == items;
    }
  }

  /** The outer loop over the feeds, in listed order. */
  function Collect(feeds: seq<string>, outcomes: seq<FeedOutcome>): (r: seq<Article>)
    requires |feeds| == |outcomes|
    ensures |r| <= MaxArticles
    decreases |feeds|
  {
    if feeds == [] then []
    else
      var n := |feeds| - 1;
      AddItems(feeds[n], FeedItems(outcomes[n]), Collect(feeds[..n], outcomes[..n]))
  }

  /** Feed f appends the articles built from its first five items, in order, after
      the articles of the feeds before it, until 25 are held; all carry its source label. */
  lemma FeedContribution(feeds: seq<string>, outcomes: seq<FeedOutcome>, f: nat)
    requires |feeds| == |outcomes| && f < |feeds|
    ensures var before := Collect(feeds[..f], outcomes[..f]);
            var after := Collect(feeds[..f + 1], outcomes[..f + 1]);
            && after == before + Take(Built(feeds[f], FeedItems(outcomes[f])), MaxArticles - |before|)
            && |before| <= |after| <= |before| + MaxItemsPerFeed
            && after[..|before|] == before
            && forall k :: |before| <= k < |after| ==> after[k].source == SourceLabel(feeds[f])
  {
    var fs, os := feeds[..f + 1], outcomes[..f + 1];
    assert fs[..f] == feeds[..f] && os[..f] == outcomes[..f];
    var before := Collect(feeds[..f], outcomes[..f]);
    var items := FeedItems(outcomes[f]);
    assert Collect(fs, os) == AddItems(feeds[f], items, before);
    AddItemsClosed(feeds[f], items, before);
  }

  /** `fetchNewsFromRSS`: the feeds in order, five items each at most, 25 articles at most.
      The outer `catch` (and its getFallbackArticles) is not reachable: nothing in
      the outer `try` outside the per-feed `try` can throw. */
  method FetchNewsFromRss(outcomes: seq<FeedOutcome>) returns (articles: seq<Article>)
    requires |outcomes| == |RssFeeds|
    ensures articles == Collect(RssFeeds, outcomes)
    ensures |articles| <= MaxArticles
  {
    articles := CollectFeeds(RssFeeds, outcomes);
  }

  /** The loop over the feeds, for any list of feed URLs. */
  method CollectFeeds(feeds: seq<string>, outcomes: seq<FeedOutcome>) returns (articles: seq<Article>)
    requires |outcomes| == |feeds|
    ensures articles == Collect(feeds, outcomes)
  {
    articles := [];
    var f := 0;
    while f < |feeds|
      invariant 0 <= f <= |feeds|
      invariant articles == Collect(feeds[..f], outcomes[..f])
    {
      articles := AddFeedItems(feeds[f], FeedItems(outcomes[f]), articles);
      assert feeds[..f + 1][..f] == feeds[..f];
      assert outcomes[..f + 1][..f] == outcomes[..f];
      f := f + 1;
    }
    assert feeds[..f] == feeds && outcomes[..f] == outcomes;
  }

  /** The loop over one feed's items, with its `break` at 25 articles. */
  method AddFeedItems(feedUrl: string, items: seq<RssItem>, start: seq<Article>) returns (articles: seq<Article>)
    ensures articles == AddItems(feedUrl, items, start)
  {
    articles := start;
    var j := 0;
    while j < |items|
      invariant 0 <= j <= |items|
      invariant articles == AddItems(feedUrl, items[..j], start)
    {
      if |articles| >= MaxArticles {
        AddItemsSaturated(feedUrl, items, j, start);
        return;
      }
      assert items[..j + 1][..j] == items[..j];
      var article := BuildArticle(feedUrl, items[j]);
      if article.Some? {
        articles := articles + [article.value];
      }
      j := j + 1;
    }
    assert items[..j] == items;
  }

  /** The number of fixed fallback articles. */
  const FallbackCount: nat := 4

  /** Fallback article i, stamped with the time read for it. */
  function FallbackArticle(i: nat, stamp: string): Article
    requires i < FallbackCount
  {
    if i == 0 then
      Article("https://www.bbc.com/news/technology",
        "AI assistants are becoming more capable and integrated",
        "Artificial intelligence assistants are demonstrating improved capabilities in natural language understanding and task completion. Recent advancements in large language models have enabled more sophisticated interactions between humans and machines across various applications.",
        stamp, "BBC Technology")
    else if i == 1 then
      Article("https://www.nytimes.com/section/technology",
        "Tech companies invest billions in AI research and development",
        "Major technology companies are allocating significant resources toward artificial intelligence research and development. New breakthroughs in machine learning algorithms are enabling applications that were previously considered science fiction, from advanced healthcare diagnostics to autonomous transportation systems.",
        stamp, "New York Times Technology")
    else if i == 2 then
      Article("https://www.bbc.com/news/business",
        "Technology sector leads market growth with AI innovations",
        "The technology sector continues to demonstrate strong performance in global markets, largely driven by innovations in artificial intelligence and cloud computing. Investors are showing increased confidence in companies that are effectively leveraging AI technologies to create new products and services.",
        stamp, "BBC Business")
    else
      Article("https://www.nytimes.com/section/business",
        "Global businesses adopt AI solutions for efficiency gains",
        "Businesses worldwide are increasingly adopting artificial intelligence solutions to improve operational efficiency and gain competitive advantages. From automated customer service to predictive analytics, AI technologies are transforming traditional business models across multiple industries.",
        stamp, "New York Times Business")
  }

  /** `getFallbackArticles`: the four fixed technology and business articles; article i
      is stamped with clock(i), what its own `new Date().toISOString()` returns. */
  function FallbackArticles(clock: nat -> string): (r: seq<Article>)
    ensures |r| == FallbackCount
    ensures forall i :: 0 <= i < |r| ==> r[i].published == clock(i)
  {
    seq(FallbackCount, i requires 0 <= i < FallbackCount => FallbackArticle(i, clock(i)))
  }

  class SimpleNewsFetcher {
    var articles: seq<Article>

    constructor ()
      ensures articles == []
    {
      articles := [];
    }

    /** `processAndStoreArticles`: the fetched list replaces the stored one. */
    method ProcessAndStoreArticles(outcomes: seq<FeedOutcome>) returns (report: Report)
      requires |outcomes| == |RssFeeds|
      modifies this
      ensures articles == Collect(RssFeeds, outcomes)
      ensures report == Report(true, |articles|)
    {
      var fetched := FetchNewsFromRss(outcomes);
      articles := fetched;
      report := Report(true, |fetched|);
    }

    /** `getArticles` */
    function GetArticles(): seq<Article>
      reads this
    {
      articles
    }
  }
}
