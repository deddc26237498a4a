/** scripts/newsFetcher.js: the mock corpus behind the vector-search service.
    Twenty articles are generated from fixed templates, one per URL of the form
    https://example.com/{category}/article-{n}, embedded with the local hash
    embedding and stored in a SimpleVectorStore in a single append. The template
    choice made with `Math.random` is a parameter (`pick`), and so is the clock. */
module NewsFetching {
  import opened Base
  import opened Documents
  import LocalEmbedding
  import VectorStore

  const SampleUrls: seq<string> := [
    "https://example.com/tech/ai-breakthrough",
    "https://example.com/tech/quantum-computing",
    "https://example.com/business/market-trends",
    "https://example.com/business/startup-funding",
    "https://example.com/world/climate-summit",
    "https://example.com/world/diplomatic-talks",
    "https://example.com/tech/cybersecurity",
    "https://example.com/business/economic-policy",
    "https://example.com/health/medical-research",
    "https://example.com/entertainment/film-industry"
  ]

  /** the `limit` of extractArticleUrls when none is passed */
  const DefaultUrlLimit: nat := 15
  const Categories: seq<string> := ["tech", "business", "world", "health"]
  const MockArticleCount: nat := 20
  const DefaultTitle := "Important News Development"
  /** every category's template list has this many entries */
  const TemplateCount: nat := 3

  /** `{url, title, content, published, category}` */
  datatype NewsArticle = NewsArticle(url: string, title: string, content: string, published: string, category: string)

  /** `extractArticleUrls(sitemapData, limit)`: the sitemap is ignored. */
  function ExtractArticleUrls(limit: nat): (urls: seq<string>)
    ensures |urls| == Min(limit, |SampleUrls|)
    ensures forall i :: 0 <= i < |urls| ==> urls[i] == SampleUrls[i]
  {
    Take(SampleUrls, limit)
  }

  /** With the default limit every sample URL is returned. */
  lemma DefaultLimitKeepsAll()
    ensures ExtractArticleUrls(DefaultUrlLimit) == SampleUrls
  {
  }

  /** `url.split('/')[3] || 'general'` */
  function CategoryOf(url: string): (category: string)
    ensures category != "" && '/' !in category
  {
    var parts := Split(url, '/');
    if |parts| > 3 && parts[3] != "" then parts[3] else "general"
  }

  /** For a URL scheme://host/segment/rest, the category is the first path segment
      when it is not empty. */
  lemma CategoryIsFirstSegment(scheme: string, host: string, segment: string, rest: string)
    requires '/' !in scheme && '/' !in host && '/' !in segment && segment != ""
    ensures CategoryOf(scheme + "//" + host + "/" + segment + "/" + rest) == segment
  {
    var url := scheme + "//" + host + "/" + segment + "/" + rest;
    assert url == scheme + ['/'] + ("" + ['/'] + (host + ['/'] + (segment + ['/'] + rest)));
    SplitAfterPiece(segment, '/', rest);
    SplitAfterPiece(host, '/', segment + ['/'] + rest);
    SplitAfterPiece("", '/', host + ['/'] + (segment + ['/'] + rest));
    SplitAfterPiece(scheme, '/', "" + ['/'] + (host + ['/'] + (segment + ['/'] + rest)));
  }

  /** A URL with no path segment falls back to 'general'. */
  lemma BareHostIsGeneral(scheme: string, host: string)
    requires '/' !in scheme && '/' !in host
    ensures CategoryOf(scheme + "//" + host) == "general"
  {
    var url := scheme + "//" + host;
    assert url == scheme + ['/'] + ("" + ['/'] + host);
    SplitWhole(host, '/');
    SplitAfterPiece("", '/', host);
    SplitAfterPiece(scheme, '/', "" + ['/'] + host);
  }

  /** The categories `contentTemplates` has texts for: 'general' is not one of them. */
  predicate HasTemplates(category: string) {
    category in {"tech", "business", "world", "health", "sports"}
  }

  /** `contentTemplates[category][pick]`: the fixed article texts, three per category. */
  function Template(category: string, pick: nat): string
    requires HasTemplates(category) && pick < TemplateCount
  {
    if category == "tech" then
      if pick == 0 then "Apple unveiled its latest iPhone with breakthrough AI capabilities and extended battery life, setting new standards for smartphone innovation."
      else if pick == 1 then "Google announced major updates to its search algorithm, incorporating more AI-powered features to deliver more relevant results faster."
      else "Tesla revealed its new autonomous driving system that promises to reduce accidents by 40% through improved sensor technology."
    else if category == "business" then
      if pick == 0 then "Wall Street reached record highs as tech stocks surged following positive earnings reports from major Silicon Valley companies."
      else if pick == 1 then "Amazon reported a 25% increase in quarterly revenue, exceeding analyst expectations due to strong cloud computing growth."
      else "Startup funding reached $50 billion this quarter, with artificial intelligence and clean energy sectors attracting the most investment."
    else if category == "world" then
      if pick == 0 then "World leaders gathered at the UN Climate Summit, committing to reduce carbon emissions by 50% before 2030 through international cooperation."
      else if pick == 1 then "The G7 nations announced a new economic partnership aimed at stabilizing global markets and promoting sustainable development."
      else "International space agencies collaborated on a new Mars mission, planning to send the first crewed flight by 2030."
    else if category == "health" then
      if pick == 0 then "Researchers at Harvard Medical School developed a new cancer treatment that shows 80% success rates in early clinical trials."
      else if pick == 1 then "The WHO approved a new malaria vaccine that could prevent millions of infections annually in affected regions."
      else "Breakthrough in gene therapy offers hope for treating rare genetic disorders that previously had no effective treatments."
    else
      if pick == 0 then "The Olympics committee announced Paris as the host for the 2028 summer games, promising the most sustainable event in history."
      else if pick == 1 then "Soccer superstar Lionel Messi signed a record-breaking contract with Miami FC, bringing his talents to the American league."
      else "New research shows benefits of athletic training on mental health, with studies indicating reduced anxiety and depression among regular exercisers."
  }

  /** `titles[category] || "Important News Development"`: sports has templates but no title. */
  function Title(category: string): (title: string)
    ensures title != DefaultTitle <==> category in {"tech", "business", "world", "health", "general"}
  {
    if category == "tech" then "Technology Advancements Break New Ground"
    else if category == "business" then "Business Sector Demonstrates Strong Performance"
    else if category == "world" then "Global Developments Shape International Landscape"
    else if category == "health" then "Healthcare Innovations Improve Patient Outcomes"
    else if category == "general" then "Significant Progress Across Multiple Domains"
    else DefaultTitle
  }

  /** `fetchArticleContent(url)`: null (the TypeError of reading `length` of an
      undefined template list, caught) unless the URL's category has templates;
      otherwise template `pick` of that category, with the category's title. */
  function FetchArticleContent(url: string, pick: nat, now: string): (article: Option<NewsArticle>)
    requires pick < TemplateCount
    ensures article.Some? <==> HasTemplates(CategoryOf(url))
    ensures article.Some? ==>
              && article.value.url == url
              && article.value.category == CategoryOf(url)
              && article.value.title == Title(CategoryOf(url))
              && article.value.content == Template(CategoryOf(url), pick)
              && article.value.published == now
  {
    var category := CategoryOf(url);
    if HasTemplates(category) then Some(NewsArticle(url, Title(category), Template(category, pick), now, category))
    else None
  }

  /** A URL without a category segment yields no article: there is no 'general' template list. */
  lemma GeneralYieldsNoArticle(url: string, pick: nat, now: string)
    requires pick < TemplateCount && CategoryOf(url) == "general"
    ensures FetchArticleContent(url, pick, now) == None
  {
  }

  /** The URL of mock article i: `https://example.com/${categories[i % 4]}/article-${i + 1}` */
  function ArticleUrl(i: nat): string {
    "https:" + "//" + "example.com" + "/" + Categories[i % 4] + "/" + ("article-" + NatToString(i + 1))
  }

  /** Mock article i lands in category i mod 4, so it always has templates. */
  lemma ArticleUrlCategory(i: nat)
    ensures CategoryOf(ArticleUrl(i)) == Categories[i % 4]
    ensures HasTemplates(CategoryOf(ArticleUrl(i)))
  {
    CategoryIsFirstSegment("https:", "example.com", Categories[i % 4], "article-" + NatToString(i + 1));
  }

  /** The twenty mock URLs are pairwise distinct: they differ in the category segment
      or, within a category, in the article number. */
  lemma ArticleUrlsDistinct(i: nat, j: nat)
    requires i != j
    ensures ArticleUrl(i) != ArticleUrl(j)
  {
    if i % 4 == j % 4 {
      var prefix := "https:" + "//" + "example.com" + "/" + Categories[i % 4] + "/" + "article-";
      var x, y := NatToString(i + 1), NatToString(j + 1);
      assert DecimalValue(x) != DecimalValue(y);
      assert ArticleUrl(i) == prefix + x && ArticleUrl(j) == prefix + y;
      assert (prefix + x)[|prefix|..] == x && (prefix + y)[|prefix|..] == y;
    } else {
      ArticleUrlCategory(i);
      ArticleUrlCategory(j);
    }
  }

  /** Mock article i with template pick: URL ArticleUrl(i), category i mod 4, and
      that category's title and text. */
  function MockArticle(i: nat, pick: nat, now: string): NewsArticle
    requires pick < TemplateCount
  {
    var category := Categories[i % 4];
    NewsArticle(ArticleUrl(i), Title(category), Template(category, pick), now, category)
  }

  /** Fetching the URL of mock article i never fails and gives that article. */
  lemma FetchesMockArticle(i: nat, pick: nat, now: string)
    requires pick < TemplateCount
    ensures FetchArticleContent(ArticleUrl(i), pick, now) == Some(MockArticle(i, pick, now))
  {
    ArticleUrlCategory(i);
  }

  /** The first loop of processAndStoreArticles: article i is built from ArticleUrl(i)
      with template picks[i] and stamped clock(i), what `new Date().toISOString()`
      returns during its fetchArticleContent call, and kept when it is not null. */
  function MockArticles(picks: seq<nat>, clock: nat -> string): (articles: seq<NewsArticle>)
    requires forall i :: 0 <= i < |picks| ==> picks[i] < TemplateCount
    ensures |articles| <= |picks|
    decreases |picks|
  {
    if picks == [] then []
    else
      var n := |picks| - 1;
      var before := MockArticles(picks[..n], clock);
      match FetchArticleContent(ArticleUrl(n), picks[n], clock(n))
      case None => before
      case Some(a) => before + [a]
  }

  /** No mock article is dropped, and article i is mock article i with template
      picks[i]: the corpus cycles through tech, business, world and health. */
  lemma {:induction false} MockArticlesComplete(picks: seq<nat>, clock: nat -> string)
    requires forall i :: 0 <= i < |picks| ==> picks[i] < TemplateCount
    ensures var articles := MockArticles(picks, clock);
            && |articles| == |picks|
            && forall i :: 0 <= i < |picks| ==> articles[i] == MockArticle(i, picks[i], clock(i))
    decreases |picks|
  {
    if picks != [] {
      var n := |picks| - 1;
      var prefix := picks[..n];
      MockArticlesComplete(prefix, clock);
      FetchesMockArticle(n, picks[n], clock(n));
      var before := MockArticles(prefix, clock);
      var articles := before + [MockArticle(n, picks[n], clock(n))];
      assert MockArticles(picks, clock) == articles;
      forall i | 0 <= i < |picks|
        ensures articles[i] == MockArticle(i, picks[i], clock(i))
      {
        if i < n {
          assert prefix[i] == picks[i];
          assert articles[i] == before[i];
        } else {
          assert i == n;
        }
      }
    }
  }

  /** Every mock article is kept. */
  lemma MockArticlesCount(picks: seq<nat>, clock: nat -> string)
    requires forall i :: 0 <= i < |picks| ==> picks[i] < TemplateCount
    ensures |MockArticles(picks, clock)| == |picks|
  {
    MockArticlesComplete(picks, clock);
  }

  /** The loop that builds the twenty mock articles, keeping the non-null ones. */
  method GenerateArticles(picks: seq<nat>, clock: nat -> string) returns (articles: seq<NewsArticle>)
    requires forall i :: 0 <= i < |picks| ==> picks[i] < TemplateCount
    ensures articles == MockArticles(picks, clock)
  {
    articles := [];
    var i := 0;
    while i < |picks|
      invariant 0 <= i <= |picks|
      invariant articles == MockArticles(picks[..i], clock)
    {
      assert picks[..i + 1][..i] == picks[..i];
      var article := FetchArticleContent(ArticleUrl(i), picks[i], clock(i));
      if article.Some? {
        articles := articles + [article.value];
      }
      i := i + 1;
    }
    assert picks[..i] == picks;
  }

  /** The loop that fills the three parallel arrays, one entry per article, in order. */
  method EmbedArticles(articles: seq<NewsArticle>, sinTenth: int -> real)
    returns (embeddings: seq<Vector>, metadata: seq<Metadata>, documents: seq<string>)
    ensures |embeddings| == |metadata| == |documents| == |articles|
    ensures forall k :: 0 <= k < |articles| ==>
              && embeddings[k] == LocalEmbedding.EmbeddingOf(articles[k].content, sinTenth)
              && metadata[k] == MetadataOf(articles[k])
              && documents[k] == articles[k].content
  {
    embeddings, metadata, documents := [], [], [];
    var j := 0;
    while j < |articles|
      invariant 0 <= j <= |articles|
      invariant |embeddings| == |metadata| == |documents| == j
      invariant forall k :: 0 <= k < j ==>
                  && embeddings[k] == LocalEmbedding.EmbeddingOf(articles[k].content, sinTenth)
                  && metadata[k] == MetadataOf(articles[k])
                  && documents[k] == articles[k].content
    {
      var embedding := LocalEmbedding.GenerateEmbedding(articles[j].content, sinTenth);
      embeddings := embeddings + [embedding];
      metadata := metadata + [MetadataOf(articles[j])];
      documents := documents + [articles[j].content];
      j := j + 1;
    }
  }

  /** The metadata record stored for an article: `{url, title, published, category}`. */
  function MetadataOf(a: NewsArticle): Metadata {
    Metadata(a.url, a.title, Some(a.published), None, Some(a.category))
  }

  /** The store holds one entry per article, in article order: the embedding of its
      content, its metadata record and its content. */
  ghost predicate Holds(store: VectorStore.SimpleVectorStore, articles: seq<NewsArticle>, sinTenth: int -> real)
    reads store
  {
    && |store.vectors| == |store.metadata| == |store.documents| == |articles|
    && forall k :: 0 <= k < |articles| ==>
         && store.vectors[k] == LocalEmbedding.EmbeddingOf(articles[k].content, sinTenth)
         && store.metadata[k] == MetadataOf(articles[k])
         && store.documents[k] == articles[k].content
  }

  class NewsFetcher {
    const vectorStore: VectorStore.SimpleVectorStore

    constructor ()
      ensures fresh(vectorStore)
      ensures vectorStore.vectors == [] && vectorStore.metadata == [] && vectorStore.documents == []
    {
      vectorStore := new VectorStore.SimpleVectorStore();
    }

    /** `processAndStoreArticles`: clear the store, generate the twenty articles, then
        append one embedding, one metadata record and one document per article, in
        article order, with a single addVectors; the report counts the articles. */
    method ProcessAndStoreArticles(picks: seq<nat>, clock: nat -> string, sinTenth: int -> real) returns (report: Report)
      requires |picks| == MockArticleCount
      requires forall i :: 0 <= i < |picks| ==> picks[i] < TemplateCount
      modifies vectorStore
      ensures Holds(vectorStore, MockArticles(picks, clock), sinTenth)
      ensures report == Report(true, |MockArticles(picks, clock)|)
      ensures vectorStore.InLockstep()
      ensures report.count == MockArticleCount
    {
      vectorStore.Clear();
      var articles := GenerateArticles(picks, clock);
      MockArticlesCount(picks, clock);
      var embeddings, metadata, documents := EmbedArticles(articles, sinTenth);
      vectorStore.AddVectors(embeddings, metadata, documents);
      report := Report(true, |articles|);
    }
  }
}
