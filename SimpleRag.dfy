/** services/simpleRAGService.js: keyword retrieval over the fetched articles and an
    answer generator that never fails. This is the service the running server uses. */
module SimpleRag {
  import opened Base
  import opened Documents
  import opened SimpleNews

  /** how much of each document goes into the prompt */
  const PassageLimit: nat := 250
  const MatchScore: real := 0.8
  const FallbackScore: real := 0.3

  /** The two documents returned when there is nothing to search. */
  const BuiltinDocs: seq<Doc> := [
    Doc("Recent advancements in artificial intelligence show promising developments in natural language processing and machine learning applications. Major tech companies are investing heavily in AI research.",
      Metadata("#", "AI Technology Advancements", None, Some("Tech News"), None), 0.85),
    Doc("The technology sector continues to innovate with new AI-powered tools and platforms being launched regularly. These developments are transforming various industries from healthcare to finance.",
      Metadata("#", "Tech Sector Innovation", None, Some("Business News"), None), 0.75)
  ]

  /** The keyword test: the query (lowercased) occurs in the lowercased title or
      content, or the lowercased source occurs in the lowercased query. */
  predicate Matches(a: Article, query: string) {
    var q := Lower(query);
    Contains(Lower(a.title), q) || Contains(Lower(a.content), q) || Contains(q, Lower(a.source))
  }

  /** `articles.filter(matches)` */
  function MatchingArticles(articles: seq<Article>, query: string): (r: seq<Article>)
    ensures |r| <= |articles|
    ensures forall a :: a in r <==> a in articles && Matches(a, query)
  {
    if articles == [] then []
    else if Matches(articles[0], query) then [articles[0]] + MatchingArticles(articles[1..], query)
    else MatchingArticles(articles[1..], query)
  }

  /** The filter keeps the corpus order: the matches of a concatenation are the
      matches of the first part followed by those of the second. */
  lemma {:induction false} MatchingKeepsOrder(xs: seq<Article>, ys: seq<Article>, query: string)
    ensures MatchingArticles(xs + ys, query) == MatchingArticles(xs, query) + MatchingArticles(ys, query)
  {
    if xs == [] {
      assert xs + ys == ys;
    } else {
      var zs := xs + ys;
      assert zs[0] == xs[0] && zs[1..] == xs[1..] + ys;
      MatchingKeepsOrder(xs[1..], ys, query);
      var rest := MatchingArticles(xs[1..], query) + MatchingArticles(ys, query);
      assert [xs[0]] + rest == ([xs[0]] + MatchingArticles(xs[1..], query)) + MatchingArticles(ys, query);
    }
  }

  /** The empty query occurs in every title, so it matches the whole corpus. */
  lemma {:induction false} EmptyQueryMatchesAll(articles: seq<Article>)
    ensures MatchingArticles(articles, "") == articles
  {
    if articles != [] {
      EmptyQueryMatchesAll(articles[1..]);
      assert Contains(Lower(articles[0].title), Lower(""));
    }
  }

  /** The document built from an article: its content, and metadata {url, title, published, source}. */
  function ToDoc(a: Article, score: real): Doc {
    Doc(a.content, Metadata(a.url, a.title, Some(a.published), Some(a.source), None), score)
  }

  /** `articles.map(article => ({content, metadata, similarity: score}))` */
  function ToDocs(articles: seq<Article>, score: real): (docs: seq<Doc>)
    ensures |docs| == |articles|
    ensures forall i :: 0 <= i < |docs| ==> docs[i] == ToDoc(articles[i], score)
  {
    if articles == [] then [] else [ToDoc(articles[0], score)] + ToDocs(articles[1..], score)
  }

  /** The `try` block of retrieval over a corpus: the first topK matches scored 0.8,
      and when that is empty the first topK articles scored 0.3. */
  function SearchArticles(articles: seq<Article>, query: string, topK: nat): (docs: seq<Doc>)
    ensures |docs| <= topK && |docs| <= |articles|
    ensures (forall a :: a in articles ==> !Matches(a, query)) ==>
              docs == ToDocs(Take(articles, topK), FallbackScore)
    ensures topK > 0 && (exists a :: a in articles && Matches(a, query)) ==>
              && |docs| == Min(topK, |MatchingArticles(articles, query)|)
              && forall i :: 0 <= i < |docs| ==>
                   docs[i].similarity == MatchScore &&
                   exists a :: a in articles && Matches(a, query) && docs[i] == ToDoc(a, MatchScore)
  {
    var matching := MatchingArticles(articles, query);
    var relevant := Take(matching, topK);
    assert relevant != [] ==> relevant[0] in matching;
    if relevant == [] then ToDocs(Take(articles, topK), FallbackScore)
    else ToDocs(relevant, MatchScore)
  }

  /** `retrieveRelevantDocuments(query, topK)`: the built-in pair when the corpus is
      empty (the thrown error is caught); otherwise SearchArticles. */
  function RetrieveRelevantDocuments(articles: seq<Article>, query: string, topK: nat): (docs: seq<Doc>)
    ensures articles == [] ==> docs == BuiltinDocs
    ensures articles != [] ==> |docs| <= topK && |docs| <= |articles|
    ensures articles != [] && (forall a :: a in articles ==> !Matches(a, query)) ==>
              docs == ToDocs(Take(articles, topK), FallbackScore)
    ensures articles != [] && topK > 0 && (exists a :: a in articles && Matches(a, query)) ==>
              && |docs| == Min(topK, |MatchingArticles(articles, query)|)
              && forall i :: 0 <= i < |docs| ==>
                   docs[i].similarity == MatchScore &&
                   exists a :: a in articles && Matches(a, query) && docs[i] == ToDoc(a, MatchScore)
  {
    if articles == [] then BuiltinDocs else SearchArticles(articles, query, topK)
  }

  /** The matched documents are exactly the first topK matches, in corpus order. */
  lemma RetrievedAreFirstMatches(articles: seq<Article>, query: string, topK: nat)
    requires articles != [] && topK > 0
    requires exists a :: a in articles && Matches(a, query)
    ensures RetrieveRelevantDocuments(articles, query, topK) ==
              ToDocs(Take(MatchingArticles(articles, query), topK), MatchScore)
  {
    var a :| a in articles && Matches(a, query);
    assert a in MatchingArticles(articles, query);
  }

  /** The prompt: the question and each document's first 250 characters. */
  function PromptFor(query: string, context: seq<Doc>): (p: Prompt)
    ensures p.query == query && |p.passages| == |context|
    ensures forall i :: 0 <= i < |context| ==>
              p.passages[i] == Take(context[i].content, PassageLimit) &&
              |p.passages[i]| <= PassageLimit
  {
    Prompt(query, seq(|context|, i requires 0 <= i < |context| => Take(context[i].content, PassageLimit)))
  }

  /** `doc.metadata.source` for each document; join writes a missing one as "". */
  function SourceNames(context: seq<Doc>): (names: seq<string>)
    ensures |names| == |context|
    ensures forall i :: 0 <= i < |context| ==> names[i] == context[i].metadata.source.GetOr("")
  {
    if context == [] then [] else [context[0].metadata.source.GetOr("")] + SourceNames(context[1..])
  }

  const AnswerLead := "Based on recent news coverage about "
  const AnswerMiddle := ", there are ongoing developments in various sectors. While I don't have specific information about "
  const AnswerTail := " in my current news database, I can tell you that technology and business sectors continue to show innovation and growth. Would you like me to search for more specific information on another topic?"

  /** The templated answer used whenever the generator cannot answer. */
  function FallbackAnswer(query: string, context: seq<Doc>): (answer: string)
    ensures Contains(answer, Join(SourceNames(context), ", "))
    ensures Contains(answer, "\"" + query + "\"")
  {
    Fill(AnswerLead, Join(SourceNames(context), ", "), AnswerMiddle, "\"" + query + "\"", AnswerTail)
  }

  /** A key is configured when the environment variable is set and not empty. */
  predicate KeyConfigured(apiKey: Option<string>) {
    apiKey.Some? && apiKey.value != ""
  }

  /** `generateResponseWithGemini(query, context)`: never throws. A missing key or a
      failed call gives the templated answer; an answer's text is returned as is,
      and a part without text gives `undefined`. */
  function GenerateResponseWithGemini(apiKey: Option<string>, gemini: Prompt -> GeminiOutcome,
                                      query: string, context: seq<Doc>): (reply: Reply)
    ensures !KeyConfigured(apiKey) ==> reply == Text(FallbackAnswer(query, context))
    ensures KeyConfigured(apiKey) ==>
              match gemini(PromptFor(query, context))
              case Failed => reply == Text(FallbackAnswer(query, context))
              case Answered(text) => reply == Text(text)
              case AnsweredWithoutText => reply == Undefined
    ensures reply.Undefined? ==> KeyConfigured(apiKey)
  {
    if !KeyConfigured(apiKey) then Text(FallbackAnswer(query, context))
    else
      match gemini(PromptFor(query, context))
      case Failed => Text(FallbackAnswer(query, context))
      case Answered(text) => Text(text)
      case AnsweredWithoutText => Undefined
  }

  /** `processQuery(query)`: retrieve with the default k, generate, and report the
      retrieved urls in order. Neither step throws, so the outer `catch` is never taken. */
  function ProcessQuery(articles: seq<Article>, query: string, apiKey: Option<string>,
                        gemini: Prompt -> GeminiOutcome): (result: QueryResult)
    ensures var docs := RetrieveRelevantDocuments(articles, query, DefaultTopK);
            && result.sources == Urls(docs)
            && result.response == GenerateResponseWithGemini(apiKey, gemini, query, docs)
    ensures |result.sources| <= DefaultTopK
    ensures articles == [] ==> result.sources == ["#", "#"]
  {
    var docs := RetrieveRelevantDocuments(articles, query, DefaultTopK);
    QueryResult(GenerateResponseWithGemini(apiKey, gemini, query, docs), Urls(docs))
  }

  /** Without a key, the answer to any question names the sources of what was
      retrieved and quotes the question. */
  lemma UnconfiguredAnswerQuotesQuery(articles: seq<Article>, query: string, gemini: Prompt -> GeminiOutcome)
    ensures var result := ProcessQuery(articles, query, None, gemini);
            var docs := RetrieveRelevantDocuments(articles, query, DefaultTopK);
            && result.response.Text?
            && Contains(result.response.text, "\"" + query + "\"")
            && Contains(result.response.text, Join(SourceNames(docs), ", "))
  {
  }
}
