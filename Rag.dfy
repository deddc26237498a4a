/** services/ragService.js (the live class from line 144): retrieval by the local hash
    embedding over the mock corpus of scripts/newsFetcher.js, a generator call, and a
    theme-keyed templated answer when the generator fails. The store is created
    lazily, on the first retrieval, by running the fetcher. */
module Rag {
  import opened Base
  import opened Documents
  import LocalEmbedding
  import VectorStore
  import NewsFetching

  /** the key value that counts as not configured */
  const PlaceholderKey := "your_gemini_api_key_here"

  /** The two documents returned whenever retrieval throws. */
  const BuiltinDocs: seq<Doc> := [
    Doc("Recent technology developments show promising advances in artificial intelligence and machine learning applications across various industries.",
      Metadata("#", "Technology Advancements", None, None, Some("tech")), 0.85),
    Doc("Global markets demonstrate resilience with technology sectors leading growth amid changing economic conditions and investor optimism.",
      Metadata("#", "Market Analysis", None, None, Some("business")), 0.78)
  ]

  /** The answer of processQuery when it catches an exception. */
  const QueryFailureMessage := "I'm here to help answer your questions about recent news. Please ask me about technology developments, business trends, world events, or other current topics."

  /** The themes that have their own answer template. */
  const Topics: set<string> := {"tech", "business", "world", "health"}

  /** `doc.metadata && doc.metadata.category` is truthy */
  predicate HasTheme(d: Doc) {
    d.metadata.category.Some? && d.metadata.category.value != ""
  }

  /** `contextThemes.length > 0 ? contextThemes[0] : 'general'`, where contextThemes
      holds the truthy categories of the context in order. */
  function PrimaryTheme(context: seq<Doc>): string {
    if context == [] then "general"
    else if HasTheme(context[0]) then context[0].metadata.category.value
    else PrimaryTheme(context[1..])
  }

  /** The primary theme is the category of the first document that has one, and
      'general' exactly when no document has one. */
  lemma {:induction false} PrimaryThemeIsFirstCategory(context: seq<Doc>)
    ensures (forall i :: 0 <= i < |context| ==> !HasTheme(context[i])) ==> PrimaryTheme(context) == "general"
    ensures (exists i :: 0 <= i < |context| && HasTheme(context[i])) ==>
              exists i :: 0 <= i < |context| && HasTheme(context[i]) &&
                PrimaryTheme(context) == context[i].metadata.category.value &&
                forall j :: 0 <= j < i ==> !HasTheme(context[j])
  {
    if context != [] && !HasTheme(context[0]) {
      var rest := context[1..];
      PrimaryThemeIsFirstCategory(rest);
      assert forall i :: 1 <= i < |context| ==> context[i] == rest[i - 1];
      if exists i :: 0 <= i < |rest| && HasTheme(rest[i]) {
        var i :| 0 <= i < |rest| && HasTheme(rest[i]) &&
                 PrimaryTheme(rest) == rest[i].metadata.category.value &&
                 forall j :: 0 <= j < i ==> !HasTheme(rest[j]);
        assert HasTheme(context[i + 1]);
        assert forall j :: 0 <= j < i + 1 ==> !HasTheme(context[j]);
      }
    } else if context != [] {
      assert HasTheme(context[0]);
    }
  }

  /** The fixed opening of a topic's answer. */
  function TopicLead(theme: string): string {
    if theme == "tech" then "Based on recent technology news: "
    else if theme == "business" then "Regarding business developments: "
    else if theme == "world" then "From global news coverage: "
    else "In healthcare news: "
  }

  /** A topic's canned sentence, used when the first document has no content. */
  function TopicCanned(theme: string): string {
    if theme == "tech" then "There have been significant advancements in AI, quantum computing, and cybersecurity. Companies are investing heavily in digital transformation and innovative technologies."
    else if theme == "business" then "Markets are showing positive trends with strong performance across sectors. Economic indicators suggest continued growth and investment opportunities."
    else if theme == "world" then "International cooperation continues on climate initiatives and diplomatic efforts. Global leaders are addressing regional challenges and humanitarian needs."
    else "Medical research is advancing with new treatments and digital health solutions. Public health initiatives are improving community outcomes and accessibility."
  }

  const GeneralLead := "I understand you're asking about "
  const GeneralMiddle := ". Based on recent news developments: "
  const GeneralTail := ". For more detailed information, I recommend checking specific news sources."

  /** `responses[primaryTheme] || responses.general` */
  function FallbackAnswer(query: string, context: seq<Doc>): (answer: string)
    ensures var theme := PrimaryTheme(context);
            theme in Topics ==>
              && context != []
              && |TopicLead(theme)| <= |answer|
              && answer[..|TopicLead(theme)|] == TopicLead(theme)
              && answer[|TopicLead(theme)|..] == (if context[0].content != "" then context[0].content else TopicCanned(theme))
    ensures PrimaryTheme(context) !in Topics ==>
              && Contains(answer, "\"" + query + "\"")
              && Contains(answer, Join(Contents(Take(context, 2)), " "))
  {
    var theme := PrimaryTheme(context);
    if theme in Topics then
      assert context != [];
      var body := if context[0].content != "" then context[0].content else TopicCanned(theme);
      var answer := TopicLead(theme) + body;
      assert answer[..|TopicLead(theme)|] == TopicLead(theme);
      answer
    else
      var quoted := "\"" + query + "\"";
      var passages := Join(Contents(Take(context, 2)), " ");
      Fill(GeneralLead, quoted, GeneralMiddle, passages, GeneralTail)
  }

  /** A key is usable unless it is empty or the placeholder value. */
  predicate KeyConfigured(apiKey: string) {
    apiKey != "" && apiKey != PlaceholderKey
  }

  /** `generateResponse(query, context)`: the generator's answer when the key is
      configured and the call succeeds (`undefined` when the answer has no text),
      and the templated answer otherwise. The prompt carries every document's whole content. */
  function GenerateResponse(apiKey: string, gemini: Prompt -> GeminiOutcome, query: string, context: seq<Doc>): (reply: Reply)
    ensures !KeyConfigured(apiKey) ==> reply == Text(FallbackAnswer(query, context))
    ensures KeyConfigured(apiKey) ==>
              match gemini(Prompt(query, Contents(context)))
              case Failed => reply == Text(FallbackAnswer(query, context))
              case Answered(text) => reply == Text(text)
              case AnsweredWithoutText => reply == Undefined
  {
    if !KeyConfigured(apiKey) then Text(FallbackAnswer(query, context))
    else
      match gemini(Prompt(query, Contents(context)))
      case Failed => Text(FallbackAnswer(query, context))
      case Answered(text) => Text(text)
      case AnsweredWithoutText => Undefined
  }

  /** The rest of `processQuery` once the documents are retrieved: an `undefined`
      response makes `response.substring` throw, which gives the fixed message and
      no sources; otherwise the response and the documents' urls in order. */
  function Answer(apiKey: string, gemini: Prompt -> GeminiOutcome, query: string, docs: seq<Doc>): (result: QueryResult)
    ensures result.response.Text?
    ensures result.sources == [] || result.sources == Urls(docs)
    ensures GenerateResponse(apiKey, gemini, query, docs).Text? ==>
              result == QueryResult(GenerateResponse(apiKey, gemini, query, docs), Urls(docs))
    ensures GenerateResponse(apiKey, gemini, query, docs).Undefined? ==>
              result == QueryResult(Text(QueryFailureMessage), [])
  {
    var response := GenerateResponse(apiKey, gemini, query, docs);
    if response.Undefined? then QueryResult(Text(QueryFailureMessage), [])
    else QueryResult(response, Urls(docs))
  }

  /** An unconfigured key never reaches the generator, so processQuery reports the
      retrieved urls with the templated answer. */
  lemma UnconfiguredKeyKeepsSources(apiKey: string, gemini: Prompt -> GeminiOutcome, query: string, docs: seq<Doc>)
    requires !KeyConfigured(apiKey)
    ensures Answer(apiKey, gemini, query, docs) == QueryResult(Text(FallbackAnswer(query, docs)), Urls(docs))
  {
  }

  /** The built-in pair is a pair. */
  lemma BuiltinDocsCount()
    ensures |BuiltinDocs| == 2
  {
  }

  /** With the built-in documents (retrieval failed) and no generator, the answer is
      the technology template over the first built-in document. */
  lemma BuiltinDocsGiveTechAnswer(query: string)
    ensures PrimaryTheme(BuiltinDocs) == "tech"
    ensures FallbackAnswer(query, BuiltinDocs) == TopicLead("tech") + BuiltinDocs[0].content
  {
    assert HasTheme(BuiltinDocs[0]);
  }

  class RagService {
    const newsFetcher: NewsFetching.NewsFetcher?
    var vectorStore: VectorStore.SimpleVectorStore?
    const geminiApiKey: string

    /** The store, once there is one, has a metadata record and a document for every vector. */
    predicate Valid()
      reads this, vectorStore
    {
      vectorStore != null ==>
        |vectorStore.metadata| >= |vectorStore.vectors| && |vectorStore.documents| >= |vectorStore.vectors|
    }

    /** `new RAGService(newsFetcher)`: no store yet. apiKey stands for
        `process.env.GEMINI_API_KEY` or, when that is unset, the built-in default. */
    constructor (newsFetcher: NewsFetching.NewsFetcher?, apiKey: string)
      ensures this.newsFetcher == newsFetcher && geminiApiKey == apiKey
      ensures vectorStore == null
      ensures Valid()
    {
      this.newsFetcher := newsFetcher;
      vectorStore := null;
      geminiApiKey := apiKey;
    }

    /** `initialize()`: when there is no store yet, run the fetcher and adopt its store.
        Without a fetcher the call throws (ok is false) and the store stays null, so the
        next call tries again. The fetcher always reports success, so the source's
        branch that installs a fresh empty store is never taken. */
    method Initialize(picks: seq<nat>, clock: nat -> string, sinTenth: int -> real) returns (ok: bool)
      requires |picks| == NewsFetching.MockArticleCount
      requires forall i :: 0 <= i < |picks| ==> picks[i] < NewsFetching.TemplateCount
      requires Valid()
      modifies this, if newsFetcher != null then {newsFetcher.vectorStore} else {}
      ensures Valid()
      ensures ok <==> vectorStore != null
      ensures old(vectorStore) != null ==> vectorStore == old(vectorStore) && unchanged(vectorStore)
      ensures old(vectorStore) == null && newsFetcher == null ==> vectorStore == null
      ensures old(vectorStore) == null && newsFetcher != null ==>
                && vectorStore == newsFetcher.vectorStore
                && vectorStore.InLockstep()
                && |vectorStore.vectors| == NewsFetching.MockArticleCount
    {
      if vectorStore == null {
        if newsFetcher == null {
          ok := false;
          return;
        }
        var report := newsFetcher.ProcessAndStoreArticles(picks, clock, sinTenth);
        NewsFetching.MockArticlesCount(picks, clock);
        vectorStore := newsFetcher.vectorStore;
      }
      ok := true;
    }

    /** `retrieveRelevantDocuments(query, topK)`: after initializing, the top-k search
        for the query's embedding; when anything throws (no fetcher), the built-in pair.
        An empty store gives no documents, not the built-in pair. */
    method RetrieveRelevantDocuments(query: string, topK: nat, picks: seq<nat>, clock: nat -> string,
                                     sinTenth: int -> real, cosine: (Vector, Vector) -> real)
      returns (docs: seq<Doc>)
      requires |picks| == NewsFetching.MockArticleCount
      requires forall i :: 0 <= i < |picks| ==> picks[i] < NewsFetching.TemplateCount
      requires Valid()
      modifies this, if newsFetcher != null then {newsFetcher.vectorStore} else {}
      ensures Valid()
      ensures vectorStore == null ==> docs == BuiltinDocs
      ensures vectorStore != null ==>
                && vectorStore.SearchResult(LocalEmbedding.EmbeddingOf(query, sinTenth), topK, cosine, docs)
                && |docs| == Min(topK, |vectorStore.vectors|)
      ensures old(vectorStore) != null ==> vectorStore == old(vectorStore) && unchanged(vectorStore)
      ensures vectorStore == null <==> old(vectorStore) == null && newsFetcher == null
      ensures old(vectorStore) == null && newsFetcher != null ==>
                && vectorStore == newsFetcher.vectorStore
                && vectorStore.InLockstep()
                && |vectorStore.vectors| == NewsFetching.MockArticleCount
    {
      var ok := Initialize(picks, clock, sinTenth);
      if !ok {
        docs := BuiltinDocs;
        return;
      }
      var embedding := LocalEmbedding.GenerateEmbedding(query, sinTenth);
      var results, ranking := vectorStore.SimilaritySearch(embedding, topK, cosine);
      docs := results;
    }

    /** `processQuery(query)`: retrieve with the default k, generate, and report the
        urls of the retrieved documents; docs names what retrieval returned. */
    method ProcessQuery(query: string, picks: seq<nat>, clock: nat -> string, sinTenth: int -> real,
                        cosine: (Vector, Vector) -> real, gemini: Prompt -> GeminiOutcome)
      returns (result: QueryResult, ghost docs: seq<Doc>)
      requires |picks| == NewsFetching.MockArticleCount
      requires forall i :: 0 <= i < |picks| ==> picks[i] < NewsFetching.TemplateCount
      requires Valid()
      modifies this, if newsFetcher != null then {newsFetcher.vectorStore} else {}
      ensures Valid()
      ensures result == Answer(geminiApiKey, gemini, query, docs)
      ensures vectorStore == null ==> docs == BuiltinDocs
      ensures vectorStore != null ==>
                vectorStore.SearchResult(LocalEmbedding.EmbeddingOf(query, sinTenth), DefaultTopK, cosine, docs)
      ensures |result.sources| <= DefaultTopK
      ensures old(vectorStore) != null ==> vectorStore == old(vectorStore) && unchanged(vectorStore)
      ensures vectorStore == null <==> old(vectorStore) == null && newsFetcher == null
      ensures old(vectorStore) == null && newsFetcher != null ==>
                && vectorStore == newsFetcher.vectorStore
                && vectorStore.InLockstep()
                && |vectorStore.vectors| == NewsFetching.MockArticleCount
    {
      var retrieved := RetrieveRelevantDocuments(query, DefaultTopK, picks, clock, sinTenth, cosine);
      docs := retrieved;
      BuiltinDocsCount();
      result := Answer(geminiApiKey, gemini, query, retrieved);
    }
  }
}
