# news-bot-backend: a Dafny model of the retrieval-augmented chat core

The system is a news chatbot backend. It builds a small news corpus, answers a
question by retrieving a few documents from that corpus, and asks Google's
Gemini model to answer from them. When the model cannot answer, a templated
answer is used instead. The chat history of each session is kept in Redis.

This project models that core in Dafny:

- **The in-memory vector index**, `SimpleVectorStore`, as a class (`VectorStore.dfy`).
  - It holds three parallel arrays.
  - Its top-k query sorts an array of indices in place by rank.
  - The query result is proved to be the unique top-k ranking.
- **The local hash embedding** shared by two files (`LocalEmbedding.dfy`).
  - It models JavaScript's 32-bit `<<`, as ToInt32 from section 7.1.5 of ECMAScript 2015.
  - It folds over UTF-16 code units.
- **The mock corpus fetcher**, `scripts/newsFetcher.js` (`NewsFetching.dfy`).
  - Its URL-category parsing is proved for every URL of the shape it builds.
  - It is proved to keep all twenty articles and to store them in lockstep.
- **The vector-search RAG service**, the live class of `services/ragService.js` (`Rag.dfy`).
  - Initialization is lazy.
  - A failed generator call falls back to a templated answer chosen by theme.
- **The RSS fetcher the running server uses**, `scripts/simpleNewsFetcher.js` (`SimpleNews.dfy`).
  - It reads five feeds, with at most 5 items per feed and at most 25 articles, and strips tags from article pages.
- **The keyword RAG service the running server uses**, `services/simpleRAGService.js` (`SimpleRag.dfy`).
- **The server**, `server.js` (`Server.dfy`).
  - A Redis list store, or its in-memory stand-in, holds the history.
  - A chat turn stores and emits the user message, answers it, then stores and emits the reply.
  - Store failures are modelled.

At start-up the server tries to import `realNewsFetcher.js` and `ragServiceWithJina.js`. It falls back to the simple fetcher and the simple RAG service when that import fails. `ChatServer` models the server on that fallback path. Those two files are not part of this model.

Inputs from outside the program are parameters:

| outside input | how it is modelled |
|---|---|
| HTTP responses | one `FeedOutcome` per feed and one `PageOutcome` per item |
| Gemini call | a function from `Prompt` to `GeminiOutcome` |
| `Math.random` template choice | `pick < 3` per article |
| `new Date().toISOString()` | one reading per RSS item (a field of the item); for the mock and fallback articles, a clock function giving the reading of article i |
| `Math.sin(x) * 0.1` | `sinTenth` |
| cosine similarity library | `cosine` |
| failure of a reachable Redis | `StoreFault`, `readFails`, `deleteFails` |

Floating-point values are Dafny `real`s, and nothing is proved about their arithmetic.

## Model

| member | source | states |
|---|---|---|
| Base.Take | services/simpleRAGService.js:41 | `slice(0, n)` keeps the first min(n, length) elements, as a prefix of the input |
| Base.Reverse | server.js:159 | element i of the result is element length-1-i of the input |
| Base.ReverseAppend | server.js:159 | reversing a concatenation reverses the order of the parts |
| Base.Lower | services/simpleRAGService.js:27 | lowercasing keeps the length and maps each character on its own |
| Base.ContainsIffOccurs | services/simpleRAGService.js:32-34 | the left-to-right scan of `includes` succeeds exactly when the substring occurs at some offset |
| Base.ContainsInfix | services/simpleRAGService.js:155 | a string built around a part contains that part |
| Base.Split | scripts/newsFetcher.js:77 | `split('/')` gives at least one piece, and no piece contains the separator |
| Base.SplitJoin | scripts/newsFetcher.js:77 | joining the pieces of a split with the separator gives back the string |
| Base.SplitAfterPiece | scripts/newsFetcher.js:77 | a separator-free prefix followed by the separator becomes the first piece |
| Base.SplitWhole | scripts/newsFetcher.js:77 | a separator-free string splits into itself alone |
| Base.NatToString | scripts/newsFetcher.js:145 | `${n}` renders decimal digits whose value is n, with a leading '0' exactly when n is 0, and 0 renders as "0" |
| Base.Contains | services/simpleRAGService.js:32-34 | `includes` as a left-to-right scan; ContainsIffOccurs is its partner definition |
| Base.Join | services/simpleRAGService.js:154 | `join(sep)`: the parts with sep between neighbours; SplitJoin ties it to Split |
| Documents.Urls | services/simpleRAGService.js:173 | the sources list the documents' urls, one per document, in order |
| Documents.Contents | services/ragService.js:232 | the contents of the documents, one per document, in order |
| LocalEmbedding.ToInt32 | scripts/newsFetcher.js:16 | the result lies in [-2^31, 2^31) and is congruent to the input modulo 2^32 |
| LocalEmbedding.ToInt32OfInt32 | scripts/newsFetcher.js:16 | ToInt32 leaves every 32-bit value unchanged |
| LocalEmbedding.ShiftLeft5IsTruncatedProduct | scripts/newsFetcher.js:16 | `x << 5` is ToInt32 of 32·x, whether or not x is first truncated |
| LocalEmbedding.CodeUnitsOf | scripts/newsFetcher.js:15-16 | a BMP character is its own code unit; a character above U+FFFF is a high surrogate followed by a low surrogate that together decode back to it |
| LocalEmbedding.HashOf | scripts/newsFetcher.js:13-17 | the fold `hash = c + ((hash << 5) - hash)` from 0 over the code units; HashMagnitude and HashIsExact bound it |
| LocalEmbedding.Utf16 | scripts/newsFetcher.js:15-16 | `length`/`charCodeAt` see between n and 2n units; for BMP-only text, exactly the characters |
| LocalEmbedding.HashMagnitude | scripts/newsFetcher.js:15-17 | after n code units the hash is at most n·(2^31+2^16) in magnitude |
| LocalEmbedding.HashIsExact | scripts/newsFetcher.js:15-17 | for texts up to 2^20 code units the hash stays below 2^53, so the source's Number arithmetic is exact and equals the model's |
| LocalEmbedding.EmbeddingOf | scripts/newsFetcher.js:12 | an embedding has exactly 50 slots |
| LocalEmbedding.DistinctTextsCanCollide | scripts/newsFetcher.js:15-21 | "Aa" and "BB" get the same hash, so they get the same embedding |
| LocalEmbedding.GenerateEmbedding | scripts/newsFetcher.js:10-24 | the two loops produce EmbeddingOf(text): the folded hash spread over 50 slots by `sin(hash + i) * 0.1` |
| VectorStore.TopKIsUnique | services/vectorStore.js:16-30 | any two top-k rankings of the same similarities are equal, because the tie rule leaves no choice |
| VectorStore.TopKAgreeAt | services/vectorStore.js:23-26 | two top-k rankings agree at every position |
| VectorStore.NotOutrankedAt | services/vectorStore.js:23-26 | when two top-k rankings agree before position t, the entry one holds at t does not outrank the entry the other holds there |
| VectorStore.SortByRank | services/vectorStore.js:23 | the array is sorted in place into rank order (higher similarity first, then lower index first) and stays a permutation of its contents |
| VectorStore.InsertAt | services/vectorStore.js:23 | one insertion step extends the ranked prefix by one position and keeps the array a permutation |
| VectorStore.SwapStep | services/vectorStore.js:23 | swapping an entry with a lower-ranked left neighbour keeps the insertion invariant one position further left, and keeps the multiset |
| VectorStore.PrecedesTransitive | services/vectorStore.js:23 | the rank order is transitive |
| VectorStore.InsertionDone | services/vectorStore.js:23 | an insertion that stops at the front, or behind a higher-ranked entry, leaves the prefix ranked |
| VectorStore.Indices | services/vectorStore.js:17-20 | the scoring map yields indices 0..n-1 in order |
| VectorStore.RankedPrefixIsTopK | services/vectorStore.js:26 | the first min(k, n) entries of a ranked permutation of all indices are the top k |
| VectorStore.SearchResultIsUnique | services/vectorStore.js:16-30 | two results of the same query on the same contents are equal |
| VectorStore.SimpleVectorStore.Similarities | services/vectorStore.js:17-20 | one similarity per stored vector |
| VectorStore.SimpleVectorStore.constructor | services/vectorStore.js:4-8 | a new store is empty and in lockstep |
| VectorStore.SimpleVectorStore.AddVectors | services/vectorStore.js:10-14 | each array gets its input appended; lockstep survives exactly when the three inputs have equal lengths |
| VectorStore.SimpleVectorStore.SimilaritySearch | services/vectorStore.js:16-30 | the results are the min(k, n) best-ranked entries, best first (ties by lower index), each with its document, metadata and similarity, and form the unique SearchResult |
| VectorStore.SimpleVectorStore.Clear | services/vectorStore.js:33-37 | all three arrays are empty afterwards, from any state |
| SimpleNews.SourceLabel | scripts/simpleNewsFetcher.js:75-76 | "New York Times" exactly when the feed URL contains "nytimes"; "BBC News" exactly when it contains "bbci" and not "nytimes"; otherwise "News Feed" |
| SimpleNews.After | scripts/simpleNewsFetcher.js:60 | the text after the first occurrence is shorter and uses only characters of the input |
| SimpleNews.StripTags | scripts/simpleNewsFetcher.js:60 | no tag is left (no '<' followed by a '>'); the output is not longer; it only has input characters or spaces; text without '<' is unchanged |
| SimpleNews.StripTagsKeepsPlainPrefix | scripts/simpleNewsFetcher.js:60 | text before the first '<' is copied unchanged |
| SimpleNews.StripTagsReplacesTag | scripts/simpleNewsFetcher.js:60 | a match `<[^>]*>` (from the first '<' to the first '>' after it) becomes one space, the text before it is kept, and stripping continues after it |
| SimpleNews.StripTagsKeepsUnclosed | scripts/simpleNewsFetcher.js:60 | text without '>' has no match and is returned unchanged, whatever '<' it holds |
| SimpleNews.StripTagsOpenTag | scripts/simpleNewsFetcher.js:60 | a text that opens with a tag: the tag becomes one space, and stripping continues after it |
| SimpleNews.AfterFirstClose | scripts/simpleNewsFetcher.js:60 | a match ends at the first '>': what follows it is the rest of the text |
| SimpleNews.SelectContent | scripts/simpleNewsFetcher.js:48-68 | the content is the description (or "No content available") unless the description is shorter than 100, the link is present, the page was fetched and its stripped text cut to 500 characters is longer than 100; in exactly that case it is that page text |
| SimpleNews.BuildArticle | scripts/simpleNewsFetcher.js:70-84 | an item yields an article exactly when it has a link and a title; the article has the selected content, the pubDate or else the item's own clock reading, and the feed's source label |
| SimpleNews.FeedItems | scripts/simpleNewsFetcher.js:33-41 | a parsed feed with items offers exactly its first 5 items; a failed feed or one without items offers none |
| SimpleNews.AddItems | scripts/simpleNewsFetcher.js:43-85 | the item loop only appends, at most one article per item, never past 25, all with the feed's source label; AddItemsClosed gives its exact result |
| SimpleNews.Built | scripts/simpleNewsFetcher.js:46-84 | the articles an item list builds, in order: at most one per item, one per item when every item has a link and a title, each with the feed's source label |
| SimpleNews.AddItemsClosed | scripts/simpleNewsFetcher.js:43-85 | the item loop appends the built articles in item order, cut so that at most 25 are held |
| SimpleNews.AddItemsSaturated | scripts/simpleNewsFetcher.js:44 | once 25 articles are collected, the remaining items change nothing |
| SimpleNews.Collect | scripts/simpleNewsFetcher.js:24-91 | the feed loop never collects more than 25 articles; FeedContribution gives what each feed adds |
| SimpleNews.FeedContribution | scripts/simpleNewsFetcher.js:24-91 | feed f appends exactly the articles built from its first 5 items, in order, after those of earlier feeds, cut at 25 in total, all labelled with its source |
| SimpleNews.FetchNewsFromRss | scripts/simpleNewsFetcher.js:9-98 | the fetch returns Collect over the five listed feeds in order, at most 25 articles |
| SimpleNews.CollectFeeds | scripts/simpleNewsFetcher.js:24-91 | the outer loop computes Collect |
| SimpleNews.AddFeedItems | scripts/simpleNewsFetcher.js:43-85 | the inner loop with its `break` at 25 computes AddItems |
| SimpleNews.FallbackArticles | scripts/simpleNewsFetcher.js:121-153 | four fixed articles, article i stamped with its own clock reading |
| SimpleNews.SimpleNewsFetcher.constructor | scripts/simpleNewsFetcher.js:5-7 | a new fetcher holds no articles |
| SimpleNews.SimpleNewsFetcher.ProcessAndStoreArticles | scripts/simpleNewsFetcher.js:100-115 | the fetched articles replace the stored ones, and the report is a success with their count |
| SimpleRag.Matches | services/simpleRAGService.js:31-39 | the keyword test: the lowercased query occurs in the lowercased title or content, or the lowercased source occurs in the lowercased query |
| SimpleRag.MatchingArticles | services/simpleRAGService.js:30-40 | an article is kept exactly when it is in the corpus and matches by title, content or source; the result is no longer than the corpus |
| SimpleRag.MatchingKeepsOrder | services/simpleRAGService.js:30-40 | filtering distributes over concatenation, so matches keep corpus order |
| SimpleRag.EmptyQueryMatchesAll | services/simpleRAGService.js:27-40 | the empty query matches every article |
| SimpleRag.ToDocs | services/simpleRAGService.js:48-57 | one document per article, in order, with url, title, published and source metadata and the given score |
| SimpleRag.SearchArticles | services/simpleRAGService.js:30-70 | the first topK matches scored 0.8, each a matching article, min(topK, matches) of them; with no match, the first topK articles scored 0.3 |
| SimpleRag.RetrieveRelevantDocuments | services/simpleRAGService.js:10-87 | an empty corpus gives the two built-in documents; with no match, the first topK articles scored 0.3; otherwise min(topK, matches) documents, each a matching article scored 0.8 |
| SimpleRag.RetrievedAreFirstMatches | services/simpleRAGService.js:30-70 | when something matches, the documents are exactly the first topK matches in corpus order |
| SimpleRag.PromptFor | services/simpleRAGService.js:108-110 | the prompt carries the question and each document's first 250 characters, in order |
| SimpleRag.SourceNames | services/simpleRAGService.js:154 | one source name per document, "" for a missing one |
| SimpleRag.FallbackAnswer | services/simpleRAGService.js:153-155 | the templated answer names the joined sources and quotes the question |
| SimpleRag.KeyConfigured | services/simpleRAGService.js:92-94 | the key is usable when it is set and not empty |
| SimpleRag.GenerateResponseWithGemini | services/simpleRAGService.js:90-157 | without a key, or on a failed call, the templated answer; otherwise the generator's text, or `undefined` for a part without text (only possible with a key) |
| SimpleRag.ProcessQuery | services/simpleRAGService.js:159-184 | the sources are the urls of the retrieved documents (at most 3, and ["#", "#"] for an empty corpus), and the response is generated from those documents |
| SimpleRag.UnconfiguredAnswerQuotesQuery | services/simpleRAGService.js:92-93 | without a key, every answer is text that quotes the question and names the retrieved sources |
| NewsFetching.ExtractArticleUrls | scripts/newsFetcher.js:54-72 | the first min(limit, 10) sample URLs, in order |
| NewsFetching.DefaultLimitKeepsAll | scripts/newsFetcher.js:54-71 | with the default limit 15, all ten sample URLs are returned |
| NewsFetching.CategoryOf | scripts/newsFetcher.js:77 | the category is never empty and contains no '/' |
| NewsFetching.CategoryIsFirstSegment | scripts/newsFetcher.js:77 | for scheme://host/segment/rest, the category is the first path segment |
| NewsFetching.BareHostIsGeneral | scripts/newsFetcher.js:77 | a URL with no path falls back to 'general' |
| NewsFetching.Title | scripts/newsFetcher.js:111-121 | the title is specific exactly for tech, business, world, health and general; sports and every other category get the default |
| NewsFetching.FetchArticleContent | scripts/newsFetcher.js:74-130 | an article exists exactly when the URL's category has templates; it echoes the URL and category, and has that category's title and template `pick` |
| NewsFetching.GeneralYieldsNoArticle | scripts/newsFetcher.js:108-109 | a URL in category 'general' yields null, since there is no 'general' template list |
| NewsFetching.ArticleUrlCategory | scripts/newsFetcher.js:143-145 | mock URL i has category i mod 4, which has templates |
| NewsFetching.ArticleUrlsDistinct | scripts/newsFetcher.js:143-145 | the mock URLs are pairwise distinct, by category segment or by article number |
| NewsFetching.FetchesMockArticle | scripts/newsFetcher.js:143-147 | fetching mock URL i never fails and gives mock article i |
| NewsFetching.MockArticles | scripts/newsFetcher.js:140-152 | the generation loop keeps at most one article per URL |
| NewsFetching.MockArticlesComplete | scripts/newsFetcher.js:140-152 | no article is dropped; article i has URL i, category i mod 4, that category's title, template picks[i] and the clock reading of its own fetch |
| NewsFetching.MockArticlesCount | scripts/newsFetcher.js:173-174 | the count reported equals the number of URLs generated |
| NewsFetching.GenerateArticles | scripts/newsFetcher.js:140-152 | the loop computes MockArticles |
| NewsFetching.EmbedArticles | scripts/newsFetcher.js:155-169 | the three arrays have one entry per article, in order: its embedding, its metadata record and its content |
| NewsFetching.NewsFetcher.constructor | scripts/newsFetcher.js:6-8 | a new fetcher owns a new, empty store |
| NewsFetching.NewsFetcher.ProcessAndStoreArticles | scripts/newsFetcher.js:132-179 | after clearing, the store holds exactly the twenty articles, in order, in lockstep, and the report counts 20 |
| Rag.PrimaryTheme | services/ragService.js:289-297 | the first truthy category of the context, else 'general'; PrimaryThemeIsFirstCategory states it for every context |
| Rag.PrimaryThemeIsFirstCategory | services/ragService.js:289-297 | the primary theme is the category of the first document that has one, and 'general' when none does |
| Rag.FallbackAnswer | services/ragService.js:296-311 | a topic theme gives its fixed lead followed by the first document's content, or the canned sentence when that is empty; any other theme gives an answer that quotes the question and contains the first two contents |
| Rag.KeyConfigured | services/ragService.js:217 | the key is usable unless it is empty or the placeholder value |
| Rag.GenerateResponse | services/ragService.js:215-313 | without a configured key, or on a failed call, the templated answer; otherwise the generator's text, or `undefined`; the prompt carries the documents' whole contents |
| Rag.Answer | services/ragService.js:321-339 | the response is always text; an `undefined` reply gives the fixed failure message with no sources, otherwise the reply with the retrieved urls |
| Rag.UnconfiguredKeyKeepsSources | services/ragService.js:217-218 | with an empty or placeholder key, the answer is the templated one and the sources are kept |
| Rag.BuiltinDocsGiveTechAnswer | services/ragService.js:199-211 | for the built-in documents the theme is tech, and the answer is the tech lead followed by the first document |
| Rag.RagService.constructor | services/ragService.js:148-153 | a new service has no store |
| Rag.RagService.Initialize | services/ragService.js:155-166 | the store is set afterwards exactly when the call succeeds; an existing store is untouched; otherwise the fetcher's own store is adopted, filled with its twenty articles and in lockstep |
| Rag.RagService.RetrieveRelevantDocuments | services/ragService.js:155-212 | a store exists afterwards exactly when one existed before or there is a fetcher; the first call with a fetcher adopts the fetcher's store, in lockstep with twenty vectors, and an existing store is kept unchanged; without a store (no fetcher, the call threw) the result is the built-in pair, otherwise the unique top-k result for the query's embedding, with min(topK, n) documents |
| Rag.RagService.ProcessQuery | services/ragService.js:318-340 | the result is Answer over the retrieved documents, with at most 3 sources; the store is built lazily and kept exactly as by RetrieveRelevantDocuments |
| Server.SessionKey | server.js:158 | the key is `chat:` followed by the session id, which can be read back from it |
| Server.SessionKeysDistinct | server.js:235 | two sessions never share a history list |
| Server.Truthy | server.js:222 | a message or session id passes the check when present and not empty |
| Server.ListStore.constructor | server.js:47 | the store starts with the given lists |
| Server.ListStore.LPush | server.js:49-55 | the value goes to the front of the key's list (created when absent), nothing else changes, and the new length is returned |
| Server.ListStore.LRange | server.js:56-58 | the whole list under the key, or the empty list |
| Server.ListStore.Del | server.js:59-62 | the key is gone, its list reads back empty, and the result is 1 |
| Server.ReversedPushesArePushOrder | server.js:159 | reading back a list built by pushes and reversing it lists the pushed messages oldest first, after the earlier contents |
| Server.CompletedTurnExtendsHistory | server.js:234-256 | a completed turn with Redis appends the user message and then the reply to the session's history as it is read back, and leaves other sessions alone |
| Server.FailedTurnStoresNoFailure | server.js:263-274 | a failed write ends the turn with the error message, which is never stored; a failed user write stores nothing |
| Server.ChatServer.constructor | server.js:43-140 | the stand-in store is empty; a reachable Redis is connected with its contents, an unreachable one is replaced by the stand-in with the flag false; the articles are fetched |
| Server.ChatServer.OnRedisError | server.js:105-108 | a client error clears the connected flag |
| Server.ChatServer.RedisStatus | server.js:143-149 | the health check reports "connected" exactly when the flag is set |
| Server.ChatServer.GetHistory | server.js:152-167 | when connected and the read succeeds, the session's list reversed (oldest first); otherwise [] |
| Server.ChatServer.ClearHistory | server.js:169-182 | the reply is always "Chat history cleared"; the session's list is removed only when connected and the delete succeeds |
| Server.ChatServer.SendMessage | server.js:216-275 | a missing message or session id gives one error event and stores nothing; otherwise the turn's events and store follow TurnOutcome with the keyword service's answer |
| Server.ChatServer.Turn | server.js:227-274 | the user message, then the reply, are stored (when connected) and emitted; a failed write emits the error-role message instead of what follows it |

## Left out

- HTTP: timeouts, headers, the User-Agent and the Gemini request body are left out. Each response is a parameter.
- XML parsing is left out. Each parsed item keeps only the first value of each element. A `description` that xml2js turns into an object is not modelled.
- Floating point is left out. `Math.sin`, the cosine library and the similarity scores are opaque `real`s.
- Socket.IO rooms (`join`), Express, CORS, dotenv, logging and `console` output are left out.
- The `disconnect` handler is left out.
- Concurrency between socket handlers is left out.
- JSON encoding of stored messages is left out. Messages are stored as values, since JSON encode then decode is a round trip for these records.
- The Redis `set`/`get` test at start-up is folded into the `redisReachable` parameter.
- Redis list indices in `lRange` are not modelled, because the server always asks for the whole list.
- `POST /api/test/query` is not modelled. It only calls processQuery.
- `fetchFromReuters` in scripts/newsFetcher.js is not modelled. It returns a constant that extractArticleUrls ignores.
- `getVectorStore` is not modelled. It is a plain accessor.
- `SimpleNewsFetcher.GetArticles` has no contract. It is a plain accessor.
- services/ragService.js:1-142 is commented-out code and is not modelled.
- The hard-coded default Gemini key at services/ragService.js:151 is the `apiKey` constructor argument.
- scripts/realNewsFetcher.js, services/ragServiceWithJina.js, scripts/data-ingestion.js, controllers/chatController.js and routes/chatRoutes.js are not part of this model. Their import is assumed to fail, which puts the server on its fallback path.
- String lookups in object literals are not modelled. `contentTemplates[category]`, `titles[category]` and `responses[theme]` would also find Object.prototype keys such as "constructor".
- `toLowerCase` is ASCII case folding only.
- String lengths and offsets in `substring`, `slice`, `includes` and the tag regex count characters, not UTF-16 code units. Only the embedding hash uses UTF-16.
- Three branches of the source are unreachable and are not written as code:
  - the fresh empty store in `initialize` (services/ragService.js:160-163), because the mock fetcher never reports failure;
  - the outer `catch` of simpleRAGService `processQuery` (services/simpleRAGService.js:175-182), because nothing in its `try` throws;
  - the outer `catch` of `fetchNewsFromRSS` (scripts/simpleNewsFetcher.js:94-97), because every throwing step has its own `catch`. As a result, `getFallbackArticles` is modelled but never called.
- SimpleNews.FallbackArticles: does not state that the four URLs are distinct or that the contents are long, because comparing the long literal texts is too costly for the verifier.
- Rag.RagService.Initialize: does not state which articles the adopted store holds, only how many, because the corpus term makes the callers' proofs too costly. NewsFetching.NewsFetcher.ProcessAndStoreArticles states the contents.
- Rag.RagService.RetrieveRelevantDocuments: requires the store to have a metadata record and a document for every vector (`Valid`). The source would read `undefined` for a missing one. That cannot happen when the store comes from the fetcher.
- VectorStore.SimpleVectorStore.SimilaritySearch: requires a metadata record and a document for every vector, for the same reason.
- Server.ChatServer.SendMessage: computes the answer before the user message is stored. The answer does not depend on the store, so nothing observable changes. A `processQuery` that throws is not modelled, because the keyword service never throws.
