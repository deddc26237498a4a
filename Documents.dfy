/** The records that flow between the index, the retrieval services and the
    answer generators, and the abstract outcome of the external generator call. */
module Documents {
  import opened Base

  /** An embedding vector. Its entries are floating-point numbers computed
      outside this model; only their number and order matter here. */
  type Vector = seq<real>

  /** A document's metadata object. Every producer sets url and title; the
      other keys are present in some producers' records and absent in others. */
  datatype Metadata = Metadata(
    url: string,
    title: string,
    published: Option<string>,
    source: Option<string>,
    category: Option<string>)

  /** k when a caller of a top-k search or a retrieval passes none; every service
      has the same default. */
  const DefaultTopK: nat := 3

  /** A retrieved document `{content, metadata, similarity}`. */
  datatype Doc = Doc(content: string, metadata: Metadata, similarity: real)

  /** A value that is either a string or `undefined`. */
  datatype Reply = Text(text: string) | Undefined

  /** `{response, sources}` as returned by both processQuery variants. */
  datatype QueryResult = QueryResult(response: Reply, sources: seq<string>)

  /** What a request to the generator carries: the question and the
      context passages, in order (the surrounding instruction text is fixed). */
  datatype Prompt = Prompt(query: string, passages: seq<string>)

  /** The outcome of one POST to the generation endpoint.
      Failed covers a network error, the 30 s timeout, a non-2xx status,
      a body without `candidates[0]` and a candidate without `content.parts[0]`;
      AnsweredWithoutText is a part that has no `text` field. */
  datatype GeminiOutcome = Failed | Answered(text: string) | AnsweredWithoutText

  /** `{success, count}` as both fetchers' processAndStoreArticles report it. */
  datatype Report = Report(success: bool, count: nat)

  /** `docs.map(doc => doc.metadata.url)` */
  function Urls(docs: seq<Doc>): (r: seq<string>)
    ensures |r| == |docs|
    ensures forall i :: 0 <= i < |docs| ==> r[i] == docs[i].metadata.url
  {
    if docs == [] then [] else [docs[0].metadata.url] + Urls(docs[1..])
  }

  /** `docs.map(doc => doc.content)` */
  function Contents(docs: seq<Doc>): (r: seq<string>)
    ensures |r| == |docs|
    ensures forall i :: 0 <= i < |docs| ==> r[i] == docs[i].content
  {
    if docs == [] then [] else [docs[0].content] + Contents(docs[1..])
  }
}
