/** `embedQuery` and `retrieveRelevantDocuments`: the two calls that turn the query into
    ranked passages. */
module Retrieval {
  import opened Outcomes
  import opened Wire

  const EmbeddingModel := "text-embedding-3-large"
  const EmbeddingDimensions := 384
  const SearchProcedure := "hybrid_search"
  const MatchCount := 5

  /** The runtime's TypeError when the embedding reply has no first item. */
  const NoEmbeddingError := "Cannot read properties of undefined (reading 'embedding')"

  /** The embedding request for `query`. */
  function EmbedRequestFor(query: string): EmbedRequest
  {
    EmbedRequest(EmbeddingModel, query, EmbeddingDimensions)
  }

  /** `embeddingResponse.data[0].embedding`, or the error the await or the indexing throws. */
  function FirstEmbedding(reply: EmbedReply): Result<Vector>
  {
    match reply
    case EmbedFailed(m) => Err(m)
    case Embeddings(data) => if |data| == 0 then Err(NoEmbeddingError) else Ok(data[0].embedding)
  }

  /** `embedQuery`: one request for a 384-dimension embedding of the query itself; the
      result is the first item's vector, and a reply without items is an error. */
  function EmbedQuery(query: string, embed: EmbedRequest -> EmbedReply): (r: Step<Vector>)
    ensures r.calls == [EmbedCall(EmbedRequest("text-embedding-3-large", query, 384))]
    ensures var reply := embed(EmbedRequestFor(query));
      && (r.outcome.Ok? <==> reply.Embeddings? && |reply.data| > 0)
      && (r.outcome.Ok? ==> r.outcome.value == reply.data[0].embedding)
      && (reply.EmbedFailed? ==> r.outcome == Err(reply.message))
  {
    var request := EmbedRequestFor(query);
    Step([EmbedCall(request)], FirstEmbedding(embed(request)))
  }

  /** The `hybrid_search` request for a query and its embedding. */
  function SearchRequestFor(query: string, embedding: Vector): SearchRequest
  {
    SearchRequest(SearchProcedure, query, embedding, MatchCount)
  }

  /** `if (error) throw error; return data`. */
  function DocumentsOf(reply: SearchReply): Result<Option<seq<Document>>>
  {
    match reply.error
    case Some(m) => Err(m)
    case None => Ok(reply.data)
  }

  /** `retrieveRelevantDocuments`: one `hybrid_search` call with the query text, its
      embedding and a match count of 5; an error is rethrown with its message unchanged,
      and otherwise the data comes back as it is, neither filtered nor re-ranked. */
  function RetrieveRelevantDocuments(query: string, embedding: Vector, search: SearchRequest -> SearchReply)
    : (r: Step<Option<seq<Document>>>)
    ensures r.calls == [SearchCall(SearchRequest("hybrid_search", query, embedding, 5))]
    ensures var reply := search(SearchRequestFor(query, embedding));
      && (reply.error.Some? ==> r.outcome == Err(reply.error.value))
      && (reply.error.None? ==> r.outcome == Ok(reply.data))
  {
    var request := SearchRequestFor(query, embedding);
    Step([SearchCall(request)], DocumentsOf(search(request)))
  }
}
