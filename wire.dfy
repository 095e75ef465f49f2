/** What the handler sends to its four collaborators and what they answer. Each
    collaborator is a total function from request to reply, so a reply may depend on
    everything the handler sent; a rejected promise is a `...Failed(message)` reply. */
module Wire {
  import opened Outcomes

  /** An embedding vector. Its floating-point components are never inspected, only passed on. */
  type Vector = seq<real>

  /** `ratelimit.limit(identifier)` on a sliding-window limiter of `limit` calls per `window`. */
  datatype LimitRequest = LimitRequest(identifier: string, limit: nat, window: string)
  datatype LimitReply = Limited(success: bool) | LimitFailed(message: string)

  /** `openai.embeddings.create({model, input, dimensions})`. */
  datatype EmbedRequest = EmbedRequest(model: string, input: string, dimensions: nat)
  datatype EmbeddingItem = EmbeddingItem(embedding: Vector)
  datatype EmbedReply = Embeddings(data: seq<EmbeddingItem>) | EmbedFailed(message: string)

  /** `supabase.rpc(procedure, {query_text, query_embedding, match_count})`. */
  datatype SearchRequest = SearchRequest(procedure: string, queryText: string, queryEmbedding: Vector, matchCount: nat)
  /** A stored passage; only its `content` is read, and it may be missing. */
  datatype Document = Document(content: Option<string>)
  /** The RPC's `{data, error}` pair; `error` is the message of the error object, when there is one. */
  datatype SearchReply = SearchReply(data: Option<seq<Document>>, error: Option<string>)

  /** `openai.chat.completions.create({model, messages})`. */
  datatype Message = Message(role: string, content: string)
  datatype ChatRequest = ChatRequest(model: string, messages: seq<Message>)
  /** One choice; its `message.content` may be null. */
  datatype Choice = Choice(content: Option<string>)
  datatype ChatReply = Completion(choices: seq<Choice>) | ChatFailed(message: string)

  /** One collaborator call, with the arguments it was given. */
  datatype Call =
    | LimitCall(limitRequest: LimitRequest)
    | EmbedCall(embedRequest: EmbedRequest)
    | SearchCall(searchRequest: SearchRequest)
    | ChatCall(chatRequest: ChatRequest)

  /** The position of each kind of call in the pipeline: admission, embedding, retrieval, generation. */
  function Stage(c: Call): nat
  {
    match c
    case LimitCall(_) => 0
    case EmbedCall(_) => 1
    case SearchCall(_) => 2
    case ChatCall(_) => 3
  }

  /** The collaborators as seen by one request. */
  datatype Services = Services(
    limit: LimitRequest -> LimitReply,
    embed: EmbedRequest -> EmbedReply,
    search: SearchRequest -> SearchReply,
    complete: ChatRequest -> ChatReply)

  /** The calls a piece of the handler made, in order, and how it ended. */
  datatype Step<T> = Step(calls: seq<Call>, outcome: Result<T>)
}
