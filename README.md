# inferenceRAG query handler, modelled in Dafny

This project models the edge function that answers a question about stored documents
(`supabase/functions/inferenceRAG/index.ts`). The function checks the HTTP method, reads
`query` from the JSON body, asks a shared rate limiter for admission, embeds the query,
retrieves passages with the `hybrid_search` RPC and asks a chat model for an answer grounded
in those passages. Any error thrown along the way becomes a `{error: message}` response with
status 500.

The handler is pure sequencing, so the model is written as functions.
`Handler.Handle(request, services)` returns two things: the trace of collaborator calls it
made, with their arguments, and the response envelope. Each collaborator (rate limiter,
embedder, hybrid search, chat completion) is a total function from the request it is sent to
the reply it gives, collected in `Wire.Services`. A rejected promise is a `...Failed(message)`
reply. Because `Handle` is a function, identical collaborator replies always give an
identical trace and envelope. `DependsOnlyOnCalls` makes a stronger claim: only the replies
to calls actually made matter.

Files:
- `outcomes.dfy`: `Option` and `Result`, where `Result` is a value or the message of a thrown error.
- `text.dfy`: `Array.prototype.join` over strings. It is characterised by where every part and every separator sits in the result, in both directions.
- `wire.dfy`: the collaborators' requests and replies, the `Call` trace entries and `Services`.
- `retrieval.dfy`: `embedQuery` and `retrieveRelevantDocuments`.
- `generation.dfy`: the context, the prompt, the chat request and the `|| "Error"` fallback of `generateResponse`.
- `handler.dfy`: the `serve` handler and the lemmas about ordering, data flow and short-circuiting.

Modelling decisions:
- The request body is either `Malformed(message)` or `Parsed(query)`. `Malformed(message)` covers `req.text()`, `JSON.parse` or the destructuring throwing; the message comes from the runtime. In `Parsed(query)` the query may be absent. Both an absent query and `""` are falsy and give `Query is required`.
- The results of indexing an empty array are modelled with the runtime's TypeError messages as constants: `data[0]` on an embedding reply with no items, and `choices[0]` on a completion with no choices. `relevantDocuments.map` on null data (no RPC error, but no data either) throws too, so the model is never called.
- A document whose `content` is missing contributes the empty string to the context, because `join` renders `undefined`/`null` as nothing.
- The answer envelope `{response}` and the error envelope `{error}` are datatype values, not JSON text.
- `contentType` is the `Content-Type` the response carries. The JSON envelopes set `application/json` themselves. The `OPTIONS` reply sets only the CORS headers, so it gets the runtime's default for a string body, `text/plain;charset=UTF-8`.
- The `try` block is split at its stage boundaries: `Pipeline` (gate, query check, admission), then `AfterAdmission` (embedding), then `AfterEmbedding` (retrieval and generation). Each part states the same `Run` invariant from its first stage on.

## Model

| member | source | states |
|---|---|---|
| Text.Join | supabase/functions/inferenceRAG/index.ts:95 | `.join` of the mapped contents: no parts give the empty string, and one part is the result itself; the full layout is the lemmas below |
| Text.JoinLength | supabase/functions/inferenceRAG/index.ts:95 | joining no passages gives the empty string; otherwise the length is the parts' lengths plus one separator between each pair of neighbours |
| Text.JoinPart | supabase/functions/inferenceRAG/index.ts:95 | every part appears unchanged, in list order, at its computed start position |
| Text.JoinSeparator | supabase/functions/inferenceRAG/index.ts:95 | exactly one separator sits between consecutive parts |
| Text.JoinDetermined | supabase/functions/inferenceRAG/index.ts:95 | a string of the joined length with every part and separator in place is the joined string |
| Text.JoinCharacterised | supabase/functions/inferenceRAG/index.ts:95 | if and only if: `r` is the join of a non-empty list exactly when it has the joined length and the layout |
| Generation.Contents | supabase/functions/inferenceRAG/index.ts:95 | mapping documents to their contents keeps one entry per document |
| Generation.Context | supabase/functions/inferenceRAG/index.ts:95 | the context is empty for no documents, is the single content for one document, and begins with the first document's content |
| Generation.ContextCharacterised | supabase/functions/inferenceRAG/index.ts:95 | the context is empty for no documents; otherwise it is exactly each document's content, in order, separated by a blank line |
| Generation.ContextOfOne | supabase/functions/inferenceRAG/index.ts:95 | one document's content is the whole context |
| Generation.ContextSnoc | supabase/functions/inferenceRAG/index.ts:95 | appending a document appends a blank line and its content |
| Generation.Prompt | supabase/functions/inferenceRAG/index.ts:96 | the prompt is 30 characters longer than context and query together; it begins with `Context: `, the context and `\n\nQuestion: `, and ends with the query and `\n\nAnswer:` |
| Generation.PromptLayout | supabase/functions/inferenceRAG/index.ts:96 | the prompt is `Context: `, the context, a blank line and `Question: `, the query, a blank line and `Answer:`, each at a fixed offset |
| Generation.PromptInjective | supabase/functions/inferenceRAG/index.ts:96 | with the query's length known, the prompt determines both the context and the query |
| Generation.PromptExample | supabase/functions/inferenceRAG/index.ts:95-96 | the document `5 years building APIs` and the question `What is your experience?` give the exact expected prompt |
| Generation.OrFallback | supabase/functions/inferenceRAG/index.ts:108 | non-empty content is the answer; null or empty content gives `Error`; the answer is never empty |
| Generation.AnswerOf | supabase/functions/inferenceRAG/index.ts:100-108 | a rejected completion keeps its message; no choices gives the runtime's TypeError; otherwise the answer is `OrFallback` of the first choice's content |
| Generation.GenerateResponse | supabase/functions/inferenceRAG/index.ts:94-109 | with a document list, exactly one chat call is made: model `gpt-3.5-turbo`, the persona, then the prompt built from that list and the query. With a first choice, the answer is that choice's content or `Error`, and never empty. A rejection keeps its message, and no choices gives the runtime's TypeError. Null data throws before any call |
| Generation.NoPassagesStillGenerate | supabase/functions/inferenceRAG/index.ts:94-106 | an empty document list still leads to the chat call, on an empty context |
| Retrieval.EmbedQuery | supabase/functions/inferenceRAG/index.ts:71-78 | one call with model `text-embedding-3-large`, the query as input and 384 dimensions; succeeds exactly when the reply has a first item, and then yields that item's embedding; a rejection keeps its message |
| Retrieval.RetrieveRelevantDocuments | supabase/functions/inferenceRAG/index.ts:80-92 | one `hybrid_search` call with the query text, the embedding and match count 5; an error's message is rethrown unchanged; otherwise the data is returned unaltered |
| Handler.ReadQuery | supabase/functions/inferenceRAG/index.ts:35-40 | the query passes exactly when it is present and non-empty; a parse error keeps its message; otherwise `Query is required` |
| Handler.Admit | supabase/functions/inferenceRAG/index.ts:42-53 | one limiter call with identifier `api`, limit 3, window `10 s`; passes exactly when `success` is true; a denial gives `Rate Limit Exception`; a rejected limiter call keeps its message |
| Handler.AfterEmbedding | supabase/functions/inferenceRAG/index.ts:56-57 | starts with the `hybrid_search` call for the query and the embedding; then runs the rest of the pipeline in stage order, and fails with the stopping reply's message |
| Handler.AfterAdmission | supabase/functions/inferenceRAG/index.ts:55-57 | starts with the embedding call for the query; then runs the rest of the pipeline in stage order, and fails with the stopping reply's message |
| Handler.Pipeline | supabase/functions/inferenceRAG/index.ts:30-61 | a non-`POST` method or a bad query fails with its message and no calls; otherwise the run starts with the fixed limiter call and follows the stage order, each stage running only after the previous one succeeded |
| Handler.Handle | supabase/functions/inferenceRAG/index.ts:24-69 | `OPTIONS` gives `ok` with no calls. Otherwise the calls follow the order limit, embed, retrieve, generate, and no call follows a reply that stopped the pipeline. Status 200 with `{response}` comes exactly when all four calls ran and the last succeeded. Any other outcome is status 500 with `{error}`: the message of the last call's stopping reply (its own message for a rejection, `Rate Limit Exception`, or the runtime's TypeErrors), or the method or body error when no call was made |
| Handler.MethodRejected | supabase/functions/inferenceRAG/index.ts:30-33 | a method other than `OPTIONS` and `POST` gives `HTTP method <M> is not allowed.`, status 500, and no calls |
| Handler.InvalidBodyRejected | supabase/functions/inferenceRAG/index.ts:35-40 | an unparsable body, or a missing or empty query, gives status 500 and no calls |
| Handler.RateLimited | supabase/functions/inferenceRAG/index.ts:42-53 | a denied admission gives `Rate Limit Exception`, status 500, after the limiter call alone |
| Handler.SearchErrorRethrown | supabase/functions/inferenceRAG/index.ts:81-90 | a `hybrid_search` error reaches the caller with its message unchanged, and no chat call is made |
| Handler.TraceCarriesData | supabase/functions/inferenceRAG/index.ts:55-57 | each call's arguments come from the query and the earlier replies: the embedder gets the query, the retriever gets the query and the first embedding, and the model gets a prompt built from exactly the retrieved documents |
| Handler.SuccessPath | supabase/functions/inferenceRAG/index.ts:55-61 | when every collaborator succeeds, the trace is exactly the four calls with their arguments and the response is status 200 with the answer |
| Handler.DependsOnlyOnCalls | supabase/functions/inferenceRAG/index.ts:24-69 | two sets of collaborators that answer the calls made alike give the same trace and response |

## Left out

- The sliding-window algorithm of the rate limiter and its counter store are external. Only the returned `success`, or a rejection, is modelled.
- The embedding and chat models are network services, and vectors are floating point. A vector is an opaque `seq<real>` that is passed along, never inspected.
- The ranking done by `hybrid_search` happens in the database. Only its `{data, error}` reply is modelled, so the "at most 5 documents" bound is the store's, not the model's.
- JSON parsing and `JSON.stringify` are not modelled. The body is a parse outcome. A `query` that is a non-string JSON value (a number, an object) is not modelled. An error object without a `message` is not modelled either: its envelope would serialise as `{}`.
- CORS headers (`./_shared/cors.ts` is not part of this model), environment and secret loading (lines 9-22), `console.error` logging and the Deno `serve` plumbing are left out.
- The other fields of the limiter configuration (`analytics`, `prefix`) and the ratelimit object's construction are not part of the trace.
- Concurrency between requests and the suspension points at each `await` are not modelled; one request is one function application.
- The ingestion script `src/uploadDocument.py` is not modelled. It wraps a text splitter, the embedding API, file I/O and database inserts, all of which are external.
