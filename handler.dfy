/** The `serve` request handler: method gate, body parsing and validation, the rate-limit
    gate, then embedding, retrieval and generation in sequence, with every thrown error
    caught into one JSON error envelope with status 500. */
module Handler {
  import opened Outcomes
  import opened Wire
  import opened Retrieval
  import opened Generation

  /** The body after `JSON.parse(await req.text())` and `let { query } = ...`: either one of
      those steps threw, or it gave the `query` field, which may be absent. */
  datatype Body = Malformed(message: string) | Parsed(query: Option<string>)

  datatype Request = Request(verb: string, body: Body)

  /** `'ok'` as plain text, `{response: ...}` or `{error: ...}`. */
  datatype ResponseBody = PlainText(text: string) | AnswerJson(response: string) | ErrorJson(error: string)

  datatype Response = Response(status: nat, body: ResponseBody, contentType: Option<string>)

  /** The collaborator calls one request made, in order, and the response it got. */
  datatype Handled = Handled(trace: seq<Call>, response: Response)

  const JsonType := "application/json"

  /** The type the runtime gives a string body when the handler sets none itself. */
  const PlainTextType := "text/plain;charset=UTF-8"
  const QueryRequired := "Query is required"
  const RateLimitError := "Rate Limit Exception"

  /** Every request consults the same bucket: identifier `api`, 3 calls per 10 seconds. */
  const AdmissionRequest := LimitRequest("api", 3, "10 s")

  function MethodNotAllowed(verb: string): string
  {
    "HTTP method " + verb + " is not allowed."
  }

  /** `if (!query) throw ...`: the query goes on only when it is present and not empty. */
  function ReadQuery(body: Body): (r: Result<string>)
    ensures r.Ok? <==> body.Parsed? && body.query.Some? && body.query.value != ""
    ensures r.Ok? ==> body == Parsed(Some(r.value))
    ensures body.Malformed? ==> r == Err(body.message)
    ensures body.Parsed? && !r.Ok? ==> r == Err("Query is required")
  {
    match body
    case Malformed(m) => Err(m)
    case Parsed(None) => Err(QueryRequired)
    case Parsed(Some(q)) => if q == "" then Err(QueryRequired) else Ok(q)
  }

  /** `const { success } = await ratelimit.limit(identifier); if (!success) throw ...`. */
  function Admitted(reply: LimitReply): Result<()>
  {
    match reply
    case LimitFailed(m) => Err(m)
    case Limited(success) => if success then Ok(()) else Err(RateLimitError)
  }

  /** The rate-limit gate: one call with the fixed bucket; only `success` lets the request on. */
  function Admit(limit: LimitRequest -> LimitReply): (r: Step<()>)
    ensures r.calls == [LimitCall(LimitRequest("api", 3, "10 s"))]
    ensures r.outcome.Ok? <==> limit(AdmissionRequest) == Limited(true)
    ensures limit(AdmissionRequest) == Limited(false) ==> r.outcome == Err("Rate Limit Exception")
    ensures limit(AdmissionRequest).LimitFailed? ==> r.outcome == Err(limit(AdmissionRequest).message)
  {
    Step([LimitCall(AdmissionRequest)], Admitted(limit(AdmissionRequest)))
  }

  /** Whether the reply to call `c` ends the pipeline. A retrieval reply with no error and
      null data ends it too: `generateResponse` throws on it before calling the model. */
  predicate Stops(s: Services, c: Call)
  {
    match c
    case LimitCall(r) => Admitted(s.limit(r)).Err?
    case EmbedCall(r) => FirstEmbedding(s.embed(r)).Err?
    case SearchCall(r) => var d := DocumentsOf(s.search(r)); d.Err? || d.value.None?
    case ChatCall(r) => AnswerOf(s.complete(r)).Err?
  }

  /** The message the stopping reply to call `c` is reported with: a rejected call keeps
      its own message; otherwise the limiter's denial, or the runtime's TypeError for a
      missing first embedding, null retrieved data or a missing first choice. */
  function StopMessage(s: Services, c: Call): string
  {
    match c
    case LimitCall(r) =>
      (match s.limit(r) case LimitFailed(m) => m case Limited(_) => RateLimitError)
    case EmbedCall(r) =>
      (match s.embed(r) case EmbedFailed(m) => m case Embeddings(_) => NoEmbeddingError)
    case SearchCall(r) =>
      (match s.search(r).error case Some(m) => m case None => NullDocumentsError)
    case ChatCall(r) =>
      (match s.complete(r) case ChatFailed(m) => m case Completion(_) => NoChoiceError)
  }

  /** A run of the pipeline from stage `first` on: at least one call, at the stages
      `first`, `first + 1`, ... in order; every call but the last let the pipeline go on;
      it succeeds exactly when the last call did too, and then all the remaining stages ran;
      it fails with the message of the last call's stopping reply. */
  predicate Run(s: Services, r: Step<string>, first: nat)
  {
    && 0 < |r.calls| <= 4 - first
    && (forall i :: 0 <= i < |r.calls| ==> Stage(r.calls[i]) == first + i)
    && (forall i :: 0 <= i < |r.calls| - 1 ==> !Stops(s, r.calls[i]))
    && (r.outcome.Ok? <==> !Stops(s, r.calls[|r.calls| - 1]))
    && (r.outcome.Ok? ==> |r.calls| == 4 - first)
    && (r.outcome.Err? ==> r.outcome.message == StopMessage(s, r.calls[|r.calls| - 1]))
  }

  /** A call at stage `first` that lets the pipeline go on, followed by a run from the next
      stage, is a run from stage `first`. */
  lemma RunCons(s: Services, c: Call, r: Step<string>, first: nat)
    requires Stage(c) == first && !Stops(s, c) && Run(s, r, first + 1)
    ensures Run(s, Step([c] + r.calls, r.outcome), first)
  {
    var calls := [c] + r.calls;
    forall i | 0 < i < |calls|
      ensures calls[i] == r.calls[i - 1]
    {
    }
    assert Stage(r.calls[0]) == first + 1;
  }

  /** Retrieval, then generation: the part of the `try` block after the embedding. */
  function AfterEmbedding(query: string, embedding: Vector, s: Services): (r: Step<string>)
    ensures Run(s, r, 2)
    ensures r.calls[0] == SearchCall(SearchRequestFor(query, embedding))
  {
    var d := RetrieveRelevantDocuments(query, embedding, s.search);
    match d.outcome
    case Err(m) => Step(d.calls, Err(m))
    case Ok(docs) =>
      var g := GenerateResponse(query, docs, s.complete);
      Step(d.calls + g.calls, g.outcome)
  }

  /** Embedding, then the rest: the part of the `try` block after admission. */
  function AfterAdmission(query: string, s: Services): (r: Step<string>)
    ensures Run(s, r, 1)
    ensures r.calls[0] == EmbedCall(EmbedRequestFor(query))
  {
    var e := EmbedQuery(query, s.embed);
    match e.outcome
    case Err(m) => Step(e.calls, Err(m))
    case Ok(embedding) =>
      var rest := AfterEmbedding(query, embedding, s);
      RunCons(s, e.calls[0], rest, 1);
      Step(e.calls + rest.calls, rest.outcome)
  }

  /** The `try` block: the method gate and the query check make no call; after them each
      stage runs only when the one before it succeeded, and the first error thrown ends the
      pipeline. */
  function Pipeline(req: Request, s: Services): (r: Step<string>)
    ensures req.verb != "POST" ==> r == Step([], Err("HTTP method " + req.verb + " is not allowed."))
    ensures req.verb == "POST" && ReadQuery(req.body).Err? ==> r == Step([], Err(ReadQuery(req.body).message))
    ensures req.verb == "POST" && ReadQuery(req.body).Ok? ==>
      Run(s, r, 0) && r.calls[0] == LimitCall(LimitRequest("api", 3, "10 s"))
  {
    if req.verb != "POST" then Step([], Err(MethodNotAllowed(req.verb)))
    else
      match ReadQuery(req.body)
      case Err(m) => Step([], Err(m))
      case Ok(query) =>
        var a := Admit(s.limit);
        match a.outcome
        case Err(m) => Step(a.calls, Err(m))
        case Ok(_) =>
          var rest := AfterAdmission(query, s);
          RunCons(s, a.calls[0], rest, 0);
          Step(a.calls + rest.calls, rest.outcome)
  }

  /** The handler. A preflight `OPTIONS` gets `ok` and calls nothing. Otherwise the calls
      made follow the order admission, embedding, retrieval, generation; each call but the
      last got a reply that let the pipeline go on; the answer envelope (status 200) comes
      exactly when all four were made and the last succeeded, and any other outcome is the
      error envelope (status 500) after a call whose reply stopped the pipeline, carrying
      that reply's message, or after no call at all, carrying the method or body error. */
  function Handle(req: Request, s: Services): (h: Handled)
    ensures req.verb == "OPTIONS" ==> h == Handled([], Response(200, PlainText("ok"), Some("text/plain;charset=UTF-8")))
    ensures |h.trace| <= 4
    ensures forall i :: 0 <= i < |h.trace| ==> Stage(h.trace[i]) == i
    ensures forall i :: 0 <= i < |h.trace| - 1 ==> !Stops(s, h.trace[i])
    ensures req.verb != "OPTIONS" ==>
      && h.response.contentType == Some("application/json")
      && (h.response.body.AnswerJson? ==> h.response.status == 200)
      && (!h.response.body.AnswerJson? ==> h.response.body.ErrorJson? && h.response.status == 500)
      && (h.response.body.AnswerJson? <==> |h.trace| == 4 && !Stops(s, h.trace[3]))
      && (h.response.body.ErrorJson? && |h.trace| > 0 ==>
            Stops(s, h.trace[|h.trace| - 1]) && h.response.body.error == StopMessage(s, h.trace[|h.trace| - 1]))
      && (h.response.body.ErrorJson? && |h.trace| == 0 ==>
            if req.verb != "POST" then h.response.body.error == "HTTP method " + req.verb + " is not allowed."
            else ReadQuery(req.body).Err? && h.response.body.error == ReadQuery(req.body).message)
  {
    if req.verb == "OPTIONS" then Handled([], Response(200, PlainText("ok"), Some(PlainTextType)))
    else
      var run := Pipeline(req, s);
      match run.outcome
      case Ok(answer) => Handled(run.calls, Response(200, AnswerJson(answer), Some(JsonType)))
      case Err(m) => Handled(run.calls, Response(500, ErrorJson(m), Some(JsonType)))
  }

  /** Any method other than `OPTIONS` and `POST` is refused before any call. */
  lemma MethodRejected(req: Request, s: Services)
    requires req.verb != "OPTIONS" && req.verb != "POST"
    ensures Handle(req, s) == Handled([], Response(500,
      ErrorJson("HTTP method " + req.verb + " is not allowed."), Some("application/json")))
  {
  }

  /** A body that does not parse, or a missing or empty query, is refused before any call;
      the parse error keeps its own message. */
  lemma InvalidBodyRejected(req: Request, s: Services)
    requires req.verb == "POST"
    requires req.body.Malformed? || req.body.query.None? || req.body.query == Some("")
    ensures Handle(req, s).trace == []
    ensures Handle(req, s).response == Response(500,
      ErrorJson(if req.body.Malformed? then req.body.message else "Query is required"), Some("application/json"))
  {
  }

  /** A denied admission ends the request after the one limiter call. */
  lemma RateLimited(req: Request, s: Services)
    requires req.verb == "POST" && ReadQuery(req.body).Ok?
    requires s.limit(LimitRequest("api", 3, "10 s")) == Limited(false)
    ensures Handle(req, s) == Handled([LimitCall(LimitRequest("api", 3, "10 s"))],
      Response(500, ErrorJson("Rate Limit Exception"), Some("application/json")))
  {
  }

  /** A `hybrid_search` error reaches the caller with its message unchanged, and the
      model is never asked. */
  lemma SearchErrorRethrown(req: Request, s: Services, q: string, v: Vector, m: string)
    requires req == Request("POST", Parsed(Some(q))) && q != ""
    requires s.limit(AdmissionRequest) == Limited(true)
    requires FirstEmbedding(s.embed(EmbedRequestFor(q))) == Ok(v)
    requires s.search(SearchRequestFor(q, v)).error == Some(m)
    ensures Handle(req, s) == Handled(
      [LimitCall(AdmissionRequest), EmbedCall(EmbedRequestFor(q)), SearchCall(SearchRequestFor(q, v))],
      Response(500, ErrorJson(m), Some("application/json")))
  {
  }

  /** What each call was given comes from the request and the replies before it: the
      limiter gets the fixed bucket, the embedder the query, the retriever the query and
      the first embedding, and the model a prompt built from the query and exactly the
      passages retrieved. */
  lemma TraceCarriesData(req: Request, s: Services)
    requires req.verb == "POST" && ReadQuery(req.body).Ok?
    ensures var h := Handle(req, s);
      var q := ReadQuery(req.body).value;
      && |h.trace| >= 1
      && h.trace[0] == LimitCall(LimitRequest("api", 3, "10 s"))
      && (|h.trace| >= 2 ==> h.trace[1] == EmbedCall(EmbedRequest("text-embedding-3-large", q, 384)))
      && (|h.trace| >= 3 ==>
            var v := FirstEmbedding(s.embed(EmbedRequestFor(q)));
            v.Ok? && h.trace[2] == SearchCall(SearchRequest("hybrid_search", q, v.value, 5)))
      && (|h.trace| == 4 ==>
            var v := FirstEmbedding(s.embed(EmbedRequestFor(q)));
            var d := DocumentsOf(s.search(SearchRequestFor(q, v.value)));
            v.Ok? && d.Ok? && d.value.Some? && h.trace[3] == ChatCall(CompletionRequestFor(q, d.value.value)))
  {
  }

  /** When every collaborator succeeds, the four calls are made in order with the data
      flowing from each to the next, and the caller gets the first choice's content, or the
      fallback, with status 200. */
  lemma SuccessPath(req: Request, s: Services, q: string, v: Vector, docs: seq<Document>, content: Option<string>)
    requires req == Request("POST", Parsed(Some(q))) && q != ""
    requires s.limit(LimitRequest("api", 3, "10 s")) == Limited(true)
    requires var e := s.embed(EmbedRequest("text-embedding-3-large", q, 384));
      e.Embeddings? && |e.data| > 0 && e.data[0].embedding == v
    requires s.search(SearchRequest("hybrid_search", q, v, 5)) == SearchReply(Some(docs), None)
    requires var c := s.complete(CompletionRequestFor(q, docs));
      c.Completion? && |c.choices| > 0 && c.choices[0].content == content
    ensures Handle(req, s) == Handled(
      [ LimitCall(LimitRequest("api", 3, "10 s")),
        EmbedCall(EmbedRequest("text-embedding-3-large", q, 384)),
        SearchCall(SearchRequest("hybrid_search", q, v, 5)),
        ChatCall(ChatRequest("gpt-3.5-turbo", [Message("system", Persona), Message("user", Prompt(Context(docs), q))])) ],
      Response(200, AnswerJson(OrFallback(content)), Some("application/json")))
  {
  }

  /** The two sets of collaborators give the same reply to call `c`. */
  predicate SameReply(s1: Services, s2: Services, c: Call)
  {
    match c
    case LimitCall(r) => s1.limit(r) == s2.limit(r)
    case EmbedCall(r) => s1.embed(r) == s2.embed(r)
    case SearchCall(r) => s1.search(r) == s2.search(r)
    case ChatCall(r) => s1.complete(r) == s2.complete(r)
  }

  /** The two sets of collaborators give the same replies to all of `calls`. */
  predicate Agree(s1: Services, s2: Services, calls: seq<Call>)
  {
    forall i :: 0 <= i < |calls| ==> SameReply(s1, s2, calls[i])
  }

  lemma {:induction false} AfterEmbeddingDependsOnlyOnCalls(query: string, v: Vector, s1: Services, s2: Services)
    requires Agree(s1, s2, AfterEmbedding(query, v, s1).calls)
    ensures AfterEmbedding(query, v, s1) == AfterEmbedding(query, v, s2)
  {
    var t := AfterEmbedding(query, v, s1).calls;
    assert SameReply(s1, s2, t[0]);
    if |t| > 1 { assert SameReply(s1, s2, t[1]); }
  }

  lemma {:induction false} AfterAdmissionDependsOnlyOnCalls(query: string, s1: Services, s2: Services)
    requires Agree(s1, s2, AfterAdmission(query, s1).calls)
    ensures AfterAdmission(query, s1) == AfterAdmission(query, s2)
  {
    var t := AfterAdmission(query, s1).calls;
    assert SameReply(s1, s2, t[0]);
    var e := EmbedQuery(query, s1.embed);
    if e.outcome.Ok? {
      var rest := AfterEmbedding(query, e.outcome.value, s1);
      assert t == e.calls + rest.calls;
      forall i | 0 <= i < |rest.calls|
        ensures SameReply(s1, s2, rest.calls[i])
      {
        assert rest.calls[i] == t[i + 1];
      }
      AfterEmbeddingDependsOnlyOnCalls(query, e.outcome.value, s1, s2);
    }
  }

  /** The handler depends on its collaborators only through the calls it makes: two sets of
      collaborators that answer those calls alike give the same trace and the same response,
      whatever they would have answered to calls that were never made. */
  lemma DependsOnlyOnCalls(req: Request, s1: Services, s2: Services)
    requires forall i :: 0 <= i < |Handle(req, s1).trace| ==> SameReply(s1, s2, Handle(req, s1).trace[i])
    ensures Handle(req, s1) == Handle(req, s2)
  {
    if req.verb == "POST" && ReadQuery(req.body).Ok? {
      var q := ReadQuery(req.body).value;
      var t := Pipeline(req, s1).calls;
      assert t == Handle(req, s1).trace;
      assert SameReply(s1, s2, t[0]);
      if Admit(s1.limit).outcome.Ok? {
        var rest := AfterAdmission(q, s1);
        assert t == Admit(s1.limit).calls + rest.calls;
        forall i | 0 <= i < |rest.calls|
          ensures SameReply(s1, s2, rest.calls[i])
        {
          assert rest.calls[i] == t[i + 1];
        }
        AfterAdmissionDependsOnlyOnCalls(q, s1, s2);
      }
    }
  }
}
