/** `generateResponse`: the grounded prompt built from the retrieved passages, the chat
    call, and the fallback answer. */
module Generation {
  import opened Outcomes
  import opened Text
  import opened Wire

  /** The blank line between passages in the context. */
  const ContextSeparator := "\n\n"

  const ChatModel := "gpt-3.5-turbo"

  /** The fixed system instruction sent before the prompt. */
  const Persona := "You are Zohaib Ahmed, a software engineer and computer science student. Use only the provided context of your experience and accomplishments to answer the question. Limit your responses to 2-3 sentences max."

  /** The answer used when the completion has no content. */
  const Fallback := "Error"

  /** The runtime's TypeError when the retrieved data is null. */
  const NullDocumentsError := "Cannot read properties of null (reading 'map')"

  /** The runtime's TypeError when the completion has no first choice. */
  const NoChoiceError := "Cannot read properties of undefined (reading 'message')"

  /** A passage as it appears in the context: `join` writes a missing content as nothing. */
  function ContentText(d: Document): string
  {
    match d.content
    case Some(s) => s
    case None => ""
  }

  /** `relevantDocuments.map(doc => doc.content)`. */
  function Contents(docs: seq<Document>): (r: seq<string>)
    ensures |r| == |docs|
  {
    seq(|docs|, i requires 0 <= i < |docs| => ContentText(docs[i]))
  }

  /** The context block: the passages' contents in ranking order, a blank line between each. */
  function Context(docs: seq<Document>): (r: string)
    ensures |docs| == 0 ==> r == ""
    ensures |docs| == 1 ==> r == ContentText(docs[0])
    ensures |docs| > 0 ==> ContentText(docs[0]) <= r
  {
    if |docs| > 0 then
      JoinPart(Contents(docs), ContextSeparator, 0);
      Join(Contents(docs), ContextSeparator)
    else
      Join(Contents(docs), ContextSeparator)
  }

  /** The user message sent to the chat model. */
  function Prompt(context: string, query: string): (r: string)
    ensures |r| == |context| + |query| + 30
    ensures "Context: " + context + "\n\nQuestion: " <= r
    ensures r[|r| - |query| - 9..] == query + "\n\nAnswer:"
  {
    "Context: " + context + "\n\nQuestion: " + query + "\n\nAnswer:"
  }

  /** The chat request for a query and its passages: the persona, then the prompt. */
  function CompletionRequestFor(query: string, docs: seq<Document>): ChatRequest
  {
    ChatRequest(ChatModel, [Message("system", Persona), Message("user", Prompt(Context(docs), query))])
  }

  /** `content || "Error"`: a non-empty content is the answer; null and the empty string
      both give the fallback, so the answer is never empty. */
  function OrFallback(content: Option<string>): (r: string)
    ensures |r| > 0
    ensures content.Some? && content.value != "" ==> r == content.value
    ensures content.None? || content == Some("") ==> r == "Error"
  {
    if content.Some? && content.value != "" then content.value else Fallback
  }

  /** `completionResponse.choices[0].message.content || "Error"`, or the error thrown: a
      rejection keeps its message, and a reply without choices fails on `choices[0]`. */
  function AnswerOf(reply: ChatReply): (r: Result<string>)
    ensures reply.ChatFailed? ==> r == Err(reply.message)
    ensures reply.Completion? && |reply.choices| == 0 ==> r == Err(NoChoiceError)
    ensures reply.Completion? && |reply.choices| > 0 ==> r == Ok(OrFallback(reply.choices[0].content))
  {
    match reply
    case ChatFailed(m) => Err(m)
    case Completion(choices) => if |choices| == 0 then Err(NoChoiceError) else Ok(OrFallback(choices[0].content))
  }

  /** `generateResponse`: with a list of passages, exactly one chat call, whose prompt is
      built from that list and the query; the answer is the first choice's content, or the
      fallback, and is never empty; a rejection keeps its message, a reply without choices
      gives the runtime's TypeError, and with null data `map` throws before any call. */
  function GenerateResponse(query: string, docs: Option<seq<Document>>, complete: ChatRequest -> ChatReply)
    : (r: Step<string>)
    ensures docs.None? ==> r == Step([], Err(NullDocumentsError))
    ensures docs.Some? ==> r.calls == [ChatCall(ChatRequest("gpt-3.5-turbo",
      [Message("system", Persona), Message("user", Prompt(Context(docs.value), query))]))]
    ensures r.outcome.Ok? ==> |r.outcome.value| > 0
    ensures r.outcome.Ok? <==>
      (docs.Some? && complete(CompletionRequestFor(query, docs.value)).Completion?
       && |complete(CompletionRequestFor(query, docs.value)).choices| > 0)
    ensures docs.Some? ==>
      var reply := complete(CompletionRequestFor(query, docs.value));
      && (reply.Completion? && |reply.choices| > 0 ==> r.outcome == Ok(OrFallback(reply.choices[0].content)))
      && (reply.ChatFailed? ==> r.outcome == Err(reply.message))
      && (reply.Completion? && |reply.choices| == 0 ==> r.outcome == Err(NoChoiceError))
  {
    match docs
    case None => Step([], Err(NullDocumentsError))
    case Some(ds) =>
      var request := CompletionRequestFor(query, ds);
      Step([ChatCall(request)], AnswerOf(complete(request)))
  }

  /** The context is empty for no passages, and otherwise it is exactly the string of the
      joined length holding each passage's content, in order, with a blank line after
      every passage but the last. */
  lemma ContextCharacterised(docs: seq<Document>, r: string)
    ensures |docs| == 0 ==> Context(docs) == ""
    ensures |docs| > 0 ==>
      (r == Context(docs) <==> |r| + 2 == Start(Contents(docs), "\n\n", |docs|) && Laid(Contents(docs), "\n\n", r))
  {
    JoinLength(Contents(docs), ContextSeparator);
    if |docs| > 0 {
      JoinCharacterised(Contents(docs), ContextSeparator, r);
    }
  }

  /** A single passage is the whole context. */
  lemma ContextOfOne(d: Document)
    ensures Context([d]) == ContentText(d)
  {
    assert Contents([d]) == [ContentText(d)];
  }

  /** Adding a passage to a non-empty list adds a blank line and its content at the end.
      A helper: one step of `Join`'s recursion, stated on documents. */
  lemma ContextSnoc(docs: seq<Document>, d: Document)
    requires |docs| > 0
    ensures Context(docs + [d]) == Context(docs) + "\n\n" + ContentText(d)
  {
    var all := Contents(docs + [d]);
    assert all[..|docs|] == Contents(docs);
    assert all[|docs|] == ContentText(d);
  }

  /** The prompt is the three fixed labels with the context and the query in their slots.
      A helper: `Prompt`'s concatenation rewritten as slices, used by `PromptInjective`. */
  lemma PromptLayout(context: string, query: string)
    ensures var p := Prompt(context, query);
      && |p| == |context| + |query| + 30
      && p[..9] == "Context: "
      && p[9..9 + |context|] == context
      && p[9 + |context|..21 + |context|] == "\n\nQuestion: "
      && p[21 + |context|..21 + |context| + |query|] == query
      && p[21 + |context| + |query|..] == "\n\nAnswer:"
  {
  }

  /** Two prompts with queries of the same length are equal only when their contexts and
      queries are. */
  lemma PromptInjective(c1: string, q1: string, c2: string, q2: string)
    requires |q1| == |q2|
    requires Prompt(c1, q1) == Prompt(c2, q2)
    ensures c1 == c2 && q1 == q2
  {
    PromptLayout(c1, q1);
    PromptLayout(c2, q2);
  }

  /** One passage and a question give the prompt the system is designed to send. */
  lemma PromptExample()
    ensures Prompt(Context([Document(Some("5 years building APIs"))]), "What is your experience?")
         == "Context: 5 years building APIs\n\nQuestion: What is your experience?\n\nAnswer:"
  {
    var c := "5 years building APIs";
    var q := "What is your experience?";
    ContextOfOne(Document(Some(c)));
    assert "Context: " + c == "Context: 5 years building APIs";
    assert "Context: 5 years building APIs" + "\n\nQuestion: " == "Context: 5 years building APIs\n\nQuestion: ";
    assert "Context: 5 years building APIs\n\nQuestion: " + q
        == "Context: 5 years building APIs\n\nQuestion: What is your experience?";
    assert "Context: 5 years building APIs\n\nQuestion: What is your experience?" + "\n\nAnswer:"
        == "Context: 5 years building APIs\n\nQuestion: What is your experience?\n\nAnswer:";
  }

  /** With no passages the chat call is still made, on an empty context. */
  lemma NoPassagesStillGenerate(query: string, complete: ChatRequest -> ChatReply)
    ensures GenerateResponse(query, Some([]), complete).calls
         == [ChatCall(ChatRequest(ChatModel, [Message("system", Persona),
               Message("user", "Context: \n\nQuestion: " + query + "\n\nAnswer:")]))]
  {
    assert Context([]) == "";
    assert Prompt("", query) == "Context: " + "\n\nQuestion: " + query + "\n\nAnswer:";
    assert "Context: " + "\n\nQuestion: " == "Context: \n\nQuestion: ";
  }
}
