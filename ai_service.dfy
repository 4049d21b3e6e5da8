/**
 * The chat orchestration: every entry point first runs the input guardrail; the chat
 * entry points bracket the model call with exactly one request event and one response or
 * error event; the streaming chat builds its prompt from the system prompt, the retrieved
 * context and the conversation history, passes on the non-empty fragments, and writes
 * the exchange to memory only once the stream has completed.
 *
 * The model's answers are parameters: a reply or a failure for a plain call, and for a
 * stream the fragments it delivers followed by an optional failure.
 */
module Ai {
  import opened Wrappers
  import opened Messages
  import opened Documents
  import ChatMemory
  import InputGuardrail
  import ChatModelListener
  import Rag
  import StructuredOutput
  import VectorSearch
  import Seqs

  /** The built-in system prompt, used when the prompt file cannot be read. */
  const DefaultSystemPrompt: string :=
    "你是编程领域的小助手，帮助用户解答编程学习和求职面试相关的问题，并给出建议。重点关注 4 个方向：\n"
    + "1. 规划清晰的编程学习路线\n"
    + "2. 提供项目学习建议\n"
    + "3. 给出程序员求职全流程指南（比如简历优化、投递技巧）\n"
    + "4. 分享高频面试题和面试技巧\n"
    + "请用简洁易懂的语言回答，助力用户高效学习与求职。"

  const ChatModelName := "chat-model"
  const StreamingModelName := "streaming-chat-model"
  const RejectionPrefix := "Input validation failed: "
  const ContextHeader := "\n\n相关参考资料：\n"
  const DocSeparator := "\n---\n"

  /** `chatWithRag`'s answer: the reply and where its context came from. */
  datatype RagResult = RagResult(content: string, sources: seq<string>)

  /** `` `Input validation failed: ${reason}` ``; a missing reason prints as `undefined`. */
  function Rejection(reason: Option<string>): (r: string)
    ensures |r| >= |RejectionPrefix| && r[..|RejectionPrefix|] == RejectionPrefix
    ensures reason.Some? ==> r[|RejectionPrefix|..] == reason.value
  {
    RejectionPrefix + (if reason.Some? then reason.value else "undefined")
  }

  /** The report `chatForReport` returns for rejected input: `reason || "输入包含不安全内容"`. */
  function ReportRejection(reason: Option<string>): (r: StructuredOutput.Report)
    ensures r.name == "验证失败" && |r.suggestionList| == 1
    ensures reason.Some? && reason.value != "" ==> r.suggestionList[0] == reason.value
    ensures reason.None? || reason == Some("") ==> r.suggestionList[0] == "输入包含不安全内容"
  {
    var suggestion := if reason.Some? && reason.value != "" then reason.value else "输入包含不安全内容";
    StructuredOutput.Report("验证失败", [suggestion])
  }

  /** `parts.join(sep)`. */
  function Join(parts: seq<string>, sep: string): string {
    if parts == [] then ""
    else if |parts| == 1 then parts[0]
    else Join(parts[..|parts| - 1], sep) + sep + parts[|parts| - 1]
  }

  /** `docs.map((doc) => doc.pageContent)`. */
  function PageContents(docs: seq<Document>): (r: seq<string>)
    ensures |r| == |docs| && forall i :: 0 <= i < |docs| ==> r[i] == docs[i].pageContent
  {
    if docs == [] then [] else PageContents(docs[..|docs| - 1]) + [docs[|docs| - 1].pageContent]
  }

  /**
   * The context appended to the system prompt: empty when nothing was retrieved, else a
   * header followed by the page contents joined with a separator line.
   */
  function ContextBlock(docs: seq<Document>): (r: string)
    ensures r == "" <==> docs == []
    ensures docs != [] ==> |r| >= |ContextHeader| && r[..|ContextHeader|] == ContextHeader
    ensures |docs| == 1 ==> r == ContextHeader + docs[0].pageContent
  {
    if docs == [] then "" else ContextHeader + Join(PageContents(docs), DocSeparator)
  }

  /** One more retrieved document adds a separator and its content at the end of the context. */
  lemma ContextBlockAppend(docs: seq<Document>, d: Document)
    requires docs != []
    ensures ContextBlock(docs + [d]) == ContextBlock(docs) + DocSeparator + d.pageContent
  {
    var all := PageContents(docs + [d]);
    assert all[..|all| - 1] == PageContents(docs);
  }

  /** `doc.metadata?.source || doc.metadata?.file_name || "unknown"`. */
  function SourceOf(m: Metadata): (r: string)
    ensures m.source.Some? && m.source.value != "" ==> r == m.source.value
    ensures (m.source.None? || m.source == Some("")) && m.fileName.Some? && m.fileName.value != "" ==>
              r == m.fileName.value
    ensures (m.source.None? || m.source == Some("")) && (m.fileName.None? || m.fileName == Some("")) ==>
              r == "unknown"
  {
    if m.source.Some? && m.source.value != "" then m.source.value
    else if m.fileName.Some? && m.fileName.value != "" then m.fileName.value
    else "unknown"
  }

  /** The `sources` of `chatWithRag`: one label per retrieved document, in order. */
  function Sources(docs: seq<Document>): (r: seq<string>)
    ensures |r| == |docs|
    ensures forall i :: 0 <= i < |docs| ==> r[i] == SourceOf(docs[i].metadata)
  {
    if docs == [] then [] else [SourceOf(docs[0].metadata)] + Sources(docs[1..])
  }

  /** The streaming prompt: system prompt plus context, the history oldest first, then the user turn. */
  function Prompt(systemPrompt: string, context: string, history: seq<Message>, userMessage: string)
    : (r: seq<Message>)
    ensures |r| == |history| + 2
    ensures r[0] == SystemMessage(systemPrompt + context)
    ensures r[1..|r| - 1] == history
    ensures r[|r| - 1] == HumanMessage(userMessage)
  {
    [SystemMessage(systemPrompt + context)] + history + [HumanMessage(userMessage)]
  }

  /** The fragments `if (content)` lets through: the non-empty ones, in order. */
  function NonEmpty(fragments: seq<string>): (r: seq<string>)
    ensures |r| <= |fragments|
    ensures forall i :: 0 <= i < |r| ==> r[i] != "" && r[i] in fragments
    ensures forall x :: x in fragments && x != "" ==> x in r
  {
    if fragments == [] then []
    else
      var front := fragments[..|fragments| - 1];
      var last := fragments[|fragments| - 1];
      assert fragments == front + [last];
      NonEmpty(front) + (if last != "" then [last] else [])
  }

  /** One more fragment is passed on after the earlier ones exactly when it is non-empty. */
  lemma NonEmptyStep(fragments: seq<string>, x: string)
    ensures NonEmpty(fragments + [x]) == NonEmpty(fragments) + (if x != "" then [x] else [])
  {
    assert (fragments + [x])[..|fragments|] == fragments;
  }

  /**
   * The non-empty fragments of a stream are those of its first part followed by those of
   * the rest: order and repetitions are kept, nothing is merged or reordered.
   */
  lemma {:induction false} NonEmptyAppend(f: seq<string>, g: seq<string>)
    ensures NonEmpty(f + g) == NonEmpty(f) + NonEmpty(g)
    decreases |g|
  {
    if g == [] {
      assert f + g == f;
    } else {
      var front := g[..|g| - 1];
      var last := g[|g| - 1];
      assert g == front + [last];
      assert f + g == (f + front) + [last];
      NonEmptyStep(f + front, last);
      NonEmptyStep(front, last);
      NonEmptyAppend(f, front);
    }
  }

  /** The fragments concatenated in order. */
  function Concat(fragments: seq<string>): string {
    if fragments == [] then "" else Concat(fragments[..|fragments| - 1]) + fragments[|fragments| - 1]
  }

  /** Skipping empty fragments does not change the concatenation: the reply is all of the stream's text. */
  lemma {:induction false} ConcatNonEmpty(fragments: seq<string>)
    ensures Concat(NonEmpty(fragments)) == Concat(fragments)
  {
    if fragments != [] {
      var front := fragments[..|fragments| - 1];
      var last := fragments[|fragments| - 1];
      ConcatNonEmpty(front);
      var kept := NonEmpty(front);
      if last != "" {
        assert (kept + [last])[..|kept|] == kept;
      } else {
        assert kept + [] == kept;
      }
    }
  }

  /** The `for await` loop: pass on each non-empty fragment and accumulate the full reply. */
  method StreamFragments(fragments: seq<string>) returns (emitted: seq<string>, fullResponse: string)
    ensures emitted == NonEmpty(fragments)
    ensures fullResponse == Concat(fragments)
  {
    emitted := [];
    fullResponse := "";
    var i := 0;
    while i < |fragments|
      invariant 0 <= i <= |fragments|
      invariant emitted == NonEmpty(fragments[..i])
      invariant fullResponse == Concat(emitted)
    {
      var content := fragments[i];
      assert fragments[..i + 1][..i] == fragments[..i];
      if content != "" {
        assert (emitted + [content])[..|emitted|] == emitted;
        fullResponse := fullResponse + content;
        emitted := emitted + [content];
      }
      i := i + 1;
    }
    assert fragments[..i] == fragments;
    ConcatNonEmpty(fragments);
  }

  /** The event closing a model call: a response with its latency, or the error. */
  function Terminal(outcome: Result<string, string>, modelName: string, end: int, latencyMs: int)
    : (e: ChatModelListener.Event)
    ensures outcome.Success? ==> e == ChatModelListener.ResponseEvent(outcome.value, Some(modelName), end, latencyMs)
    ensures outcome.Failure? ==> e == ChatModelListener.ErrorEvent(outcome.error, Some(modelName), end)
  {
    match outcome
    case Success(content) => ChatModelListener.ResponseEvent(content, Some(modelName), end, latencyMs)
    case Failure(error) => ChatModelListener.ErrorEvent(error, Some(modelName), end)
  }

  /**
   * The telemetry of one model call: the request event to every listener, then the closing
   * event to every listener, its latency measured from the start time just recorded.
   */
  function Bracket(listeners: seq<ChatModelListener.Listener>, starts: map<string, int>, messages: seq<Message>,
                   modelName: string, outcome: Result<string, string>, start: nat, end: int, random: string)
    : (r: seq<ChatModelListener.Delivery>)
    ensures |r| == 2 * |listeners|
  {
    var id := ChatModelListener.RequestId(start, random);
    ChatModelListener.Deliveries(listeners, ChatModelListener.RequestEvent(messages, Some(modelName), start))
    + ChatModelListener.Deliveries(listeners,
        Terminal(outcome, modelName, end, ChatModelListener.Latency(starts[id := start], id, end)))
  }

  /** Two appends to one conversation keep the newest messages of the history and both additions. */
  lemma AppendTwo(h: seq<Message>, a: Message, b: Message)
    ensures ChatMemory.Newest(ChatMemory.Newest(h + [a]) + [b]) == ChatMemory.Newest(h + [a, b])
  {
    ChatMemory.NewestStep(h + [a], b);
    assert h + [a] + [b] == h + [a, b];
  }

  lemma UpdateTwice<K, V>(m: map<K, V>, k: K, v1: V, v2: V)
    ensures m[k := v1][k := v2] == m[k := v2]
  {
  }

  class AiService {
    var systemPrompt: string
    const memory: ChatMemory.ChatMemoryService
    const listener: ChatModelListener.ChatModelListenerService
    const guardrail: InputGuardrail.SafeInputGuardrail
    const rag: Rag.RagService

    ghost predicate Valid()
      reads this, memory
    {
      memory.Valid()
    }

    constructor (memory: ChatMemory.ChatMemoryService, listener: ChatModelListener.ChatModelListenerService,
                 guardrail: InputGuardrail.SafeInputGuardrail, rag: Rag.RagService)
      requires memory.Valid()
      ensures Valid()
      ensures this.memory == memory && this.listener == listener
      ensures this.guardrail == guardrail && this.rag == rag
      ensures systemPrompt == ""
    {
      this.memory := memory;
      this.listener := listener;
      this.guardrail := guardrail;
      this.rag := rag;
      systemPrompt := "";
    }

    /** The guardrail's verdict on `userMessage`. */
    function VerdictOn(userMessage: string): InputGuardrail.GuardrailResult
      reads guardrail
    {
      InputGuardrail.Verdict(guardrail.Banned(), userMessage)
    }

    /** The documents `retrieve` yields with its default limits. */
    function RetrievedDocs(score: Document -> real, retrieveFails: bool): seq<Document>
      reads rag
    {
      VectorSearch.Items(Rag.Retrieved(rag.vectorStore, retrieveFails, Rag.DefaultMaxResults,
                                       Rag.DefaultMinScore, score))
    }

    /** The prompt `chatStream` sends. */
    function StreamPrompt(memoryId: int, userMessage: string, score: Document -> real, retrieveFails: bool)
      : seq<Message>
      reads this, memory, rag
      requires Valid()
    {
      Prompt(systemPrompt, ContextBlock(RetrievedDocs(score, retrieveFails)), memory.GetHistory(memoryId), userMessage)
    }

    /**
     * `onModuleInit`: read the system prompt (the built-in one when the file is unreadable),
     * then initialize retrieval.
     */
    method OnModuleInit(promptFile: Option<string>, docsPath: string, listing: Option<seq<FileEntry>>,
                        split: seq<Document> -> seq<Document>, ragFails: bool)
      requires Valid()
      modifies this, rag
      ensures Valid()
      ensures systemPrompt == if promptFile.Some? then promptFile.value else DefaultSystemPrompt
      ensures rag.initialized
      ensures old(rag.initialized) ==> rag.vectorStore == old(rag.vectorStore)
      ensures !old(rag.initialized) ==>
                rag.vectorStore == if ragFails || Rag.IndexedChunks(docsPath, listing, split).None? then old(rag.vectorStore)
                                   else Rag.IndexedChunks(docsPath, listing, split)
    {
      if promptFile.Some? {
        systemPrompt := promptFile.value;
      } else {
        systemPrompt := DefaultSystemPrompt;
      }
      rag.Initialize(docsPath, listing, split, ragFails);
    }

    /**
     * The model call inside the telemetry bracket: one request event, then the response
     * event when the call returns or the error event when it fails.
     */
    method CallModel(messages: seq<Message>, modelName: string, outcome: Result<string, string>,
                     start: nat, end: int, random: string)
      modifies listener
      ensures listener.listeners == old(listener.listeners)
      ensures listener.requestStartTime
              == old(listener.requestStartTime)[ChatModelListener.RequestId(start, random) := start]
                 - {ChatModelListener.RequestId(start, random)}
      ensures listener.deliveries == old(listener.deliveries)
              + Bracket(listener.listeners, old(listener.requestStartTime), messages, modelName, outcome, start, end, random)
    {
      ghost var before := listener.deliveries;
      ghost var starts := listener.requestStartTime;
      var requestId := listener.OnRequest(messages, Some(modelName), start, random);
      ghost var requestEvents := listener.deliveries[|before|..];
      Close(requestId, modelName, outcome, end);
      Seqs.ConcatAssoc(before, requestEvents, listener.deliveries[|before| + |requestEvents|..]);
    }

    /** `onResponse` when the call returned, `onError` when it failed. */
    method Close(requestId: string, modelName: string, outcome: Result<string, string>, end: int)
      modifies listener
      ensures listener.listeners == old(listener.listeners)
      ensures listener.requestStartTime == old(listener.requestStartTime) - {requestId}
      ensures listener.deliveries == old(listener.deliveries)
              + ChatModelListener.Deliveries(listener.listeners,
                  Terminal(outcome, modelName, end, ChatModelListener.Latency(old(listener.requestStartTime), requestId, end)))
    {
      match outcome {
        case Success(content) =>
          listener.OnResponse(requestId, content, Some(modelName), end);
        case Failure(error) =>
          listener.OnError(requestId, error, Some(modelName), end);
      }
    }

    /**
     * `chat`: rejected input gets the rejection message and nothing else happens; otherwise
     * the model call, bracketed by one request event and one response or error event.
     */
    method Chat(userMessage: string, reply: Result<string, string>, start: nat, end: int, random: string)
      returns (r: Result<string, string>)
      modifies listener
      ensures listener.listeners == old(listener.listeners)
      ensures !VerdictOn(userMessage).safe ==>
                && r == Success(Rejection(VerdictOn(userMessage).reason))
                && listener.deliveries == old(listener.deliveries)
                && listener.requestStartTime == old(listener.requestStartTime)
      ensures VerdictOn(userMessage).safe ==>
                && r == reply
                && listener.requestStartTime
                   == old(listener.requestStartTime)[ChatModelListener.RequestId(start, random) := start]
                      - {ChatModelListener.RequestId(start, random)}
                && listener.deliveries == old(listener.deliveries)
                   + Bracket(listener.listeners, old(listener.requestStartTime),
                             [SystemMessage(systemPrompt), HumanMessage(userMessage)], ChatModelName, reply, start, end, random)
    {
      var guardrailResult := guardrail.Validate(userMessage);
      if !guardrailResult.safe {
        return Success(Rejection(guardrailResult.reason));
      }
      var messages := [SystemMessage(systemPrompt), HumanMessage(userMessage)];
      CallModel(messages, ChatModelName, reply, start, end, random);
      r := reply;
    }

    /** `chatForReport`: a rejection report for rejected input, else the structured-output report. */
    method ChatForReport(userMessage: string, response: Result<string, string>,
                         parse: string -> Option<StructuredOutput.Json>)
      returns (r: StructuredOutput.Report)
      ensures !VerdictOn(userMessage).safe ==> r == ReportRejection(VerdictOn(userMessage).reason)
      ensures VerdictOn(userMessage).safe ==> r == StructuredOutput.ChatForReport(response, parse)
    {
      var guardrailResult := guardrail.Validate(userMessage);
      if !guardrailResult.safe {
        return ReportRejection(guardrailResult.reason);
      }
      r := StructuredOutput.ChatForReport(response, parse);
    }

    /** The write-back after a completed stream: the user message, then the full reply. */
    method SaveExchange(memoryId: int, userMessage: string, fullResponse: string)
      requires Valid()
      modifies memory
      ensures Valid()
      ensures memory.memoryStore == old(memory.memoryStore)[memoryId :=
                ChatMemory.Newest(old(memory.GetHistory(memoryId)) + [HumanMessage(userMessage), AiMessage(fullResponse)])]
      ensures memory.keyOrder == if memoryId in old(memory.keyOrder) then old(memory.keyOrder)
                                 else old(memory.keyOrder) + [memoryId]
    {
      ghost var history := memory.GetHistory(memoryId);
      ghost var store := memory.memoryStore;
      memory.AddMessage(memoryId, HumanMessage(userMessage));
      ghost var afterUser := ChatMemory.Newest(history + [HumanMessage(userMessage)]);
      assert memory.memoryStore[memoryId] == afterUser;
      memory.AddMessage(memoryId, AiMessage(fullResponse));
      AppendTwo(history, HumanMessage(userMessage), AiMessage(fullResponse));
      UpdateTwice(store, memoryId, afterUser, ChatMemory.Newest(afterUser + [AiMessage(fullResponse)]));
    }

    /**
     * The streaming model call inside the telemetry bracket: one request event, every
     * non-empty fragment passed on, then the response event with the concatenated reply or
     * the error event when the stream fails.
     */
    method StreamModel(messages: seq<Message>, fragments: seq<string>, failure: Option<string>,
                       start: nat, end: int, random: string)
      returns (emitted: seq<string>, fullResponse: string)
      modifies listener
      ensures emitted == NonEmpty(fragments) && fullResponse == Concat(fragments)
      ensures listener.listeners == old(listener.listeners)
      ensures listener.requestStartTime
              == old(listener.requestStartTime)[ChatModelListener.RequestId(start, random) := start]
                 - {ChatModelListener.RequestId(start, random)}
      ensures listener.deliveries == old(listener.deliveries)
              + Bracket(listener.listeners, old(listener.requestStartTime), messages, StreamingModelName,
                        if failure.None? then Success(Concat(fragments)) else Failure(failure.value),
                        start, end, random)
    {
      ghost var before := listener.deliveries;
      var requestId := listener.OnRequest(messages, Some(StreamingModelName), start, random);
      ghost var requestEvents := listener.deliveries[|before|..];
      emitted, fullResponse := StreamFragments(fragments);
      var outcome := if failure.None? then Success(fullResponse) else Failure(failure.value);
      Close(requestId, StreamingModelName, outcome, end);
      Seqs.ConcatAssoc(before, requestEvents, listener.deliveries[|before| + |requestEvents|..]);
    }

    /**
     * `chatStream`: rejected input yields only the rejection message. Otherwise the prompt is
     * built, one request event is sent, every non-empty fragment is passed on, and then either
     * the failure is reported (error event, memory untouched) or the response event is sent
     * and the user message and the full reply are appended to the conversation, in that order.
     */
    method ChatStream(memoryId: int, userMessage: string, score: Document -> real, retrieveFails: bool,
                      fragments: seq<string>, failure: Option<string>, start: nat, end: int, random: string)
      returns (emitted: seq<string>, error: Option<string>)
      requires Valid()
      modifies memory, listener
      ensures Valid()
      ensures listener.listeners == old(listener.listeners)
      ensures !VerdictOn(userMessage).safe ==>
                && emitted == [Rejection(VerdictOn(userMessage).reason)] && error.None?
                && memory.memoryStore == old(memory.memoryStore)
                && memory.keyOrder == old(memory.keyOrder)
                && listener.deliveries == old(listener.deliveries)
                && listener.requestStartTime == old(listener.requestStartTime)
      ensures VerdictOn(userMessage).safe ==>
                && emitted == NonEmpty(fragments)
                && error == failure
                && listener.requestStartTime
                   == old(listener.requestStartTime)[ChatModelListener.RequestId(start, random) := start]
                      - {ChatModelListener.RequestId(start, random)}
                && listener.deliveries == old(listener.deliveries)
                   + Bracket(listener.listeners, old(listener.requestStartTime),
                             old(StreamPrompt(memoryId, userMessage, score, retrieveFails)), StreamingModelName,
                             if failure.None? then Success(Concat(fragments)) else Failure(failure.value),
                             start, end, random)
      ensures VerdictOn(userMessage).safe && failure.Some? ==>
                memory.memoryStore == old(memory.memoryStore) && memory.keyOrder == old(memory.keyOrder)
      ensures VerdictOn(userMessage).safe && failure.None? ==>
                && memory.memoryStore == old(memory.memoryStore)[memoryId :=
                     ChatMemory.Newest(old(memory.GetHistory(memoryId))
                                       + [HumanMessage(userMessage), AiMessage(Concat(fragments))])]
                && memory.keyOrder == if memoryId in old(memory.keyOrder) then old(memory.keyOrder)
                                      else old(memory.keyOrder) + [memoryId]
    {
      var guardrailResult := guardrail.Validate(userMessage);
      if !guardrailResult.safe {
        return [Rejection(guardrailResult.reason)], None;
      }
      emitted := AnswerStream(memoryId, userMessage, score, retrieveFails, fragments, failure, start, end, random);
      error := failure;
    }

    /**
     * The accepted path of `chatStream`: the prompt from the system prompt, the retrieved
     * context, the history and the user message; the bracketed stream; and, when the stream
     * completed, the exchange written back to memory.
     */
    method AnswerStream(memoryId: int, userMessage: string, score: Document -> real, retrieveFails: bool,
                        fragments: seq<string>, failure: Option<string>, start: nat, end: int, random: string)
      returns (emitted: seq<string>)
      requires Valid()
      modifies memory, listener
      ensures Valid()
      ensures emitted == NonEmpty(fragments)
      ensures listener.listeners == old(listener.listeners)
      ensures listener.requestStartTime
              == old(listener.requestStartTime)[ChatModelListener.RequestId(start, random) := start]
                 - {ChatModelListener.RequestId(start, random)}
      ensures listener.deliveries == old(listener.deliveries)
              + Bracket(listener.listeners, old(listener.requestStartTime),
                        old(StreamPrompt(memoryId, userMessage, score, retrieveFails)), StreamingModelName,
                        if failure.None? then Success(Concat(fragments)) else Failure(failure.value),
                        start, end, random)
      ensures failure.Some? ==> memory.memoryStore == old(memory.memoryStore) && memory.keyOrder == old(memory.keyOrder)
      ensures failure.None? ==>
                && memory.memoryStore == old(memory.memoryStore)[memoryId :=
                     ChatMemory.Newest(old(memory.GetHistory(memoryId))
                                       + [HumanMessage(userMessage), AiMessage(Concat(fragments))])]
                && memory.keyOrder == if memoryId in old(memory.keyOrder) then old(memory.keyOrder)
                                      else old(memory.keyOrder) + [memoryId]
    {
      var history := memory.GetHistory(memoryId);
      var relevantDocs := rag.Retrieve(Rag.DefaultMaxResults, Rag.DefaultMinScore, score, retrieveFails);
      var contextMessage := ContextBlock(relevantDocs);
      var messages := Prompt(systemPrompt, contextMessage, history, userMessage);
      var fullResponse;
      emitted, fullResponse := StreamModel(messages, fragments, failure, start, end, random);
      if failure.None? {
        SaveExchange(memoryId, userMessage, fullResponse);
      }
    }

    /**
     * `chatWithRag`: rejected input gets the rejection message and no sources; otherwise the
     * retrieved documents give the context and the sources, and the model call is bracketed
     * by one request event and one response or error event.
     */
    method ChatWithRag(userMessage: string, score: Document -> real, retrieveFails: bool,
                       reply: Result<string, string>, start: nat, end: int, random: string)
      returns (r: Result<RagResult, string>)
      modifies listener
      ensures listener.listeners == old(listener.listeners)
      ensures !VerdictOn(userMessage).safe ==>
                && r == Success(RagResult(Rejection(VerdictOn(userMessage).reason), []))
                && listener.deliveries == old(listener.deliveries)
                && listener.requestStartTime == old(listener.requestStartTime)
      ensures VerdictOn(userMessage).safe ==>
                && r == (if reply.Success? then Success(RagResult(reply.value, Sources(RetrievedDocs(score, retrieveFails))))
                         else Failure(reply.error))
                && listener.requestStartTime
                   == old(listener.requestStartTime)[ChatModelListener.RequestId(start, random) := start]
                      - {ChatModelListener.RequestId(start, random)}
                && listener.deliveries == old(listener.deliveries)
                   + Bracket(listener.listeners, old(listener.requestStartTime),
                             [SystemMessage(systemPrompt + ContextBlock(RetrievedDocs(score, retrieveFails))),
                              HumanMessage(userMessage)],
                             ChatModelName, reply, start, end, random)
    {
      var guardrailResult := guardrail.Validate(userMessage);
      if !guardrailResult.safe {
        return Success(RagResult(Rejection(guardrailResult.reason), []));
      }
      r := AnswerWithRag(userMessage, score, retrieveFails, reply, start, end, random);
    }

    /** The accepted path of `chatWithRag`: retrieval, the bracketed model call, the sources. */
    method AnswerWithRag(userMessage: string, score: Document -> real, retrieveFails: bool,
                         reply: Result<string, string>, start: nat, end: int, random: string)
      returns (r: Result<RagResult, string>)
      modifies listener
      ensures listener.listeners == old(listener.listeners)
      ensures r == if reply.Success? then Success(RagResult(reply.value, Sources(RetrievedDocs(score, retrieveFails))))
                   else Failure(reply.error)
      ensures listener.requestStartTime
              == old(listener.requestStartTime)[ChatModelListener.RequestId(start, random) := start]
                 - {ChatModelListener.RequestId(start, random)}
      ensures listener.deliveries == old(listener.deliveries)
              + Bracket(listener.listeners, old(listener.requestStartTime),
                        [SystemMessage(systemPrompt + ContextBlock(RetrievedDocs(score, retrieveFails))),
                         HumanMessage(userMessage)],
                        ChatModelName, reply, start, end, random)
    {
      var relevantDocs := rag.Retrieve(Rag.DefaultMaxResults, Rag.DefaultMinScore, score, retrieveFails);
      assert relevantDocs == RetrievedDocs(score, retrieveFails);
      var sources := Sources(relevantDocs);
      var contextMessage := ContextBlock(relevantDocs);
      var messages := [SystemMessage(systemPrompt + contextMessage), HumanMessage(userMessage)];
      CallModel(messages, ChatModelName, reply, start, end, random);
      assert relevantDocs == RetrievedDocs(score, retrieveFails);
      r := if reply.Success? then Success(RagResult(reply.value, sources)) else Failure(reply.error);
    }

    /**
     * `chatWithTools`: rejected input gets the rejection message; otherwise (None) the request
     * goes on to the tool provider, which is not part of this model.
     */
    method ChatWithTools(userMessage: string) returns (rejection: Option<string>)
      ensures rejection.Some? <==> !VerdictOn(userMessage).safe
      ensures rejection.Some? ==> rejection.value == Rejection(VerdictOn(userMessage).reason)
    {
      var guardrailResult := guardrail.Validate(userMessage);
      if !guardrailResult.safe {
        return Some(Rejection(guardrailResult.reason));
      }
      rejection := None;
    }

    /**
     * `chatWithMcp`: rejected input gets the rejection message; otherwise the model's reply
     * (after an optional web search feeding the prompt), with no listener events.
     */
    method ChatWithMcp(userMessage: string, reply: Result<string, string>) returns (r: Result<string, string>)
      ensures !VerdictOn(userMessage).safe ==> r == Success(Rejection(VerdictOn(userMessage).reason))
      ensures VerdictOn(userMessage).safe ==> r == reply
    {
      var guardrailResult := guardrail.Validate(userMessage);
      if !guardrailResult.safe {
        return Success(Rejection(guardrailResult.reason));
      }
      r := reply;
    }

    /** `addChatModelListener`: register a listener at the end of the list. */
    method AddChatModelListener(l: ChatModelListener.Listener)
      modifies listener
      ensures listener.listeners == old(listener.listeners) + [l]
      ensures listener.requestStartTime == old(listener.requestStartTime)
      ensures listener.deliveries == old(listener.deliveries)
    {
      listener.AddListener(l);
    }
  }
}
