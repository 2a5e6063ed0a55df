/**
 * The POST handler of the chat endpoint, as a function of its inputs: whether the
 * API key is configured, the parsed request body, what retrieval returns, and
 * what the completion provider answers. Its result records the HTTP response and
 * the calls it made, so that "no provider call" is a statement about the result.
 */
module ChatRoute {
  import opened Wrappers
  import opened Sequences
  import opened Strings
  import opened Knowledge
  import Embeddings

  datatype Message = Message(role: string, content: string)

  /** The `messages` field of the request body. */
  datatype MessagesField =
    | Missing            // undefined, null or another falsy value
    | NotAnArray         // present and truthy but not an array
    | AnArray(items: seq<Message>)

  /** An exception as the handler's catch block sees it: `error.status` and `error.message`, either possibly absent. */
  datatype ThrownError = ThrownError(status: Option<int>, message: Option<string>)

  /**
   * The parsed request body. A body of `null` makes reading `messages` throw (Unreadable);
   * any other non-object JSON value (a number, a string, an array) has no own `messages`
   * and arrives as Parsed(Missing).
   */
  datatype RequestBody =
    | Unreadable(error: ThrownError)     // request.json() threw, or the body is null
    | Parsed(messages: MessagesField)

  /** What the chat completion call did: answered, with the first choice's content if any, or threw. */
  datatype CompletionOutcome = Answered(content: Option<string>) | Threw(error: ThrownError)

  datatype Body =
    | ErrorBody(error: string)
    | ErrorWithMessage(error: string, message: string)
    | MessageBody(message: string)

  datatype Response = Response(status: int, body: Body)

  /** The arguments findRelevantKnowledge was called with. */
  datatype RetrievalCall = RetrievalCall(query: string, knowledgeEntries: seq<KnowledgeEntry>, topK: int)

  /** The response, and the retrieval and completion calls made on the way (None: not made). */
  datatype Exchange = Exchange(response: Response, retrieval: Option<RetrievalCall>, payload: Option<seq<Message>>)

  const TopK: int := 3
  const UserRole: string := "user"
  const SystemRole: string := "system"

  const KeyNotConfigured: string := "OpenAI API key not configured"
  const MessagesRequired: string := "Messages array is required"
  const NoResponse: string := "No response from AI"
  const QuotaExceeded: string := "quota_exceeded"
  const QuotaMessage: string := "You've exceeded your OpenAI API quota. Please check your OpenAI account billing and add payment method if needed."
  const InvalidApiKey: string := "invalid_api_key"
  const InvalidKeyMessage: string := "Invalid OpenAI API key. Please check your environment variables."
  const GenericFailure: string := "Failed to process chat request"

  const BaseSystemPrompt: string :=
    "You are an AI assistant for a crypto stablecoin banking app that uses smart wallets.\n" +
    "Your role is to help users understand:\n" +
    "- Smart wallet features and functionality\n" +
    "- Wallet connections (web2 social login and web3 external wallets)\n" +
    "- Transaction processes and gas sponsorship\n" +
    "- Security best practices\n" +
    "- App usage and navigation\n" +
    "\n" +
    "IMPORTANT RULES:\n" +
    "- Do NOT provide financial or investment advice\n" +
    "- Do NOT provide trading recommendations\n" +
    "- Do NOT speculate on cryptocurrency prices\n" +
    "- If asked about financial decisions, redirect to: \"Please contact support for financial guidance\"\n" +
    "- Be helpful, clear, and concise\n" +
    "- If you're unsure about something, say: \"Please contact support for assistance with this question.\"\n" +
    "- Keep responses under 200 words when possible\n" +
    "- Use the provided business knowledge context to answer questions accurately\n" +
    "- If the context doesn't contain relevant information, say so and suggest contacting support"

  const ContextHeader: string := "\n\nBUSINESS KNOWLEDGE CONTEXT (use this to answer questions accurately):\n"
  const BlockSeparator: string := "\n---\n"

  predicate IsUserMessage(m: Message)
  {
    m.role == UserRole
  }

  /** The content of the last message whose role is "user", or "" when there is none. */
  function LatestUserText(messages: seq<Message>): string
  {
    var userMessages := Filter(messages, IsUserMessage);
    if |userMessages| == 0 then "" else userMessages[|userMessages| - 1].content
  }

  /** With no user message the retrieval query is empty. */
  lemma NoUserMessageGivesEmptyQuery(messages: seq<Message>)
    requires forall m :: m in messages ==> !IsUserMessage(m)
    ensures LatestUserText(messages) == ""
  {
    FilterKeepsNone(messages, IsUserMessage);
  }

  /** The retrieval query is the content of the user message that no later user message follows. */
  lemma LatestUserTextIsLastUserMessage(messages: seq<Message>, i: nat)
    requires i < |messages| && IsUserMessage(messages[i])
    requires forall j :: i < j < |messages| ==> !IsUserMessage(messages[j])
    ensures LatestUserText(messages) == messages[i].content
  {
    var before, m, after := messages[..i], messages[i], messages[i + 1..];
    assert messages == (before + [m]) + after;
    assert forall x :: x in after ==> !IsUserMessage(x) by {
      forall x | x in after
        ensures !IsUserMessage(x)
      {
        var k :| 0 <= k < |after| && after[k] == x;
        assert x == messages[i + 1 + k];
      }
    }
    FilterKeepsNone(after, IsUserMessage);
    FilterAppend(before + [m], after, IsUserMessage);
    FilterAppend(before, [m], IsUserMessage);
    assert [m][1..] == [];
    assert Filter([m], IsUserMessage) == [m];
    assert Filter(messages, IsUserMessage) == Filter(before, IsUserMessage) + [m];
  }

  /** One entry as it appears in the context: "[category] title:\ncontent\n". */
  function FormatEntry(entry: KnowledgeEntry): string
  {
    "[" + entry.category + "] " + entry.title + ":\n" + entry.content + "\n"
  }

  function FormatEntries(entries: seq<KnowledgeEntry>): seq<string>
  {
    seq(|entries|, i requires 0 <= i < |entries| => FormatEntry(entries[i]))
  }

  /** knowledgeContext: empty unless retrieval returned at least one entry. */
  function KnowledgeContext(retrieved: Option<seq<KnowledgeEntry>>): string
  {
    match retrieved
    case None => ""
    case Some(entries) =>
      if |entries| > 0 then ContextHeader + Join(FormatEntries(entries), BlockSeparator) else ""
  }

  /** The context is empty exactly when retrieval failed or found nothing; otherwise it starts with the header. */
  lemma KnowledgeContextEmptyIff(retrieved: Option<seq<KnowledgeEntry>>)
    ensures KnowledgeContext(retrieved) == "" <==> retrieved.None? || retrieved.value == []
    ensures retrieved.Some? && retrieved.value != [] ==> ContextHeader <= KnowledgeContext(retrieved)
  {
    if retrieved.Some? && retrieved.value != [] {
      assert |ContextHeader| > 0;
      assert KnowledgeContext(retrieved)[..|ContextHeader|] == ContextHeader;
    }
  }

  /** Every retrieved entry's category, title and content appear in the context. */
  lemma KnowledgeContextMentionsEntries(entries: seq<KnowledgeEntry>, k: nat)
    requires k < |entries|
    ensures Occurs(FormatEntry(entries[k]), KnowledgeContext(Some(entries)))
    ensures Occurs(entries[k].content, KnowledgeContext(Some(entries)))
  {
    var e := entries[k];
    var joined := Join(FormatEntries(entries), BlockSeparator);
    JoinContainsEach(FormatEntries(entries), BlockSeparator, k);
    OccursInPrefixed(FormatEntry(e), ContextHeader, joined);
    var before := "[" + e.category + "] " + e.title + ":\n";
    OccursInItself(e.content);
    OccursInPrefixed(e.content, before, e.content);
    OccursInSuffixed(e.content, before + e.content, "\n");
    OccursTransitive(e.content, FormatEntry(e), KnowledgeContext(Some(entries)));
  }

  /** enhancedSystemPrompt. */
  function SystemPrompt(knowledgeContext: string): (p: string)
    ensures BaseSystemPrompt <= p
    ensures p[|BaseSystemPrompt|..] == knowledgeContext
  {
    BaseSystemPrompt + knowledgeContext
  }

  /** chatMessages: the system message, then the caller's messages with their roles and contents. */
  function BuildPayload(messages: seq<Message>, systemPrompt: string): (p: seq<Message>)
    ensures |p| == |messages| + 1
    ensures p[0] == Message(SystemRole, systemPrompt)
    ensures forall i :: 0 <= i < |messages| ==> p[i + 1].role == messages[i].role && p[i + 1].content == messages[i].content
    ensures p[1..] == messages
  {
    var history := seq(|messages|, i requires 0 <= i < |messages| => Message(messages[i].role, messages[i].content));
    assert forall i :: 0 <= i < |messages| ==> history[i] == messages[i];
    [Message(SystemRole, systemPrompt)] + history
  }

  /** The catch block: quota and authentication errors by status, everything else with the error's own status and message or defaults. */
  function ClassifyError(error: ThrownError): (r: Response)
    ensures error.status == Some(429) ==> r == Response(429, ErrorWithMessage(QuotaExceeded, QuotaMessage))
    ensures error.status == Some(401) ==> r == Response(401, ErrorWithMessage(InvalidApiKey, InvalidKeyMessage))
    ensures error.status != Some(429) && error.status != Some(401) ==>
      && r.body.ErrorBody?
      && (r.status == 500 || Some(r.status) == error.status)
      && (r.body.error == GenericFailure || Some(r.body.error) == error.message)
  {
    if error.status == Some(429) then
      Response(429, ErrorWithMessage(QuotaExceeded, QuotaMessage))
    else if error.status == Some(401) then
      Response(401, ErrorWithMessage(InvalidApiKey, InvalidKeyMessage))
    else
      var message := if error.message.Some? && error.message.value != "" then error.message.value else GenericFailure;
      var status := if error.status.Some? && error.status.value != 0 then error.status.value else 500;
      Response(status, ErrorBody(message))
  }

  /** A missing or zero status falls back to 500, and a missing or empty message to the generic text. */
  lemma GenericErrorDefaults(status: Option<int>, message: Option<string>)
    requires status != Some(429) && status != Some(401)
    ensures ClassifyError(ThrownError(status, message)).status == (if status == None || status == Some(0) then 500 else status.value)
    ensures ClassifyError(ThrownError(status, message)).body ==
      ErrorBody(if message == None || message == Some("") then GenericFailure else message.value)
  {
  }

  /** The response to the completion call's outcome. */
  function Respond(outcome: CompletionOutcome): (r: Response)
    ensures outcome.Answered? && outcome.content.Some? && outcome.content.value != "" ==>
      r == Response(200, MessageBody(outcome.content.value))
    ensures outcome.Answered? && (outcome.content == None || outcome.content == Some("")) ==>
      r == Response(500, ErrorBody(NoResponse))
    ensures outcome.Threw? ==> r == ClassifyError(outcome.error)
  {
    match outcome
    case Threw(error) => ClassifyError(error)
    case Answered(content) =>
      if content.None? || content.value == "" then Response(500, ErrorBody(NoResponse))
      else Response(200, MessageBody(content.value))
  }

  /** A reply reaches the caller only as a 200 carrying a non-empty message from the provider. */
  lemma ReplyOnlyFromProvider(outcome: CompletionOutcome)
    ensures Respond(outcome).body.MessageBody? <==> outcome.Answered? && outcome.content.Some? && outcome.content.value != ""
    ensures Respond(outcome).body.MessageBody? ==> Respond(outcome).status == 200 && Some(Respond(outcome).body.message) == outcome.content
  {
  }

  predicate IsValidMessages(field: MessagesField)
  {
    field.AnArray? && |field.items| > 0
  }

  /**
   * The body of POST: parse, check the key, validate, retrieve with the latest user text over
   * `allKnowledge` (what getAllKnowledge returned) with topK = 3, build the payload, call the
   * provider, and map its outcome to a response. `retrieve` is findRelevantKnowledge
   * (None: it threw); `complete` is the completion call.
   */
  function Handle(allKnowledge: seq<KnowledgeEntry>, apiKeyConfigured: bool, body: RequestBody,
                  retrieve: (string, seq<KnowledgeEntry>, int) -> Option<seq<KnowledgeEntry>>,
                  complete: seq<Message> -> CompletionOutcome): (ex: Exchange)
    ensures ex.payload.Some? <==> ex.retrieval.Some?
    ensures ex.retrieval.Some? ==> ex.retrieval.value.knowledgeEntries == allKnowledge && ex.retrieval.value.topK == TopK
    ensures ex.payload.None? ==> !ex.response.body.MessageBody?
  {
    match body
    case Unreadable(error) =>
      Exchange(ClassifyError(error), None, None)
    case Parsed(field) =>
      if !apiKeyConfigured then
        Exchange(Response(500, ErrorBody(KeyNotConfigured)), None, None)
      else if !IsValidMessages(field) then
        Exchange(Response(400, ErrorBody(MessagesRequired)), None, None)
      else
        var messages := field.items;
        var call := RetrievalCall(LatestUserText(messages), allKnowledge, TopK);
        var knowledgeContext := KnowledgeContext(retrieve(call.query, call.knowledgeEntries, call.topK));
        var payload := BuildPayload(messages, SystemPrompt(knowledgeContext));
        Exchange(Respond(complete(payload)), Some(call), Some(payload))
  }

  /** POST: the handler over the knowledge table; any retrieval it makes is over the whole table with topK = 3. */
  function Post(apiKeyConfigured: bool, body: RequestBody,
                retrieve: (string, seq<KnowledgeEntry>, int) -> Option<seq<KnowledgeEntry>>,
                complete: seq<Message> -> CompletionOutcome): (ex: Exchange)
    ensures ex.payload.Some? <==> ex.retrieval.Some?
    ensures ex.retrieval.Some? ==> ex.retrieval.value.knowledgeEntries == BusinessKnowledge && ex.retrieval.value.topK == 3
    ensures ex.payload.None? ==> !ex.response.body.MessageBody?
  {
    Handle(GetAllKnowledge(), apiKeyConfigured, body, retrieve, complete)
  }

  /** A body that cannot be read is answered through the catch block, before the key is even checked. */
  lemma UnreadableBodyIsClassified(allKnowledge: seq<KnowledgeEntry>, apiKeyConfigured: bool, error: ThrownError,
                                   retrieve: (string, seq<KnowledgeEntry>, int) -> Option<seq<KnowledgeEntry>>,
                                   complete: seq<Message> -> CompletionOutcome)
    ensures Handle(allKnowledge, apiKeyConfigured, Unreadable(error), retrieve, complete) == Exchange(ClassifyError(error), None, None)
  {
  }

  /** Without a key: 500, whatever the messages, and neither retrieval nor the provider is called. */
  lemma MissingKeyIsRejectedFirst(allKnowledge: seq<KnowledgeEntry>, field: MessagesField,
                                  retrieve: (string, seq<KnowledgeEntry>, int) -> Option<seq<KnowledgeEntry>>,
                                  complete: seq<Message> -> CompletionOutcome)
    ensures Handle(allKnowledge, false, Parsed(field), retrieve, complete) == Exchange(Response(500, ErrorBody(KeyNotConfigured)), None, None)
  {
  }

  /** Missing, non-array or empty messages: 400, and neither retrieval nor the provider is called. */
  lemma InvalidMessagesAreRejected(allKnowledge: seq<KnowledgeEntry>, field: MessagesField,
                                   retrieve: (string, seq<KnowledgeEntry>, int) -> Option<seq<KnowledgeEntry>>,
                                   complete: seq<Message> -> CompletionOutcome)
    requires field.Missing? || field.NotAnArray? || field == AnArray([])
    ensures Handle(allKnowledge, true, Parsed(field), retrieve, complete) == Exchange(Response(400, ErrorBody(MessagesRequired)), None, None)
  {
  }

  /**
   * A valid request retrieves with the latest user text over `allKnowledge` with topK = 3, sends
   * the system message followed by the history, and answers with what the provider's outcome maps to.
   */
  lemma ValidRequestIsForwarded(allKnowledge: seq<KnowledgeEntry>, messages: seq<Message>,
                                retrieve: (string, seq<KnowledgeEntry>, int) -> Option<seq<KnowledgeEntry>>,
                                complete: seq<Message> -> CompletionOutcome)
    requires |messages| > 0
    ensures var ex := Handle(allKnowledge, true, Parsed(AnArray(messages)), retrieve, complete);
      && ex.retrieval == Some(RetrievalCall(LatestUserText(messages), allKnowledge, 3))
      && ex.payload.Some?
      && |ex.payload.value| == |messages| + 1
      && ex.payload.value[0].role == SystemRole
      && BaseSystemPrompt <= ex.payload.value[0].content
      && ex.payload.value[1..] == messages
      && ex.response == Respond(complete(ex.payload.value))
  {
  }

  /** When retrieval throws or finds nothing, the system prompt is the base prompt alone and the chat still goes ahead. */
  lemma RetrievalFailureFailsOpen(allKnowledge: seq<KnowledgeEntry>, messages: seq<Message>,
                                  retrieve: (string, seq<KnowledgeEntry>, int) -> Option<seq<KnowledgeEntry>>,
                                  complete: seq<Message> -> CompletionOutcome)
    requires |messages| > 0
    requires var r := retrieve(LatestUserText(messages), allKnowledge, TopK); r.None? || r.value == []
    ensures var ex := Handle(allKnowledge, true, Parsed(AnArray(messages)), retrieve, complete);
      && ex.payload == Some(BuildPayload(messages, BaseSystemPrompt))
      && ex.response == Respond(complete(BuildPayload(messages, BaseSystemPrompt)))
  {
    assert BaseSystemPrompt + "" == BaseSystemPrompt;
  }

  /** Every retrieved entry's content is part of the system message sent to the provider. */
  lemma RetrievedContentReachesProvider(allKnowledge: seq<KnowledgeEntry>, messages: seq<Message>,
                                        retrieve: (string, seq<KnowledgeEntry>, int) -> Option<seq<KnowledgeEntry>>,
                                        complete: seq<Message> -> CompletionOutcome, k: nat)
    requires |messages| > 0
    requires var r := retrieve(LatestUserText(messages), allKnowledge, TopK); r.Some? && k < |r.value|
    ensures var ex := Handle(allKnowledge, true, Parsed(AnArray(messages)), retrieve, complete);
      var entry := retrieve(LatestUserText(messages), allKnowledge, TopK).value[k];
      ex.payload.Some? && Includes(ex.payload.value[0].content, entry.content)
  {
    var entries := retrieve(LatestUserText(messages), allKnowledge, TopK).value;
    var context := KnowledgeContext(Some(entries));
    KnowledgeContextMentionsEntries(entries, k);
    OccursInPrefixed(entries[k].content, BaseSystemPrompt, context);
    IncludesIff(SystemPrompt(context), entries[k].content);
  }

  /**
   * When an embedding or similarity step fails, findRelevantKnowledge returns the first three
   * entries unfiltered, so the context is not empty: it holds those three entries.
   */
  lemma RankerFailureInjectsTableHead(k: nat)
    requires k < 3
    ensures Embeddings.FindRelevant(GetAllKnowledge(), None, TopK) == BusinessKnowledge[..3]
    ensures KnowledgeContext(Some(Embeddings.FindRelevant(GetAllKnowledge(), None, TopK))) != ""
    ensures Occurs(BusinessKnowledge[k].content, KnowledgeContext(Some(Embeddings.FindRelevant(GetAllKnowledge(), None, TopK))))
  {
    var head := Embeddings.FindRelevant(GetAllKnowledge(), None, TopK);
    KnowledgeContextEmptyIff(Some(head));
    KnowledgeContextMentionsEntries(head, k);
  }
}
