/**
 * The chat service: configuration check, retrieval of search context, system message
 * and prompt composition, normalisation of API messages, construction of the two
 * response shapes, and the optional message-history sink.
 *
 * The search index and the completion model are oracles: `Backends.search` maps a query
 * text and a result cap to the documents found (or a failure), `Backends.complete` maps
 * the formatted prompt to the model's reply (or a failure). The service records the
 * calls it makes, so the order and number of calls can be stated.
 */
module ChatServices {
  import opened Wrappers
  import opened Strings
  import opened ChatModels
  import opened Exceptions

  // ---------------------------------------------------------------------------------
  // Configuration
  // ---------------------------------------------------------------------------------

  /**
   * The environment as the service reads it: `None` for a variable that is not set.
   * The numeric variables are given already converted from their text.
   */
  datatype Env = Env(
    searchIndexName: Option<string>,
    searchEndpoint: Option<string>,
    searchAdminKey: Option<string>,
    searchTopResults: Option<int>,
    openaiApiKey: Option<string>,
    openaiDeploymentName: Option<string>,
    openaiEndpoint: Option<string>,
    openaiModel: Option<string>,
    openaiTemperature: Option<real>,
    embeddingsDeploymentName: Option<string>,
    openaiApiVersion: Option<string>,
    openaiApiType: Option<string>,
    openaiTopP: Option<real>)

  /** The service's configuration after defaults are applied. */
  datatype Config = Config(
    searchIndexName: Option<string>,
    searchEndpoint: Option<string>,
    searchAdminKey: Option<string>,
    searchTopResults: int,
    openaiApiKey: Option<string>,
    openaiDeploymentName: Option<string>,
    openaiEndpoint: Option<string>,
    openaiModel: Option<string>,
    openaiTemperature: real,
    embeddingsDeploymentName: Option<string>,
    openaiApiVersion: Option<string>,
    openaiApiType: string,
    openaiTopP: real)

  const DefaultSearchTopResults: int := 3
  const DefaultTemperature: real := 0.7
  const DefaultTopP: real := 0.87
  const DefaultApiType: string := "azure"

  /** `_init_env_vars`: read the environment, with the defaults for the four variables that have one. */
  function InitEnvVars(env: Env): (c: Config)
    ensures c.searchTopResults == (if env.searchTopResults.Some? then env.searchTopResults.value else 3)
    ensures c.openaiTemperature == (if env.openaiTemperature.Some? then env.openaiTemperature.value else 0.7)
    ensures c.openaiTopP == (if env.openaiTopP.Some? then env.openaiTopP.value else 0.87)
    ensures c.openaiApiType == (if env.openaiApiType.Some? then env.openaiApiType.value else "azure")
    ensures c.searchIndexName == env.searchIndexName && c.searchEndpoint == env.searchEndpoint
    ensures c.searchAdminKey == env.searchAdminKey && c.openaiApiKey == env.openaiApiKey
    ensures c.openaiDeploymentName == env.openaiDeploymentName && c.openaiEndpoint == env.openaiEndpoint
    ensures c.openaiModel == env.openaiModel && c.embeddingsDeploymentName == env.embeddingsDeploymentName
    ensures c.openaiApiVersion == env.openaiApiVersion
  {
    Config(
      env.searchIndexName, env.searchEndpoint, env.searchAdminKey,
      OrDefault(env.searchTopResults, DefaultSearchTopResults),
      env.openaiApiKey, env.openaiDeploymentName, env.openaiEndpoint, env.openaiModel,
      OrDefault(env.openaiTemperature, DefaultTemperature),
      env.embeddingsDeploymentName, env.openaiApiVersion,
      OrDefault(env.openaiApiType, DefaultApiType),
      OrDefault(env.openaiTopP, DefaultTopP))
  }

  function OrDefault<T>(value: Option<T>, default: T): T
  {
    if value.Some? then value.value else default
  }

  /** A value of the required-variables list, with Python's truthiness. */
  datatype PyValue = StrValue(s: Option<string>) | FloatValue(x: real)

  predicate Truthy(v: PyValue)
  {
    match v
    case StrValue(s) => s.Some? && s.value != ""
    case FloatValue(x) => x != 0.0
  }

  /** The values `_validate_env_vars` puts in its `required_vars` list, in its order. */
  function RequiredVars(c: Config): seq<PyValue>
  {
    [ StrValue(c.searchIndexName), StrValue(c.searchEndpoint), StrValue(c.searchAdminKey),
      StrValue(c.openaiApiKey), StrValue(c.openaiDeploymentName), StrValue(c.openaiModel),
      FloatValue(c.openaiTemperature), StrValue(c.embeddingsDeploymentName),
      StrValue(c.openaiApiVersion), StrValue(Some(c.openaiApiType)), FloatValue(c.openaiTopP) ]
  }

  predicate IsSet(s: Option<string>) { s.Some? && s.value != "" }

  const EnvVarsMessage: string := "Uma ou mais variáveis de ambiente não estão definidas."

  /**
   * `_validate_env_vars`: `all(required_vars)`. It fails exactly when a required string is
   * unset or empty or the temperature or top-p is zero; the OpenAI endpoint is not checked.
   */
  function ValidateEnvVars(c: Config): (r: Outcome<Exception>)
    ensures r.Pass? <==>
      && IsSet(c.searchIndexName) && IsSet(c.searchEndpoint) && IsSet(c.searchAdminKey)
      && IsSet(c.openaiApiKey) && IsSet(c.openaiDeploymentName) && IsSet(c.openaiModel)
      && c.openaiTemperature != 0.0 && IsSet(c.embeddingsDeploymentName)
      && IsSet(c.openaiApiVersion) && c.openaiApiType != "" && c.openaiTopP != 0.0
    ensures r.Fail? ==> r.error == ServiceException(EnvVarsMissing("Uma ou mais variáveis de ambiente não estão definidas."))
  {
    var required := RequiredVars(c);
    if forall k | 0 <= k < |required| :: Truthy(required[k]) then
      assert Truthy(required[0]) && Truthy(required[1]) && Truthy(required[2]) && Truthy(required[3]);
      assert Truthy(required[4]) && Truthy(required[5]) && Truthy(required[6]) && Truthy(required[7]);
      assert Truthy(required[8]) && Truthy(required[9]) && Truthy(required[10]);
      Pass
    else
      var k :| 0 <= k < |required| && !Truthy(required[k]);
      assert k in {0, 1, 2, 3, 4, 5, 6, 7, 8, 9, 10};
      Fail(ServiceException(EnvVarsMissing(EnvVarsMessage)))
  }

  /** Only variables without a default must be set: the defaults of temperature, top-p and API type pass. */
  lemma DefaultsPassValidation(env: Env)
    requires IsSet(env.searchIndexName) && IsSet(env.searchEndpoint) && IsSet(env.searchAdminKey)
    requires IsSet(env.openaiApiKey) && IsSet(env.openaiDeploymentName) && IsSet(env.openaiModel)
    requires IsSet(env.embeddingsDeploymentName) && IsSet(env.openaiApiVersion)
    requires env.openaiTemperature.None? && env.openaiTopP.None? && env.openaiApiType.None?
    ensures ValidateEnvVars(InitEnvVars(env)).Pass?
  {
  }

  // ---------------------------------------------------------------------------------
  // Context retrieval
  // ---------------------------------------------------------------------------------

  /** A search result: the passage text and, when the index has one, its source-page label. */
  datatype Doc = Doc(content: string, sourcepage: Option<string>)

  /** One call of the search backend: `search(search_text=..., top=...)`. */
  datatype Query = Query(searchText: Option<string>, top: int)

  type SearchBackend = (Option<string>, int) -> Result<seq<Doc>, string>

  /** `"\n" + doc["content"]` appended for every document, in order. */
  function DocsText(docs: seq<Doc>): string
  {
    if docs == [] then "" else DocsText(docs[..|docs| - 1]) + "\n" + docs[|docs| - 1].content
  }

  /** The passage texts, in order. */
  function Contents(docs: seq<Doc>): (r: seq<string>)
    ensures |r| == |docs| && forall k :: 0 <= k < |docs| ==> r[k] == docs[k].content
  {
    if docs == [] then [] else Contents(docs[..|docs| - 1]) + [docs[|docs| - 1].content]
  }

  /** The source-page labels the loop captures, in append order, duplicates kept. */
  function References(docs: seq<Doc>): seq<string>
  {
    if docs == [] then []
    else
      var last := docs[|docs| - 1];
      References(docs[..|docs| - 1]) + (if last.sourcepage.Some? then [last.sourcepage.value] else [])
  }

  /** How many of `docs` carry a source-page label. */
  function LabelledCount(docs: seq<Doc>): nat
  {
    if docs == [] then 0
    else LabelledCount(docs[..|docs| - 1]) + (if docs[|docs| - 1].sourcepage.Some? then 1 else 0)
  }

  const ReferencesHeader: string := "\n\nReferências:\n"

  /** The block added after the passages when at least one label was captured. */
  function ReferencesBlock(refs: seq<string>): string
  {
    if |refs| > 0 then ReferencesHeader + Join("\n", refs) else ""
  }

  /** The context before `strip()`: passages, then the references block. */
  function RawContext(docs: seq<Doc>): string
  {
    DocsText(docs) + ReferencesBlock(References(docs))
  }

  /** The context `_retrieve_search_context` returns for the documents found. */
  function ContextText(docs: seq<Doc>): string
  {
    Strip(RawContext(docs))
  }

  /** The passages are the newline-joined contents, with one newline in front. */
  lemma {:induction false} DocsTextIsJoin(docs: seq<Doc>)
    requires docs != []
    ensures DocsText(docs) == "\n" + Join("\n", Contents(docs))
  {
    var init := docs[..|docs| - 1];
    if init == [] {
      assert Contents(docs) == [docs[0].content];
    } else {
      DocsTextIsJoin(init);
      assert Contents(docs)[..|Contents(docs)| - 1] == Contents(init);
    }
  }

  /** A references list is captured if and only if some document carries a label. */
  lemma {:induction false} ReferencesIffLabelled(docs: seq<Doc>)
    ensures |References(docs)| > 0 <==> exists k :: 0 <= k < |docs| && docs[k].sourcepage.Some?
  {
    if docs != [] {
      var init := docs[..|docs| - 1];
      ReferencesIffLabelled(init);
      if exists k :: 0 <= k < |init| && init[k].sourcepage.Some? {
        var k :| 0 <= k < |init| && init[k].sourcepage.Some?;
        assert docs[k] == init[k];
      }
      if exists k :: 0 <= k < |docs| && docs[k].sourcepage.Some? {
        var k :| 0 <= k < |docs| && docs[k].sourcepage.Some?;
        if k < |init| { assert init[k] == docs[k]; }
      }
    }
  }

  /**
   * Every labelled document contributes its label, at the position given by the number of
   * labelled documents before it: append order, duplicates kept, nothing else in the list.
   */
  lemma {:induction false} ReferencesPositions(docs: seq<Doc>)
    ensures |References(docs)| == LabelledCount(docs)
    ensures forall k :: 0 <= k < |docs| && docs[k].sourcepage.Some? ==>
      LabelledCount(docs[..k]) < |References(docs)| &&
      References(docs)[LabelledCount(docs[..k])] == docs[k].sourcepage.value
  {
    if docs != [] {
      var n := |docs| - 1;
      var init := docs[..n];
      ReferencesPositions(init);
      forall k | 0 <= k < |docs| && docs[k].sourcepage.Some?
        ensures LabelledCount(docs[..k]) < |References(docs)|
        ensures References(docs)[LabelledCount(docs[..k])] == docs[k].sourcepage.value
      {
        if k < n {
          assert docs[..k] == init[..k];
          assert init[k] == docs[k];
        } else {
          assert docs[..k] == init;
        }
      }
    }
  }

  /** The references block is added if and only if some document carries a label. */
  lemma ReferencesBlockIffLabelled(docs: seq<Doc>)
    ensures RawContext(docs) == DocsText(docs) + ReferencesBlock(References(docs))
    ensures (ReferencesBlock(References(docs)) != "") <==> exists k :: 0 <= k < |docs| && docs[k].sourcepage.Some?
    ensures ReferencesBlock(References(docs)) != "" ==>
      ReferencesBlock(References(docs)) == "\n\nReferências:\n" + Join("\n", References(docs))
  {
    ReferencesIffLabelled(docs);
  }

  /** The outcome of the search loop: the documents found, how many searches ran, and the failure that stopped it. */
  datatype SearchRun = SearchRun(docs: seq<Doc>, searched: nat, failure: Option<string>)

  /** One search per message, in list order, stopping at the first failure. */
  function RunSearches(search: SearchBackend, messages: seq<ChatMessage>, top: int): (run: SearchRun)
    ensures run.searched <= |messages|
    ensures run.failure.None? ==> run.searched == |messages|
  {
    if messages == [] then SearchRun([], 0, None)
    else
      var prev := RunSearches(search, messages[..|messages| - 1], top);
      if prev.failure.Some? then prev
      else match search(messages[|messages| - 1].content, top)
        case Failure(e) => SearchRun(prev.docs, prev.searched + 1, Some(e))
        case Success(found) => SearchRun(prev.docs + found, prev.searched + 1, None)
  }

  /** The query issued for each message: its content as search text, capped at `top`. */
  function QueriesFor(messages: seq<ChatMessage>, top: int): (queries: seq<Query>)
    ensures |queries| == |messages|
    ensures forall k :: 0 <= k < |messages| ==> queries[k] == Query(messages[k].content, top)
  {
    if messages == [] then [] else QueriesFor(messages[..|messages| - 1], top) + [Query(messages[|messages| - 1].content, top)]
  }

  /** One more successful search extends the loop's state by the documents it found. */
  lemma SearchStep(search: SearchBackend, messages: seq<ChatMessage>, top: int, i: nat, docs: seq<Doc>)
    requires i < |messages|
    requires RunSearches(search, messages[..i], top) == SearchRun(docs, i, None)
    ensures search(messages[i].content, top).Success? ==>
      RunSearches(search, messages[..i + 1], top) == SearchRun(docs + search(messages[i].content, top).value, i + 1, None)
    ensures search(messages[i].content, top).Failure? ==>
      RunSearches(search, messages[..i + 1], top) == SearchRun(docs, i + 1, Some(search(messages[i].content, top).error))
    ensures QueriesFor(messages[..i + 1], top) == QueriesFor(messages[..i], top) + [Query(messages[i].content, top)]
  {
    assert messages[..i + 1][..i] == messages[..i];
  }

  /** One more document extends the passages by `"\n" + content` and the labels by its label, if any. */
  lemma DocStep(docs: seq<Doc>, found: seq<Doc>, j: nat)
    requires j < |found|
    ensures DocsText(docs + found[..j + 1]) == DocsText(docs + found[..j]) + "\n" + found[j].content
    ensures References(docs + found[..j + 1]) ==
      References(docs + found[..j]) + (if found[j].sourcepage.Some? then [found[j].sourcepage.value] else [])
  {
    assert (docs + found[..j + 1])[..|docs| + j] == docs + found[..j];
  }

  /** Once a prefix of the messages has failed, the rest are never searched. */
  lemma {:induction false} FailureStops(search: SearchBackend, messages: seq<ChatMessage>, top: int, k: nat)
    requires k <= |messages|
    requires RunSearches(search, messages[..k], top).failure.Some?
    ensures RunSearches(search, messages, top) == RunSearches(search, messages[..k], top)
  {
    if k < |messages| {
      var init := messages[..|messages| - 1];
      assert init[..k] == messages[..k];
      FailureStops(search, init, top, k);
    } else {
      assert messages[..k] == messages;
    }
  }

  /**
   * The search loop stops exactly at the first failing message: every earlier message was
   * searched successfully, the failing one was searched, and no later message was.
   */
  lemma {:induction false} SearchStopsAtFirstFailure(search: SearchBackend, messages: seq<ChatMessage>, top: int)
    ensures var run := RunSearches(search, messages, top);
      && (forall k :: 0 <= k < run.searched - (if run.failure.Some? then 1 else 0) ==>
            search(messages[k].content, top).Success?)
      && (run.failure.Some? ==>
            run.searched > 0 && search(messages[run.searched - 1].content, top) == Failure(run.failure.value))
      && (run.failure.None? <==> forall k :: 0 <= k < |messages| ==> search(messages[k].content, top).Success?)
  {
    if messages != [] {
      var init := messages[..|messages| - 1];
      SearchStopsAtFirstFailure(search, init, top);
      var prev := RunSearches(search, init, top);
      forall k | 0 <= k < |init| ensures init[k] == messages[k] { }
      if prev.failure.Some? {
        assert !search(messages[prev.searched - 1].content, top).Success?;
      }
    }
  }

  // ---------------------------------------------------------------------------------
  // System message and prompt
  // ---------------------------------------------------------------------------------

  /** The LangChain message kinds the pipeline builds. */
  datatype LcMessage = SystemMessage(content: string) | HumanMessage(content: string) | AIMessage(content: string)

  /** The system-message template: fixed text before and after its one `{context}` slot. */
  datatype SystemTemplate = SystemTemplate(beforeContext: string, afterContext: string)

  const DefaultContext: string := "informações disponíveis"

  /** `context or "informações disponíveis"`. */
  function EffectiveContext(context: Option<string>): (r: string)
    ensures r != ""
    ensures context.Some? && context.value != "" ==> r == context.value
    ensures context.None? || context.value == "" ==> r == "informações disponíveis"
  {
    if context.Some? && context.value != "" then context.value else DefaultContext
  }

  /** `_create_system_message`: the template formatted with the effective context. */
  function CreateSystemMessage(template: SystemTemplate, context: Option<string>): LcMessage
  {
    SystemMessage(template.beforeContext + EffectiveContext(context) + template.afterContext)
  }

  /** The text standing in the `{context}` slot of a formatted system message. */
  function SlotText(template: SystemTemplate, text: string): string
    requires |template.beforeContext| + |template.afterContext| <= |text|
  {
    text[|template.beforeContext|..|text| - |template.afterContext|]
  }

  /**
   * The context can be read back from the system message: the slot holds the context
   * itself, or `"informações disponíveis"` when the context is empty or missing.
   */
  lemma SystemMessageCarriesContext(template: SystemTemplate, context: Option<string>)
    ensures var m := CreateSystemMessage(template, context);
      && m.SystemMessage?
      && |template.beforeContext| + |template.afterContext| < |m.content|
      && m.content[..|template.beforeContext|] == template.beforeContext
      && m.content[|m.content| - |template.afterContext|..] == template.afterContext
      && SlotText(template, m.content) == (if context.Some? && context.value != "" then context.value else "informações disponíveis")
  {
  }

  /** One entry of a `ChatPromptTemplate`. */
  datatype PromptPart =
    | Fixed(message: LcMessage)                      // a message object, used as it is
    | Placeholder(variable: string, optional: bool)  // MessagesPlaceholder
    | HumanTurn(text: string)                        // ("human", text)

  const HistoryVariable: string := "chat_history"
  const UserMessageSlot: string := "{user_message}"

  /** `_create_prompt`: system message, optional history placeholder, human turn. */
  function CreatePrompt(template: SystemTemplate, context: string): seq<PromptPart>
  {
    [Fixed(CreateSystemMessage(template, Some(context))), Placeholder(HistoryVariable, true), HumanTurn(UserMessageSlot)]
  }

  /** `str(value)` as `str.format` renders the user message: `None` becomes `"None"`. */
  function PyStr(value: Option<string>): string
  {
    if value.Some? then value.value else "None"
  }

  /** The messages one prompt entry produces when the chain is invoked. */
  function FormatPart(part: PromptPart, history: seq<LcMessage>, userMessage: string): seq<LcMessage>
  {
    match part
    case Fixed(m) => [m]
    case Placeholder(_, _) => history
    case HumanTurn(text) => [HumanMessage(if text == UserMessageSlot then userMessage else text)]
  }

  /** Invoking a prompt with `chat_history` and `user_message`: the formatted messages, entry by entry. */
  function FormatPrompt(prompt: seq<PromptPart>, history: seq<LcMessage>, userMessage: string): seq<LcMessage>
  {
    if prompt == [] then []
    else FormatPrompt(prompt[..|prompt| - 1], history, userMessage) + FormatPart(prompt[|prompt| - 1], history, userMessage)
  }

  /**
   * The composed prompt is the system message, then the history in its order, then
   * exactly one human turn holding the user message, whatever the history's length.
   */
  lemma PromptOrder(template: SystemTemplate, context: string, history: seq<LcMessage>, userMessage: string)
    ensures var p := FormatPrompt(CreatePrompt(template, context), history, userMessage);
      && |p| == |history| + 2
      && p[0] == CreateSystemMessage(template, Some(context))
      && p[1..|p| - 1] == history
      && p[|p| - 1] == HumanMessage(userMessage)
  {
    var prompt := CreatePrompt(template, context);
    assert prompt[..2][..1] == prompt[..1] && prompt[..1][..0] == [];
    assert FormatPrompt(prompt[..1], history, userMessage) == [CreateSystemMessage(template, Some(context))];
    assert FormatPrompt(prompt[..2], history, userMessage) == [CreateSystemMessage(template, Some(context))] + history;
    assert prompt[..|prompt| - 1] == prompt[..2];
  }

  // ---------------------------------------------------------------------------------
  // Normalisation of API messages
  // ---------------------------------------------------------------------------------

  /** `[ChatMessage(role=msg.role_name, content=msg.message_content) for msg in messages]`. */
  function ToChatMessages(messages: seq<ApiChatMessage>): (r: seq<ChatMessage>)
    ensures |r| == |messages|
    ensures forall k :: 0 <= k < |messages| ==>
      r[k].role == messages[k].roleName && r[k].content == Some(messages[k].messageContent)
  {
    if messages == [] then []
    else
      var m := messages[|messages| - 1];
      ToChatMessages(messages[..|messages| - 1]) + [ChatMessage(Some(m.messageContent), m.roleName)]
  }

  /** Normalisation loses only the end-of-turn flags: with them, each API message is recovered. */
  lemma NormalizationLosesOnlyEndTurn(messages: seq<ApiChatMessage>)
    ensures forall k :: 0 <= k < |messages| ==>
      var c := ToChatMessages(messages)[k];
      ApiChatMessage(c.role, c.content.value, messages[k].endTurnIndicator) == messages[k]
  {
  }

  // ---------------------------------------------------------------------------------
  // The completion reply and the two response shapes
  // ---------------------------------------------------------------------------------

  /** What the service reads from the model's reply: content, id, finish reason and token usage. */
  datatype CompletionReply = CompletionReply(
    content: string,
    id: Option<string>,
    finishReason: Option<string>,
    completionTokens: int,
    promptTokens: int,
    totalTokens: int)

  type CompletionBackend = seq<LcMessage> -> Result<CompletionReply, string>

  /** The two oracles the service calls. */
  datatype Backends = Backends(search: SearchBackend, complete: CompletionBackend)

  /** The `ChatResponse` built in `get_chat_completion`; pydantic refuses a finish reason outside its literals. */
  function BuildChatResponse(reply: CompletionReply, created: int): (r: Result<ChatResponse, Exception>)
    ensures r.Success? <==> ParseFinishReason(reply.finishReason).Some?
    ensures r.Failure? ==> r.error == ServiceException(ValidationError("ChatChoice"))
  {
    match ParseFinishReason(reply.finishReason)
    case None => Failure(ServiceException(ValidationError("ChatChoice")))
    case Some(finish) =>
      Success(ChatResponse(
        [ChatChoice(finish, 0, ChatMessage(Some(reply.content), Assistant))],
        created,
        reply.id,
        ChatUsage(reply.completionTokens, reply.promptTokens, reply.totalTokens)))
  }

  /**
   * The `ChatCompletionResponse` built in `get_chat_completion_v2`. Besides the finish
   * reason, pydantic refuses a missing id (`id_completion` is a required string) and an
   * answer that is empty or longer than 8000 characters (the bounds of `ApiChatMessage`).
   */
  function BuildChatCompletionResponse(reply: CompletionReply, created: int): (r: Result<ChatCompletionResponse, Exception>)
    ensures r.Success? <==>
      reply.id.Some? && ParseFinishReason(reply.finishReason).Some? && 1 <= |reply.content| <= 8000
    ensures r.Failure? ==> r.error.ServiceException? && r.error.kind.ValidationError?
  {
    var usage := ApiChatUsage(reply.completionTokens, reply.promptTokens, reply.totalTokens);
    match NewChatCompletionResponseCommon(reply.id, Absent, created, usage)
    case None => Failure(ServiceException(ValidationError("ChatCompletionResponseCommon")))
    case Some(details) =>
      match ParseFinishReason(reply.finishReason)
      case None => Failure(ServiceException(ValidationError("ChatCompletionChoiceCommon")))
      case Some(finish) =>
        match ParseApiChatMessage(Present(Assistant.Value()), Present(reply.content), Present(Some(true)))
        case None => Failure(ServiceException(ValidationError("ApiChatMessage")))
        case Some(message) =>
          Success(ChatCompletionResponse(DataChatCompletionResponse(
            details,
            [ChatCompletionChoice(ChatCompletionChoiceCommon(0, finish), message)])))
  }

  /** The finish reason as the reply gave it, read back from a response field. */
  function FinishReasonText(f: Option<FinishReason>): Option<string>
  {
    if f.Some? then Some(f.value.Value()) else None
  }

  /**
   * The simple response is a lossless projection of the reply: one choice, index 0, role
   * assistant, and content, finish reason, id and token counts that give the reply back.
   */
  lemma ChatResponseRoundTrip(reply: CompletionReply, created: int)
    requires BuildChatResponse(reply, created).Success?
    ensures var resp := BuildChatResponse(reply, created).value;
      && |resp.choices| == 1
      && resp.choices[0].index == 0 && resp.choices[0].message.role == Assistant
      && resp.created == created
      && resp.choices[0].message.content.Some?
      && CompletionReply(
           resp.choices[0].message.content.value, resp.id, FinishReasonText(resp.choices[0].finishReason),
           resp.usage.completionTokens, resp.usage.promptTokens, resp.usage.totalTokens) == reply
  {
  }

  /**
   * The rich response is a lossless projection of the reply too: one choice, index 0,
   * role assistant, end of turn, object type "completion", and fields that give the reply back.
   */
  lemma ChatCompletionResponseRoundTrip(reply: CompletionReply, created: int)
    requires BuildChatCompletionResponse(reply, created).Success?
    ensures var resp := BuildChatCompletionResponse(reply, created).value.data;
      && |resp.choices| == 1
      && resp.choices[0].chatCompletionChoiceCommon.indexOption == 0
      && resp.choices[0].message.roleName == Assistant
      && resp.choices[0].message.endTurnIndicator == Some(true)
      && resp.details.objectType == "completion"
      && resp.details.createdDateTime == created
      && CompletionReply(
           resp.choices[0].message.messageContent, Some(resp.details.idCompletion),
           FinishReasonText(resp.choices[0].chatCompletionChoiceCommon.finishReason),
           resp.details.usage.completionTokenCount, resp.details.usage.promptTokenCount,
           resp.details.usage.totalTokenCount) == reply
  {
  }

  /** Both shapes built from one reply expose the same answer, finish reason and token counts. */
  lemma BothShapesAgree(reply: CompletionReply, created: int)
    requires BuildChatResponse(reply, created).Success? && BuildChatCompletionResponse(reply, created).Success?
    ensures var simple := BuildChatResponse(reply, created).value;
      var rich := BuildChatCompletionResponse(reply, created).value.data;
      && simple.choices[0].message.content == Some(rich.choices[0].message.messageContent)
      && simple.choices[0].finishReason == rich.choices[0].chatCompletionChoiceCommon.finishReason
      && simple.id == Some(rich.details.idCompletion)
      && simple.usage.promptTokens == rich.details.usage.promptTokenCount
      && simple.usage.completionTokens == rich.details.usage.completionTokenCount
      && simple.usage.totalTokens == rich.details.usage.totalTokenCount
  {
    ChatResponseRoundTrip(reply, created);
    ChatCompletionResponseRoundTrip(reply, created);
  }

  // ---------------------------------------------------------------------------------
  // Message history sink
  // ---------------------------------------------------------------------------------

  /** A `BaseChatMessageHistory`: an append-only store of messages. */
  class MessageHistory {
    var messages: seq<LcMessage>

    constructor ()
      ensures messages == []
    {
      messages := [];
    }

    /** `add_messages`: append the given messages in their order. */
    method AddMessages(added: seq<LcMessage>)
      modifies this
      ensures messages == old(messages) + added
    {
      messages := messages + added;
    }
  }

  // ---------------------------------------------------------------------------------
  // The service pipeline
  // ---------------------------------------------------------------------------------

  /**
   * What one call of the pipeline shared by `get_chat_completion` and
   * `get_chat_completion_v2` does up to the response construction: the reply (or the
   * exception raised), the search queries and prompts sent, and the messages recorded in
   * the history sink (`recording` says whether one is configured).
   */
  datatype CompletionRun = CompletionRun(
    reply: Result<CompletionReply, Exception>,
    queries: seq<Query>,
    prompts: seq<seq<LcMessage>>,
    recorded: seq<LcMessage>)

  function RunCompletion(template: SystemTemplate, backends: Backends, top: int, messages: seq<ChatMessage>, recording: bool)
    : CompletionRun
  {
    var search := RunSearches(backends.search, messages, top);
    var queries := QueriesFor(messages[..search.searched], top);
    var (reply, prompts, recorded) := AfterRetrieval(template, backends, messages, search, recording);
    CompletionRun(reply, queries, prompts, recorded)
  }

  /** What happens once the search loop has run: prompt, model call, history, in that order. */
  function AfterRetrieval(template: SystemTemplate, backends: Backends, messages: seq<ChatMessage>, search: SearchRun, recording: bool)
    : (Result<CompletionReply, Exception>, seq<seq<LcMessage>>, seq<LcMessage>)
  {
    if search.failure.Some? then (Failure(ServiceException(SearchFailed(search.failure.value))), [], [])
    else if |messages| == 0 then (Failure(ServiceException(IndexError)), [], [])
    else
      var last := messages[|messages| - 1].content;
      Exchange(backends, FormatPrompt(CreatePrompt(template, ContextText(search.docs)), [], PyStr(last)), last, recording)
  }

  /** The model call on the composed prompt, then the history update. */
  function Exchange(backends: Backends, prompt: seq<LcMessage>, last: Option<string>, recording: bool)
    : (Result<CompletionReply, Exception>, seq<seq<LcMessage>>, seq<LcMessage>)
  {
    match backends.complete(prompt)
    case Failure(e) => (Failure(ServiceException(CompletionFailed(e))), [prompt], [])
    case Success(reply) =>
      if !recording then (Success(reply), [prompt], [])
      else if last.None? then (Failure(ServiceException(ValidationError("HumanMessage"))), [prompt], [])
      else (Success(reply), [prompt], [HumanMessage(last.value), AIMessage(reply.content)])
  }

  /** `get_chat_completion` as a whole, as a function of its inputs and the oracles. */
  function ChatCompletionResult(template: SystemTemplate, backends: Backends, top: int, messages: seq<ChatMessage>, recording: bool, created: int)
    : Result<ChatResponse, Exception>
  {
    var run := RunCompletion(template, backends, top, messages, recording);
    if run.reply.Failure? then Failure(run.reply.error) else BuildChatResponse(run.reply.value, created)
  }

  /** `get_chat_completion_v2` as a whole. */
  function ChatCompletionV2Result(template: SystemTemplate, backends: Backends, top: int, messages: seq<ApiChatMessage>, recording: bool, created: int)
    : Result<ChatCompletionResponse, Exception>
  {
    var run := RunCompletion(template, backends, top, ToChatMessages(messages), recording);
    if run.reply.Failure? then Failure(run.reply.error) else BuildChatCompletionResponse(run.reply.value, created)
  }

  /**
   * Retrieval issues exactly one query per message, in list order, each capped at the
   * configured `top`, unless a search fails; then the queries stop at the failing message.
   */
  lemma OneQueryPerMessage(template: SystemTemplate, backends: Backends, top: int, messages: seq<ChatMessage>, recording: bool)
    ensures var run := RunCompletion(template, backends, top, messages, recording);
      && |run.queries| <= |messages|
      && (forall k :: 0 <= k < |run.queries| ==> run.queries[k] == Query(messages[k].content, top))
      && ((forall k :: 0 <= k < |messages| ==> backends.search(messages[k].content, top).Success?) ==>
            |run.queries| == |messages|)
  {
    SearchStopsAtFirstFailure(backends.search, messages, top);
  }

  /**
   * When the searches succeed on a non-empty list, the model is called once, with the
   * system message (carrying the retrieved context) and the last message's content as
   * the only human turn; the history passed is empty.
   */
  lemma PromptSent(template: SystemTemplate, backends: Backends, top: int, messages: seq<ChatMessage>, recording: bool)
    requires |messages| > 0
    requires RunSearches(backends.search, messages, top).failure.None?
    ensures var run := RunCompletion(template, backends, top, messages, recording);
      var context := ContextText(RunSearches(backends.search, messages, top).docs);
      run.prompts == [[CreateSystemMessage(template, Some(context)), HumanMessage(PyStr(messages[|messages| - 1].content))]]
  {
    var search := RunSearches(backends.search, messages, top);
    var last := PyStr(messages[|messages| - 1].content);
    var context := ContextText(search.docs);
    RetrievalPrompts(template, backends, messages, search, recording);
    FreshPrompt(template, context, last);
  }

  /** After successful searches on a non-empty list, exactly one prompt is sent, whatever the model answers. */
  lemma RetrievalPrompts(template: SystemTemplate, backends: Backends, messages: seq<ChatMessage>, search: SearchRun, recording: bool)
    requires |messages| > 0 && search.failure.None?
    ensures AfterRetrieval(template, backends, messages, search, recording).1
      == [FormatPrompt(CreatePrompt(template, ContextText(search.docs)), [], PyStr(messages[|messages| - 1].content))]
  {
    var last := messages[|messages| - 1].content;
    var prompt := FormatPrompt(CreatePrompt(template, ContextText(search.docs)), [], PyStr(last));
    assert AfterRetrieval(template, backends, messages, search, recording) == Exchange(backends, prompt, last, recording);
  }

  /** With an empty history the prompt is the system message followed by the one human turn. */
  lemma FreshPrompt(template: SystemTemplate, context: string, userMessage: string)
    ensures FormatPrompt(CreatePrompt(template, context), [], userMessage)
      == [CreateSystemMessage(template, Some(context)), HumanMessage(userMessage)]
  {
    var p := FormatPrompt(CreatePrompt(template, context), [], userMessage);
    PromptOrder(template, context, [], userMessage);
    assert p == [p[0], p[1]];
  }

  /** The model is never called when a search fails or the message list is empty. */
  lemma NoCompletionWithoutContext(template: SystemTemplate, backends: Backends, top: int, messages: seq<ChatMessage>, recording: bool)
    requires |messages| == 0 || RunSearches(backends.search, messages, top).failure.Some?
    ensures var run := RunCompletion(template, backends, top, messages, recording);
      run.prompts == [] && run.recorded == [] && run.reply.Failure?
    ensures |messages| == 0 ==>
      RunCompletion(template, backends, top, messages, recording) == CompletionRun(Failure(ServiceException(IndexError)), [], [], [])
  {
  }

  /**
   * The history sink receives exactly the last user message and the answer, in that
   * order, after a successful model call; without a sink nothing is recorded.
   */
  lemma HistoryRecordsOneExchange(template: SystemTemplate, backends: Backends, top: int, messages: seq<ChatMessage>, recording: bool)
    ensures var run := RunCompletion(template, backends, top, messages, recording);
      && (!recording ==> run.recorded == [])
      && (run.recorded != [] <==> recording && run.reply.Success?)
      && (run.recorded != [] ==>
            && |messages| > 0 && messages[|messages| - 1].content.Some?
            && run.recorded == [HumanMessage(messages[|messages| - 1].content.value), AIMessage(run.reply.value.content)])
  {
    var search := RunSearches(backends.search, messages, top);
    if search.failure.None? && |messages| > 0 {
      var last := messages[|messages| - 1].content;
      var prompt := FormatPrompt(CreatePrompt(template, ContextText(search.docs)), [], PyStr(last));
      assert AfterRetrieval(template, backends, messages, search, recording) == Exchange(backends, prompt, last, recording);
      ExchangeHistory(backends, prompt, last, recording);
    }
  }

  /** The history part of one model call: both messages after a successful, recorded call, else nothing. */
  lemma ExchangeHistory(backends: Backends, prompt: seq<LcMessage>, last: Option<string>, recording: bool)
    ensures var (reply, prompts, recorded) := Exchange(backends, prompt, last, recording);
      && prompts == [prompt]
      && (!recording ==> recorded == [])
      && (recorded != [] <==> recording && reply.Success?)
      && (recorded != [] ==> last.Some? && recorded == [HumanMessage(last.value), AIMessage(reply.value.content)])
      && (reply.Failure? ==> reply.error.ServiceException?)
  {
  }

  /**
   * The exchange is recorded before the response is built: a reply whose finish reason
   * pydantic refuses fails the request and is still in the history.
   */
  lemma HistoryRecordedEvenIfResponseFails(template: SystemTemplate, backends: Backends, top: int, messages: seq<ChatMessage>, created: int)
    requires |messages| > 0 && messages[|messages| - 1].content.Some?
    requires RunSearches(backends.search, messages, top).failure.None?
    requires RunCompletion(template, backends, top, messages, true).reply.Success?
    requires ParseFinishReason(RunCompletion(template, backends, top, messages, true).reply.value.finishReason).None?
    ensures ChatCompletionResult(template, backends, top, messages, true, created).Failure?
    ensures |RunCompletion(template, backends, top, messages, true).recorded| == 2
  {
  }

  /** The pipeline case by case: the queries of the searched messages, then a search failure, an empty list, or one exchange. */
  lemma CompletionSteps(template: SystemTemplate, backends: Backends, top: int, messages: seq<ChatMessage>, recording: bool)
    ensures var search := RunSearches(backends.search, messages, top);
      var run := RunCompletion(template, backends, top, messages, recording);
      && run.queries == QueriesFor(messages[..search.searched], top)
      && (search.failure.Some? ==>
            run.reply == Failure(ServiceException(SearchFailed(search.failure.value))) && run.prompts == [] && run.recorded == [])
      && (search.failure.None? && |messages| == 0 ==>
            run.reply == Failure(ServiceException(IndexError)) && run.prompts == [] && run.recorded == [])
      && (search.failure.None? && |messages| > 0 ==>
            var last := messages[|messages| - 1].content;
            var exchange := Exchange(backends, FormatPrompt(CreatePrompt(template, ContextText(search.docs)), [], PyStr(last)), last, recording);
            run.reply == exchange.0 && run.prompts == exchange.1 && run.recorded == exchange.2)
  {
  }

  /** Every failure of the pipeline is a service exception, never an `HTTPException`. */
  lemma PipelineRaisesServiceExceptions(template: SystemTemplate, backends: Backends, top: int, messages: seq<ChatMessage>, recording: bool)
    ensures var run := RunCompletion(template, backends, top, messages, recording);
      run.reply.Failure? ==> run.reply.error.ServiceException?
  {
    var search := RunSearches(backends.search, messages, top);
    CompletionSteps(template, backends, top, messages, recording);
    if search.failure.None? && |messages| > 0 {
      var last := messages[|messages| - 1].content;
      ExchangeHistory(backends, FormatPrompt(CreatePrompt(template, ContextText(search.docs)), [], PyStr(last)), last, recording);
    }
  }

  /** A successful `get_chat_completion_v2` is the response built from the model's reply. */
  lemma V2ResultSucceeds(template: SystemTemplate, backends: Backends, top: int, messages: seq<ApiChatMessage>, recording: bool, created: int)
    requires ChatCompletionV2Result(template, backends, top, messages, recording, created).Success?
    ensures var reply := RunCompletion(template, backends, top, ToChatMessages(messages), recording).reply;
      && reply.Success? && BuildChatCompletionResponse(reply.value, created).Success?
      && ChatCompletionV2Result(template, backends, top, messages, recording, created).value
         == BuildChatCompletionResponse(reply.value, created).value
  {
  }

  /** The service never raises an `HTTPException`: every failure of either entry point is a service exception. */
  lemma ServiceRaisesNoHttpException(template: SystemTemplate, backends: Backends, top: int, messages: seq<ChatMessage>,
                                     api: seq<ApiChatMessage>, recording: bool, created: int)
    ensures ChatCompletionResult(template, backends, top, messages, recording, created).Failure? ==>
      ChatCompletionResult(template, backends, top, messages, recording, created).error.ServiceException?
    ensures ChatCompletionV2Result(template, backends, top, api, recording, created).Failure? ==>
      ChatCompletionV2Result(template, backends, top, api, recording, created).error.ServiceException?
  {
    PipelineRaisesServiceExceptions(template, backends, top, messages, recording);
    PipelineRaisesServiceExceptions(template, backends, top, ToChatMessages(api), recording);
  }

  /**
   * The chat service as `ChatRouters` constructs it: configuration, the system-message
   * template, the two oracles and the optional history sink.
   */
  class ChatService {
    const config: Config
    const template: SystemTemplate
    const backends: Backends
    const messageHistory: MessageHistory?

    constructor (config: Config, template: SystemTemplate, backends: Backends, messageHistory: MessageHistory?)
      requires ValidateEnvVars(config).Pass?
      ensures this.config == config && this.template == template
      ensures this.backends == backends && this.messageHistory == messageHistory
    {
      this.config := config;
      this.template := template;
      this.backends := backends;
      this.messageHistory := messageHistory;
    }

    /**
     * `ChatService(message_history)`: reads the environment and raises `ValueError` when
     * a required variable is missing.
     */
    static method New(env: Env, template: SystemTemplate, backends: Backends, messageHistory: MessageHistory?)
      returns (r: Result<ChatService, Exception>)
      ensures r.Failure? <==> ValidateEnvVars(InitEnvVars(env)).Fail?
      ensures r.Failure? ==> r.error == ServiceException(EnvVarsMissing(EnvVarsMessage))
      ensures r.Success? ==> fresh(r.value) && r.value.config == InitEnvVars(env) && r.value.template == template
      ensures r.Success? ==> r.value.backends == backends && r.value.messageHistory == messageHistory
    {
      var config := InitEnvVars(env);
      var check := ValidateEnvVars(config);
      if check.Fail? {
        return Failure(check.error);
      }
      var service := new ChatService(config, template, backends, messageHistory);
      return Success(service);
    }

    /**
     * `_retrieve_search_context`: one search per message; every document found adds
     * `"\n" + content` and, if labelled, its source page; a references block follows when
     * any label was found; the result is stripped. A failing search stops the loop.
     */
    method RetrieveSearchContext(messages: seq<ChatMessage>) returns (r: Result<string, string>, queries: seq<Query>)
      ensures var run := RunSearches(backends.search, messages, config.searchTopResults);
        && queries == QueriesFor(messages[..run.searched], config.searchTopResults)
        && r == (if run.failure.Some? then Failure(run.failure.value) else Success(ContextText(run.docs)))
    {
      var top := config.searchTopResults;
      var searchContext := "";
      var references: seq<string> := [];
      queries := [];
      ghost var docs: seq<Doc> := [];
      var i := 0;
      while i < |messages|
        invariant 0 <= i <= |messages|
        invariant RunSearches(backends.search, messages[..i], top) == SearchRun(docs, i, None)
        invariant searchContext == DocsText(docs) && references == References(docs)
        invariant queries == QueriesFor(messages[..i], top)
      {
        var message := messages[i];
        SearchStep(backends.search, messages, top, i, docs);
        queries := queries + [Query(message.content, top)];
        var results := backends.search(message.content, top);
        if results.Failure? {
          FailureStops(backends.search, messages, top, i + 1);
          assert RunSearches(backends.search, messages, top) == SearchRun(docs, i + 1, Some(results.error));
          return Failure(results.error), queries;
        }
        var found := results.value;
        var j := 0;
        assert docs + found[..0] == docs;
        while j < |found|
          invariant 0 <= j <= |found|
          invariant searchContext == DocsText(docs + found[..j]) && references == References(docs + found[..j])
        {
          var doc := found[j];
          DocStep(docs, found, j);
          searchContext := searchContext + "\n" + doc.content;
          if doc.sourcepage.Some? {
            references := references + [doc.sourcepage.value];
          }
          j := j + 1;
        }
        assert found[..j] == found;
        docs := docs + found;
        i := i + 1;
      }
      assert messages[..i] == messages;
      assert RunSearches(backends.search, messages, top) == SearchRun(docs, |messages|, None);
      if |references| > 0 {
        searchContext := searchContext + ReferencesHeader + Join("\n", references);
      }
      assert searchContext == RawContext(docs);
      r := Success(Strip(searchContext));
      assert r == Success(ContextText(docs));
    }

    /** The common part of both service entry points, up to the response construction. */
    method Complete(messages: seq<ChatMessage>) returns (reply: Result<CompletionReply, Exception>, queries: seq<Query>, prompts: seq<seq<LcMessage>>)
      modifies messageHistory
      ensures var run := RunCompletion(template, backends, config.searchTopResults, messages, messageHistory != null);
        && reply == run.reply && queries == run.queries && prompts == run.prompts
        && (messageHistory != null ==> messageHistory.messages == old(messageHistory.messages) + run.recorded)
    {
      ghost var recording := messageHistory != null;
      ghost var search := RunSearches(backends.search, messages, config.searchTopResults);
      CompletionSteps(template, backends, config.searchTopResults, messages, recording);
      var context;
      context, queries := RetrieveSearchContext(messages);
      prompts := [];
      if context.Failure? {
        return Failure(ServiceException(SearchFailed(context.error))), queries, prompts;
      }
      var prompt := CreatePrompt(template, context.value);
      if |messages| == 0 {
        return Failure(ServiceException(IndexError)), queries, prompts;
      }
      var last := messages[|messages| - 1].content;
      var formatted := FormatPrompt(prompt, [], PyStr(last));
      prompts := [formatted];
      var completion := backends.complete(formatted);
      if completion.Failure? {
        return Failure(ServiceException(CompletionFailed(completion.error))), queries, prompts;
      }
      if messageHistory != null {
        if last.None? {
          return Failure(ServiceException(ValidationError("HumanMessage"))), queries, prompts;
        }
        messageHistory.AddMessages([HumanMessage(last.value), AIMessage(completion.value.content)]);
      }
      reply := Success(completion.value);
    }

    /** `get_chat_completion`: the pipeline, then the simple response shape. */
    method GetChatCompletion(messages: seq<ChatMessage>, created: int)
      returns (r: Result<ChatResponse, Exception>, queries: seq<Query>, prompts: seq<seq<LcMessage>>)
      modifies messageHistory
      ensures r == ChatCompletionResult(template, backends, config.searchTopResults, messages, messageHistory != null, created)
      ensures var run := RunCompletion(template, backends, config.searchTopResults, messages, messageHistory != null);
        && queries == run.queries && prompts == run.prompts
        && (messageHistory != null ==> messageHistory.messages == old(messageHistory.messages) + run.recorded)
    {
      var reply;
      reply, queries, prompts := Complete(messages);
      if reply.Failure? {
        return Failure(reply.error), queries, prompts;
      }
      r := BuildChatResponse(reply.value, created);
    }

    /** `get_chat_completion_v2`: normalise the API messages, run the pipeline, build the rich shape. */
    method GetChatCompletionV2(messages: seq<ApiChatMessage>, created: int)
      returns (r: Result<ChatCompletionResponse, Exception>, queries: seq<Query>, prompts: seq<seq<LcMessage>>)
      modifies messageHistory
      ensures r == ChatCompletionV2Result(template, backends, config.searchTopResults, messages, messageHistory != null, created)
      ensures var run := RunCompletion(template, backends, config.searchTopResults, ToChatMessages(messages), messageHistory != null);
        && queries == run.queries && prompts == run.prompts
        && (messageHistory != null ==> messageHistory.messages == old(messageHistory.messages) + run.recorded)
    {
      var chatMessages := ToChatMessages(messages);
      var reply;
      reply, queries, prompts := Complete(chatMessages);
      if reply.Failure? {
        return Failure(reply.error), queries, prompts;
      }
      r := BuildChatCompletionResponse(reply.value, created);
    }
  }
}
