/**
 * The two chat endpoints, `/chat` and `/chat/completion`: the `user-id` header check,
 * the collect-all validation of the message list, the mapping of service exceptions to
 * HTTP errors, the choice between a streamed and a JSON answer, and the camelCase
 * projection of the rich response.
 */
module ChatRouters {
  import opened Wrappers
  import opened Strings
  import opened Sequences
  import opened ChatModels
  import opened Exceptions
  import opened ChatServices

  // ---------------------------------------------------------------------------------
  // Message validation
  // ---------------------------------------------------------------------------------

  /**
   * The list `_validate_messages` checks, tagged with its endpoint: `/chat` passes
   * `ChatMessage`s (`is_completion` false), `/chat/completion` passes `ApiChatMessage`s.
   */
  datatype MessageList = ChatList(chat: seq<ChatMessage>) | CompletionList(api: seq<ApiChatMessage>)

  function Count(list: MessageList): nat
  {
    match list
    case ChatList(ms) => |ms|
    case CompletionList(ms) => |ms|
  }

  const EmptyListError: string := "A lista de mensagens não pode estar vazia."

  /** `', '.join([role.value for role in ChatRole])`. */
  function AllowedRoles(): string
  {
    Join(", ", RoleValues(ChatRoles))
  }

  function RoleValues(roles: seq<ChatRole>): (r: seq<string>)
    ensures |r| == |roles| && forall k :: 0 <= k < |roles| ==> r[k] == roles[k].Value()
  {
    if roles == [] then [] else RoleValues(roles[..|roles| - 1]) + [roles[|roles| - 1].Value()]
  }

  /** The allowed roles are listed in declaration order. */
  lemma AllowedRolesText()
    ensures AllowedRoles() == "user" + ", " + "assistant" + ", " + "system" + ", " + "ai" + ", " + "tool"
  {
    var v := RoleValues(ChatRoles);
    assert v == ["user", "assistant", "system", "ai", "tool"];
    assert v[..2][..1] == v[..1] == ["user"];
    assert Join(", ", v[..2]) == "user" + ", " + "assistant";
    assert v[..3][..2] == v[..2];
    assert Join(", ", v[..3]) == "user" + ", " + "assistant" + ", " + "system";
    assert v[..4][..3] == v[..3];
    assert Join(", ", v[..4]) == "user" + ", " + "assistant" + ", " + "system" + ", " + "ai";
    assert v[..|v| - 1] == v[..4];
  }

  /** The checks `_validate_messages` runs on one message; the first three are the `/chat` ones. */
  datatype Check =
    | ContentEmpty | RoleEmpty | RoleInvalid
    | RoleNameEmpty | MessageContentEmpty | RoleNameInvalid | EndTurnIndicatorMissing

  /** One collected error: the empty list, or a failed check on the message at `index`. */
  datatype ValidationError = EmptyList | Invalid(index: nat, check: Check)

  /** The sentence a failed check contributes: the attribute, the message index, and what is wrong. */
  function AttributeError(attribute: string, i: nat, rest: string): string
  {
    "O atributo '" + attribute + "' da mensagem no índice " + NatToString(i) + " " + rest
  }

  /** The error message `_validate_messages` appends for `e`. */
  function Text(e: ValidationError): string
  {
    match e
    case EmptyList => EmptyListError
    case Invalid(i, ContentEmpty) => AttributeError("content", i, "não pode estar vazio para /chat.")
    case Invalid(i, RoleEmpty) => AttributeError("role", i, "não pode estar vazio para /chat.")
    case Invalid(i, RoleInvalid) =>
      AttributeError("role", i, "deve ser um dos seguintes: " + AllowedRoles() + " para /chat.")
    case Invalid(i, RoleNameEmpty) => AttributeError("roleName", i, "não pode estar vazio para /chat/completion.")
    case Invalid(i, MessageContentEmpty) =>
      AttributeError("messageContent", i, "não pode estar vazio para /chat/completion.")
    case Invalid(i, RoleNameInvalid) =>
      AttributeError("roleName", i, "deve ser um dos seguintes: " + AllowedRoles() + " para /chat/completion.")
    case Invalid(i, EndTurnIndicatorMissing) =>
      AttributeError("endTurnIndicator", i, "não pode ser vazio para /chat/completion.")
  }

  /** The error messages of `es`, in order. */
  function Texts(es: seq<ValidationError>): seq<string>
  {
    Map(Text, es)
  }

  /** `not message.content`: the content is `None` or empty. */
  predicate ContentFalsy(content: Option<string>) { content.None? || content.value == "" }

  /** `message.role not in ChatRole`, for a role given by its string value. */
  predicate NotInChatRole(value: string) { RoleFromValue(value).None? }

  /** The errors `/chat` reports for message `m` at index `i`, in the order the checks run. */
  function ChatMessageErrors(m: ChatMessage, i: nat): seq<ValidationError>
  {
    (if ContentFalsy(m.content) then [Invalid(i, ContentEmpty)] else [])
    + (if m.role.Value() == "" then [Invalid(i, RoleEmpty)] else [])
    + (if NotInChatRole(m.role.Value()) then [Invalid(i, RoleInvalid)] else [])
  }

  /** The errors `/chat/completion` reports for message `m` at index `i`, in the order the checks run. */
  function ApiMessageErrors(m: ApiChatMessage, i: nat): seq<ValidationError>
  {
    (if m.roleName.Value() == "" then [Invalid(i, RoleNameEmpty)] else [])
    + (if m.messageContent == "" then [Invalid(i, MessageContentEmpty)] else [])
    + (if NotInChatRole(m.roleName.Value()) then [Invalid(i, RoleNameInvalid)] else [])
    + (if m.endTurnIndicator.None? then [Invalid(i, EndTurnIndicatorMissing)] else [])
  }

  /** The errors found in message `i` of the list. */
  function MessageErrors(list: MessageList, i: nat): seq<ValidationError>
    requires i < Count(list)
  {
    match list
    case ChatList(ms) => ChatMessageErrors(ms[i], i)
    case CompletionList(ms) => ApiMessageErrors(ms[i], i)
  }

  /** The errors of each message, message by message. */
  function PerMessageErrors(list: MessageList): (r: seq<seq<ValidationError>>)
    ensures |r| == Count(list)
    ensures forall i :: 0 <= i < Count(list) ==> r[i] == MessageErrors(list, i)
  {
    seq(Count(list), i requires 0 <= i < Count(list) => MessageErrors(list, i))
  }

  /** Every error `_validate_messages` collects, in discovery order. */
  function ValidationErrors(list: MessageList): seq<ValidationError>
  {
    (if Count(list) == 0 then [EmptyList] else []) + Flatten(PerMessageErrors(list))
  }

  /** The `HTTPException` `_validate_messages` raises for a non-empty list of errors. */
  function ValidationFailure(errors: seq<ValidationError>): Exception
  {
    HttpException(HttpError(HTTP_400_BAD_REQUEST, Join("; ", Texts(errors))))
  }

  /** The `/chat/completion` checks of `_validate_messages` on one message, in the order they run. */
  method CheckApiMessage(message: ApiChatMessage, i: nat) returns (found: seq<ValidationError>)
    ensures found == ApiMessageErrors(message, i)
  {
    found := [];
    if message.roleName.Value() == "" {
      found := found + [Invalid(i, RoleNameEmpty)];
    }
    if message.messageContent == "" {
      found := found + [Invalid(i, MessageContentEmpty)];
    }
    if NotInChatRole(message.roleName.Value()) {
      found := found + [Invalid(i, RoleNameInvalid)];
    }
    if message.endTurnIndicator.None? {
      found := found + [Invalid(i, EndTurnIndicatorMissing)];
    }
  }

  /** The `/chat` checks of `_validate_messages` on one message, in the order they run. */
  method CheckChatMessage(message: ChatMessage, i: nat) returns (found: seq<ValidationError>)
    ensures found == ChatMessageErrors(message, i)
  {
    found := [];
    if ContentFalsy(message.content) {
      found := found + [Invalid(i, ContentEmpty)];
    }
    if message.role.Value() == "" {
      found := found + [Invalid(i, RoleEmpty)];
    }
    if NotInChatRole(message.role.Value()) {
      found := found + [Invalid(i, RoleInvalid)];
    }
  }

  /**
   * `_validate_messages`: walk the list once, collect one error per failed check (no
   * check stops the walk), and raise one 400 error carrying all their messages, joined by
   * `"; "`, exactly when at least one was found.
   */
  method ValidateMessages(list: MessageList) returns (r: Outcome<Exception>)
    ensures r.Fail? <==> ValidationErrors(list) != []
    ensures r.Fail? ==> r.error == HttpException(HttpError(400, Join("; ", Texts(ValidationErrors(list)))))
  {
    var errors: seq<ValidationError> := [];
    if Count(list) == 0 {
      errors := errors + [EmptyList];
    }
    ghost var initial := errors;
    ghost var per := PerMessageErrors(list);
    var i := 0;
    while i < Count(list)
      invariant 0 <= i <= Count(list)
      invariant errors == initial + Flatten(per[..i])
    {
      var found;
      if list.CompletionList? {
        found := CheckApiMessage(list.api[i], i);
      } else {
        found := CheckChatMessage(list.chat[i], i);
      }
      assert found == per[i];
      FlattenStep(initial, per, i);
      errors := errors + found;
      i := i + 1;
    }
    assert per[..i] == per;
    if |errors| > 0 {
      return Fail(ValidationFailure(errors));
    }
    return Pass;
  }

  /** An empty list yields exactly one error, the empty-list message, and nothing else. */
  lemma EmptyListOnlyError(list: MessageList)
    requires Count(list) == 0
    ensures ValidationErrors(list) == [EmptyList]
    ensures Join("; ", Texts(ValidationErrors(list))) == "A lista de mensagens não pode estar vazia."
  {
    assert PerMessageErrors(list) == [];
    assert Texts([EmptyList]) == [EmptyListError];
  }

  /**
   * Errors are ordered by message index: for a non-empty list the errors are those of
   * each message in turn, so the errors of messages `0 .. k-1` open the list and those of
   * message `k` (`per[k]`) follow them, whole and unchanged.
   */
  lemma ErrorsInMessageOrder(list: MessageList, k: nat)
    requires k < Count(list)
    ensures var per := PerMessageErrors(list);
      var pre := Flatten(per[..k]);
      && ValidationErrors(list) == Flatten(per)
      && |pre| + |per[k]| <= |Flatten(per)|
      && Flatten(per)[..|pre|] == pre
      && Flatten(per)[|pre|..|pre| + |per[k]|] == per[k]
  {
    NonEmptyListErrors(list);
    FlattenPrefix(PerMessageErrors(list), k);
    FlattenSlice(PerMessageErrors(list), k);
  }

  /** A non-empty list reports its messages' errors and nothing else. */
  lemma NonEmptyListErrors(list: MessageList)
    requires Count(list) > 0
    ensures ValidationErrors(list) == Flatten(PerMessageErrors(list))
  {
    assert ValidationErrors(list) == [] + Flatten(PerMessageErrors(list));
  }

  /** Collect-all, not fail-fast: every error of every message is reported. */
  lemma EveryDefectReported(list: MessageList, i: nat, e: ValidationError)
    requires i < Count(list) && e in MessageErrors(list, i)
    ensures e in ValidationErrors(list)
  {
    FlattenContains(PerMessageErrors(list), i);
  }

  /** Every error reported for a non-empty list is an error of one of its messages. */
  lemma ErrorsComeFromMessages(list: MessageList, e: ValidationError)
    requires Count(list) > 0 && e in ValidationErrors(list)
    ensures exists i :: 0 <= i < Count(list) && e in MessageErrors(list, i)
  {
    FlattenOrigin(PerMessageErrors(list), e);
  }

  /** Each error names the message it was found in. */
  lemma MessageErrorsNameTheirIndex(list: MessageList, i: nat, e: ValidationError)
    requires i < Count(list) && e in MessageErrors(list, i)
    ensures e.Invalid? && e.index == i
  {
  }

  /**
   * Where a check sits among its endpoint's checks in `_validate_messages`, counting
   * from the first `if` of its branch.
   */
  function CheckRank(e: ValidationError): nat
  {
    match e
    case EmptyList => 0
    case Invalid(_, ContentEmpty) => 0
    case Invalid(_, RoleEmpty) => 1
    case Invalid(_, RoleInvalid) => 2
    case Invalid(_, RoleNameEmpty) => 0
    case Invalid(_, MessageContentEmpty) => 1
    case Invalid(_, RoleNameInvalid) => 2
    case Invalid(_, EndTurnIndicatorMissing) => 3
  }

  /** Within one message, the errors come in the order the checks are written. */
  lemma ChecksInSourceOrder(list: MessageList, i: nat, j: nat, k: nat)
    requires i < Count(list) && j < k < |MessageErrors(list, i)|
    ensures CheckRank(MessageErrors(list, i)[j]) < CheckRank(MessageErrors(list, i)[k])
  {
  }

  function Flag(b: bool): nat { if b then 1 else 0 }

  /** How many of the `/chat` checks message `m` fails. */
  function ChatFailedChecks(m: ChatMessage): nat
  {
    Flag(ContentFalsy(m.content)) + Flag(m.role.Value() == "") + Flag(NotInChatRole(m.role.Value()))
  }

  /** How many of the `/chat/completion` checks message `m` fails. */
  function ApiFailedChecks(m: ApiChatMessage): nat
  {
    Flag(m.roleName.Value() == "") + Flag(m.messageContent == "") + Flag(NotInChatRole(m.roleName.Value()))
    + Flag(m.endTurnIndicator.None?)
  }

  /** How many checks message `i` of the list fails. */
  function FailedChecksAt(list: MessageList, i: nat): nat
    requires i < Count(list)
  {
    match list
    case ChatList(ms) => ChatFailedChecks(ms[i])
    case CompletionList(ms) => ApiFailedChecks(ms[i])
  }

  /** How many checks each message fails, message by message. */
  function CheckCounts(list: MessageList): (r: seq<nat>)
    ensures |r| == Count(list)
    ensures forall i :: 0 <= i < Count(list) ==> r[i] == FailedChecksAt(list, i)
  {
    match list
    case ChatList(ms) => Map(ChatFailedChecks, ms)
    case CompletionList(ms) => Map(ApiFailedChecks, ms)
  }

  /** One error per failed check of a message. */
  lemma MessageErrorCount(list: MessageList, i: nat)
    requires i < Count(list)
    ensures |MessageErrors(list, i)| == FailedChecksAt(list, i)
  {
  }

  /** K failed checks give exactly K errors, plus the empty-list error for an empty list. */
  lemma ErrorCount(list: MessageList)
    ensures |ValidationErrors(list)| == Flag(Count(list) == 0) + Sum(CheckCounts(list))
  {
    var per := PerMessageErrors(list);
    var counts := CheckCounts(list);
    forall i | 0 <= i < |per|
      ensures |per[i]| == counts[i]
    {
      MessageErrorCount(list, i);
    }
    TotalCountIsSum(per, counts);
    FlattenLength(per);
  }

  /**
   * The role checks of `/chat` never fire: a `ChatMessage`'s role is already a member of
   * `ChatRole`, so only an empty or missing content is reported.
   */
  lemma ChatRoleChecksNeverFire(m: ChatMessage, i: nat)
    ensures ChatMessageErrors(m, i) == (if ContentFalsy(m.content) then [Invalid(i, ContentEmpty)] else [])
  {
    ChatRoleClosed();
    assert m.role.Value() != "";
  }

  /**
   * On records pydantic has built, `/chat/completion` can only report an explicit null
   * `endTurnIndicator`: role names are members and contents are non-empty.
   */
  lemma CompletionChecksOnValidRecords(m: ApiChatMessage, i: nat)
    requires ValidApiChatMessage(m)
    ensures ApiMessageErrors(m, i) == (if m.endTurnIndicator.None? then [Invalid(i, EndTurnIndicatorMissing)] else [])
  {
    ChatRoleClosed();
    assert m.roleName.Value() != "";
  }

  /** Validation passes exactly when the list is non-empty and no message has an error. */
  lemma ValidationPassesIff(list: MessageList)
    ensures ValidationErrors(list) == [] <==>
      Count(list) > 0 && forall i :: 0 <= i < Count(list) ==> MessageErrors(list, i) == []
  {
    FlattenEmpty(PerMessageErrors(list));
  }

  /** Messages that pass `/chat/completion` validation still pass `/chat` validation once normalised. */
  lemma NormalizedMessagesPassChatValidation(ms: seq<ApiChatMessage>)
    requires ValidationErrors(CompletionList(ms)) == []
    ensures ValidationErrors(ChatList(ToChatMessages(ms))) == []
  {
    ValidationPassesIff(CompletionList(ms));
    var cs := ToChatMessages(ms);
    forall i | 0 <= i < |cs| ensures MessageErrors(ChatList(cs), i) == [] {
      assert MessageErrors(CompletionList(ms), i) == [];
      assert ms[i].messageContent != "";
      ChatRoleChecksNeverFire(cs[i], i);
    }
    ValidationPassesIff(ChatList(cs));
  }

  /** One message with empty content: a single error naming index 0, as the whole detail. */
  lemma EmptyContentScenario()
    ensures var list := ChatList([ChatMessage(Some(""), User)]);
      ValidationErrors(list) == [Invalid(0, ContentEmpty)]
      && Join("; ", Texts(ValidationErrors(list)))
         == "O atributo '" + "content" + "' da mensagem no índice " + "0" + " " + "não pode estar vazio para /chat."
  {
    EmptyContentErrors();
    assert Texts([Invalid(0, ContentEmpty)]) == [Text(Invalid(0, ContentEmpty))];
    assert NatToString(0) == "0";
  }

  /** One message with empty content fails exactly the content check. */
  lemma EmptyContentErrors()
    ensures ValidationErrors(ChatList([ChatMessage(Some(""), User)])) == [Invalid(0, ContentEmpty)]
  {
    var list := ChatList([ChatMessage(Some(""), User)]);
    ChatRoleChecksNeverFire(list.chat[0], 0);
    assert PerMessageErrors(list) == [[Invalid(0, ContentEmpty)]];
    FlattenSnoc([], [Invalid(0, ContentEmpty)]);
    assert [] + [[Invalid(0, ContentEmpty)]] == [[Invalid(0, ContentEmpty)]];
    NonEmptyListErrors(list);
  }

  /**
   * The 400 detail lists every error's text, in order: error `i` follows the
   * `i` texts before it, each closed by `"; "`.
   */
  lemma DetailListsEveryError(errors: seq<ValidationError>, i: nat)
    requires i < |errors|
    ensures var detail := ValidationFailure(errors).error.detail;
      var at := TotalLength(Texts(errors)[..i]) + 2 * i;
      at + |Text(errors[i])| <= |detail| && detail[at..at + |Text(errors[i])|] == Text(errors[i])
  {
    JoinElementAt("; ", Texts(errors), i);
  }

  /** The length of the 400 detail: every text plus one `"; "` between neighbours. */
  lemma DetailLength(errors: seq<ValidationError>)
    requires |errors| > 0
    ensures |ValidationFailure(errors).error.detail| == TotalLength(Texts(errors)) + 2 * (|errors| - 1)
  {
    JoinLength("; ", Texts(errors));
  }

  // ---------------------------------------------------------------------------------
  // Header check and exception mapping
  // ---------------------------------------------------------------------------------

  const UserHeaderRequired: string := "O cabeçalho 'user-id' é obrigatório."

  /**
   * `_validate_user_header`: a missing header is a 400 error; any value, the empty
   * string included, is returned unchanged.
   */
  function ValidateUserHeader(userId: Option<string>): (r: Result<string, HttpError>)
    ensures r.Failure? <==> userId.None?
    ensures r.Success? ==> r.value == userId.value
    ensures r.Failure? ==> r.error == HttpError(400, "O cabeçalho 'user-id' é obrigatório.")
  {
    if userId.None? then Failure(HttpError(HTTP_400_BAD_REQUEST, UserHeaderRequired)) else Success(userId.value)
  }

  const ChatErrorDetail: string := "Erro ao processar a solicitação de chat."
  const CompletionErrorDetail: string := "Erro ao processar a solicitação de conclusão de chat."

  /**
   * The two `except` clauses of an endpoint: an `HTTPException` is re-raised as it is,
   * any other exception becomes a 500 error with the endpoint's fixed detail.
   */
  function ToHttpError(e: Exception, genericDetail: string): (r: HttpError)
    ensures e.HttpException? ==> r == e.error
    ensures e.ServiceException? ==> r.statusCode == 500 && r.detail == genericDetail
  {
    match e
    case HttpException(error) => error
    case ServiceException(_) => HttpError(HTTP_500_INTERNAL_SERVER_ERROR, genericDetail)
  }

  // ---------------------------------------------------------------------------------
  // The /chat answer: streamed or JSON
  // ---------------------------------------------------------------------------------

  /** `StreamingResponse(chunks)` or `JSONResponse(chat_response.model_dump())`, both with status 200. */
  datatype Response =
    | StreamingResponse(chunks: seq<Option<string>>, statusCode: int)
    | JsonResponse(body: ChatResponse, statusCode: int)

  /** `response_generator`: each choice's content, in choice order, unsplit. */
  function StreamChunks(choices: seq<ChatChoice>): (chunks: seq<Option<string>>)
    ensures |chunks| == |choices|
    ensures forall k :: 0 <= k < |choices| ==> chunks[k] == choices[k].message.content
  {
    if choices == [] then [] else StreamChunks(choices[..|choices| - 1]) + [choices[|choices| - 1].message.content]
  }

  function ChatOutput(response: ChatResponse, stream: bool): (r: Response)
    ensures r.statusCode == 200
    ensures stream <==> r.StreamingResponse?
    ensures r.StreamingResponse? ==> r.chunks == StreamChunks(response.choices)
    ensures r.JsonResponse? ==> r.body == response
  {
    if stream then StreamingResponse(StreamChunks(response.choices), HTTP_200_OK) else JsonResponse(response, HTTP_200_OK)
  }

  // ---------------------------------------------------------------------------------
  // The /chat/completion answer: camelCase projection
  // ---------------------------------------------------------------------------------

  datatype UsageJson = UsageJson(completionTokenCount: int, promptTokenCount: int, totalTokenCount: int)
  datatype DetailsJson = DetailsJson(idCompletion: string, objectType: string, createdDateTime: int, usage: UsageJson)
  datatype ChoiceCommonJson = ChoiceCommonJson(indexOption: int, finishReason: Option<FinishReason>)
  datatype MessageJson = MessageJson(roleName: ChatRole, messageContent: string, endTurnIndicator: bool)
  datatype ChoiceJson = ChoiceJson(chatCompletionChoiceCommon: ChoiceCommonJson, message: MessageJson)
  datatype DataJson = DataJson(details: DetailsJson, choices: seq<ChoiceJson>)

  /** The `response_content` dictionary of `create_chat_completion`. */
  datatype CompletionJson = CompletionJson(data: DataJson)

  /** Python's `value or True` for an optional flag. */
  function OrTrue(value: Option<bool>): (r: bool)
    ensures r
  {
    if value.Some? && value.value then value.value else true
  }

  function ProjectChoice(choice: ChatCompletionChoice): ChoiceJson
  {
    ChoiceJson(
      ChoiceCommonJson(choice.chatCompletionChoiceCommon.indexOption, choice.chatCompletionChoiceCommon.finishReason),
      MessageJson(choice.message.roleName, choice.message.messageContent, OrTrue(choice.message.endTurnIndicator)))
  }

  /** The list comprehension over `chat_response.data.choices`. */
  function ProjectChoices(choices: seq<ChatCompletionChoice>): (r: seq<ChoiceJson>)
    ensures |r| == |choices|
    ensures forall k :: 0 <= k < |choices| ==> r[k] == ProjectChoice(choices[k])
  {
    if choices == [] then [] else ProjectChoices(choices[..|choices| - 1]) + [ProjectChoice(choices[|choices| - 1])]
  }

  /**
   * The camelCase re-projection: `objectType` is always "completion", every
   * `endTurnIndicator` is true, and there is one output choice per service choice with
   * its index, finish reason, role, content and the three token counts unchanged.
   */
  function ProjectCompletionResponse(response: ChatCompletionResponse): (r: CompletionJson)
    ensures r.data.details.objectType == "completion"
    ensures r.data.details.idCompletion == response.data.details.idCompletion
    ensures r.data.details.createdDateTime == response.data.details.createdDateTime
    ensures r.data.details.usage.completionTokenCount == response.data.details.usage.completionTokenCount
    ensures r.data.details.usage.promptTokenCount == response.data.details.usage.promptTokenCount
    ensures r.data.details.usage.totalTokenCount == response.data.details.usage.totalTokenCount
    ensures |r.data.choices| == |response.data.choices|
    ensures forall k :: 0 <= k < |response.data.choices| ==>
      var out := r.data.choices[k];
      var choice := response.data.choices[k];
      && out.chatCompletionChoiceCommon.indexOption == choice.chatCompletionChoiceCommon.indexOption
      && out.chatCompletionChoiceCommon.finishReason == choice.chatCompletionChoiceCommon.finishReason
      && out.message.roleName == choice.message.roleName
      && out.message.messageContent == choice.message.messageContent
      && out.message.endTurnIndicator
  {
    var details := response.data.details;
    CompletionJson(DataJson(
      DetailsJson(
        details.idCompletion, CompletionObjectType, details.createdDateTime,
        UsageJson(details.usage.completionTokenCount, details.usage.promptTokenCount, details.usage.totalTokenCount)),
      ProjectChoices(response.data.choices)))
  }

  // ---------------------------------------------------------------------------------
  // The endpoints
  // ---------------------------------------------------------------------------------

  /** What one request does: the answer (or HTTP error) and the backend calls made. */
  datatype EndpointRun<R> = EndpointRun(result: Result<R, HttpError>, queries: seq<Query>, prompts: seq<seq<LcMessage>>)

  /**
   * `create_chat_response` as a function: header, validation, service construction (the
   * router builds `ChatService()` without a history sink), the pipeline, then the
   * streamed or JSON answer.
   */
  function ChatEndpoint(userId: Option<string>, request: ChatRequest, env: Env, template: SystemTemplate, backends: Backends, created: int)
    : EndpointRun<Response>
  {
    if ValidateUserHeader(userId).Failure? then EndpointRun(Failure(ValidateUserHeader(userId).error), [], [])
    else
      var errors := ValidationErrors(ChatList(request.messages));
      if errors != [] then EndpointRun(Failure(ToHttpError(ValidationFailure(errors), ChatErrorDetail)), [], [])
      else
        var config := InitEnvVars(env);
        if ValidateEnvVars(config).Fail? then EndpointRun(Failure(ToHttpError(ValidateEnvVars(config).error, ChatErrorDetail)), [], [])
        else
          var run := RunCompletion(template, backends, config.searchTopResults, request.messages, false);
          var result := ChatCompletionResult(template, backends, config.searchTopResults, request.messages, false, created);
          if result.Failure? then EndpointRun(Failure(ToHttpError(result.error, ChatErrorDetail)), run.queries, run.prompts)
          else EndpointRun(Success(ChatOutput(result.value, request.stream)), run.queries, run.prompts)
  }

  /** `create_chat_completion` as a function; `streamIndicator` is not consulted. */
  function ChatCompletionEndpoint(userId: Option<string>, request: ChatCompletionRequest, env: Env, template: SystemTemplate, backends: Backends, created: int)
    : EndpointRun<CompletionJson>
  {
    CompletionEndpointOn(userId, request.data.messages, env, template, backends, created)
  }

  /** The work of `create_chat_completion`, which reads only the messages of the request. */
  function CompletionEndpointOn(userId: Option<string>, messages: seq<ApiChatMessage>, env: Env, template: SystemTemplate, backends: Backends, created: int)
    : EndpointRun<CompletionJson>
  {
    if ValidateUserHeader(userId).Failure? then EndpointRun(Failure(ValidateUserHeader(userId).error), [], [])
    else
      var errors := ValidationErrors(CompletionList(messages));
      if errors != [] then EndpointRun(Failure(ToHttpError(ValidationFailure(errors), CompletionErrorDetail)), [], [])
      else
        var config := InitEnvVars(env);
        if ValidateEnvVars(config).Fail? then EndpointRun(Failure(ToHttpError(ValidateEnvVars(config).error, CompletionErrorDetail)), [], [])
        else
          var run := RunCompletion(template, backends, config.searchTopResults, ToChatMessages(messages), false);
          var result := ChatCompletionV2Result(template, backends, config.searchTopResults, messages, false, created);
          if result.Failure? then EndpointRun(Failure(ToHttpError(result.error, CompletionErrorDetail)), run.queries, run.prompts)
          else EndpointRun(Success(ProjectCompletionResponse(result.value)), run.queries, run.prompts)
  }

  /** `POST /chat`. */
  method CreateChatResponse(userId: Option<string>, request: ChatRequest, env: Env, template: SystemTemplate, backends: Backends, created: int)
    returns (r: Result<Response, HttpError>, queries: seq<Query>, prompts: seq<seq<LcMessage>>)
    ensures EndpointRun(r, queries, prompts) == ChatEndpoint(userId, request, env, template, backends, created)
  {
    var user := ValidateUserHeader(userId);
    if user.Failure? {
      return Failure(user.error), [], [];
    }
    var validation := ValidateMessages(ChatList(request.messages));
    if validation.Fail? {
      return Failure(ToHttpError(validation.error, ChatErrorDetail)), [], [];
    }
    var service := ChatService.New(env, template, backends, null);
    if service.Failure? {
      return Failure(ToHttpError(service.error, ChatErrorDetail)), [], [];
    }
    var response;
    response, queries, prompts := service.value.GetChatCompletion(request.messages, created);
    if response.Failure? {
      return Failure(ToHttpError(response.error, ChatErrorDetail)), queries, prompts;
    }
    r := Success(ChatOutput(response.value, request.stream));
  }

  /** `POST /chat/completion`. */
  method CreateChatCompletion(userId: Option<string>, request: ChatCompletionRequest, env: Env, template: SystemTemplate, backends: Backends, created: int)
    returns (r: Result<CompletionJson, HttpError>, queries: seq<Query>, prompts: seq<seq<LcMessage>>)
    ensures EndpointRun(r, queries, prompts) == ChatCompletionEndpoint(userId, request, env, template, backends, created)
  {
    var user := ValidateUserHeader(userId);
    if user.Failure? {
      return Failure(user.error), [], [];
    }
    var validation := ValidateMessages(CompletionList(request.data.messages));
    if validation.Fail? {
      return Failure(ToHttpError(validation.error, CompletionErrorDetail)), [], [];
    }
    var service := ChatService.New(env, template, backends, null);
    if service.Failure? {
      return Failure(ToHttpError(service.error, CompletionErrorDetail)), [], [];
    }
    var response;
    response, queries, prompts := service.value.GetChatCompletionV2(request.data.messages, created);
    if response.Failure? {
      return Failure(ToHttpError(response.error, CompletionErrorDetail)), queries, prompts;
    }
    r := Success(ProjectCompletionResponse(response.value));
  }

  // ---------------------------------------------------------------------------------
  // Properties of the endpoints
  // ---------------------------------------------------------------------------------

  /** Invalid input is refused with a 400 before any backend is called. */
  lemma InvalidRequestsCallNoBackend(userId: Option<string>, request: ChatRequest, env: Env, template: SystemTemplate, backends: Backends, created: int)
    requires userId.None? || ValidationErrors(ChatList(request.messages)) != []
    ensures var run := ChatEndpoint(userId, request, env, template, backends, created);
      && run.queries == [] && run.prompts == []
      && run.result.Failure? && run.result.error.statusCode == 400
      && (userId.Some? ==> run.result.error.detail == Join("; ", Texts(ValidationErrors(ChatList(request.messages)))))
  {
  }

  /** An empty message list is refused with exactly the empty-list message. */
  lemma EmptyRequestRejected(userId: string, stream: bool, env: Env, template: SystemTemplate, backends: Backends, created: int)
    ensures ChatEndpoint(Some(userId), ChatRequest([], stream), env, template, backends, created)
      == EndpointRun(Failure(HttpError(400, "A lista de mensagens não pode estar vazia.")), [], [])
  {
    EmptyListOnlyError(ChatList([]));
  }

  /** Once validation passes, any failure of the service is reported as a generic 500 error. */
  lemma ServiceFailuresBecome500(userId: string, request: ChatRequest, env: Env, template: SystemTemplate, backends: Backends, created: int)
    requires ValidationErrors(ChatList(request.messages)) == []
    requires ValidateEnvVars(InitEnvVars(env)).Fail? ||
      ChatCompletionResult(template, backends, InitEnvVars(env).searchTopResults, request.messages, false, created).Failure?
    ensures ChatEndpoint(Some(userId), request, env, template, backends, created).result
      == Failure(HttpError(500, "Erro ao processar a solicitação de chat."))
  {
    var top := InitEnvVars(env).searchTopResults;
    ServiceRaisesNoHttpException(template, backends, top, request.messages, [], false, created);
  }

  /**
   * With `stream` set, a successful answer is streamed as exactly one chunk, the model's
   * content, unsplit; without it the JSON body is the service's response.
   */
  lemma StreamedAnswer(userId: string, request: ChatRequest, env: Env, template: SystemTemplate, backends: Backends, created: int)
    requires ChatEndpoint(Some(userId), request, env, template, backends, created).result.Success?
    ensures var top := InitEnvVars(env).searchTopResults;
      var reply := RunCompletion(template, backends, top, request.messages, false).reply;
      var response := ChatEndpoint(Some(userId), request, env, template, backends, created).result.value;
      && reply.Success?
      && (request.stream ==> response == StreamingResponse([Some(reply.value.content)], 200))
      && (!request.stream ==> response == JsonResponse(BuildChatResponse(reply.value, created).value, 200))
  {
    var top := InitEnvVars(env).searchTopResults;
    var reply := RunCompletion(template, backends, top, request.messages, false).reply;
    ChatEndpointSucceeds(userId, request, env, template, backends, created);
    var resp := BuildChatResponse(reply.value, created).value;
    assert StreamChunks(resp.choices) == [Some(reply.value.content)];
  }

  /** A successful `/chat` answer is the output of the response built from the model's reply. */
  lemma ChatEndpointSucceeds(userId: string, request: ChatRequest, env: Env, template: SystemTemplate, backends: Backends, created: int)
    requires ChatEndpoint(Some(userId), request, env, template, backends, created).result.Success?
    ensures var top := InitEnvVars(env).searchTopResults;
      var reply := RunCompletion(template, backends, top, request.messages, false).reply;
      && reply.Success? && BuildChatResponse(reply.value, created).Success?
      && ChatEndpoint(Some(userId), request, env, template, backends, created).result.value
         == ChatOutput(BuildChatResponse(reply.value, created).value, request.stream)
  {
  }

  /** The completion endpoint answers the same whatever `streamIndicator` says. */
  lemma StreamIndicatorIgnored(userId: Option<string>, request: ChatCompletionRequest, env: Env, template: SystemTemplate, backends: Backends, created: int, flag: bool)
    ensures var params := request.data.params;
      var other := ChatCompletionRequest(DataChatCompletionRequest(ChatCompletionRequestCommon(flag, params.userId), request.data.messages));
      ChatCompletionEndpoint(userId, other, env, template, backends, created)
      == ChatCompletionEndpoint(userId, request, env, template, backends, created)
  {
  }

  /** A successful `/chat/completion` answer is the projection of the response built from the model's reply. */
  lemma CompletionEndpointSucceeds(userId: string, request: ChatCompletionRequest, env: Env, template: SystemTemplate, backends: Backends, created: int)
    requires ChatCompletionEndpoint(Some(userId), request, env, template, backends, created).result.Success?
    ensures var top := InitEnvVars(env).searchTopResults;
      var reply := RunCompletion(template, backends, top, ToChatMessages(request.data.messages), false).reply;
      && reply.Success? && BuildChatCompletionResponse(reply.value, created).Success?
      && ChatCompletionEndpoint(Some(userId), request, env, template, backends, created).result.value
         == ProjectCompletionResponse(BuildChatCompletionResponse(reply.value, created).value)
  {
    var messages := request.data.messages;
    var top := InitEnvVars(env).searchTopResults;
    var result := ChatCompletionV2Result(template, backends, top, messages, false, created);
    assert result.Success?
      && ChatCompletionEndpoint(Some(userId), request, env, template, backends, created).result.value
         == ProjectCompletionResponse(result.value);
    V2ResultSucceeds(template, backends, top, messages, false, created);
  }

  /**
   * A successful `/chat/completion` answer carries the model's reply unchanged: one
   * choice, index 0, role assistant, end of turn, object type "completion", and the
   * content, id, finish reason and token counts of the reply.
   */
  lemma CompletionAnswerCarriesReply(userId: string, request: ChatCompletionRequest, env: Env, template: SystemTemplate, backends: Backends, created: int)
    requires ChatCompletionEndpoint(Some(userId), request, env, template, backends, created).result.Success?
    ensures var top := InitEnvVars(env).searchTopResults;
      var reply := RunCompletion(template, backends, top, ToChatMessages(request.data.messages), false).reply;
      var data := ChatCompletionEndpoint(Some(userId), request, env, template, backends, created).result.value.data;
      && reply.Success?
      && data.details.objectType == "completion" && data.details.createdDateTime == created
      && Some(data.details.idCompletion) == reply.value.id
      && data.details.usage == UsageJson(reply.value.completionTokens, reply.value.promptTokens, reply.value.totalTokens)
      && |data.choices| == 1
      && data.choices[0] == ChoiceJson(
           ChoiceCommonJson(0, ParseFinishReason(reply.value.finishReason).value),
           MessageJson(Assistant, reply.value.content, true))
  {
    var top := InitEnvVars(env).searchTopResults;
    var reply := RunCompletion(template, backends, top, ToChatMessages(request.data.messages), false).reply;
    CompletionEndpointSucceeds(userId, request, env, template, backends, created);
    ProjectionCarriesReply(reply.value, created);
  }

  /** The projection of the rich response built from a reply carries that reply's fields. */
  lemma ProjectionCarriesReply(reply: CompletionReply, created: int)
    requires BuildChatCompletionResponse(reply, created).Success?
    ensures var data := ProjectCompletionResponse(BuildChatCompletionResponse(reply, created).value).data;
      && data.details.objectType == "completion" && data.details.createdDateTime == created
      && Some(data.details.idCompletion) == reply.id
      && data.details.usage == UsageJson(reply.completionTokens, reply.promptTokens, reply.totalTokens)
      && |data.choices| == 1
      && data.choices[0] == ChoiceJson(
           ChoiceCommonJson(0, ParseFinishReason(reply.finishReason).value),
           MessageJson(Assistant, reply.content, true))
  {
    ChatCompletionResponseRoundTrip(reply, created);
  }
}
