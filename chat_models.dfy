/**
 * The records of the chat API: the closed role enumeration, the two inbound message
 * shapes, the two response shapes, and the defaults and constraints their fields carry.
 * `ChatMessage`, `ApiChatMessage`, `ChatRequest`, `ChatCompletionRequestCommon` (all
 * but its UUID check on `userId`), `ChatCompletionResponseCommon` and the finish-reason
 * `Literal` have a `Parse`/`New` function that returns `None` exactly when pydantic
 * would raise a validation error. The other records are built with every field given.
 */
module ChatModels {
  import opened Wrappers

  /** `ChatRole`, a string enumeration with five members. */
  datatype ChatRole = User | Assistant | System | Ai | Tool
  {
    /** The member's string value. */
    function Value(): string
    {
      match this
      case User => "user"
      case Assistant => "assistant"
      case System => "system"
      case Ai => "ai"
      case Tool => "tool"
    }
  }

  /** The members of `ChatRole` in declaration order (the order `for role in ChatRole` visits them). */
  const ChatRoles: seq<ChatRole> := [User, Assistant, System, Ai, Tool]

  /** `ChatRole(s)`: the member whose value is `s`, if there is one. */
  function RoleFromValue(s: string): (r: Option<ChatRole>)
    ensures r.Some? ==> r.value.Value() == s
    ensures r.None? ==> forall role: ChatRole :: role.Value() != s
  {
    if s == "user" then Some(User)
    else if s == "assistant" then Some(Assistant)
    else if s == "system" then Some(System)
    else if s == "ai" then Some(Ai)
    else if s == "tool" then Some(Tool)
    else None
  }

  /** The enumeration is closed: exactly five members, with five distinct values, each read back to itself. */
  lemma ChatRoleClosed()
    ensures |ChatRoles| == 5
    ensures forall role: ChatRole :: role in ChatRoles && RoleFromValue(role.Value()) == Some(role)
    ensures forall i, j :: 0 <= i < j < |ChatRoles| ==> ChatRoles[i].Value() != ChatRoles[j].Value()
  {
    forall role: ChatRole ensures role in ChatRoles && RoleFromValue(role.Value()) == Some(role) {
      match role
      case User => assert ChatRoles[0] == role;
      case Assistant => assert ChatRoles[1] == role;
      case System => assert ChatRoles[2] == role;
      case Ai => assert ChatRoles[3] == role;
      case Tool => assert ChatRoles[4] == role;
    }
  }

  /** `Literal["stop", "length", "content_filter"]`. */
  datatype FinishReason = Stop | Length | ContentFilter
  {
    function Value(): string
    {
      match this
      case Stop => "stop"
      case Length => "length"
      case ContentFilter => "content_filter"
    }
  }

  function FinishReasonFromValue(s: string): (r: Option<FinishReason>)
    ensures r.Some? ==> r.value.Value() == s
    ensures r.None? ==> forall f: FinishReason :: f.Value() != s
  {
    if s == "stop" then Some(Stop)
    else if s == "length" then Some(Length)
    else if s == "content_filter" then Some(ContentFilter)
    else None
  }

  /**
   * `Optional[Literal["stop", "length", "content_filter"]]`: `None` passes as `None`,
   * a string must be one of the three literals.
   */
  function ParseFinishReason(value: Option<string>): (r: Option<Option<FinishReason>>)
    ensures r.Some? <==> (value.None? || value.value in {"stop", "length", "content_filter"})
    ensures r.Some? ==> (r.value.None? <==> value.None?)
    ensures r.Some? && r.value.Some? ==> r.value.value.Value() == value.value
  {
    match value
    case None => Some(None)
    case Some(s) =>
      match FinishReasonFromValue(s)
      case None => None
      case Some(f) => Some(Some(f))
  }

  /** `ChatMessage`: the content is optional, the role is required. */
  datatype ChatMessage = ChatMessage(content: Option<string>, role: ChatRole)

  /** Field constraints of `ApiChatMessage.message_content`. */
  const MinMessageContentLength: nat := 1
  const MaxMessageContentLength: nat := 8000

  /** `ApiChatMessage`: the richer wire shape (`roleName`, `messageContent`, `endTurnIndicator`). */
  datatype ApiChatMessage = ApiChatMessage(roleName: ChatRole, messageContent: string, endTurnIndicator: Option<bool>)

  /** What pydantic guarantees of every `ApiChatMessage` it has built. */
  predicate ValidApiChatMessage(m: ApiChatMessage)
  {
    MinMessageContentLength <= |m.messageContent| <= MaxMessageContentLength
  }

  /**
   * Building a `ChatMessage` from its fields: `role` must be given and name a member;
   * `content` defaults to `None`.
   */
  function ParseChatMessage(content: Field<Option<string>>, role: Field<string>): (r: Option<ChatMessage>)
    ensures r.Some? <==> role.Present? && RoleFromValue(role.value).Some?
    ensures r.Some? ==> r.value.role.Value() == role.value
    ensures r.Some? && content.Absent? ==> r.value.content.None?
    ensures r.Some? && content.Present? ==> r.value.content == content.value
  {
    if role.Absent? then None
    else match RoleFromValue(role.value)
      case None => None
      case Some(chatRole) => Some(ChatMessage(if content.Present? then content.value else None, chatRole))
  }

  /**
   * Building an `ApiChatMessage`: `roleName` must name a member, `messageContent` must have
   * between 1 and 8000 characters, and `endTurnIndicator` defaults to `True` (an explicit
   * null stays `None`).
   */
  function ParseApiChatMessage(roleName: Field<string>, messageContent: Field<string>, endTurnIndicator: Field<Option<bool>>)
    : (r: Option<ApiChatMessage>)
    ensures r.Some? <==>
      && roleName.Present? && RoleFromValue(roleName.value).Some?
      && messageContent.Present? && 1 <= |messageContent.value| <= 8000
    ensures r.Some? ==> ValidApiChatMessage(r.value)
    ensures r.Some? ==> r.value.roleName.Value() == roleName.value && r.value.messageContent == messageContent.value
    ensures r.Some? && endTurnIndicator.Absent? ==> r.value.endTurnIndicator == Some(true)
    ensures r.Some? && endTurnIndicator.Present? ==> r.value.endTurnIndicator == endTurnIndicator.value
  {
    if roleName.Absent? || messageContent.Absent? then None
    else if !(MinMessageContentLength <= |messageContent.value| <= MaxMessageContentLength) then None
    else match RoleFromValue(roleName.value)
      case None => None
      case Some(role) =>
        var endTurn := if endTurnIndicator.Present? then endTurnIndicator.value else Some(true);
        Some(ApiChatMessage(role, messageContent.value, endTurn))
  }

  /** `ChatChoice`. */
  datatype ChatChoice = ChatChoice(finishReason: Option<FinishReason>, index: int, message: ChatMessage)

  /** `ChatUsage`, serialised as `completionTokens`, `promptTokens`, `totalTokens`. */
  datatype ChatUsage = ChatUsage(completionTokens: int, promptTokens: int, totalTokens: int)

  /** `ApiChatUsage`, serialised as `completionTokenCount`, `promptTokenCount`, `totalTokenCount`. */
  datatype ApiChatUsage = ApiChatUsage(completionTokenCount: int, promptTokenCount: int, totalTokenCount: int)

  /** `ChatRequest`, the body of `/chat`. */
  datatype ChatRequest = ChatRequest(messages: seq<ChatMessage>, stream: bool)

  /** Building a `ChatRequest`: `messages` is required, `stream` defaults to `False`. */
  function ParseChatRequest(messages: Field<seq<ChatMessage>>, stream: Field<bool>): (r: Option<ChatRequest>)
    ensures r.Some? <==> messages.Present?
    ensures r.Some? ==> r.value.messages == messages.value
    ensures r.Some? ==> (r.value.stream <==> stream == Present(true))
  {
    if messages.Absent? then None
    else Some(ChatRequest(messages.value, if stream.Present? then stream.value else false))
  }

  /** `ChatResponse`, the body of `/chat`'s answer. */
  datatype ChatResponse = ChatResponse(choices: seq<ChatChoice>, created: int, id: Option<string>, usage: ChatUsage)

  /**
   * `ChatCompletionRequestCommon`: `streamIndicator` and `userId`. The UUID syntax of
   * `userId` is not checked here; the identifier is kept as text.
   */
  datatype ChatCompletionRequestCommon = ChatCompletionRequestCommon(streamIndicator: bool, userId: string)

  /** Building the request parameters: `userId` is required, `streamIndicator` defaults to `False`. */
  function ParseChatCompletionRequestCommon(streamIndicator: Field<bool>, userId: Field<string>)
    : (r: Option<ChatCompletionRequestCommon>)
    ensures r.Some? <==> userId.Present?
    ensures r.Some? ==> r.value.userId == userId.value
    ensures r.Some? ==> (r.value.streamIndicator <==> streamIndicator == Present(true))
  {
    if userId.Absent? then None
    else Some(ChatCompletionRequestCommon(if streamIndicator.Present? then streamIndicator.value else false, userId.value))
  }

  datatype DataChatCompletionRequest = DataChatCompletionRequest(params: ChatCompletionRequestCommon, messages: seq<ApiChatMessage>)

  /** `ChatCompletionRequest`, the body of `/chat/completion`. */
  datatype ChatCompletionRequest = ChatCompletionRequest(data: DataChatCompletionRequest)

  datatype ChatCompletionChoiceCommon = ChatCompletionChoiceCommon(indexOption: int, finishReason: Option<FinishReason>)

  datatype ChatCompletionChoice = ChatCompletionChoice(chatCompletionChoiceCommon: ChatCompletionChoiceCommon, message: ApiChatMessage)

  /** The default of `ChatCompletionResponseCommon.object_type`. */
  const CompletionObjectType: string := "completion"

  /** `ChatCompletionResponseCommon`. */
  datatype ChatCompletionResponseCommon =
    ChatCompletionResponseCommon(idCompletion: string, objectType: string, createdDateTime: int, usage: ApiChatUsage)

  /**
   * Building `ChatCompletionResponseCommon`: `idCompletion` is a required string (so a
   * `None` identifier is refused) and `objectType` defaults to `"completion"`.
   */
  function NewChatCompletionResponseCommon(idCompletion: Option<string>, objectType: Field<string>, createdDateTime: int, usage: ApiChatUsage)
    : (r: Option<ChatCompletionResponseCommon>)
    ensures r.Some? <==> idCompletion.Some?
    ensures r.Some? ==> r.value.idCompletion == idCompletion.value
    ensures r.Some? ==> r.value.createdDateTime == createdDateTime && r.value.usage == usage
    ensures r.Some? && objectType.Absent? ==> r.value.objectType == "completion"
    ensures r.Some? && objectType.Present? ==> r.value.objectType == objectType.value
  {
    if idCompletion.None? then None
    else
      var kind := if objectType.Present? then objectType.value else CompletionObjectType;
      Some(ChatCompletionResponseCommon(idCompletion.value, kind, createdDateTime, usage))
  }

  datatype DataChatCompletionResponse = DataChatCompletionResponse(details: ChatCompletionResponseCommon, choices: seq<ChatCompletionChoice>)

  /** `ChatCompletionResponse`, the body of `/chat/completion`'s answer. */
  datatype ChatCompletionResponse = ChatCompletionResponse(data: DataChatCompletionResponse)
}
