# Retrieval-augmented chat backend: the request pipeline in Dafny

This project models the request side of a FastAPI chat backend. The backend answers
questions from an Azure AI Search index and an Azure OpenAI chat model.

It models two endpoints, `POST /chat` and `POST /chat/completion`:

- **Header check.** The `user-id` header must be present.
- **Message validation.** `_validate_messages` checks the message list and collects
  every error rather than stopping at the first. It raises one 400 error whose detail
  is all error messages joined by `"; "`.
- **Exception mapping.** An `HTTPException` is re-raised unchanged. Any other
  exception becomes a 500 error with a fixed detail.
- **Output.** `/chat` streams the answer or returns it as a JSON body, depending on
  its `stream` flag. `/chat/completion` returns a camelCase projection of the rich
  response.

It also models the service (`ChatService`) those endpoints call:

- the configuration read from the environment and its `all(required_vars)` check;
- `_retrieve_search_context`, which runs one search per message, appends each
  passage and its `sourcepage` label, adds a "Referências" block and strips the
  result;
- the system message with the default context "informações disponíveis";
- the three-part prompt: system message, optional history placeholder, human turn;
- normalisation of `ApiChatMessage` to `ChatMessage`;
- the two response builders;
- the optional message-history sink.

The records of `chat_models.py` are datatypes. These have a builder that fails exactly
where pydantic raises a validation error:

- `ChatMessage` (`ParseChatMessage`) and `ApiChatMessage` (`ParseApiChatMessage`);
- `ChatRequest` (`ParseChatRequest`);
- `ChatCompletionRequestCommon` (`ParseChatCompletionRequestCommon`), except that it
  takes any `userId` and does not model the UUID check;
- `ChatCompletionResponseCommon` (`NewChatCompletionResponseCommon`);
- the `Literal` finish reason (`ParseFinishReason`).

The other records, such as `ChatChoice`, `ChatResponse` and
`ChatCompletionChoiceCommon`, are built with every field given.

The search index and the chat model are oracles, held as function values in
`ChatServices.Backends`:

- `search(text, top)` returns the documents found or a failure;
- `complete(prompt)` returns the reply or a failure.

The service methods return, as out-parameters, the queries and prompts they sent, so
the model can state which calls are made and in what order.

Module layout (one module per file):

| file | module | contents |
|---|---|---|
| `wrappers.dfy` | `Wrappers` | `Option`, `Result`, `Outcome`, and `Field` (a pydantic field that is absent or given) |
| `strings.dfy` | `Strings` | Python's `sep.join`, `f"{i}"` for an index, and `str.strip()` |
| `sequences.dfy` | `Sequences` | concatenation of a list of lists, and its ordering lemmas |
| `exceptions.dfy` | `Exceptions` | `HTTPException`, and the other exceptions the service raises |
| `chat_models.py` → `chat_models.dfy` | `ChatModels` | roles, messages, requests and responses |
| `chat_services.py` → `chat_services.dfy` | `ChatServices` | configuration, retrieval, prompt, response builders, history, and the `ChatService` class |
| `chat_routers.py` → `chat_routers.dfy` | `ChatRouters` | validation, header, exception mapping, output, and the two endpoints |

Where the source is imperative, the model is imperative:

- **`ChatRouters.ValidateMessages`** is a loop that appends to an error list. It is
  proved against the function `ValidationErrors`.
- **`ChatServices.ChatService.RetrieveSearchContext`** is the nested search loop. It
  is proved against `RunSearches` and `ContextText`.
- **`ChatServices.MessageHistory`** is a class whose `AddMessages` appends to a
  `seq` field.
- **`ChatServices.ChatService`** methods and **`ChatRouters.CreateChatResponse`** /
  **`ChatRouters.CreateChatCompletion`** are methods. Each one is proved equal to a
  function of its inputs and the oracles (`RunCompletion`, `ChatCompletionResult`,
  `ChatEndpoint`, …). The properties are lemmas about those functions.

Validation collects a `ValidationError` value per failed check rather than the
string. `Text` renders an error as the exact sentence the source appends, and the
detail of the 400 error is `Join("; ", Texts(errors))`, the same string the source
builds.

The model follows the code where the repository's tests
(`src/tests/routers/test_chat_routers.py`) expect something else:

- The per-message errors end in " para /chat." or " para /chat/completion.". The
  tests expect the sentence to end after "vazio." or after the role list.
- The header error reads "O cabeçalho 'user-id' é obrigatório.". The tests expect
  "O header user-id é obrigatório.".

Four further choices follow the code:

- The stream yields each choice's whole content, one chunk per choice. It does not
  split the answer into words.
- Source-page labels keep duplicates and append order. They are not de-duplicated.
- The role checks of `/chat` do run, but they test the role's string value against
  `ChatRole`. On a typed `ChatMessage` they cannot fire, and
  `ChatRouters.ChatRoleChecksNeverFire` proves it.
- `AZURE_OPENAI_ENDPOINT` is read but not in the required list, so it is not
  validated.

## Model

| member | source | states |
|---|---|---|
| ChatModels.ChatRole.Value | src/app/models/chat_models.py:19-23 | definition: the string value of each member: "user", "assistant", "system", "ai", "tool" |
| ChatModels.RoleFromValue | src/app/models/chat_models.py:7-23 | `ChatRole(s)` returns a member whose value is `s`, or none exists with that value |
| ChatModels.ChatRoleClosed | src/app/models/chat_models.py:19-23 | exactly five roles with distinct values; each `ChatRole` value reads back to its member |
| ChatModels.ParseChatMessage | src/app/models/chat_models.py:26-32 | a `ChatMessage` is built iff `role` is given and names a member; `content` is optional and defaults to `None` |
| ChatModels.ValidApiChatMessage | src/app/models/chat_models.py:49-55 | definition: `messageContent` has between 1 and 8000 characters, as `min_length`/`max_length` demand |
| ChatModels.ParseApiChatMessage | src/app/models/chat_models.py:35-60 | built iff `roleName` names a member and `messageContent` has 1..8000 characters; `endTurnIndicator` defaults to `True` and an explicit null stays null |
| ChatModels.FinishReason.Value | src/app/models/chat_models.py:81 | definition: the `Literal` texts "stop", "length", "content_filter" |
| ChatModels.FinishReasonFromValue | src/app/models/chat_models.py:81 | a finish reason is read back from its literal text, or no literal has that text |
| ChatModels.ParseFinishReason | src/app/models/chat_models.py:81 | accepted iff absent or one of "stop", "length", "content_filter"; the accepted value is the given literal |
| ChatModels.ParseChatRequest | src/app/models/chat_models.py:142-143 | built iff `messages` is given; `stream` is true only when given as true (default `False`) |
| ChatModels.ParseChatCompletionRequestCommon | src/app/models/chat_models.py:181-182 | built iff `userId` is given; `streamIndicator` defaults to `False` |
| ChatModels.NewChatCompletionResponseCommon | src/app/models/chat_models.py:274-277 | refused iff the id is `None`; `objectType` defaults to "completion"; id, time and usage are kept |
| ChatServices.OrDefault | src/app/services/chat_services.py:90-105 | definition: `os.getenv(name, default)`: the variable's value when set, else the default |
| ChatServices.InitEnvVars | src/app/services/chat_services.py:81-105 | top results default to 3, temperature to 0.7, top-p to 0.87, API type to "azure"; every other variable is taken as read |
| ChatServices.RequiredVars | src/app/services/chat_services.py:115-127 | definition: the eleven values of `required_vars`, in the source's order, `AZURE_OPENAI_ENDPOINT` not among them |
| ChatServices.Truthy | src/app/services/chat_services.py:129 | definition: Python truthiness of one required value; a string is truthy iff set and non-empty, a number iff non-zero |
| ChatServices.IsSet | src/app/services/chat_services.py:129 | definition: a required string is truthy: set and not empty |
| ChatServices.ValidateEnvVars | src/app/services/chat_services.py:107-130 | passes iff every required string is set and non-empty and temperature and top-p are non-zero; failure is the `ValueError` |
| ChatServices.DefaultsPassValidation | src/app/services/chat_services.py:97-130 | with every variable that has no default set, the defaults of temperature, top-p and API type pass validation |
| ChatServices.ChatService.New | src/app/services/chat_services.py:63-80 | construction fails iff the environment fails validation; otherwise the service holds the defaulted configuration |
| ChatServices.DocsText | src/app/services/chat_services.py:350-356 | definition: each document adds `"\n"` and its content to the context, in search order |
| ChatServices.References | src/app/services/chat_services.py:357-358 | definition: the `sourcepage` of each labelled document, in search order, duplicates kept |
| ChatServices.ReferencesBlock | src/app/services/chat_services.py:360-361 | definition: `"\n\nReferências:\n"` and the labels joined by `"\n"` when there is a label, else nothing |
| ChatServices.Contents | src/app/services/chat_services.py:355-356 | one passage text per document, in backend order |
| ChatServices.RawContext | src/app/services/chat_services.py:347-361 | definition: the passages, then the "Referências" block when some document has a label |
| ChatServices.ContextText | src/app/services/chat_services.py:347-363 | definition: the raw context with `str.strip()` applied |
| ChatServices.DocsTextIsJoin | src/app/services/chat_services.py:347-356 | the passages are `"\n"` followed by the contents joined by `"\n"` |
| ChatServices.ReferencesIffLabelled | src/app/services/chat_services.py:357-358 | a label is captured iff some document has a `sourcepage` |
| ChatServices.ReferencesPositions | src/app/services/chat_services.py:355-358 | the labels are exactly those of the labelled documents, in append order, duplicates kept |
| ChatServices.ReferencesBlockIffLabelled | src/app/services/chat_services.py:360-361 | the block `"\n\nReferências:\n" + "\n".join(refs)` is appended iff some document has a label |
| ChatServices.RunSearches | src/app/services/chat_services.py:350-353 | at most one search per message, and one per message when none fails |
| ChatServices.QueriesFor | src/app/services/chat_services.py:351-353 | the query for message `k` is its content with the configured `top` |
| ChatServices.SearchStep | src/app/services/chat_services.py:350-358 | one more search extends the documents found by the results, or stops with the failure |
| ChatServices.DocStep | src/app/services/chat_services.py:355-358 | one more document appends `"\n" + content` and its label, if any |
| ChatServices.FailureStops | src/app/services/chat_services.py:350-353 | once a search fails, no later message is searched |
| ChatServices.SearchStopsAtFirstFailure | src/app/services/chat_services.py:350-353 | earlier searches succeeded, the failing one was issued last, and the run succeeds iff every search does |
| ChatServices.ChatService.RetrieveSearchContext | src/app/services/chat_services.py:336-363 | the nested loop issues the queries of the searched messages and returns the stripped passages-plus-references text, or the first search failure |
| Strings.IsSpace | src/app/services/chat_services.py:363 | definition: the characters Python's `str.strip()` removes (Unicode whitespace) |
| Strings.Strip | src/app/services/chat_services.py:363 | `strip()` removes whitespace around the text: the result has no whitespace at either end and the cut parts are whitespace |
| Strings.StripUnique | src/app/services/chat_services.py:363 | any split into whitespace, a core with no whitespace at its ends, and whitespace has that core as the stripped text |
| Strings.Join | src/app/services/chat_services.py:361 | definition: `sep.join(xs)`, the elements in order with `sep` between neighbours |
| Strings.JoinLength | src/app/services/chat_services.py:361 | the length of a join is the sum of the element lengths plus one separator per pair of neighbours |
| Strings.JoinCons | src/app/routers/chat_routers.py:98 | joining from the front: the first element, a separator, then the rest joined |
| Strings.JoinSplit | src/app/routers/chat_routers.py:98 | a join cut at any inner boundary is the left join, one separator, then the right join |
| Strings.JoinStartsWithFirst | src/app/routers/chat_routers.py:98 | a join begins with its first element |
| Strings.JoinElementAt | src/app/services/chat_services.py:361 | element `i` appears in the join right after the `i` earlier elements and `i` separators |
| ChatServices.EffectiveContext | src/app/services/chat_services.py:389 | the context if non-empty, else "informações disponíveis"; never empty |
| ChatServices.CreateSystemMessage | src/app/services/chat_services.py:378-392 | definition: the template formatted with the context, or with "informações disponíveis" when the context is falsy |
| ChatServices.CreatePrompt | src/app/services/chat_services.py:394-421 | definition: the system message, the optional `chat_history` placeholder, then the human turn `{user_message}` |
| ChatServices.PyStr | src/app/services/chat_services.py:215 | definition: `str.format` of the last content: the text itself, or "None" when it is `None` |
| ChatServices.FormatPart | src/app/services/chat_services.py:413-419 | definition: the messages one prompt entry gives on invoke: the system message itself, the history for the placeholder, a human message holding the user message for `{user_message}` |
| ChatServices.FormatPrompt | src/app/services/chat_services.py:213-216 | definition: each part of the prompt formatted in order with the history and the user message |
| ChatServices.SystemMessageCarriesContext | src/app/services/chat_services.py:378-392 | the system message is the template with its slot holding the context, or the default context when it is empty or missing |
| ChatServices.PromptOrder | src/app/services/chat_services.py:394-421 | the formatted prompt is the system message, the history in order, then exactly one human turn with the user message |
| ChatServices.FreshPrompt | src/app/services/chat_services.py:213-216 | with the empty history the prompt is exactly the system message and the human turn |
| ChatServices.ToChatMessages | src/app/services/chat_services.py:271-274 | one `ChatMessage` per API message, in order, with `role = roleName` and `content = messageContent` |
| ChatServices.NormalizationLosesOnlyEndTurn | src/app/services/chat_services.py:271-274 | given the end-of-turn flags, each API message is recovered from its normalised form |
| ChatServices.BuildChatResponse | src/app/services/chat_services.py:226-250 | the simple response is built iff pydantic accepts the finish reason; otherwise a validation error |
| ChatServices.ChatResponseRoundTrip | src/app/services/chat_services.py:226-250 | one choice, index 0, role assistant; its content, finish reason, id and three token counts give back the reply |
| ChatServices.BuildChatCompletionResponse | src/app/services/chat_services.py:295-328 | the rich response is built iff the id is present, the finish reason is accepted and the answer has 1..8000 characters |
| ChatServices.ChatCompletionResponseRoundTrip | src/app/services/chat_services.py:295-328 | one choice, index 0, role assistant, end of turn, object type "completion"; its fields give back the reply |
| ChatServices.BothShapesAgree | src/app/services/chat_services.py:226-328 | both shapes carry the same answer, finish reason, id and token counts |
| ChatServices.MessageHistory.AddMessages | src/app/services/chat_services.py:219-224 | the history is the old history followed by the added messages |
| ChatServices.RunCompletion | src/app/services/chat_services.py:207-224 | definition: retrieval, then the prompt, one model call and the history write, with the queries and prompts sent |
| ChatServices.AfterRetrieval | src/app/services/chat_services.py:208-216 | definition: a failed search or an empty list raises before the model is called; otherwise the exchange runs |
| ChatServices.Exchange | src/app/services/chat_services.py:213-224 | definition: one model call; on success the human and AI messages go to the sink when one is set |
| ChatServices.OneQueryPerMessage | src/app/services/chat_services.py:336-353 | one query per message, in list order, each capped at `top`; all messages are queried when no search fails |
| ChatServices.PromptSent | src/app/services/chat_services.py:207-216 | after successful searches the model gets exactly one prompt: the system message with the context and the last message's content |
| ChatServices.RetrievalPrompts | src/app/services/chat_services.py:209-216 | after successful searches on a non-empty list exactly one prompt is sent, whatever the model answers |
| ChatServices.NoCompletionWithoutContext | src/app/services/chat_services.py:207-216 | a failed search or an empty list (`messages[-1]`) fails the call before the model is called, and nothing is recorded |
| ChatServices.HistoryRecordsOneExchange | src/app/services/chat_services.py:218-224 | with a sink, exactly `[Human(last content), AI(answer)]` is recorded after a successful model call; without one, nothing |
| ChatServices.ExchangeHistory | src/app/services/chat_services.py:214-224 | one model call per exchange; both messages are recorded iff a sink is set and the call succeeded |
| ChatServices.HistoryRecordedEvenIfResponseFails | src/app/services/chat_services.py:218-250 | the exchange is recorded before the response is built, so a refused finish reason fails the request with both messages in the history |
| ChatServices.PipelineRaisesServiceExceptions | src/app/services/chat_services.py:207-224 | every failure of retrieval, prompt, model call or history append is a service exception |
| ChatServices.ServiceRaisesNoHttpException | src/app/services/chat_services.py:196-334 | neither service entry point raises an `HTTPException`, so the routers map all their failures to 500 |
| ChatServices.V2ResultSucceeds | src/app/services/chat_services.py:258-330 | a successful `get_chat_completion_v2` returns the response built from the model's reply, and the reply itself succeeded |
| ChatServices.ChatService.Complete | src/app/services/chat_services.py:207-224 | retrieval, prompt, model call and history append, equal to `RunCompletion`; the sink grows by exactly the recorded messages |
| ChatServices.ChatCompletionResult | src/app/services/chat_services.py:196-256 | definition: `get_chat_completion`; the pipeline's failure, or the `ChatResponse` built from the reply |
| ChatServices.ChatCompletionV2Result | src/app/services/chat_services.py:258-334 | definition: `get_chat_completion_v2`; the pipeline over the normalised messages, then its failure or the `ChatCompletionResponse` built from the reply |
| ChatServices.ChatService.GetChatCompletion | src/app/services/chat_services.py:196-256 | `get_chat_completion` equals `ChatCompletionResult`, with its queries, prompts and history update |
| ChatServices.ChatService.GetChatCompletionV2 | src/app/services/chat_services.py:258-334 | `get_chat_completion_v2` normalises, then equals `ChatCompletionV2Result`, with its queries, prompts and history update |
| Strings.NatToString | src/app/routers/chat_routers.py:60 | the index in an error message is a non-empty decimal numeral without leading zeros |
| Strings.NatToStringRoundTrip | src/app/routers/chat_routers.py:60 | the numeral reads back to the index, so distinct indices print differently |
| ChatRouters.RoleValues | src/app/routers/chat_routers.py:68-92 | the role values, in declaration order |
| ChatRouters.AllowedRoles | src/app/routers/chat_routers.py:70 | definition: `", ".join` of the values of `ChatRole`, in declaration order |
| ChatRouters.AllowedRolesText | src/app/routers/chat_routers.py:68-92 | the allowed roles read "user, assistant, system, ai, tool" |
| ChatRouters.PerMessageErrors | src/app/routers/chat_routers.py:55-92 | one error list per message, the checks of that message in order |
| ChatRouters.CheckApiMessage | src/app/routers/chat_routers.py:56-76 | the `/chat/completion` errors of a message: roleName empty, messageContent empty, roleName not a role, endTurnIndicator null, in that order |
| ChatRouters.CheckChatMessage | src/app/routers/chat_routers.py:77-92 | the `/chat` errors of a message: content empty, role empty, role not a role, in that order |
| ChatRouters.AttributeError | src/app/routers/chat_routers.py:59-92 | definition: the shared sentence "O atributo '<name>' da mensagem no índice <i> <rest>" |
| ChatRouters.ContentFalsy | src/app/routers/chat_routers.py:79 | definition: `not message.content`: the content is `None` or empty |
| ChatRouters.NotInChatRole | src/app/routers/chat_routers.py:68-92 | definition: `role_name not in ChatRole` and `role not in ChatRole`: no member has that value |
| ChatRouters.Text | src/app/routers/chat_routers.py:53-92 | definition: each error rendered as the exact sentence the source appends |
| ChatRouters.Texts | src/app/routers/chat_routers.py:53-92 | definition: the sentences of a list of errors, in order |
| ChatRouters.ChatMessageErrors | src/app/routers/chat_routers.py:79-92 | definition: the `/chat` checks on one message, content, empty role, unknown role, in that order |
| ChatRouters.ApiMessageErrors | src/app/routers/chat_routers.py:56-76 | definition: the `/chat/completion` checks on one message, empty role name, empty content, unknown role, missing end-turn flag, in that order |
| ChatRouters.MessageErrors | src/app/routers/chat_routers.py:55-92 | definition: the `is_completion` dispatch: the `/chat/completion` checks for an `ApiChatMessage` list, the `/chat` checks otherwise |
| ChatRouters.ValidationErrors | src/app/routers/chat_routers.py:50-92 | definition: the empty-list error when the list is empty, then every message's errors in list order |
| ChatRouters.DetailListsEveryError | src/app/routers/chat_routers.py:94-99 | the 400 detail contains every error's sentence, in order, each after the earlier sentences and their `"; "` separators |
| ChatRouters.DetailLength | src/app/routers/chat_routers.py:94-99 | the 400 detail is as long as all the sentences plus one `"; "` between each pair |
| ChatRouters.ValidationFailure | src/app/routers/chat_routers.py:94-99 | definition: `HTTPException` with status 400 and the error sentences joined by `"; "` as its detail |
| ChatRouters.ValidateMessages | src/app/routers/chat_routers.py:44-99 | raises iff an error was collected; the 400 detail is every error message joined by `"; "` in discovery order |
| ChatRouters.EmptyListOnlyError | src/app/routers/chat_routers.py:52-55 | an empty list gives exactly one error, "A lista de mensagens não pode estar vazia." |
| ChatRouters.ErrorsInMessageOrder | src/app/routers/chat_routers.py:55-92 | errors are grouped by message index: those of messages before `k`, then those of message `k`, whole |
| ChatRouters.ChecksInSourceOrder | src/app/routers/chat_routers.py:56-92 | within one message the errors appear in the order their checks are written: their rank in the branch strictly increases |
| ChatRouters.NonEmptyListErrors | src/app/routers/chat_routers.py:50-92 | a non-empty list reports exactly its messages' errors, with no empty-list error |
| ChatRouters.EveryDefectReported | src/app/routers/chat_routers.py:55-99 | collect-all: every failed check of every message is reported |
| ChatRouters.ErrorsComeFromMessages | src/app/routers/chat_routers.py:55-99 | every error reported for a non-empty list belongs to one of its messages |
| ChatRouters.MessageErrorsNameTheirIndex | src/app/routers/chat_routers.py:58-92 | each per-message error names the index of its message |
| ChatRouters.MessageErrorCount | src/app/routers/chat_routers.py:55-92 | one error per failed check of a message |
| ChatRouters.ErrorCount | src/app/routers/chat_routers.py:50-92 | the number of errors is the number of failed checks, plus one for an empty list |
| ChatRouters.ChatRoleChecksNeverFire | src/app/routers/chat_routers.py:84-92 | on a typed `ChatMessage` only the empty-content check can fire |
| ChatRouters.CompletionChecksOnValidRecords | src/app/routers/chat_routers.py:58-76 | on an `ApiChatMessage` pydantic has built, only a null `endTurnIndicator` is reported |
| ChatRouters.ValidationPassesIff | src/app/routers/chat_routers.py:52-99 | validation passes iff the list is non-empty and no message fails a check |
| ChatRouters.NormalizedMessagesPassChatValidation | src/app/routers/chat_routers.py:55-92 | messages that pass `/chat/completion` validation pass `/chat` validation once normalised |
| ChatRouters.EmptyContentScenario | src/app/routers/chat_routers.py:79-82 | one message with empty content gives the single detail "O atributo 'content' da mensagem no índice 0 não pode estar vazio para /chat." |
| ChatRouters.EmptyContentErrors | src/app/routers/chat_routers.py:79-92 | one user message with empty content fails the content check and no other |
| ChatRouters.ValidateUserHeader | src/app/routers/chat_routers.py:102-127 | fails with 400 "O cabeçalho 'user-id' é obrigatório." iff the header is missing; an empty value passes unchanged |
| ChatRouters.ToHttpError | src/app/routers/chat_routers.py:190-213 | an `HTTPException` passes unchanged; any other exception becomes 500 with the endpoint's fixed detail |
| ChatRouters.StreamChunks | src/app/routers/chat_routers.py:174-176 | one chunk per choice, its content, in choice order |
| ChatRouters.ChatOutput | src/app/routers/chat_routers.py:178-188 | status 200; streamed iff `stream`, with the choice contents as chunks, else the response as the JSON body |
| ChatRouters.OrTrue | src/app/routers/chat_routers.py:277-278 | `x or True` is always true |
| ChatRouters.ProjectChoice | src/app/routers/chat_routers.py:269-280 | definition: one output choice: index and finish reason, role name, content, and `end_turn_indicator or True` |
| ChatRouters.ProjectChoices | src/app/routers/chat_routers.py:268-282 | one output choice per service choice, each projected in order |
| ChatRouters.ProjectCompletionResponse | src/app/routers/chat_routers.py:256-284 | `objectType` is "completion", every `endTurnIndicator` is true; id, time, token counts and each choice's index, finish reason, role and content are copied unchanged |
| ChatRouters.ChatEndpoint | src/app/routers/chat_routers.py:144-213 | definition: header, validation, service construction, pipeline and output of `POST /chat`, with the backend calls made |
| ChatRouters.ChatCompletionEndpoint | src/app/routers/chat_routers.py:224-313 | definition: header, validation, service construction, pipeline and projection of `POST /chat/completion`, with the backend calls made |
| ChatRouters.CompletionEndpointOn | src/app/routers/chat_routers.py:245-313 | definition: the work of `create_chat_completion`, which reads only `request_payload.data.messages` |
| ChatRouters.CreateChatResponse | src/app/routers/chat_routers.py:144-213 | `POST /chat` runs header, validation, service construction, pipeline and output, in that order, equal to `ChatEndpoint` |
| ChatRouters.CreateChatCompletion | src/app/routers/chat_routers.py:224-313 | `POST /chat/completion`, equal to `ChatCompletionEndpoint` |
| ChatRouters.InvalidRequestsCallNoBackend | src/app/routers/chat_routers.py:102-167 | a missing header or an invalid list gives a 400 before any search or model call; the detail is the joined errors |
| ChatRouters.EmptyRequestRejected | src/app/routers/chat_routers.py:52-99 | `/chat` with no messages answers exactly 400 "A lista de mensagens não pode estar vazia." with no backend call |
| ChatRouters.ServiceFailuresBecome500 | src/app/routers/chat_routers.py:201-213 | after validation passes, a configuration or service failure is 500 "Erro ao processar a solicitação de chat." |
| ChatRouters.StreamedAnswer | src/app/routers/chat_routers.py:171-188 | a successful streamed answer is one chunk holding the model's content, unsplit; otherwise the JSON body is the built response |
| ChatRouters.ChatEndpointSucceeds | src/app/routers/chat_routers.py:171-188 | a successful `/chat` answer is the output, streamed or JSON, of the response built from the model's reply |
| ChatRouters.StreamIndicatorIgnored | src/app/routers/chat_routers.py:245-288 | `/chat/completion` answers the same whatever `streamIndicator` says |
| ChatRouters.CompletionEndpointSucceeds | src/app/routers/chat_routers.py:245-288 | a successful `/chat/completion` answer is the camelCase projection of the response built from the model's reply |
| ChatRouters.ProjectionCarriesReply | src/app/routers/chat_routers.py:256-284 | the projection of the response built from a reply has one choice carrying the reply's content and finish reason, and the reply's id and token counts |
| ChatRouters.CompletionAnswerCarriesReply | src/app/routers/chat_routers.py:250-288 | a successful `/chat/completion` answer has one choice (index 0, assistant, end of turn, the reply's content and finish reason), object type "completion", and the reply's id and token counts |

## Left out

- **Client construction.** `_init_clients`, `_init_search_client`, `_init_openai_client`
  and `_init_openai_embeddings` build SDK clients; their exceptions are not modelled.
  The clients are the oracles in `ChatServices.Backends`.
- **Environment reading.** `load_dotenv` and `os.getenv` are I/O. The environment is
  the `ChatServices.Env` record.
- **Numeric parsing.** `int(...)` and `float(...)` of the numeric variables are taken
  as already converted. A malformed number (a `ValueError` at construction) is not
  modelled.
- **Time.** `time.time()` is the `created` parameter.
- **Observability.** OpenTelemetry spans, header extraction and logging are not
  modelled.
- **Template text.** The Portuguese instructions are not modelled. The template is
  opaque text before and after its `{context}` slot (`ChatServices.SystemTemplate`).
- **Other files.** The embedding service and router, the health router, the unused
  search-models enum, and the application and hosting wiring are not part of this
  model.
- **Unused wrapper.** `_invoke_openai_model` is never called.
- **Reply metadata.** The reply is a record with content, id, finish reason and three
  token counts. A missing `finish_reason` or `token_usage` key (a `KeyError`) is not
  modelled.
- **Search results.** Each document carries its content and an optional label. A
  document with a `sourcepage` key holding `None` (which makes `"\n".join` raise) is
  not modelled. Neither is a document without a `content` key.
- ChatModels.ParseChatCompletionRequestCommon: keeps `userId` as text and does not
  check its UUID syntax, so it accepts a `userId` that pydantic rejects.
- **Request-body validation.** FastAPI and pydantic refuse an invalid body with a 422
  before either endpoint's code runs: an unknown role, a `messageContent` that is empty
  or longer than 8000 characters, a missing or non-UUID `userId`. The endpoints are
  modelled from the built body onward. `ChatRouters.ChatCompletionEndpoint` also accepts
  `ApiChatMessage` values that fail `ValidApiChatMessage`, which the source never
  receives, so the role-invalid sentences of `ChatRouters.Text` are not what a client
  sees for an unknown role: it gets the 422.
- **Pydantic coercion.** Lax input coercion (numbers to strings, `"true"` to `true`)
  is not modelled. A field is given with its target type or absent.
- **History sink.** `ChatServices.ChatService.Complete` treats any configured sink as
  truthy. A sink object that defines `__len__` and is empty would be skipped by
  `if self._message_history:`; that case is not modelled. The routers always build
  the service without a sink.
- **Streaming.** `ChatRouters.StreamChunks` yields the choices' `Optional` contents.
  How Starlette encodes a chunk, including a `None`, and how it sends the chunks are
  not modelled.
- **Object type.** `ChatRouters.ProjectCompletionResponse` writes the literal
  "completion", ignoring `object_type`. `NewChatCompletionResponseCommon` proves the
  service's value is "completion" too, since the service never sets it.
- **Concurrency.** Concurrent requests sharing one history sink are not modelled.
  Each call is sequential.
