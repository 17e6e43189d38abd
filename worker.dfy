/**
 * The edge worker: which handler a request goes to, which upstream model a
 * chat request names, and the system prompt put in front of the conversation
 * before it is handed to the inference service.
 */
module Worker {
  import opened JsText

  /** A message as the client sends it. The role is whatever text the client
      put there; only the text `system` is looked for. */
  datatype ChatMessage = ChatMessage(role: string, content: string)

  /** The four outcomes of `fetch`'s dispatch on the path and method. */
  datatype Route = Assets | MethodNotAllowed | ChatHandler | NotFound

  /** What the worker answers. */
  datatype Response =
    | FromAssets                                                 // `env.ASSETS.fetch(request)`
    | PlainText(status: int, body: string)                       // the 405 and 404 answers
    | EventStream(modelId: string, messages: seq<ChatMessage>)   // the upstream stream, status 200
    | ServerError                                                // the JSON error answer, status 500

  /** What `await request.json()` yields, as far as the handler destructures
      it: `Malformed` when that throws (a body that is not JSON, or the JSON
      value `null`), otherwise the `messages` and `model` fields when present. */
  datatype ChatBody =
    | Malformed
    | ChatBody(messages: Option<seq<ChatMessage>>, model: Option<string>)

  const ApiPrefix: string := "/api/"
  const ChatPath: string := "/api/chat"
  const DefaultModel: string := "astra-2.5"
  const Models: map<string, string> := map[
    "astra-2.5" := "@cf/meta/llama-3.1-8b-instruct-fp8",
    "astra-3.0-pro" := "@cf/meta/llama-3.1-70b-instruct-awq"
  ]
  const SystemPrompt: string := "Your name is Astra AI. You are a professional and helpful assistant."
  const SystemRole: string := "system"

  /** The status line of an answer the worker builds itself. */
  function Status(r: Response): int
    requires !r.FromAssets?
  {
    match r
    case PlainText(status, _) => status
    case EventStream(_, _) => 200
    case ServerError => 500
  }

  /** The dispatch of `fetch` on the URL's path and the request method. */
  function RouteOf(path: string, verb: string): (r: Route)
    ensures r == Assets <==> !StartsWith(path, ApiPrefix)
    ensures r == MethodNotAllowed <==> path == ChatPath && verb != "POST"
    ensures r == ChatHandler <==> path == ChatPath && verb == "POST"
    ensures r == NotFound <==> StartsWith(path, ApiPrefix) && path != ChatPath
  {
    if !StartsWith(path, ApiPrefix) then Assets
    else if path == ChatPath then (if verb != "POST" then MethodNotAllowed else ChatHandler)
    else NotFound
  }

  /** `MODELS[model] || MODELS["astra-2.5"]`, with `model` defaulting to
      `"astra-2.5"` when the body has none. */
  function SelectModel(model: Option<string>): (id: string)
    ensures id in Models.Values
    ensures model.None? ==> id == Models[DefaultModel]
    ensures model.Some? && model.value in Models ==> id == Models[model.value]
    ensures model.Some? && model.value !in Models ==> id == Models[DefaultModel]
  {
    var key := if model.Some? then model.value else DefaultModel;
    OrElse(if key in Models then Some(Models[key]) else None, Models[DefaultModel])
  }

  /** `messages.some(m => m.role === 'system')`. */
  predicate HasSystemMessage(messages: seq<ChatMessage>) {
    exists k :: 0 <= k < |messages| && messages[k].role == SystemRole
  }

  /** The copy of `messages` handed upstream: the system prompt in front when
      no message has the system role, the messages as they are otherwise. */
  function WithSystemPrompt(messages: seq<ChatMessage>): (r: seq<ChatMessage>)
    ensures HasSystemMessage(r)
    ensures |messages| <= |r| <= |messages| + 1
    ensures r[|r| - |messages|..] == messages
    ensures |r| == |messages| + 1 <==> !HasSystemMessage(messages)
    ensures |r| == |messages| + 1 ==> r[0] == ChatMessage(SystemRole, SystemPrompt)
  {
    if HasSystemMessage(messages) then
      messages
    else
      var r := [ChatMessage(SystemRole, SystemPrompt)] + messages;
      assert r[0].role == SystemRole;
      r
  }

  /** Preparing an already prepared conversation changes nothing. */
  lemma WithSystemPromptIdempotent(messages: seq<ChatMessage>)
    ensures WithSystemPrompt(WithSystemPrompt(messages)) == WithSystemPrompt(messages)
  {
  }

  /** The messages of a body, `[]` when the field is absent. */
  function MessagesOf(body: ChatBody): seq<ChatMessage>
    requires body.ChatBody?
  {
    if body.messages.Some? then body.messages.value else []
  }

  /** `handleChatRequest`: `aiThrows(id, messages)` says whether
      `env.AI.run` throws for that model and conversation. Every exception
      becomes the 500 answer; otherwise the upstream stream is returned. */
  function HandleChat(body: ChatBody, aiThrows: (string, seq<ChatMessage>) -> bool): (r: Response)
    ensures r.ServerError? || r.EventStream?
    ensures Status(r) == 500 <==>
      body.Malformed? || aiThrows(SelectModel(body.model), WithSystemPrompt(MessagesOf(body)))
    ensures Status(r) != 500 ==> Status(r) == 200
    ensures r.EventStream? ==>
      r.modelId == SelectModel(body.model) && r.messages == WithSystemPrompt(MessagesOf(body))
  {
    if body.Malformed? then
      ServerError
    else
      var id := SelectModel(body.model);
      var chatMessages := WithSystemPrompt(MessagesOf(body));
      if aiThrows(id, chatMessages) then ServerError else EventStream(id, chatMessages)
  }

  /** The worker's `fetch`: the request is given by its path, its method `verb` and
      what its body parses to (read only on the chat route). */
  function Fetch(path: string, verb: string, body: ChatBody, aiThrows: (string, seq<ChatMessage>) -> bool): (r: Response)
    ensures !StartsWith(path, ApiPrefix) ==> r == FromAssets
    ensures path == ChatPath && verb != "POST" ==> r == PlainText(405, "Method not allowed")
    ensures path == ChatPath && verb == "POST" ==> r == HandleChat(body, aiThrows)
    ensures StartsWith(path, ApiPrefix) && path != ChatPath ==> r == PlainText(404, "Not found")
  {
    match RouteOf(path, verb)
    case Assets => FromAssets
    case MethodNotAllowed => PlainText(405, "Method not allowed")
    case ChatHandler => HandleChat(body, aiThrows)
    case NotFound => PlainText(404, "Not found")
  }

  /** A 500 answer only ever comes from the chat handler, and there exactly
      when the body cannot be read or the inference call throws. */
  lemma ServerErrorOnlyFromHandler(path: string, verb: string, body: ChatBody, aiThrows: (string, seq<ChatMessage>) -> bool)
    requires !Fetch(path, verb, body, aiThrows).FromAssets? && Status(Fetch(path, verb, body, aiThrows)) == 500
    ensures path == ChatPath && verb == "POST"
    ensures body.Malformed? || aiThrows(SelectModel(body.model), WithSystemPrompt(MessagesOf(body)))
  {
    assert StartsWith(ChatPath, ApiPrefix);
  }
}
