/**
 * `handleChatCompletion` (src/controllers/chatController.js): send image models to the image
 * handler with the last user message as prompt; otherwise check the model against the chat
 * catalog, then the messages, pack the conversation, and answer from fal's stream or result.
 *
 * fal's replies are inputs: the event stream (or the error `fal.stream` rejects with) and the
 * result of `fal.subscribe` (or its error). A request sent to the image handler is answered by
 * `ImageController.ImageResponse` for the forwarded body.
 */
module ChatController {
  import opened Wrappers
  import opened Api
  import opened ChatService
  import opened ImageService
  import opened ImageController
  import Config

  /** `isImageModel`: a "flux-" prefix, or recraft-v3, or ideogram-v2. */
  predicate IsImageModel(model: string) {
    "flux-" <= model || model == "recraft-v3" || model == "ideogram-v2"
  }

  /**
   * The `messages` field of the body: absent (or another falsy value), a non-array whose
   * `length` is positive (a non-empty string, say), any other non-array, or an array of messages.
   */
  datatype MessagesValue = Missing | SizedNonArray | NotArray | List(messages: seq<Message>)

  /** The fields of the request body the handler reads; `stream` and `reasoning` are their truthiness. */
  datatype ChatRequest = ChatRequest(model: Option<string>, messages: MessagesValue, stream: bool, reasoning: bool,
                                     n: Option<int>, size: Option<string>)

  /** The input sent to fal-ai/any-llm; `systemPrompt` is `None` when the key is left out. */
  datatype FalInput = FalInput(model: string, prompt: string, systemPrompt: Option<string>, reasoning: bool)

  datatype ChatUpstream = ChatUpstream(stream: Result<seq<StreamEvent>, string>, subscribe: Result<FalResult, string>)

  datatype ChatReply =
    | ChatRejected(reply: ErrorReply)
    | ImageRouted(request: ImageRequest)  // answered by `handleImageGeneration` with this body
    | ChatStreamed(input: FalInput, writes: seq<StreamWrite>)
    | ChatCompleted(input: FalInput, completion: ChatCompletion)
    | Unhandled(message: string)      // the handler rejects before answering

  /** `userMessages[userMessages.length - 1].content`, or `None` without a user message. */
  function LastUserContent(messages: seq<Message>): Option<string> {
    if messages == [] then None
    else if messages[|messages| - 1].role == "user" then messages[|messages| - 1].content
    else LastUserContent(messages[..|messages| - 1])
  }

  /** The prompt the image branch extracts: only from a non-empty array of messages. */
  function ImagePrompt(messages: MessagesValue): Option<string> {
    if messages.List? && |messages.messages| > 0 then LastUserContent(messages.messages) else None
  }

  function FalInputOf(model: string, packed: PackedPrompt, reasoning: bool): FalInput {
    FalInput(model, packed.prompt, if packed.system_prompt != "" then Some(packed.system_prompt) else None, reasoning)
  }

  const NoImagePrompt: ErrorReply := InvalidRequest("No valid prompt found in messages for image generation", "messages", "parameter_invalid")

  function UnsupportedChatModel(model: string): ErrorReply {
    InvalidRequest("Model '" + model + "' is not a supported chat model.", "model", "model_not_found")
  }

  const MissingParameters: ErrorReply :=
    ErrorReply(400, ErrorBody("Missing or invalid parameters: model and messages array are required.", "invalid_request_error", Absent, Absent))

  function ChatFailed(message: string): ErrorReply {
    ErrorReply(500, ErrorBody(message, "chat_completion_error", Absent, Absent))
  }

  /** The message V8 gives `undefined.startsWith(...)`. */
  const UndefinedModelError: string := "Cannot read properties of undefined (reading 'startsWith')"

  /** The message V8 gives `messages.filter(...)` when `messages` is a string. */
  const NoFilterError: string := "messages.filter is not a function"

  /** The answer to a chat completion request under the given catalog and packer limits. */
  function HandleChatCompletion(req: ChatRequest, catalog: seq<string>, systemLimit: nat, promptLimit: nat, up: ChatUpstream): ChatReply {
    match req.model
    case None => Unhandled(UndefinedModelError)
    case Some(model) =>
      if IsImageModel(model) then ImageRoute(model, req)
      else ChatRoute(model, req, catalog, systemLimit, promptLimit, up)
  }

  /**
   * The image branch: forward the last user message as the prompt, or refuse when there is none.
   * A non-array that passes the length test has no `filter`, and the call throws outside any `try`.
   */
  function ImageRoute(model: string, req: ChatRequest): ChatReply {
    var prompt := ImagePrompt(req.messages);
    if req.messages.SizedNonArray? then Unhandled(NoFilterError)
    else if prompt.None? || prompt.value == "" then ChatRejected(NoImagePrompt)
    else ImageRouted(ImageRequest(Some(model), prompt, req.n, req.size, req.stream))
  }

  /** The chat branch: the catalog check, then the messages check, then the `try` block. */
  function ChatRoute(model: string, req: ChatRequest, catalog: seq<string>, systemLimit: nat, promptLimit: nat, up: ChatUpstream): ChatReply {
    if !IsChatModel(model, catalog) then ChatRejected(UnsupportedChatModel(model))
    else if model == "" || !req.messages.List? || |req.messages.messages| == 0 then ChatRejected(MissingParameters)
    else ChatAnswer(model, FalInputOf(model, PackedPromptOf(req.messages.messages, systemLimit, promptLimit), req.reasoning), req.stream, up)
  }

  /** The `try` block: ask fal for a stream or a result with `input`, and answer from what comes back. */
  function ChatAnswer(model: string, input: FalInput, stream: bool, up: ChatUpstream): ChatReply {
    if stream then
      match up.stream
      case Failure(message) => ChatRejected(ChatFailed(message))
      case Success(events) => ChatStreamed(input, StreamWrites(events, ""))
    else
      match up.subscribe
      case Failure(message) => ChatRejected(ChatFailed(message))
      case Success(result) =>
        match HandleNonStreamResponse(result, model)
        case Failure(message) => ChatRejected(ChatFailed(message))
        case Success(completion) => ChatCompleted(input, completion)
  }

  // ---------------------------------------------------------------------------
  // Properties
  // ---------------------------------------------------------------------------

  /** `isImageModel`: imagen3 is not an image model here, any flux-* name is, and no chat model of the catalog is one. */
  lemma ImageModelClassification()
    ensures !IsImageModel("imagen3")
    ensures forall m :: "flux-" <= m ==> IsImageModel(m)
    ensures IsImageModel("flux-schnell") && "flux-schnell" !in SupportedModels
    ensures forall m :: m in SupportedModels && m != "imagen3" ==> IsImageModel(m)
    ensures forall m :: m in Config.FalSupportedModels ==> !IsImageModel(m)
  {
    assert "flux-" <= "flux-schnell";
    assert "imagen3"[0] != "flux-"[0];
    forall m | m in Config.FalSupportedModels
      ensures !IsImageModel(m)
    {
      ChatCatalogInitial(m);
    }
  }

  /** Every chat model of the catalog starts with one of a, g, m, o, d; no image name does. */
  lemma ChatCatalogInitial(m: string)
    requires m in Config.FalSupportedModels
    ensures |m| > 0 && (m[0] == 'a' || m[0] == 'g' || m[0] == 'm' || m[0] == 'o' || m[0] == 'd')
    ensures !IsImageModel(m)
  {
    assert "flux-"[0] == 'f' && "recraft-v3"[0] == 'r' && "ideogram-v2"[0] == 'i';
  }

  /** The last user message is the one after which no user message follows. */
  lemma {:induction false} LastUserIsLatest(messages: seq<Message>, i: nat)
    requires i < |messages| && messages[i].role == "user"
    requires forall j :: i < j < |messages| ==> messages[j].role != "user"
    ensures LastUserContent(messages) == messages[i].content
    decreases |messages|
  {
    if i < |messages| - 1 {
      var init := messages[..|messages| - 1];
      assert forall j :: i < j < |init| ==> init[j] == messages[j];
      LastUserIsLatest(init, i);
    }
  }

  /** Without any user message there is no prompt. */
  lemma {:induction false} NoUserNoPrompt(messages: seq<Message>)
    requires forall j :: 0 <= j < |messages| ==> messages[j].role != "user"
    ensures LastUserContent(messages) == None
    decreases |messages|
  {
    if messages != [] {
      var init := messages[..|messages| - 1];
      assert forall j :: 0 <= j < |init| ==> init[j] == messages[j];
      NoUserNoPrompt(init);
    }
  }

  /** An undefined model makes `isImageModel` throw outside the try block: no answer is produced. */
  lemma UndefinedModelRejects(req: ChatRequest, catalog: seq<string>, systemLimit: nat, promptLimit: nat, up: ChatUpstream)
    requires req.model.None?
    ensures HandleChatCompletion(req, catalog, systemLimit, promptLimit, up).Unhandled?
  {
  }

  /**
   * Image routing comes first: for an image model, a non-array `messages` with a positive length
   * throws and is never answered; otherwise a missing or empty last-user prompt is a 400
   * parameter_invalid whatever the catalog says, and a present one goes to the image handler with
   * the model, that prompt, the original `stream` flag and the body's `n` and `size`.
   */
  lemma ImageRouting(req: ChatRequest, catalog: seq<string>, systemLimit: nat, promptLimit: nat, up: ChatUpstream)
    requires req.model.Some? && IsImageModel(req.model.value)
    ensures var r := HandleChatCompletion(req, catalog, systemLimit, promptLimit, up);
      var prompt := ImagePrompt(req.messages);
      && (req.messages.SizedNonArray? ==> r == Unhandled("messages.filter is not a function"))
      && (!req.messages.SizedNonArray? ==> ((prompt.None? || prompt.value == "") <==>
            r == ChatRejected(ErrorReply(400, ErrorBody("No valid prompt found in messages for image generation", "invalid_request_error", Text("messages"), Text("parameter_invalid"))))))
      && (prompt.Some? && prompt.value != "" ==>
            && r.ImageRouted?
            && r.request == ImageRequest(req.model, prompt, req.n, req.size, req.stream))
  {
  }

  /** An image model missing from the image handler's list (flux-schnell, say) is routed there and refused with model_not_found. */
  lemma UnlistedFluxModel(req: ChatRequest, catalog: seq<string>, systemLimit: nat, promptLimit: nat, up: ChatUpstream, image: ImageUpstream)
    requires req.model == Some("flux-schnell")
    requires ImagePrompt(req.messages).Some? && ImagePrompt(req.messages).value != ""
    ensures var r := HandleChatCompletion(req, catalog, systemLimit, promptLimit, up);
      && r.ImageRouted?
      && ImageResponse(r.request, image).Rejected? && ImageResponse(r.request, image).reply.body.code == Text("model_not_found")
  {
    ImageModelClassification();
  }

  /** Chat validation order: after the image check, a model outside the catalog is a 400 model_not_found even when the messages are missing. */
  lemma ChatModelChecked(req: ChatRequest, catalog: seq<string>, systemLimit: nat, promptLimit: nat, up: ChatUpstream)
    requires req.model.Some? && !IsImageModel(req.model.value) && !IsChatModel(req.model.value, catalog)
    ensures HandleChatCompletion(req, catalog, systemLimit, promptLimit, up) ==
      ChatRejected(ErrorReply(400, ErrorBody("Model '" + req.model.value + "' is not a supported chat model.", "invalid_request_error",
                                             Text("model"), Text("model_not_found"))))
  {
  }

  /** Then missing, non-array or empty messages are a 400 carrying only a message and a type. */
  lemma MessagesChecked(req: ChatRequest, catalog: seq<string>, systemLimit: nat, promptLimit: nat, up: ChatUpstream)
    requires req.model.Some? && !IsImageModel(req.model.value) && IsChatModel(req.model.value, catalog)
    requires !req.messages.List? || req.messages.messages == []
    ensures var r := HandleChatCompletion(req, catalog, systemLimit, promptLimit, up);
      && r.ChatRejected? && r.reply.status == 400
      && r.reply.body == ErrorBody("Missing or invalid parameters: model and messages array are required.", "invalid_request_error", Absent, Absent)
  {
  }

  /**
   * fal input: for a valid chat request the input carries the packed prompt (within the prompt
   * limit), `system_prompt` only when it is non-empty, and the request's `reasoning` as a boolean.
   */
  lemma FalInputShape(req: ChatRequest, catalog: seq<string>, systemLimit: nat, promptLimit: nat, up: ChatUpstream)
    requires req.model.Some? && !IsImageModel(req.model.value) && IsChatModel(req.model.value, catalog)
    requires req.model.value != "" && req.messages.List? && req.messages.messages != []
    ensures var r := HandleChatCompletion(req, catalog, systemLimit, promptLimit, up);
      var packed := PackedPromptOf(req.messages.messages, systemLimit, promptLimit);
      (r.ChatStreamed? || r.ChatCompleted?) ==>
        && r.input.model == req.model.value
        && r.input.prompt == packed.prompt && |r.input.prompt| <= promptLimit
        && (r.input.systemPrompt.Some? <==> packed.system_prompt != "")
        && (r.input.systemPrompt.Some? ==> r.input.systemPrompt.value == packed.system_prompt)
        && r.input.reasoning == req.reasoning
  {
    var model := req.model.value;
    var packed := PackedPromptOf(req.messages.messages, systemLimit, promptLimit);
    ValidRequestAnswer(req, catalog, systemLimit, promptLimit, up);
    AnswerKeepsInput(model, FalInputOf(model, packed, req.reasoning), req.stream, up);
    PromptWithinLimit(req.messages.messages, systemLimit, promptLimit);
  }

  /** A request that passes every check is answered by the `try` block with the packed input. */
  lemma ValidRequestAnswer(req: ChatRequest, catalog: seq<string>, systemLimit: nat, promptLimit: nat, up: ChatUpstream)
    requires req.model.Some? && !IsImageModel(req.model.value) && IsChatModel(req.model.value, catalog)
    requires req.model.value != "" && req.messages.List? && req.messages.messages != []
    ensures HandleChatCompletion(req, catalog, systemLimit, promptLimit, up) ==
      ChatAnswer(req.model.value, FalInputOf(req.model.value, PackedPromptOf(req.messages.messages, systemLimit, promptLimit), req.reasoning), req.stream, up)
  {
    var model := req.model.value;
    assert HandleChatCompletion(req, catalog, systemLimit, promptLimit, up) == ChatRoute(model, req, catalog, systemLimit, promptLimit, up);
  }

  lemma AnswerKeepsInput(model: string, input: FalInput, stream: bool, up: ChatUpstream)
    ensures var r := ChatAnswer(model, input, stream, up);
      (r.ChatStreamed? || r.ChatCompleted?) ==> r.input == input
  {
  }

  /**
   * Chat errors: before headers are sent, a failed `fal.stream` or `fal.subscribe` and a result
   * carrying an error all become a 500 chat_completion_error with the error's message. Once the
   * stream is open the answer is the written lines, which end with [DONE] even when the stream
   * broke. `ValidRequestAnswer` says a request that passes the checks is answered this way.
   */
  lemma ChatErrors(model: string, input: FalInput, stream: bool, up: ChatUpstream)
    ensures var r := ChatAnswer(model, input, stream, up);
      && (stream && up.stream.Failure? ==> r == ChatRejected(ErrorReply(500, ErrorBody(up.stream.error, "chat_completion_error", Absent, Absent))))
      && (stream && up.stream.Success? ==> r.ChatStreamed? && |r.writes| > 0 && r.writes[|r.writes| - 1] == Done)
      && (!stream && up.subscribe.Failure? ==> r == ChatRejected(ChatFailed(up.subscribe.error)))
      && (!stream && up.subscribe.Success? && up.subscribe.value.error.Some? ==>
            r == ChatRejected(ChatFailed("Fal-ai error: " + up.subscribe.value.error.value)))
      && (!stream && up.subscribe.Success? && up.subscribe.value.error.None? ==>
            && r == ChatCompleted(input, r.completion)
            && r.completion.content == up.subscribe.value.output.GetOr("") && r.completion.finishReason == "stop")
  {
    if stream && up.stream.Success? {
      StreamEndsWithDone(up.stream.value, "");
    }
  }
}
