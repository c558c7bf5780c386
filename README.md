# fal2api in Dafny

fal2api is an HTTP gateway. It accepts OpenAI-style requests (`POST /v1/chat/completions`,
`POST /v1/images/generations`, `GET /v1/models`) and answers them from fal.ai. Chat requests
go to fal's `any-llm` endpoint. Image requests go to fal's queue API: submit a job, poll its
status, fetch its result. This project models the gateway's decision logic and proves what it
promises:

- **Prompt packer.** It turns an OpenAI message list into fal's `{system_prompt, prompt}`
  pair. System messages go first, in a fixed block. The newest turns fill `prompt`. Older turns
  that still fit spill into `system_prompt` after a separator. The middle of the conversation
  is dropped.
- **Stream translation.** fal's cumulative outputs become OpenAI delta chunks, ending with
  `[DONE]`.
- **Image job.** This covers:
  - endpoint choice with a flux-dev fallback;
  - size validation;
  - the gcd-reduced aspect ratio;
  - submitting, then polling with a capped backoff;
  - the exact error each failure throws.
- **Controllers.** Their validation order, error bodies and replies, including the Markdown
  content of an image answer streamed to a chat client.
- **`server.js`.** The single-file variant of the gateway:
  - its bearer-token middleware;
  - the model list with `getOwner`;
  - its own packer copy with limits fixed at 4800;
  - its chat route, which answers image models itself;
  - its image route;
  - its older `generateImage`, which has no size validation and polls at a fixed 1 s pace.
- **Logger.** The level filter of the application logger.

The model has one module per source file:

| module | source |
|---|---|
| `Text` | JavaScript string built-ins |
| `Logger` | logger |
| `ChatService` | chat service |
| `ImageService` | image service |
| `ImageController` | image controller |
| `ChatController` | chat controller |
| `Server` | `server.js` |
| `Config` | configuration constants |

Support modules: `Api` holds the error bodies and `Wrappers` holds Option and Result.

Pure logic is written as functions. Each loop of the source is a `method` proved equal to a
specification function:

| loop | method |
|---|---|
| the packer's two loops | `SplitMessages`, `FillSlots` |
| the stream loop | `HandleStreamResponse` |
| the newer poll loop | `PollStatus` |
| the older poll loop | `OldPollStatus` |
| the image filter | `CollectImageUrls` |
| the Markdown `forEach` | `BuildMarkdown` |

The properties are proved about those functions.

The outside world is an input:

- The fal replies are values: `SubmitOutcome`, `net: nat -> PollOutcome`, and the event
  stream as a sequence.
- The WHATWG `URL` constructor is a function parameter `parseUrl`.
- The configured API key is a parameter.
- The logger writes to two sequences of lines.

Where the code and the documented design disagree, the model follows the code:

- The packer's `system_prompt` can be longer than the system limit. The code reserves 4
  characters for a 29-character separator, so the bound is limit + 25. See
  `ChatService.SystemPromptCanExceedLimit` and `ChatService.SystemPromptBound`.
- Chat streaming sends no opening role chunk. Only the image answers send one.
- In the modular service, a non-ok submit reply throws a ReferenceError, because the message
  template names an undefined `Successfully`. The model's message is "Successfully is not
  defined" (`ImageService.SubmitOutcomes`). The older `generateImage` in `server.js` has the
  intended message (`Server.OldImageJob`).
- The modular image controller accepts `imagen3`, but the service's endpoint table has no
  entry for it, so it is submitted to flux-dev (`ImageController.Imagen3SubmittedToFluxDev`).
  `server.js` lists neither imagen3 nor the newer chat models.
- The chat controller calls `model.startsWith` before any check. With no model the request
  throws outside the `try` block and gets no answer (`ChatController.UndefinedModelRejects`).

## Model

| member | source | states |
|---|---|---|
| Text.Trim | src/services/chatService.js:55 | `trim()` is empty exactly when the text is all whitespace; otherwise it starts and ends with a non-whitespace character |
| Text.TrimStart | src/services/chatService.js:100-101 | the result is a suffix of the input, everything removed is whitespace, and it does not start with whitespace |
| Text.TrimEnd | src/services/chatService.js:100-101 | the result is a prefix of the input, everything removed is whitespace, and it does not end with whitespace |
| Text.TrimOfTrimmed | src/services/chatService.js:100-101 | a text with non-whitespace ends is its own trim |
| Text.ConcatAppend | src/services/chatService.js:100-101 | `join('')` of two lists of blocks is the concatenation of their joins |
| Text.ConcatSuffixMonotone | src/services/chatService.js:72-97 | joining more blocks never gives a shorter text |
| Text.JoinWithSnoc | server.js:350-353 | joining one more part appends the separator and the part |
| Text.IndexOf | server.js:122-123 | the index holds the character and no earlier index does |
| Text.IndexOfAt | server.js:122-123 | a position holding the character with no earlier occurrence is the `indexOf` result |
| Text.Split | server.js:43 | `split(c)` gives at least one piece, no piece contains `c`, and joining the pieces with `c` gives the text back |
| Text.SplitJoin | server.js:43 | splitting undoes joining when no piece contains the separator |
| Text.LowerAscii | server.js:44 | lower-casing keeps the length and maps each character on its own |
| Text.NatToString | src/controllers/imageController.js:198 | the decimal text of a number is a non-empty digit string whose value is the number, with no leading zero, so the text is the only one for that number |
| Logger.LevelIndex | src/utils/logger.js:118-121 | `indexOf` in the level list: -1 exactly for a name that is not a level, otherwise the position of that name |
| Logger.Logger.constructor | src/utils/logger.js:27-36 | missing console or file flags default to true; a missing or empty level defaults to INFO; nothing is written yet |
| Logger.Logger.Log | src/utils/logger.js:132-144 | a filtered level writes nothing; otherwise one line is added to each enabled sink, and nothing else changes |
| Logger.Logger.Error | src/utils/logger.js:151-153 | logs at ERROR |
| Logger.Logger.Warn | src/utils/logger.js:160-162 | logs at WARN |
| Logger.Logger.Info | src/utils/logger.js:169-171 | logs at INFO |
| Logger.Logger.Debug | src/utils/logger.js:178-180 | logs at DEBUG |
| Logger.KnownLevelsPassUpToConfigured | src/utils/logger.js:118-124 | under a known configured level, a known level passes exactly when it is at most as verbose, in the order ERROR, WARN, INFO, DEBUG |
| Logger.DefaultLevelSuppressesDebug | src/utils/logger.js:31 | with the default INFO level, ERROR, WARN and INFO pass and DEBUG does not |
| Logger.UnknownConfiguredLevel | src/utils/logger.js:118-124 | an unknown configured level lets only unknown levels through |
| Logger.UnknownMessageLevelPasses | src/utils/logger.js:118-124 | an unknown message level passes under every known configured level |
| Logger.OneArgumentLogPasses | src/services/chatService.js:27 | the one-argument `logger.log(text)` passes its text as the level, and that line is always written |
| ChatService.MessageFormatting | src/services/chatService.js:30-46 | messages are formatted in order: system adds "System: c\n\n" to the fixed block, user and assistant add one block each, other roles add nothing, and null content is "" |
| ChatService.SplitMessages | src/services/chatService.js:25-46 | the first loop produces exactly the fixed system block and the history blocks of the messages |
| ChatService.FitSuffixStart | src/services/chatService.js:72-86 | the start of the longest suffix of blocks that fits the limit: it fits, and one block more would not |
| ChatService.FitSuffixStartLongest | src/services/chatService.js:72-86 | no fitting suffix starts earlier |
| ChatService.FitSuffixStartIs | src/services/chatService.js:72-86 | a start that fits while one block more does not is the longest-fit start |
| ChatService.SystemSlotStart | src/services/chatService.js:88-96 | the system slot starts no later than the prompt slot |
| ChatService.FillSlots | src/services/chatService.js:64-97 | the reverse loop selects exactly the prompt slot and the system slot right before it |
| ChatService.FixedSystemPrompt | src/services/chatService.js:49-55 | the cut and trimmed system block is at most the system limit long |
| ChatService.ConvertMessagesToFalPrompt | src/services/chatService.js:24-120 | the packer returns exactly the declarative packing `PackedPromptOf` |
| ChatService.PromptWithinLimit | src/services/chatService.js:78-86 | the prompt is at most the prompt limit long |
| ChatService.HistorySlotsPartition | src/services/chatService.js:72-97 | the history splits into a dropped oldest run, then the system slot, then the prompt slot, in order and without splitting a block |
| ChatService.PromptSlotIsLongestFit | src/services/chatService.js:78-86 | recency: the prompt slot is the longest suffix of the history that fits the prompt limit |
| ChatService.SystemSlotFits | src/services/chatService.js:88-96 | the system slot fits the remaining budget, and it is empty when that budget is 0 |
| ChatService.SystemSlotIsLongestFit | src/services/chatService.js:88-96 | the system slot is the longest run right before the prompt slot that fits the remaining budget |
| ChatService.SystemPromptBound | src/services/chatService.js:57-114 | `system_prompt` is within the limit when one part is present, and within the limit + 25 when both are |
| ChatService.SeparatorPlacement | src/services/chatService.js:105-114 | the separator appears exactly when both trimmed parts are non-empty, with the fixed part first; otherwise `system_prompt` is the non-empty part or "" |
| ChatService.EmptyMessagesPack | src/services/chatService.js:24-120 | no messages pack to two empty strings |
| ChatService.AllHistoryFitsPrompt | src/services/chatService.js:78-86 | when the whole history fits the prompt limit, all of it goes to `prompt` and none to `system_prompt` |
| ChatService.ConversationBlocks | src/services/chatService.js:30-46 | a system, user, assistant, user conversation gives one fixed block and three labelled blocks |
| ChatService.ConversationPacks | src/services/chatService.js:24-120 | such a conversation that fits both limits packs to the system text and the three turns without the trailing blank line |
| ChatService.SystemSpill | src/services/chatService.js:88-114 | a turn too long for `prompt` that fits the remaining system budget is spilled after the separator, and `prompt` is empty |
| ChatService.SystemPromptCanExceedLimit | src/services/chatService.js:57-62 | with system limit 40 and prompt limit 0, [system "S", user "U"] gives a 46-character `system_prompt` |
| ChatService.SlotsOfOneBlock | src/services/chatService.js:72-97 | a single block that misses the prompt limit but fits the remaining budget is spilled whole |
| ChatService.Delta | src/services/chatService.js:161-176 | the delta extends the previous output to the current one, or is the whole current output on a mismatch |
| ChatService.HandleStreamResponse | src/services/chatService.js:123-244 | the loop writes exactly `StreamWrites`, and it rethrows exactly when the stream broke |
| ChatService.DeltasReassemble | src/services/chatService.js:161-190 | for prefix-growing outputs, the deltas sent concatenate to the last output |
| ChatService.StreamEndsWithDone | src/services/chatService.js:203-228 | the answer ends with one `[DONE]`; an error chunk or proxy error can only come right before it |
| ChatService.ErrorStopsStream | src/services/chatService.js:134-159 | an error event writes one error chunk and `[DONE]`, and no later event is read |
| ChatService.EmissionRule | src/services/chatService.js:130-190 | a chunk is written exactly when the delta is non-empty or the event is final; its finish reason is "stop" exactly when `partial` is false; missing fields default to partial and "" |
| ChatService.HandleNonStreamResponse | src/services/chatService.js:247-292 | a result with an error fails with "Fal-ai error: …" and only then; otherwise the completion carries the model, the output or "", "stop", and `fal_reasoning` exactly when the reasoning is a non-empty text, equal to it |
| ImageService.EndpointFallback | src/services/imageService.js:41-43 | a model without an endpoint entry, imagen3 among them, uses the flux-dev endpoints |
| ImageService.ParseSize | src/services/imageService.js:52-63 | a size is accepted exactly when it is two "x"-separated positive decimal numbers; a wrong piece count is the format error |
| ImageService.ParseSizeOfText | src/services/imageService.js:52-63 | the text "WxH" of two positive numbers parses back to W and H |
| ImageService.Gcd | src/services/imageService.js:66 | the gcd divides both arguments and is 0 only for 0 and 0 |
| ImageService.GcdGreatest | src/services/imageService.js:66 | every common divisor divides the gcd |
| ImageService.AspectRatioReduced | src/services/imageService.js:65-68 | the two parts of the ratio are coprime and in proportion width : height |
| ImageService.AspectRatioExamples | src/services/imageService.js:65-68 | 1920x1080 gives "16:9" and 1024x1024 gives "1:1" |
| ImageService.BuildRequestBody | src/services/imageService.js:46-80 | the size error exactly for a given invalid size; otherwise prompt and count, plus the reduced ratio for two models or the dimensions for the rest, and no size field for no size |
| ImageService.BuildBody | src/services/imageService.js:46-80 | the size block builds exactly `BuildRequestBody` |
| ImageService.WithUrls | src/services/imageService.js:233-236 | the filter keeps exactly the entries that have a url |
| ImageService.WithUrlsAppend | src/services/imageService.js:233-236 | the filter keeps the order of the entries it retains |
| ImageService.CollectImageUrls | src/services/imageService.js:233-236 | the filter-map returns exactly `WithUrls` |
| ImageService.PollBounds | src/services/imageService.js:141-313 | at most 120 polls, no more sleeps than the polls made from the starting attempt, and a timeout only after all 120 |
| ImageService.PollSuccessHasUrls | src/services/imageService.js:233-249 | a successful poll returns only entries with a url |
| ImageService.SleepsWithinBounds | src/services/imageService.js:141-286 | every delay slept is within [1000, 5000] ms and at least the one before |
| ImageService.BackoffSchedule | src/services/imageService.js:181 | the delays grow 1000, 1500, 2250, 3375, then stay at 5000 |
| ImageService.TimeoutDoesNotSleep | src/services/imageService.js:287-299 | a network timeout uses up an attempt but does not sleep or change the delay |
| ImageService.NonOkStatus | src/services/imageService.js:165-194 | 429 and 5xx sleep and poll again; every other non-ok status ends the job with "Error checking status: …" |
| ImageService.RetryThenComplete | src/services/imageService.js:141-286 | 429, 429, then COMPLETED succeeds after three polls and two sleeps of 1000 and 1500 ms |
| ImageService.FailedStatus | src/services/imageService.js:262-270 | FAILED ends the job with "Request failed: " and the reason, or "Unknown error" |
| ImageService.CompletedStatus | src/services/imageService.js:200-259 | after COMPLETED, a non-ok fetch is fatal, a non-empty list gives its entries with urls in order, and an empty list is "No images found in the response" |
| ImageService.PendingStatus | src/services/imageService.js:271-286 | any other status sleeps and polls again with the next delay |
| ImageService.PollStatus | src/services/imageService.js:141-313 | the polling loop returns exactly what `PollFrom` gives from attempt 0 and the initial delay |
| ImageService.AttemptOnce | src/services/imageService.js:157-301 | one attempt decides exactly `PollStep` |
| ImageService.SubmitAndPoll | src/services/imageService.js:96-313 | submit, request id check and polling give exactly `SubmittedJob` |
| ImageService.GenerateImage | src/services/imageService.js:29-324 | `generateImage` gives exactly `ImageJob`: endpoints, body, submit and polling |
| ImageService.InvalidSizeSendsNothing | src/services/imageService.js:52-63 | an invalid size throws before anything is submitted or polled |
| ImageService.SubmitOutcomes | src/services/imageService.js:105-139 | a non-ok submit throws the ReferenceError and a missing id throws its message, with nothing polled; with an id, the status and result URLs are built from it |
| ImageController.HandleImageGeneration | src/controllers/imageController.js:22-343 | the handler answers exactly `ImageResponse`, streamed writes in order |
| ImageController.AnswerJob | src/controllers/imageController.js:101-342 | the answer after the job is exactly `JobReply` |
| ImageController.PromptCheckedFirst | src/controllers/imageController.js:55-71 | a missing or empty prompt is a 400 parameter_required for any model |
| ImageController.ModelChecked | src/controllers/imageController.js:73-89 | with a prompt, the model (flux-dev when absent) must be one of the six, or the answer is a 400 model_not_found; only a listed model runs the job |
| ImageController.UnsupportedModelNamesIt | src/controllers/imageController.js:83 | the refusal is a 400 model_not_found on `model` whose message starts with "Model '" and the model name |
| ImageController.JobFailureIsServerError | src/controllers/imageController.js:321-342 | every refusal after the job has run is a 500 |
| ImageController.Imagen3SubmittedToFluxDev | src/controllers/imageController.js:13 | imagen3 passes the check and is submitted to the flux-dev endpoint |
| ImageController.StreamedFourWrites | src/controllers/imageController.js:113-302 | a streamed success writes four lines: role start, content, stop, `[DONE]` |
| ImageController.EntryContent | src/controllers/imageController.js:167-217 | each entry is `![Generated Image i+1](url)` or one of the two index error texts |
| ImageController.TwoImagesContent | src/controllers/imageController.js:167-217 | two valid images give two Markdown images around a blank line |
| ImageController.ServiceEntriesHaveUrls | src/controllers/imageController.js:177-185 | entries from the service always have a url, so "Invalid image URL" never appears for them |
| ImageController.NonArrayResults | src/controllers/imageController.js:149-236 | a non-array result gives the fixed texts when streamed and an empty `data` otherwise |
| ImageController.JobOutcomeReply | src/controllers/imageController.js:303-342 | a throw gives a 500 with its message or the default text; a non-streamed success lists the images |
| ImageController.InvalidSizeReply | src/controllers/imageController.js:321-342 | the size "1024", which has no "x", is reported as a 500 carrying the size format error |
| ChatController.ImageModelClassification | src/controllers/chatController.js:6-8 | imagen3 is not an image model, every flux- name is (flux-schnell among them, outside the image handler's list), every listed image model except imagen3 is one, and no model of the chat catalog is one |
| ChatController.ChatCatalogInitial | src/config/constants.js:6-28 | every chat model of the catalog starts with a, g, m, o or d, and none is an image model |
| ChatController.LastUserIsLatest | src/controllers/chatController.js:19-25 | the prompt is the content of the user message that no user message follows |
| ChatController.NoUserNoPrompt | src/controllers/chatController.js:19-25 | without a user message there is no prompt |
| ChatController.UndefinedModelRejects | src/controllers/chatController.js:6-17 | an undefined model throws before any answer |
| ChatController.ImageRouting | src/controllers/chatController.js:17-64 | for an image model, a non-array `messages` with a positive length throws and gets no answer; otherwise the request is refused 400 parameter_invalid exactly when the prompt is missing or empty, and else forwarded with that prompt, its `stream`, `n` and `size` |
| ChatController.UnlistedFluxModel | src/controllers/chatController.js:17-64 | flux-schnell is routed to the image handler and refused model_not_found there |
| ChatController.ChatModelChecked | src/controllers/chatController.js:76-93 | a non-image model outside the catalog is a 400 model_not_found, whatever the messages |
| ChatController.MessagesChecked | src/controllers/chatController.js:95-109 | then missing, non-array or empty messages are a 400 with only a message and a type |
| ChatController.FalInputShape | src/controllers/chatController.js:111-119 | the fal input carries the model, the packed prompt within its limit, `system_prompt` exactly when it is non-empty, and `reasoning` |
| ChatController.ValidRequestAnswer | src/controllers/chatController.js:111-156 | a request that passes the checks is answered by the `try` block with the packed input |
| ChatController.AnswerKeepsInput | src/controllers/chatController.js:111-156 | a streamed or completed answer carries the input it was given |
| ChatController.ChatErrors | src/controllers/chatController.js:129-177 | a failed stream, failed subscribe or fal error is a 500 chat_completion_error; an open stream ends with `[DONE]`; a result gives its output and "stop" |
| Server.ApiKeyAuth | server.js:35-56 | "no API key" exactly for a missing or empty header; a passing header is a scheme that lower-cases to "bearer", one space and the key |
| Server.AuthorizedIff | server.js:43-55 | for a key without spaces, a header passes exactly when it is a "bearer" spelling, a space and the key |
| Server.KeyWithSpaceNeverPasses | server.js:43-53 | a key containing a space rejects every header |
| Server.HeaderWithoutSpace | server.js:43-47 | a non-empty header without a space has the wrong format |
| Server.BearerSchemes | server.js:43-53 | the scheme is matched in any letter case and the key exactly |
| Server.SchemeHasNoSpace | server.js:44 | a text that lower-cases to "bearer" has six characters and no space |
| Server.MetSchemeSplit | server.js:43 | "scheme key" splits back into the scheme and the key |
| Server.Owner | server.js:121-126 | a model id with "/" is owned by its text before the first "/"; without one, by "fal-ai" |
| Server.OwnerOfQualified | server.js:121-126 | the owner of "org/name" is the org |
| Server.ModelList | server.js:139-145 | one card per chat model and image model, chat models first, each created 1700000000 |
| Server.ImageModelsOwnedByFal | server.js:142-144 | the image models come after the chat models, each created 1700000000 and owned by "fal-ai" |
| Server.ChatModelsOwnedByOrganisation | server.js:142-144 | a chat model "org/name" of the list is created 1700000000 and owned by its org |
| Server.ModelListsDisjoint | server.js:67-94 | no model is in both lists |
| Server.ConvertMessages | server.js:154-282 | this file's packer is the service's packer with both limits at 4800, and its prompt is at most 4800 long |
| Server.PackerExample | server.js:154-282 | [system "S", user "U1", assistant "A1", user "U2"] packs to "System: S" and "Human: U1\n\nAssistant: A1\n\nHuman: U2" |
| Server.OldBuildBody | server.js:578-593 | the body of the older job follows `OldBuildRequestBody` |
| Server.OldBodyAgreesOnValidSizes | server.js:584-593 | on every size the newer service accepts, the older body is the same |
| Server.OldIgnoresExtraPieces | server.js:585 | "WxHx…" is refused by the newer service but read as W by H by the older one |
| Server.OldSizingOfText | server.js:584-593 | "WxH" of two positive numbers gives the ratio or the dimensions of W and H |
| Server.FixedChatSize | server.js:319 | the chat route's "1024x1024" is a 1:1 ratio or 1024 by 1024 |
| Server.OldPollBounds | server.js:626-677 | at most 60 polls, a 1000 ms sleep after each pending poll and no other, and a timeout only after 60 |
| Server.AlwaysPendingTimesOut | server.js:626-677 | a job that stays pending polls 60 times, sleeps 1000 ms after each, and times out |
| Server.OldStatusErrorIsFatal | server.js:637-639 | any non-ok status, 429 and 5xx included, ends the job at once |
| Server.OldFailedStatus | server.js:669-671 | FAILED throws with the reported error or "Unknown error" |
| Server.OldPollSuccessHasUrls | server.js:659-665 | a successful poll returns only entries with a url |
| Server.OldPollStatus | server.js:626-677 | the loop returns exactly `OldPollFrom` from attempt 0 |
| Server.OldGenerateImage | server.js:569-682 | the older `generateImage` gives exactly `OldImageJob` |
| Server.OldJobSubmits | server.js:573-624 | the older job uses the same endpoints and submit handling as the newer, with the correct submit error message |
| Server.MarkdownSnoc | server.js:349-353 | one more image appends a blank line and its link, numbered after the others; the first link stands alone |
| Server.BuildMarkdown | server.js:349-353 | the `forEach` builds the links joined by blank lines |
| Server.MarkdownExamples | server.js:349-353 | one image gives its link alone; two give both links around a blank line |
| Server.MarkdownOfNone | server.js:349-353 | no images give empty content |
| Server.ImageModelsFirst | server.js:293-315 | an image model is answered by the image branch; a non-array `messages` with a positive length throws, and exactly then; otherwise a falsy prompt is a 400 parameter_invalid, and exactly then |
| Server.ChatModelCheckedSecond | server.js:435-445 | a model in neither list is refused as model_not_found with the chat list, messages unchecked |
| Server.MessagesCheckedLast | server.js:450-453 | for a chat model, exactly an empty model name and missing, non-array or empty messages are refused |
| Server.ServerLists | server.js:67-94 | no chat model is taken by the image branch, and imagen3 is in neither list |
| Server.ChatRequestPacked | server.js:455-464 | a valid chat request is packed with limits 4800 and answered by the `try` block |
| Server.PackedInput | server.js:457-464 | the fal input carries the model, `reasoning` and the packed texts, the prompt within 4800 |
| Server.ChatAnswerKeepsInput | server.js:477-563 | the `try` block answers with its input: a rejected `fal.stream` after the flushed headers ends the reply with no line, an open stream gives the handler's lines, a rejected `fal.subscribe` is the proxy 500 with its message, a result error is the "Fal-ai error: …" 500, and otherwise the completion carries the output or "", "stop" and the non-empty reasoning |
| Server.ImageAnswerShape | server.js:317-431 | streamed: role chunk, Markdown content, stop chunk, `[DONE]`; otherwise the content with usage in characters; a throw is a 500 |
| Server.ImageBranchRequest | server.js:319 | the chat route asks the older job for one 1024x1024 image, ignoring the request's `n` and `size` |
| Server.ImageRouteOrder | server.js:685-742 | the prompt is checked before the model, the answer lists URL-bearing entries, and a throw is a 500 |
| ChatService.IsChatModel | src/services/chatService.js:19-21 | `isChatModel`: membership in the catalog; `ChatController.ChatModelChecked` states its use |
| ChatService.PackedPromptOf | src/services/chatService.js:24-120 | the declarative packing; `PromptWithinLimit`, `SystemPromptBound`, `PromptSlotIsLongestFit`, `SystemSlotIsLongestFit`, `ConversationPacks` and `SystemSpill` state its properties |
| ChatService.StreamWrites | src/services/chatService.js:123-244 | the lines the stream handler writes; `StreamEndsWithDone`, `DeltasReassemble`, `ErrorStopsStream` and `EmissionRule` state its properties |
| ImageService.ToNumber | src/services/imageService.js:58-59 | `Number()` of a size piece; `ParseSizeOfText` states its use |
| ImageService.PollStep | src/services/imageService.js:157-301 | one polling attempt; `TimeoutDoesNotSleep`, `NonOkStatus`, `FailedStatus`, `CompletedStatus` and `PendingStatus` state its cases |
| ImageService.PollFrom | src/services/imageService.js:141-313 | the polling loop from an attempt and a delay; `PollBounds`, `PollSuccessHasUrls`, `SleepsWithinBounds` and `RetryThenComplete` state its properties |
| ImageService.ImageJob | src/services/imageService.js:29-324 | `generateImage`; `InvalidSizeSendsNothing` and `SubmitOutcomes` state its cases |
| ImageController.JobReply | src/controllers/imageController.js:101-342 | the answer after the job; `JobOutcomeReply`, `JobFailureIsServerError` and `StreamedFourWrites` state its properties |
| ImageController.ImageResponse | src/controllers/imageController.js:22-343 | the handler's answer; `PromptCheckedFirst`, `ModelChecked`, `InvalidSizeReply` and `Imagen3SubmittedToFluxDev` state its order and cases |
| ChatController.IsImageModel | src/controllers/chatController.js:6-8 | `isImageModel`; `ImageModelClassification` states its cases |
| ChatController.LastUserContent | src/controllers/chatController.js:20-25 | the last user message's content; `LastUserIsLatest` and `NoUserNoPrompt` state it |
| ChatController.HandleChatCompletion | src/controllers/chatController.js:10-178 | the handler's answer; `UndefinedModelRejects`, `ImageRouting`, `ChatModelChecked`, `MessagesChecked`, `ValidRequestAnswer` and `ChatErrors` state its order and answers |
| Server.OldSizingOf | server.js:584-593 | the older job's size handling; `OldSizingOfText`, `OldBodyAgreesOnValidSizes` and `OldIgnoresExtraPieces` state it |
| Server.OldPollFrom | server.js:626-677 | the older polling loop; `OldPollBounds`, `AlwaysPendingTimesOut`, `OldStatusErrorIsFatal`, `OldFailedStatus` and `OldPollSuccessHasUrls` state it |
| Server.OldImageJob | server.js:569-682 | the older `generateImage`; `OldJobSubmits` states its submit cases |
| Server.MarkdownContent | server.js:349-353 | the image links joined by blank lines; `MarkdownSnoc`, `MarkdownExamples` and `MarkdownOfNone` state it |
| Server.ChatCompletionRoute | server.js:287-566 | the chat route's answer; `ImageModelsFirst`, `ChatModelCheckedSecond`, `MessagesCheckedLast`, `ChatRequestPacked` and `ImageBranchRequest` state its order and answers |
| Server.ImageGenerationRoute | server.js:685-742 | the image route's answer; `ImageRouteOrder` states it |

## Left out

- HTTP wiring: Express, headers, CORS, body parsing, the `/` page, and `app.listen`. Subject to
  that, the answers are modelled as the status and body the handler sends.
- The fal SDK (`fal.config`, `fal.stream`, `fal.subscribe`), `fetch`, and sleeping. Their
  replies are inputs. A sleep is recorded as its delay.
- Timestamps, `Date.now()`-based ids, durations and `Math.random` seeds. The reply fields built
  from them are not modelled.
- The image variation and inpainting wrappers, `imageService.js:326-463`. They only forward to
  `fal.subscribe` and are not called by the core.
- `Logger.Logger.Log` does not model message formatting, file rotation, console colours, or the
  `requestLogger` middleware. Only the level filter is modelled, and a written line is recorded
  as its level and message.
- `ImageService.ToNumber`: `Number()` is modelled on decimal digit strings only. Any other text
  (signs, decimals, exponents, surrounding spaces) counts as NaN, so the newer service refuses
  it. The older body records such a size as unchecked text.
- `Text.IsWhitespace`: the whitespace set of `trim()` is the ECMAScript WhiteSpace and
  LineTerminator set written out as characters.
- `Text.LowerAscii`: lower-cases ASCII letters only. No other character lower-cases to a
  letter of "bearer", the only text it is compared with.
- Message content that is not a string is modelled, in the packer, as its `String()` text
  given as a string. The image branches of both chat routes are modelled for string content
  only: an array of content parts (forwarded as the prompt, its length counted as prompt
  tokens), an empty array (forwarded) and a falsy non-string such as `0` (refused) are not
  represented.
- A `messages` value that is not an array is modelled by whether the `messages.length > 0`
  test passes (`SizedNonArray`, a non-empty string for instance) or not (`NotArray`). Only the
  first throws in the image branches, which is stated; which other objects have a `length` is
  not modelled.
- Strings are sequences of Unicode scalar values, so lengths agree with JavaScript's UTF-16
  `length` only for text within the Basic Multilingual Plane. The packer's limits and slices
  count characters: a prompt with characters outside that plane may fit here and not in
  JavaScript, and a `substring` that splits a surrogate pair is not represented.
- Model catalogs are passed as a value. The route lemmas hold for any catalog. The server's
  own lists are used where a lemma names them.
- Environment variables: `env.js` only reads them. The API key and the limits are parameters
  or constants.
- JavaScript numbers beyond these: `n` is an integer, and the delay multiplication by 1.5 is
  exact on the delays the loop reaches.
- Concurrency between requests: each request is modelled on its own.
