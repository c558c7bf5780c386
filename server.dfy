/**
 * The single-file gateway server.js: its bearer-token check, the model list with `getOwner`,
 * its own copy of the prompt packer under fixed limits, the chat route (which answers image
 * models itself, with Markdown content), its image route, and the older `generateImage`, which
 * does no size validation and polls at a fixed pace.
 *
 * As in the service modules, what fal's queue and `fal.stream` / `fal.subscribe` return is an
 * input: `submit` is the reply to the submit request and `net(i)` the reply to the i-th status
 * poll (and the result fetch after a COMPLETED status).
 */
module Server {
  import opened Wrappers
  import opened Text
  import opened Api
  import opened ChatService
  import opened ImageService
  import CC = ChatController
  import IC = ImageController

  // ---------------------------------------------------------------------------
  // API key check
  // ---------------------------------------------------------------------------

  /** What the middleware does: let the request through, or answer 401 `{error}`. */
  datatype AuthOutcome = Authorized | Unauthorized(error: string)

  const NoApiKey: string := "Unauthorized: No API Key provided"
  const BadHeaderFormat: string := "Unauthorized: Invalid Authorization header format"
  const BadApiKey: string := "Unauthorized: Invalid API Key"

  /**
   * `apiKeyAuth`: `header` is the Authorization header (`None` when absent), `apiKey` the
   * configured key. A passing header is a six-letter scheme that lower-cases to "bearer", one
   * space, and the key.
   */
  function ApiKeyAuth(header: Option<string>, apiKey: string): (r: AuthOutcome)
    ensures r == Unauthorized(NoApiKey) <==> header.None? || header.value == ""
    ensures r == Authorized ==>
      && header.Some? && |header.value| == |apiKey| + 7
      && LowerAscii(header.value[..6]) == "bearer" && header.value[6] == ' ' && header.value[7..] == apiKey
  {
    if header.None? || header.value == "" then Unauthorized(NoApiKey)
    else
      var parts := Split(header.value, ' ');
      if |parts| != 2 || LowerAscii(parts[0]) != "bearer" then Unauthorized(BadHeaderFormat)
      else if parts[1] != apiKey then Unauthorized(BadApiKey)
      else
        assert parts[1..] == [parts[1]];
        assert header.value == parts[0] + " " + parts[1];
        Authorized
  }

  /**
   * Bearer check: for a key without spaces (one with a space can never pass, see below), the
   * header passes exactly when it is "bearer" in any letter case, a space, and the key.
   */
  lemma AuthorizedIff(header: Option<string>, apiKey: string)
    requires ' ' !in apiKey
    ensures ApiKeyAuth(header, apiKey) == Authorized <==>
      && header.Some? && |header.value| == |apiKey| + 7
      && LowerAscii(header.value[..6]) == "bearer" && header.value[6] == ' ' && header.value[7..] == apiKey
  {
    if header.Some? && |header.value| == |apiKey| + 7 && LowerAscii(header.value[..6]) == "bearer"
       && header.value[6] == ' ' && header.value[7..] == apiKey {
      var h := header.value;
      var scheme := h[..6];
      SchemeHasNoSpace(scheme);
      assert h == scheme + [' '] + apiKey;
      assert [scheme, apiKey][1..] == [apiKey];
      SplitJoin([scheme, apiKey], ' ');
    }
  }

  /** A configured key that contains a space rejects every header: no piece of `split(' ')` holds one. */
  lemma KeyWithSpaceNeverPasses(header: Option<string>, apiKey: string)
    requires ' ' in apiKey
    ensures ApiKeyAuth(header, apiKey) != Authorized
  {
    if header.Some? && header.value != "" {
      var parts := Split(header.value, ' ');
      if |parts| == 2 {
        assert ' ' !in parts[1];
      }
    }
  }

  /** Without a space the header is one piece, so a non-empty header without one has the wrong format. */
  lemma HeaderWithoutSpace(h: string, apiKey: string)
    requires h != "" && ' ' !in h
    ensures ApiKeyAuth(Some(h), apiKey) == Unauthorized(BadHeaderFormat)
  {
  }

  /** The scheme is matched in any letter case; the key is compared exactly. */
  lemma BearerSchemes(scheme: string, apiKey: string, other: string)
    requires LowerAscii(scheme) == "bearer" && ' ' !in apiKey && ' ' !in other && other != apiKey
    ensures ApiKeyAuth(Some(scheme + " " + apiKey), apiKey) == Authorized
    ensures ApiKeyAuth(Some(scheme + " " + other), apiKey) == Unauthorized(BadApiKey)
  {
    SchemeHasNoSpace(scheme);
    MetSchemeSplit(scheme, apiKey);
    MetSchemeSplit(scheme, other);
  }

  /** A text that lower-cases to "bearer" has six characters and no space. */
  lemma SchemeHasNoSpace(scheme: string)
    requires LowerAscii(scheme) == "bearer"
    ensures |scheme| == 6 && ' ' !in scheme
  {
    assert ' ' !in LowerAscii(scheme);
    SpaceSurvivesLowering(scheme);
  }

  /** Lower-casing keeps every space where it is. */
  lemma SpaceSurvivesLowering(s: string)
    ensures ' ' in s ==> ' ' in LowerAscii(s)
  {
    if ' ' in s {
      var i :| 0 <= i < |s| && s[i] == ' ';
      assert LowerAscii(s)[i] == ' ';
    }
  }

  /** `scheme + " " + key` splits back into the scheme and the key. */
  lemma MetSchemeSplit(scheme: string, key: string)
    requires ' ' !in scheme && ' ' !in key
    ensures Split(scheme + " " + key, ' ') == [scheme, key]
  {
    assert [scheme, key][1..] == [key];
    SplitJoin([scheme, key], ' ');
  }

  // ---------------------------------------------------------------------------
  // Model catalog
  // ---------------------------------------------------------------------------

  /** `FAL_SUPPORTED_MODELS` of this file: 17 chat models of fal-ai/any-llm. */
  const SupportedModels: seq<string> := [
    "anthropic/claude-3.7-sonnet",
    "anthropic/claude-3.5-sonnet",
    "anthropic/claude-3-5-haiku",
    "anthropic/claude-3-haiku",
    "google/gemini-pro-1.5",
    "google/gemini-flash-1.5",
    "google/gemini-flash-1.5-8b",
    "google/gemini-2.0-flash-001",
    "meta-llama/llama-3.2-1b-instruct",
    "meta-llama/llama-3.2-3b-instruct",
    "meta-llama/llama-3.1-8b-instruct",
    "meta-llama/llama-3.1-70b-instruct",
    "openai/gpt-4o-mini",
    "openai/gpt-4o",
    "deepseek/deepseek-r1",
    "meta-llama/llama-4-maverick",
    "meta-llama/llama-4-scout"
  ]

  /** `FAL_IMAGE_MODELS` of this file; its URL table has the same five entries as `ImageModelUrls`. */
  const ImageModels: seq<string> := ["flux-1.1-ultra", "recraft-v3", "flux-1.1-pro", "ideogram-v2", "flux-dev"]

  /** `getOwner`: the text before the first "/" of a model id that has one, else "fal-ai". */
  function Owner(modelId: string): (r: string)
    ensures '/' in modelId ==> r + "/" <= modelId && '/' !in r
    ensures '/' !in modelId ==> r == "fal-ai"
  {
    if modelId != "" && '/' in modelId then
      var i := IndexOf(modelId, '/');
      assert Split(modelId, '/')[0] == modelId[..i];
      assert modelId[..i] + "/" == modelId[..i + 1];
      Split(modelId, '/')[0]
    else "fal-ai"
  }

  /** `getOwner` of "org/name" is the organisation, whatever the name holds. */
  lemma OwnerOfQualified(org: string, name: string)
    requires '/' !in org
    ensures Owner(org + "/" + name) == org
  {
    var id := org + "/" + name;
    assert id[..|org|] == org;
    IndexOfAt(id, '/', |org|);
  }

  /** One entry of `GET /v1/models`; every entry also has object "model". */
  datatype ModelCard = ModelCard(id: string, created: nat, ownedBy: string)

  const ModelCreated: nat := 1700000000

  /** The chat models, then the image models, each with its owner. */
  function ModelList(): (r: seq<ModelCard>)
    ensures |r| == |SupportedModels| + |ImageModels|
    ensures forall i :: 0 <= i < |r| ==> r[i].id == (SupportedModels + ImageModels)[i] && r[i].created == 1700000000
  {
    var ids := SupportedModels + ImageModels;
    seq(|ids|, i requires 0 <= i < |ids| => ModelCard(ids[i], ModelCreated, Owner(ids[i])))
  }

  /** Every image model of the list is owned by "fal-ai": none of their ids holds a "/". */
  lemma ImageModelsOwnedByFal(i: nat)
    requires |SupportedModels| <= i < |ModelList()|
    ensures ModelList()[i] == ModelCard(ImageModels[i - |SupportedModels|], 1700000000, "fal-ai")
  {
    NoSlashInImageModel(i - |SupportedModels|);
  }

  /** A chat model of the list is owned by its organisation. */
  lemma ChatModelsOwnedByOrganisation(i: nat, org: string, name: string)
    requires i < |SupportedModels| && SupportedModels[i] == org + "/" + name && '/' !in org
    ensures ModelList()[i] == ModelCard(SupportedModels[i], 1700000000, org)
  {
    OwnerOfQualified(org, name);
  }

  lemma NoSlashInImageModel(i: nat)
    requires i < |ImageModels|
    ensures '/' !in ImageModels[i]
  {
  }

  /** Every chat model starts with one of a, g, m, o, d. */
  lemma ChatModelInitial(m: string)
    requires m in SupportedModels
    ensures |m| > 0 && (m[0] == 'a' || m[0] == 'g' || m[0] == 'm' || m[0] == 'o' || m[0] == 'd')
  {
  }

  /** Every image model starts with one of f, r, i. */
  lemma ImageModelInitial(m: string)
    requires m in ImageModels
    ensures |m| > 0 && (m[0] == 'f' || m[0] == 'r' || m[0] == 'i')
  {
  }

  /** No model is in both lists, so the image check of the chat route never captures a chat model. */
  lemma ModelListsDisjoint(m: string)
    requires m in SupportedModels
    ensures m !in ImageModels
  {
    ChatModelInitial(m);
    if m in ImageModels {
      ImageModelInitial(m);
    }
  }

  // ---------------------------------------------------------------------------
  // The prompt packer under this file's limits
  // ---------------------------------------------------------------------------

  const PromptLimit: nat := 4800
  const SystemPromptLimit: nat := 4800

  /** This file's `convertMessagesToFalPrompt`: the service's packer, with both limits fixed at 4800. */
  method ConvertMessages(messages: seq<Message>) returns (packed: PackedPrompt)
    ensures packed == PackedPromptOf(messages, SystemPromptLimit, PromptLimit)
    ensures |packed.prompt| <= PromptLimit
  {
    packed := ConvertMessagesToFalPrompt(messages, SystemPromptLimit, PromptLimit);
    PromptWithinLimit(messages, SystemPromptLimit, PromptLimit);
  }

  /**
   * Packer example: under the fixed limits, [system "S", user "U1", assistant "A1", user "U2"]
   * keeps the system text on its own and the whole conversation in `prompt`.
   */
  lemma PackerExample(sys: string, u1: string, a1: string, u2: string)
    requires sys == "S" && u1 == "U1" && a1 == "A1" && u2 == "U2"
    ensures PackedPromptOf(
      [Message("system", Some(sys)), Message("user", Some(u1)), Message("assistant", Some(a1)), Message("user", Some(u2))],
      SystemPromptLimit, PromptLimit)
      == PackedPrompt("System: S", "Human: U1\n\nAssistant: A1\n\nHuman: U2")
  {
    ExampleTexts(sys, u1, a1, u2);
    ConversationPacks(sys, u1, a1, u2, SystemPromptLimit, PromptLimit);
  }

  lemma ExampleTexts(sys: string, u1: string, a1: string, u2: string)
    requires sys == "S" && u1 == "U1" && a1 == "A1" && u2 == "U2"
    ensures sys != [] && !IsWhitespace(sys[|sys| - 1]) && u2 != [] && !IsWhitespace(u2[|u2| - 1])
    ensures "System: " + sys == "System: S"
    ensures ("Human: " + u1 + "\n\n") + ("Assistant: " + a1 + "\n\n") + ("Human: " + u2) == "Human: U1\n\nAssistant: A1\n\nHuman: U2"
  {
    var h1, h2, last := "Human: " + u1 + "\n\n", "Assistant: " + a1 + "\n\n", "Human: " + u2;
    ExampleBlocks(u1, a1, u2);
    AppendAssoc(h1, h2, last);
  }

  lemma ExampleBlocks(u1: string, a1: string, u2: string)
    requires u1 == "U1" && a1 == "A1" && u2 == "U2"
    ensures "Human: " + u1 + "\n\n" == "Human: U1\n\n"
    ensures "Assistant: " + a1 + "\n\n" == "Assistant: A1\n\n"
    ensures "Human: " + u2 == "Human: U2"
  {
  }

  // ---------------------------------------------------------------------------
  // The older generateImage: request body without size validation
  // ---------------------------------------------------------------------------

  /**
   * The size field of the older body: a computed sizing, or `Unchecked` where `split("x")`
   * does not give two decimal numbers (or gives 0x0 to the ratio models) and JavaScript puts
   * NaN, null or a missing height into the body.
   */
  datatype OldSizing = Sized(sizing: Sizing) | Unchecked(size: string)

  datatype OldRequestBody = OldRequestBody(prompt: string, numImages: int, sizing: Option<OldSizing>)

  /** `const [width, height] = size.split("x").map(Number)`: the first two pieces; further ones are ignored. */
  function OldSizingOf(model: string, size: string): OldSizing {
    var parts := Split(size, 'x');
    if |parts| < 2 then Unchecked(size)
    else
      match (ToNumber(parts[0]), ToNumber(parts[1]))
      case (Num(width), Num(height)) =>
        if !UsesAspectRatio(model) then Sized(ImageSize(width, height))
        else if width == 0 && height == 0 then Unchecked(size)
        else
          var divisor := Gcd(width, height);
          Sized(AspectRatio(NatToString(width / divisor) + ":" + NatToString(height / divisor)))
      case _ => Unchecked(size)
  }

  function OldBuildRequestBody(model: string, prompt: string, numImages: int, size: string): OldRequestBody {
    OldRequestBody(prompt, numImages, if size == "" then None else Some(OldSizingOf(model, size)))
  }

  /** The older body in the terms of the newer one. */
  function Older(body: RequestBody): OldRequestBody {
    OldRequestBody(body.prompt, body.numImages, if body.sizing.Some? then Some(Sized(body.sizing.value)) else None)
  }

  /** On every size the newer version accepts, the older version builds the same body. */
  lemma OldBodyAgreesOnValidSizes(model: string, prompt: string, numImages: int, size: string)
    requires BuildRequestBody(model, prompt, numImages, size).Success?
    ensures OldBuildRequestBody(model, prompt, numImages, size) == Older(BuildRequestBody(model, prompt, numImages, size).value)
  {
    if size != "" {
      var parts := Split(size, 'x');
      var s := ParseSize(size).value;
      assert ToNumber(parts[0]) == Num(s.width) && ToNumber(parts[1]) == Num(s.height);
    }
  }

  /**
   * No size validation: "WxHx…" is refused by the newer version but the older one reads the
   * first two numbers and ignores the rest.
   */
  lemma OldIgnoresExtraPieces(model: string, width: nat, height: nat, rest: string)
    requires width > 0 && height > 0 && 'x' !in rest && !UsesAspectRatio(model)
    ensures var size := NatToString(width) + "x" + NatToString(height) + "x" + rest;
      && OldSizingOf(model, size) == Sized(ImageSize(width, height))
      && BuildRequestBody(model, "p", 1, size) == Failure(InvalidSizeFormat(size))
  {
    var w, h := NatToString(width), NatToString(height);
    var size := w + "x" + h + "x" + rest;
    assert forall i :: 0 <= i < |w| ==> IsDigit(w[i]);
    assert forall i :: 0 <= i < |h| ==> IsDigit(h[i]);
    assert 'x' !in w && 'x' !in h;
    assert JoinWith([w, h, rest], "x") == size by {
      assert [w, h, rest][1..] == [h, rest];
      assert [h, rest][1..] == [rest];
      assert JoinWith([rest], "x") == rest;
      assert JoinWith([h, rest], "x") == h + "x" + rest;
      AppendAssoc(w + "x", h + "x", rest);
      AppendAssoc(w + "x", h, "x");
    }
    SplitJoin([w, h, rest], 'x');
  }

  /** The older body agrees with the newer one on a "WxH" text of two positive numbers. */
  lemma OldSizingOfText(model: string, width: nat, height: nat)
    requires width > 0 && height > 0
    ensures OldSizingOf(model, NatToString(width) + "x" + NatToString(height))
      == Sized(if UsesAspectRatio(model) then AspectRatio(AspectRatioText(width, height)) else ImageSize(width, height))
  {
    var size := NatToString(width) + "x" + NatToString(height);
    ParseSizeOfText(width, height);
    OldBodyAgreesOnValidSizes(model, "", 1, size);
  }

  /** The size the chat route asks for, and the image route's default. */
  const ChatImageSize: string := "1024x1024"

  lemma ChatImageSizeText()
    ensures NatToString(1024) + "x" + NatToString(1024) == ChatImageSize
  {
    assert NatToString(1024) == "1024" by {
      assert NatToString(1) == "1";
      assert NatToString(10) == "10";
      assert NatToString(102) == "102";
    }
  }

  /** The size the chat route passes: "1024x1024" is a 1:1 ratio or 1024 by 1024. */
  lemma FixedChatSize(model: string)
    ensures OldSizingOf(model, ChatImageSize) == Sized(if UsesAspectRatio(model) then AspectRatio("1:1") else ImageSize(1024, 1024))
  {
    ChatImageSizeText();
    OldSizingOfText(model, 1024, 1024);
    AspectRatioExamples();
  }

  /** The `if (size)` block of the older `generateImage`, which sets one of the two size fields. */
  method OldBuildBody(model: string, prompt: string, numImages: int, size: string) returns (requestBody: OldRequestBody)
    ensures requestBody == OldBuildRequestBody(model, prompt, numImages, size)
  {
    requestBody := OldRequestBody(prompt, numImages, None);
    if size != "" {
      var parts := Split(size, 'x');
      if |parts| < 2 {
        requestBody := requestBody.(sizing := Some(Unchecked(size)));
        return;
      }
      var width := ToNumber(parts[0]);
      var height := ToNumber(parts[1]);
      if width.NaN? || height.NaN? {
        requestBody := requestBody.(sizing := Some(Unchecked(size)));
      } else if model == "flux-1.1-ultra" || model == "ideogram-v2" {
        var divisor := Gcd(width.value, height.value);
        if divisor == 0 {
          requestBody := requestBody.(sizing := Some(Unchecked(size)));
        } else {
          requestBody := requestBody.(sizing := Some(Sized(AspectRatio(NatToString(width.value / divisor) + ":" + NatToString(height.value / divisor)))));
        }
      } else {
        requestBody := requestBody.(sizing := Some(Sized(ImageSize(width.value, height.value))));
      }
    }
  }

  // ---------------------------------------------------------------------------
  // The older poll loop
  // ---------------------------------------------------------------------------

  /** The reply to the result fetch after COMPLETED; this version sets no timeouts. */
  datatype OldResultFetch =
    | OldResultThrew(message: string)
    | OldResultNotOk(body: string)
    | OldResultOk(images: Option<seq<ImageEntry>>)

  /** The reply to one status poll. */
  datatype OldPollOutcome =
    | OldStatusThrew(message: string)
    | OldStatusNotOk(body: string)
    | OldStatusOk(state: string, error: Option<string>, result: OldResultFetch)

  const OldMaxAttempts: nat := 60
  const OldDelay: nat := 1000

  /** One attempt: every non-ok reply ends the job; only a pending status sleeps and goes on. */
  function OldPollStep(outcome: OldPollOutcome): Step {
    match outcome
    case OldStatusThrew(message) => Finish(Failure(Thrown(message)))
    case OldStatusNotOk(body) => Finish(Failure(StatusCheckFailed(body)))
    case OldStatusOk(status, error, result) =>
      if status == "COMPLETED" then
        match result
        case OldResultThrew(message) => Finish(Failure(Thrown(message)))
        case OldResultNotOk(body) => Finish(Failure(ResultFetchFailed(body)))
        case OldResultOk(images) =>
          if images.Some? && |images.value| > 0 then Finish(Success(WithUrls(images.value)))
          else Finish(Failure(NoImagesFound))
      else if status == "FAILED" then Finish(Failure(RequestFailed(FailureReason(error))))
      else Retry(true)
  }

  predicate Pending(outcome: OldPollOutcome) {
    outcome.OldStatusOk? && outcome.state != "COMPLETED" && outcome.state != "FAILED"
  }

  function OldPollFrom(net: nat -> OldPollOutcome, attempt: nat): PollRun
    decreases OldMaxAttempts - attempt
  {
    if attempt >= OldMaxAttempts then PollRun(Failure(OldTimedOut), attempt, [])
    else
      match OldPollStep(net(attempt))
      case Finish(result) => PollRun(result, attempt + 1, [])
      case Retry(_) => WithSleeps([OldDelay], OldPollFrom(net, attempt + 1))
  }

  /**
   * Old poll loop: at most 60 polls, a fixed 1000 ms sleep after each pending one and after no
   * other, and the timeout only once all 60 were pending.
   */
  lemma {:induction false} OldPollBounds(net: nat -> OldPollOutcome, attempt: nat)
    requires attempt <= OldMaxAttempts
    ensures var run := OldPollFrom(net, attempt);
      && attempt <= run.polls <= OldMaxAttempts
      && (forall i :: 0 <= i < |run.sleeps| ==> run.sleeps[i] == OldDelay)
      && (run.result == Failure(OldTimedOut) ==> run.polls == OldMaxAttempts && |run.sleeps| == OldMaxAttempts - attempt)
      && (run.result != Failure(OldTimedOut) ==> |run.sleeps| + 1 == run.polls - attempt)
    decreases OldMaxAttempts - attempt
  {
    if attempt < OldMaxAttempts {
      match OldPollStep(net(attempt))
      case Finish(result) =>
        assert result != Failure(OldTimedOut);
      case Retry(_) =>
        OldPollBounds(net, attempt + 1);
    }
  }

  /** A job that stays pending is polled 60 times, sleeps 1000 ms after each poll, and times out. */
  lemma {:induction false} AlwaysPendingTimesOut(net: nat -> OldPollOutcome, attempt: nat)
    requires attempt <= OldMaxAttempts
    requires forall i :: Pending(net(i))
    ensures OldPollFrom(net, attempt) == PollRun(Failure(OldTimedOut), OldMaxAttempts, seq(OldMaxAttempts - attempt, _ => OldDelay))
    decreases OldMaxAttempts - attempt
  {
    if attempt < OldMaxAttempts {
      assert Pending(net(attempt));
      AlwaysPendingTimesOut(net, attempt + 1);
      assert [OldDelay] + seq(OldMaxAttempts - (attempt + 1), _ => OldDelay) == seq(OldMaxAttempts - attempt, _ => OldDelay);
    }
  }

  /** Any non-ok status reply is fatal at once, 429 and 5xx included: no sleep, no further poll. */
  lemma OldStatusErrorIsFatal(net: nat -> OldPollOutcome, attempt: nat, body: string)
    requires attempt < OldMaxAttempts && net(attempt) == OldStatusNotOk(body)
    ensures OldPollFrom(net, attempt) == PollRun(Failure(StatusCheckFailed(body)), attempt + 1, [])
  {
  }

  /** A FAILED status throws with the reported error, "Unknown error" when it is missing or empty. */
  lemma OldFailedStatus(net: nat -> OldPollOutcome, attempt: nat, error: Option<string>, result: OldResultFetch)
    requires attempt < OldMaxAttempts && net(attempt) == OldStatusOk("FAILED", error, result)
    ensures OldPollFrom(net, attempt).result == Failure(RequestFailed(if error.Some? && error.value != "" then error.value else "Unknown error"))
  {
  }

  /** A successful poll returns only entries that carry a URL. */
  lemma {:induction false} OldPollSuccessHasUrls(net: nat -> OldPollOutcome, attempt: nat)
    ensures var run := OldPollFrom(net, attempt);
      run.result.Success? ==> forall i :: 0 <= i < |run.result.value| ==> HasUrl(run.result.value[i])
    decreases OldMaxAttempts - attempt
  {
    if attempt < OldMaxAttempts {
      match OldPollStep(net(attempt))
      case Finish(_) =>
      case Retry(_) =>
        OldPollSuccessHasUrls(net, attempt + 1);
    }
  }

  // ---------------------------------------------------------------------------
  // The older job
  // ---------------------------------------------------------------------------

  datatype OldSubmitRequest = OldSubmitRequest(url: string, body: OldRequestBody)

  /** What a call of the older `generateImage` returns or throws, what it submitted, and how it polled. */
  datatype OldImageRun = OldImageRun(
    result: Result<seq<ImageEntry>, ImageError>,
    submitted: OldSubmitRequest,
    job: Option<JobUrls>,
    polls: nat,
    sleeps: seq<nat>)

  function OldImageJob(model: string, prompt: string, numImages: int, size: string, submit: SubmitOutcome, net: nat -> OldPollOutcome): OldImageRun {
    var urls := ModelUrlsFor(model);
    var sent := OldSubmitRequest(urls.submitUrl, OldBuildRequestBody(model, prompt, numImages, size));
    match submit
    case SubmitThrew(message) => OldImageRun(Failure(Thrown(message)), sent, None, 0, [])
    case SubmitNotOk(status, body) => OldImageRun(Failure(SubmitFailed(status, body)), sent, None, 0, [])
    case SubmitOk(id) =>
      if id.None? || id.value == "" then OldImageRun(Failure(MissingRequestId), sent, None, 0, [])
      else
        var run := OldPollFrom(net, 0);
        OldImageRun(run.result, sent, Some(JobUrls(StatusUrl(urls.statusBaseUrl, id.value), ResultUrl(urls.statusBaseUrl, id.value))),
                    run.polls, run.sleeps)
  }

  /** The older `generateImage(model, prompt, numImages, size)`. */
  method OldGenerateImage(model: string, prompt: string, numImages: int, size: string, submit: SubmitOutcome, net: nat -> OldPollOutcome)
    returns (run: OldImageRun)
    ensures run == OldImageJob(model, prompt, numImages, size, submit, net)
  {
    var modelUrls := if model in ImageModelUrls then ImageModelUrls[model] else ImageModelUrls[FallbackModel];
    var requestBody := OldBuildBody(model, prompt, numImages, size);
    var sent := OldSubmitRequest(modelUrls.submitUrl, requestBody);
    match submit {
      case SubmitThrew(message) =>
        return OldImageRun(Failure(Thrown(message)), sent, None, 0, []);
      case SubmitNotOk(status, errorText) =>
        return OldImageRun(Failure(SubmitFailed(status, errorText)), sent, None, 0, []);
      case SubmitOk(requestId) =>
        if requestId.None? || requestId.value == "" {
          return OldImageRun(Failure(MissingRequestId), sent, None, 0, []);
        }
        var job := JobUrls(StatusUrl(modelUrls.statusBaseUrl, requestId.value), ResultUrl(modelUrls.statusBaseUrl, requestId.value));
        var result, polls, sleeps := OldPollStatus(net);
        run := OldImageRun(result, sent, Some(job), polls, sleeps);
    }
  }

  /** The `for (attempt ...)` loop of the older `generateImage`. */
  method OldPollStatus(net: nat -> OldPollOutcome) returns (result: Result<seq<ImageEntry>, ImageError>, polls: nat, sleeps: seq<nat>)
    ensures PollRun(result, polls, sleeps) == OldPollFrom(net, 0)
  {
    sleeps := [];
    for attempt := 0 to OldMaxAttempts
      invariant WithSleeps(sleeps, OldPollFrom(net, attempt)) == OldPollFrom(net, 0)
    {
      match OldPollStep(net(attempt)) {
        case Finish(r) =>
          return r, attempt + 1, sleeps;
        case Retry(_) =>
          sleeps := sleeps + [OldDelay];
      }
    }
    return Failure(OldTimedOut), OldMaxAttempts, sleeps;
  }

  /** The older job agrees with the newer one up to the submit: an unknown model also goes to flux-dev. */
  lemma OldJobSubmits(model: string, prompt: string, numImages: int, size: string, submit: SubmitOutcome, net: nat -> OldPollOutcome)
    ensures var run := OldImageJob(model, prompt, numImages, size, submit, net);
      && run.submitted.url == ModelUrlsFor(model).submitUrl
      && (submit.SubmitNotOk? ==> run.result == Failure(SubmitFailed(submit.status, submit.body)) && run.job.None? && run.polls == 0)
      && (submit.SubmitOk? && submit.requestId.Some? && submit.requestId.value != "" ==>
            run.job == Some(JobUrls(ModelUrlsFor(model).statusBaseUrl + "/requests/" + submit.requestId.value + "/status",
                                    ModelUrlsFor(model).statusBaseUrl + "/requests/" + submit.requestId.value)))
  {
  }

  // ---------------------------------------------------------------------------
  // Markdown answer of the chat route for image models
  // ---------------------------------------------------------------------------

  /** `${img.url}` of an entry; every entry the older job returns has one. */
  function UrlText(img: ImageEntry): string {
    if img.url.Some? then img.url.value else "undefined"
  }

  /** `![Generated Image ${n}](${url})`. */
  function ImageLink(n: nat, img: ImageEntry): string {
    "![Generated Image " + NatToString(n) + "](" + UrlText(img) + ")"
  }

  /** The link of each image, numbered from 1. */
  function ImageLinks(imageUrls: seq<ImageEntry>): (links: seq<string>)
    ensures |links| == |imageUrls|
    ensures forall i :: 0 <= i < |imageUrls| ==> links[i] == ImageLink(i + 1, imageUrls[i])
  {
    seq(|imageUrls|, i requires 0 <= i < |imageUrls| => ImageLink(i + 1, imageUrls[i]))
  }

  /** The content: the links with a blank line between consecutive ones. */
  function MarkdownContent(imageUrls: seq<ImageEntry>): string {
    JoinWith(ImageLinks(imageUrls), "\n\n")
  }

  /** One more image adds a blank line and its link, numbered after the others; the first link stands alone. */
  lemma MarkdownSnoc(imageUrls: seq<ImageEntry>, img: ImageEntry)
    ensures MarkdownContent(imageUrls + [img]) ==
      if imageUrls == [] then ImageLink(1, img) else MarkdownContent(imageUrls) + "\n\n" + ImageLink(|imageUrls| + 1, img)
  {
    assert ImageLinks(imageUrls + [img]) == ImageLinks(imageUrls) + [ImageLink(|imageUrls| + 1, img)];
    JoinWithSnoc(ImageLinks(imageUrls), ImageLink(|imageUrls| + 1, img), "\n\n");
  }

  /** The `forEach` that builds the content: "\n\n" before every link but the first. */
  method BuildMarkdown(imageUrls: seq<ImageEntry>) returns (content: string)
    ensures content == MarkdownContent(imageUrls)
  {
    content := "";
    MarkdownOfNone();
    for i := 0 to |imageUrls|
      invariant content == MarkdownContent(imageUrls[..i])
    {
      var link := ImageLink(i + 1, imageUrls[i]);
      MarkdownPrefixStep(imageUrls, i);
      if i > 0 {
        content := content + "\n\n" + link;
      } else {
        content := link;
      }
    }
    assert imageUrls[..|imageUrls|] == imageUrls;
  }

  /** `MarkdownSnoc` for the loop's prefixes. */
  lemma MarkdownPrefixStep(imageUrls: seq<ImageEntry>, i: nat)
    requires i < |imageUrls|
    ensures i == 0 ==> MarkdownContent(imageUrls[..1]) == ImageLink(1, imageUrls[0])
    ensures i > 0 ==> MarkdownContent(imageUrls[..i + 1]) == MarkdownContent(imageUrls[..i]) + "\n\n" + ImageLink(i + 1, imageUrls[i])
  {
    assert imageUrls[..i + 1] == imageUrls[..i] + [imageUrls[i]];
    MarkdownSnoc(imageUrls[..i], imageUrls[i]);
  }

  /** Image Markdown content: one image gives its link alone, two give both links around a blank line. */
  lemma MarkdownExamples(a: ImageEntry, b: ImageEntry)
    ensures MarkdownContent([a]) == ImageLink(1, a)
    ensures MarkdownContent([a, b]) == ImageLink(1, a) + "\n\n" + ImageLink(2, b)
  {
    assert ImageLinks([a]) == [ImageLink(1, a)];
    assert ImageLinks([a, b]) == [ImageLink(1, a), ImageLink(2, b)];
    assert [ImageLink(1, a), ImageLink(2, b)][1..] == [ImageLink(2, b)];
    assert JoinWith([ImageLink(2, b)], "\n\n") == ImageLink(2, b);
  }

  /** No images, no content. */
  lemma MarkdownOfNone()
    ensures MarkdownContent([]) == ""
  {
    assert ImageLinks([]) == [];
  }

  // ---------------------------------------------------------------------------
  // The chat route
  // ---------------------------------------------------------------------------

  /** The usage block of the image answer: character counts. */
  datatype Usage = Usage(promptTokens: nat, completionTokens: nat, totalTokens: nat)

  /** One `data:` line of the streamed image answer. */
  datatype ImageChunk =
    | StartChunk                       // delta {role: "assistant"}
    | MarkdownChunk(content: string)   // delta {content}
    | StopChunk                        // empty delta, finish_reason "stop"
    | DoneLine                         // [DONE]

  datatype ServerChatReply =
    | Invalid(reply: ErrorReply)                        // 400 with an OpenAI error object
    | MissingParameters                                 // 400 {error: "Missing or invalid parameters: ..."}
    | ImageStreamed(model: string, chunks: seq<ImageChunk>)
    | ImageCompleted(model: string, content: string, usage: Usage)
    | ImageFailed(reply: ErrorReply)                    // 500 image_generation_error
    | Streamed(input: CC.FalInput, writes: seq<StreamWrite>)
    | Completed(input: CC.FalInput, completion: ChatCompletion)
    | FalAiError(message: string)                       // 500 {object: "error", type: "fal_ai_error"}
    | ProxyFailure(details: string)                     // 500 {error: "Internal Server Error in Proxy", details}
    | Unhandled(message: string)                        // the handler throws before answering

  /**
   * The two model lists the routes consult. The routes take them as a value so that their
   * properties are stated for any lists; `Models` is this file's pair.
   */
  datatype Catalog = Catalog(chat: seq<string>, image: seq<string>)

  const Models: Catalog := Catalog(SupportedModels, ImageModels)

  /** The text of a model field in a template string. */
  function ModelText(model: Option<string>): string {
    if model.Some? then model.value else "undefined"
  }

  function UnsupportedChatModel(model: Option<string>, catalog: Catalog): ErrorReply {
    InvalidRequest("Model '" + ModelText(model) + "' is not a supported chat model. Please use one of: " + JoinWith(catalog.chat, ", "),
                   "model", "model_not_found")
  }

  /** What fal's stream and `fal.subscribe` do in a chat request, and the older image job's replies. */
  datatype ServerUpstream = ServerUpstream(chat: CC.ChatUpstream, submit: SubmitOutcome, poll: nat -> OldPollOutcome)

  /** `POST /v1/chat/completions` of this file: image models first, then the chat checks. */
  function ChatCompletionRoute(req: CC.ChatRequest, catalog: Catalog, up: ServerUpstream): ServerChatReply {
    if req.model.Some? && req.model.value in catalog.image then ImageRoute(req.model.value, req, up)
    else ChatRoute(req, catalog, up)
  }

  /**
   * The image branch: the last user message is the prompt of one 1024x1024 image from the older
   * job. A non-array that passes the length test has no `filter`, and the call throws.
   */
  function ImageRoute(model: string, req: CC.ChatRequest, up: ServerUpstream): ServerChatReply {
    var prompt := CC.ImagePrompt(req.messages);
    if req.messages.SizedNonArray? then Unhandled(CC.NoFilterError)
    else if prompt.None? || prompt.value == "" then Invalid(CC.NoImagePrompt)
    else ImageAnswer(model, prompt.value, req.stream, OldImageJob(model, prompt.value, 1, ChatImageSize, up.submit, up.poll).result)
  }

  /** The chat branch: the chat list, then the model and the messages, then the `try` block. */
  function ChatRoute(req: CC.ChatRequest, catalog: Catalog, up: ServerUpstream): ServerChatReply {
    if req.model.None? || req.model.value !in catalog.chat then Invalid(UnsupportedChatModel(req.model, catalog))
    else if req.model.value == "" || !req.messages.List? || |req.messages.messages| == 0 then MissingParameters
    else
      var packed := PackedPromptOf(req.messages.messages, SystemPromptLimit, PromptLimit);
      ChatAnswer(CC.FalInputOf(req.model.value, packed, req.reasoning), req.stream, up.chat)
  }

  /** The answer for an image model once the older job returned or threw. */
  function ImageAnswer(model: string, prompt: string, stream: bool, result: Result<seq<ImageEntry>, ImageError>): ServerChatReply {
    match result
    case Failure(e) => ImageFailed(IC.GenerationFailed(ErrorMessage(e)))
    case Success(imageUrls) =>
      var content := MarkdownContent(imageUrls);
      if stream then ImageStreamed(model, [StartChunk, MarkdownChunk(content), StopChunk, DoneLine])
      else ImageCompleted(model, content, Usage(|prompt|, |content|, |prompt| + |content|))
  }

  /**
   * The `try` block of the chat branch. When `fal.stream` rejects, the headers are already
   * flushed, so the response is ended without a line; a broken stream is handled as in the
   * service, without rethrowing.
   */
  function ChatAnswer(input: CC.FalInput, stream: bool, up: CC.ChatUpstream): ServerChatReply {
    if stream then
      match up.stream
      case Failure(_) => Streamed(input, [])
      case Success(events) => Streamed(input, StreamWrites(events, ""))
    else
      match up.subscribe
      case Failure(message) => ProxyFailure(message)
      case Success(result) =>
        match HandleNonStreamResponse(result, input.model)
        case Failure(message) => FalAiError(message)
        case Success(completion) => Completed(input, completion)
  }

  /**
   * Chat route order, first step: an image model is answered by the image branch whatever the
   * messages are. A non-array `messages` with a positive length throws; otherwise a falsy last
   * user prompt gives 400 parameter_invalid, and nothing else but an image answer comes from
   * this branch.
   */
  lemma ImageModelsFirst(req: CC.ChatRequest, catalog: Catalog, up: ServerUpstream)
    requires req.model.Some? && req.model.value in catalog.image
    ensures var reply := ChatCompletionRoute(req, catalog, up);
      var prompt := CC.ImagePrompt(req.messages);
      && (req.messages.SizedNonArray? <==> reply == Unhandled("messages.filter is not a function"))
      && (!req.messages.SizedNonArray? ==> (prompt.None? || prompt.value == "" <==> reply == Invalid(CC.NoImagePrompt)))
      && (reply.ImageStreamed? || reply.ImageCompleted? || reply.ImageFailed? || reply == Invalid(CC.NoImagePrompt) || reply.Unhandled?)
  {
    assert ChatCompletionRoute(req, catalog, up) == ImageRoute(req.model.value, req, up);
  }

  /** Second step: a model in neither list is refused as model_not_found, messages unchecked. */
  lemma ChatModelCheckedSecond(req: CC.ChatRequest, catalog: Catalog, up: ServerUpstream)
    requires req.model.None? || (req.model.value !in catalog.image && req.model.value !in catalog.chat)
    ensures ChatCompletionRoute(req, catalog, up) == Invalid(UnsupportedChatModel(req.model, catalog))
    ensures ChatCompletionRoute(req, catalog, up).reply.status == 400
    ensures ChatCompletionRoute(req, catalog, up).reply.body.code == Text("model_not_found")
  {
    assert ChatCompletionRoute(req, catalog, up) == ChatRoute(req, catalog, up);
  }

  /** Third step: for a chat model, an empty model name and missing, non-array or empty messages are refused, and only those. */
  lemma MessagesCheckedLast(req: CC.ChatRequest, catalog: Catalog, up: ServerUpstream)
    requires req.model.Some? && req.model.value in catalog.chat && req.model.value !in catalog.image
    ensures ChatCompletionRoute(req, catalog, up) == MissingParameters <==>
      req.model.value == "" || !req.messages.List? || |req.messages.messages| == 0
  {
    assert ChatCompletionRoute(req, catalog, up) == ChatRoute(req, catalog, up);
    if req.model.value != "" && req.messages.List? && |req.messages.messages| > 0 {
      var packed := PackedPromptOf(req.messages.messages, SystemPromptLimit, PromptLimit);
      ChatAnswerKeepsInput(CC.FalInputOf(req.model.value, packed, req.reasoning), req.stream, up.chat);
    }
  }

  /** With this file's lists, no chat model is taken by the image branch, and imagen3 is in neither list. */
  lemma ServerLists(m: string)
    ensures m in Models.chat ==> m !in Models.image
    ensures "imagen3" !in Models.chat && "imagen3" !in Models.image
  {
    if m in SupportedModels {
      ModelListsDisjoint(m);
    }
    if "imagen3" in SupportedModels {
      ChatModelInitial("imagen3");
    }
  }

  /** A valid chat request is packed with this file's limits and answered by the `try` block. */
  lemma ChatRequestPacked(req: CC.ChatRequest, catalog: Catalog, up: ServerUpstream)
    requires req.model.Some? && req.model.value in catalog.chat && req.model.value !in catalog.image
    requires req.model.value != "" && req.messages.List? && |req.messages.messages| > 0
    ensures ChatCompletionRoute(req, catalog, up)
      == ChatAnswer(CC.FalInputOf(req.model.value, PackedPromptOf(req.messages.messages, SystemPromptLimit, PromptLimit), req.reasoning),
                    req.stream, up.chat)
  {
    assert ChatCompletionRoute(req, catalog, up) == ChatRoute(req, catalog, up);
  }

  /** The input sent to fal carries the model, the reasoning flag and the packed texts, the prompt within 4800 characters. */
  lemma PackedInput(model: string, messages: seq<Message>, reasoning: bool)
    ensures var packed := PackedPromptOf(messages, SystemPromptLimit, PromptLimit);
      var input := CC.FalInputOf(model, packed, reasoning);
      && input == CC.FalInput(model, packed.prompt, if packed.system_prompt != "" then Some(packed.system_prompt) else None, reasoning)
      && |input.prompt| <= PromptLimit
  {
    PromptWithinLimit(messages, SystemPromptLimit, PromptLimit);
  }

  /**
   * The `try` block answers with the input it was given, or with one of the server's 500s:
   * a fal error in the result, or a rejected `fal.subscribe`.
   */
  lemma ChatAnswerKeepsInput(input: CC.FalInput, stream: bool, up: CC.ChatUpstream)
    ensures var reply := ChatAnswer(input, stream, up);
      && (reply.Streamed? || reply.Completed? || reply.FalAiError? || reply.ProxyFailure?)
      && (reply.Streamed? || reply.Completed? ==> reply.input == input)
      && (stream <==> reply.Streamed?)
      && (reply.FalAiError? <==> !stream && up.subscribe.Success? && up.subscribe.value.error.Some?)
      && (stream && up.stream.Failure? ==> reply == Streamed(input, []))
      && (stream && up.stream.Success? ==> reply == Streamed(input, StreamWrites(up.stream.value, "")))
      && (!stream && up.subscribe.Failure? ==> reply == ProxyFailure(up.subscribe.error))
      && (reply.FalAiError? ==> reply.message == "Fal-ai error: " + up.subscribe.value.error.value)
      && (!stream && up.subscribe.Success? && up.subscribe.value.error.None? ==>
            && reply == Completed(input, reply.completion)
            && reply.completion.model == input.model
            && reply.completion.content == up.subscribe.value.output.GetOr("")
            && reply.completion.finishReason == "stop"
            && reply.completion.falReasoning == (if up.subscribe.value.reasoning.Some? && up.subscribe.value.reasoning.value != "" then up.subscribe.value.reasoning else None))
  {
  }

  /**
   * The image answer: streamed, a role chunk, the Markdown content, a stop chunk and [DONE];
   * otherwise the content with usage counted in characters; a thrown job gives a 500.
   */
  lemma ImageAnswerShape(model: string, prompt: string, stream: bool, result: Result<seq<ImageEntry>, ImageError>)
    ensures var reply := ImageAnswer(model, prompt, stream, result);
      && (result.Failure? <==> reply.ImageFailed?)
      && (result.Failure? ==> reply.reply.status == 500 && reply.reply.body.code == Text("image_generation_error"))
      && (result.Success? && stream ==>
            reply.chunks == [StartChunk, MarkdownChunk(MarkdownContent(result.value)), StopChunk, DoneLine])
      && (result.Success? && !stream ==>
            && reply.content == MarkdownContent(result.value)
            && reply.usage.promptTokens == |prompt| && reply.usage.completionTokens == |reply.content|
            && reply.usage.totalTokens == reply.usage.promptTokens + reply.usage.completionTokens)
  {
  }

  /** The chat route asks the older job for one image of size 1024x1024, whatever the request's own n and size. */
  lemma ImageBranchRequest(req: CC.ChatRequest, catalog: Catalog, up: ServerUpstream)
    requires req.model.Some? && req.model.value in catalog.image
    requires CC.ImagePrompt(req.messages).Some? && CC.ImagePrompt(req.messages).value != ""
    ensures var model, prompt := req.model.value, CC.ImagePrompt(req.messages).value;
      ChatCompletionRoute(req, catalog, up) == ImageAnswer(model, prompt, req.stream, OldImageJob(model, prompt, 1, ChatImageSize, up.submit, up.poll).result)
    ensures OldBuildRequestBody(req.model.value, CC.ImagePrompt(req.messages).value, 1, ChatImageSize).sizing
      == Some(Sized(if UsesAspectRatio(req.model.value) then AspectRatio("1:1") else ImageSize(1024, 1024)))
  {
    assert ChatCompletionRoute(req, catalog, up) == ImageRoute(req.model.value, req, up);
    FixedChatSize(req.model.value);
  }

  // ---------------------------------------------------------------------------
  // The image route
  // ---------------------------------------------------------------------------

  /** The fields of an image request; absent `model`, `n` and `size` take their defaults. */
  datatype ImageRequest = ImageRequest(model: Option<string>, prompt: Option<string>, n: Option<int>, size: Option<string>)

  datatype ServerImageReply =
    | ImageRejected(reply: ErrorReply)
    | ImageList(model: string, data: seq<ImageEntry>)   // {created, data, model}

  function UnsupportedImageModel(model: string, catalog: Catalog): ErrorReply {
    InvalidRequest("Model '" + model + "' is not a supported image model. Please use one of: " + JoinWith(catalog.image, ", "),
                   "model", "model_not_found")
  }

  /** `POST /v1/images/generations` of this file: the prompt check, then the model check, then the older job. */
  function ImageGenerationRoute(req: ImageRequest, catalog: Catalog, submit: SubmitOutcome, net: nat -> OldPollOutcome): ServerImageReply {
    var model := req.model.GetOr(FallbackModel);
    if req.prompt.None? || req.prompt.value == "" then ImageRejected(IC.PromptRequired)
    else if model !in catalog.image then ImageRejected(UnsupportedImageModel(model, catalog))
    else
      var run := OldImageJob(model, req.prompt.value, req.n.GetOr(1), req.size.GetOr(ChatImageSize), submit, net);
      match run.result
      case Failure(e) => ImageRejected(IC.GenerationFailed(ErrorMessage(e)))
      case Success(imageUrls) => ImageList(model, imageUrls)
  }

  /** The image route checks the prompt before the model, lists only URL-bearing entries, and answers a throw with a 500. */
  lemma ImageRouteOrder(req: ImageRequest, catalog: Catalog, submit: SubmitOutcome, net: nat -> OldPollOutcome)
    ensures var reply := ImageGenerationRoute(req, catalog, submit, net);
      && (req.prompt.None? || req.prompt.value == "" ==> reply == ImageRejected(IC.PromptRequired))
      && (req.prompt.Some? && req.prompt.value != "" && req.model.GetOr(FallbackModel) !in catalog.image ==>
            reply.ImageRejected? && reply.reply.status == 400 && reply.reply.body.code == Text("model_not_found"))
      && (reply.ImageRejected? && reply.reply.status == 500 ==> reply.reply.body.code == Text("image_generation_error"))
      && (reply.ImageList? ==> reply.model in catalog.image && forall i :: 0 <= i < |reply.data| ==> HasUrl(reply.data[i]))
  {
    OldPollSuccessHasUrls(net, 0);
  }
}
