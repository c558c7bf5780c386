/**
 * `handleImageGeneration` (src/controllers/imageController.js): check the prompt, then the model,
 * run the image job, and answer with four server-sent events or with the `data` list; a job that
 * throws becomes a 500 error body. Timestamps and ids of the events are not modelled.
 */
module ImageController {
  import opened Wrappers
  import opened Text
  import opened Api
  import opened ImageService

  const DefaultModel: string := "flux-dev"

  /** The controller's own list of image models; it includes imagen3, which the service maps to flux-dev. */
  const SupportedModels: seq<string> := ["flux-1.1-ultra", "recraft-v3", "flux-1.1-pro", "ideogram-v2", "flux-dev", "imagen3"]

  /** The fields of the request body the controller reads; `None` is an undefined field. */
  datatype ImageRequest = ImageRequest(model: Option<string>, prompt: Option<string>, n: Option<int>, size: Option<string>, stream: bool)

  /** What the controller sees `generateImage` resolve with. */
  datatype Generated = Undefined | NotArray | Images(images: seq<ImageEntry>)

  /** One `data:` line of the streamed answer. */
  datatype ImageWrite =
    | RoleStart(model: string)                    // delta {role: "assistant"}, finish_reason null
    | ContentEvent(model: string, content: string) // delta {role: "assistant", content}, finish_reason null
    | EndEvent(model: string)                     // delta {}, finish_reason "stop"
    | DoneLine                                    // [DONE]

  datatype ImageReply =
    | Rejected(reply: ErrorReply)
    | Streamed(writes: seq<ImageWrite>)
    | ImageList(data: seq<ImageEntry>, model: string)

  /**
   * The world a request runs against: the queue's replies, and the WHATWG `URL` constructor as a
   * function giving the normalised `toString()` of a URL it accepts and `None` where it throws.
   */
  datatype ImageUpstream = ImageUpstream(submit: SubmitOutcome, poll: nat -> PollOutcome, parseUrl: string -> Option<string>)

  const PromptRequired: ErrorReply := InvalidRequest("prompt is required", "prompt", "parameter_required")

  function UnsupportedModel(model: string): ErrorReply {
    InvalidRequest("Model '" + model + "' is not a supported image model. Please use one of: " + JoinWith(SupportedModels, ", "),
                   "model", "model_not_found")
  }

  const DefaultGenerationError: string := "An error occurred during image generation"

  function GenerationFailed(message: string): ErrorReply {
    ErrorReply(500, ErrorBody(if message != "" then message else DefaultGenerationError, "server_error", Null, Text("image_generation_error")))
  }

  // ---------------------------------------------------------------------------
  // Content of the streamed answer
  // ---------------------------------------------------------------------------

  /** The text the `map` callback returns for the image at index `i`. */
  function EntryText(img: ImageEntry, i: nat, parseUrl: string -> Option<string>): string {
    if !HasUrl(img) then "Error: Invalid image URL at index " + NatToString(i)
    else
      match parseUrl(img.url.value)
      case None => "Error: Invalid URL format at index " + NatToString(i)
      case Some(href) => "![Generated Image " + NatToString(i + 1) + "](" + href + ")"
  }

  function EntryTexts(images: seq<ImageEntry>, parseUrl: string -> Option<string>): (texts: seq<string>)
    ensures |texts| == |images|
    ensures forall i :: 0 <= i < |images| ==> texts[i] == EntryText(images[i], i, parseUrl)
  {
    seq(|images|, i requires 0 <= i < |images| => EntryText(images[i], i, parseUrl))
  }

  const GenerationFailedText: string := "Image generation failed. Please try again."
  const InvalidFormatText: string := "Invalid response format. Please try again."

  function StreamContent(generated: Generated, parseUrl: string -> Option<string>): string {
    match generated
    case Undefined => GenerationFailedText
    case NotArray => InvalidFormatText
    case Images(images) => JoinWith(EntryTexts(images, parseUrl), "\n\n")
  }

  /** The non-stream `data`: the result when it is an array, otherwise `[]`. */
  function ListData(generated: Generated): seq<ImageEntry> {
    if generated.Images? then generated.images else []
  }

  // ---------------------------------------------------------------------------
  // The handler
  // ---------------------------------------------------------------------------

  function StreamEvents(model: string, content: string): seq<ImageWrite> {
    [RoleStart(model), ContentEvent(model, content), EndEvent(model), DoneLine]
  }

  /** The answer once the job has returned `result` or thrown. */
  function JobReply(model: string, stream: bool, result: Result<seq<ImageEntry>, ImageError>, parseUrl: string -> Option<string>): ImageReply {
    match result
    case Failure(e) => Rejected(GenerationFailed(ErrorMessage(e)))
    case Success(images) =>
      if stream then Streamed(StreamEvents(model, StreamContent(Images(images), parseUrl)))
      else ImageList(ListData(Images(images)), model)
  }

  function ImageResponse(req: ImageRequest, up: ImageUpstream): ImageReply {
    var model := req.model.GetOr(DefaultModel);
    if req.prompt.None? || req.prompt.value == "" then Rejected(PromptRequired)
    else if model !in SupportedModels then Rejected(UnsupportedModel(model))
    else
      var run := ImageJob(model, req.prompt.value, req.n.GetOr(1), req.size.GetOr("1024x1024"), up.submit, up.poll);
      JobReply(model, req.stream, run.result, up.parseUrl)
  }

  /** `handleImageGeneration(req, res)`, with every `res.write` of the streaming branch recorded in order. */
  method HandleImageGeneration(req: ImageRequest, up: ImageUpstream) returns (reply: ImageReply)
    ensures reply == ImageResponse(req, up)
  {
    var model := if req.model.Some? then req.model.value else DefaultModel;
    var n := if req.n.Some? then req.n.value else 1;
    var size := if req.size.Some? then req.size.value else "1024x1024";
    if req.prompt.None? || req.prompt.value == "" {
      return Rejected(PromptRequired);
    }
    if model !in SupportedModels {
      return Rejected(UnsupportedModel(model));
    }
    var run := GenerateImage(model, req.prompt.value, n, size, up.submit, up.poll);
    reply := AnswerJob(model, req.stream, run.result, up.parseUrl);
  }

  /** The part of the handler after `await generateImage(...)`. */
  method AnswerJob(model: string, stream: bool, result: Result<seq<ImageEntry>, ImageError>, parseUrl: string -> Option<string>)
    returns (reply: ImageReply)
    ensures reply == JobReply(model, stream, result, parseUrl)
  {
    if result.Failure? {
      return Rejected(GenerationFailed(ErrorMessage(result.error)));
    }
    var imageUrls := Images(result.value);
    if stream {
      var writes: seq<ImageWrite> := [];
      writes := writes + [RoleStart(model)];
      var content := StreamContent(imageUrls, parseUrl);
      writes := writes + [ContentEvent(model, content)];
      writes := writes + [EndEvent(model)];
      writes := writes + [DoneLine];
      reply := Streamed(writes);
    } else {
      reply := ImageList(ListData(imageUrls), model);
    }
  }

  // ---------------------------------------------------------------------------
  // Properties
  // ---------------------------------------------------------------------------

  /** Prompt first: a missing or empty prompt is a 400 parameter_required, whatever the model. */
  lemma PromptCheckedFirst(req: ImageRequest, up: ImageUpstream)
    requires req.prompt.None? || req.prompt.value == ""
    ensures ImageResponse(req, up) == Rejected(ErrorReply(400, ErrorBody("prompt is required", "invalid_request_error", Text("prompt"), Text("parameter_required"))))
  {
  }

  /**
   * Model check: with a prompt, the model (flux-dev when absent) must be one of the six, or the
   * answer is a 400 model_not_found naming it; the job only runs for a supported model.
   */
  lemma ModelChecked(req: ImageRequest, up: ImageUpstream)
    requires req.prompt.Some? && req.prompt.value != ""
    ensures var model := req.model.GetOr(DefaultModel);
      && (model !in SupportedModels ==>
            && ImageResponse(req, up).Rejected?
            && ImageResponse(req, up).reply.status == 400
            && ImageResponse(req, up).reply.body.code == Text("model_not_found")
            && ImageResponse(req, up).reply.body.param == Text("model")
            && ImageResponse(req, up).reply.body.message[..7 + |model|] == "Model '" + model)
      && (req.model.None? ==> model in SupportedModels)
      && (model in SupportedModels ==> ImageResponse(req, up) != Rejected(UnsupportedModel(model)))
  {
    var model := req.model.GetOr(DefaultModel);
    if model !in SupportedModels {
      assert ImageResponse(req, up) == Rejected(UnsupportedModel(model));
      UnsupportedModelNamesIt(model);
    } else {
      var run := ImageJob(model, req.prompt.value, req.n.GetOr(1), req.size.GetOr("1024x1024"), up.submit, up.poll);
      assert ImageResponse(req, up) == JobReply(model, req.stream, run.result, up.parseUrl);
      JobFailureIsServerError(model, req.stream, run.result, up.parseUrl);
    }
  }

  lemma UnsupportedModelNamesIt(model: string)
    ensures var r := UnsupportedModel(model);
      && r.status == 400 && r.body.code == Text("model_not_found") && r.body.param == Text("model")
      && r.body.message[..7 + |model|] == "Model '" + model
  {
    var rest := "' is not a supported image model. Please use one of: " + JoinWith(SupportedModels, ", ");
    assert UnsupportedModel(model).body.message == ("Model '" + model) + rest;
  }

  /** Once the job has run, a rejection is the 500 of the catch block. */
  lemma JobFailureIsServerError(model: string, stream: bool, result: Result<seq<ImageEntry>, ImageError>, parseUrl: string -> Option<string>)
    ensures JobReply(model, stream, result, parseUrl).Rejected? ==> JobReply(model, stream, result, parseUrl).reply.status == 500
  {
  }

  /** imagen3 passes the controller's check and is then submitted to the flux-dev endpoint. */
  lemma Imagen3SubmittedToFluxDev(prompt: string, n: int, size: string, submit: SubmitOutcome, poll: nat -> PollOutcome)
    requires BuildRequestBody("imagen3", prompt, n, size).Success?
    ensures "imagen3" in SupportedModels
    ensures ImageJob("imagen3", prompt, n, size, submit, poll).submitted.value.url == "https://queue.fal.run/fal-ai/flux/dev"
  {
    EndpointFallback("imagen3");
  }

  /**
   * Stream events: a successful streamed job writes exactly four lines, in order: the role start,
   * one content event, the end event with finish_reason "stop", then [DONE].
   */
  lemma StreamedFourWrites(req: ImageRequest, up: ImageUpstream)
    requires ImageResponse(req, up).Streamed?
    ensures var w := ImageResponse(req, up).writes;
      var model := req.model.GetOr(DefaultModel);
      && |w| == 4
      && w[0] == RoleStart(model) && w[1].ContentEvent? && w[2] == EndEvent(model) && w[3] == DoneLine
      && (forall i :: 0 <= i < 3 ==> w[i] != DoneLine)
      && req.stream
  {
  }

  /** Per-image content: the i-th entry is the Markdown image `![Generated Image i+1](url)` or one of the two error texts. */
  lemma EntryContent(images: seq<ImageEntry>, parseUrl: string -> Option<string>, i: nat)
    requires i < |images|
    ensures var t := EntryTexts(images, parseUrl)[i];
      var invalidUrl := "Error: Invalid image URL at index " + NatToString(i);
      var invalidFormat := "Error: Invalid URL format at index " + NatToString(i);
      && (!HasUrl(images[i]) <==> t == invalidUrl)
      && (HasUrl(images[i]) && parseUrl(images[i].url.value).None? <==> t == invalidFormat)
      && (HasUrl(images[i]) && parseUrl(images[i].url.value).Some? ==>
            t == "![Generated Image " + NatToString(i + 1) + "](" + parseUrl(images[i].url.value).value + ")")
  {
    var s := NatToString(i);
    assert ("Error: Invalid image URL at index " + s)[15] == 'i';
    assert ("Error: Invalid URL format at index " + s)[15] == 'U';
    if HasUrl(images[i]) && parseUrl(images[i].url.value).Some? {
      var href := parseUrl(images[i].url.value).value;
      assert ("![Generated Image " + NatToString(i + 1) + "](" + href + ")")[0] == '!';
    }
  }

  /** Two valid images are rendered as two Markdown images separated by a blank line. */
  lemma TwoImagesContent(a: string, b: string, parseUrl: string -> Option<string>)
    requires a != "" && b != "" && parseUrl(a) == Some(a) && parseUrl(b) == Some(b)
    ensures StreamContent(Images([ImageEntry(Some(a)), ImageEntry(Some(b))]), parseUrl)
      == "![Generated Image 1](" + a + ")" + "\n\n" + "![Generated Image 2](" + b + ")"
  {
    var images := [ImageEntry(Some(a)), ImageEntry(Some(b))];
    var texts := EntryTexts(images, parseUrl);
    TwoEntryTexts(images, texts, a, b, parseUrl);
    assert texts[1..] == [texts[1]];
    assert JoinWith(texts, "\n\n") == texts[0] + "\n\n" + texts[1];
  }

  lemma TwoEntryTexts(images: seq<ImageEntry>, texts: seq<string>, a: string, b: string, parseUrl: string -> Option<string>)
    requires a != "" && b != "" && parseUrl(a) == Some(a) && parseUrl(b) == Some(b)
    requires images == [ImageEntry(Some(a)), ImageEntry(Some(b))] && texts == EntryTexts(images, parseUrl)
    ensures |texts| == 2
    ensures texts[0] == "![Generated Image 1](" + a + ")" && texts[1] == "![Generated Image 2](" + b + ")"
  {
    assert NatToString(1) == "1" && NatToString(2) == "2";
    assert texts[0] == EntryText(images[0], 0, parseUrl);
    assert texts[1] == EntryText(images[1], 1, parseUrl);
  }

  /** Entries produced by the image service always carry a url, so "Invalid image URL" never appears for them. */
  lemma ServiceEntriesHaveUrls(model: string, prompt: string, n: int, size: string, up: ImageUpstream, i: nat)
    requires ImageJob(model, prompt, n, size, up.submit, up.poll).result.Success?
    requires i < |ImageJob(model, prompt, n, size, up.submit, up.poll).result.value|
    ensures var images := ImageJob(model, prompt, n, size, up.submit, up.poll).result.value;
      EntryTexts(images, up.parseUrl)[i] != "Error: Invalid image URL at index " + NatToString(i)
  {
    PollSuccessHasUrls(up.poll, 0, InitialDelay);
    var images := ImageJob(model, prompt, n, size, up.submit, up.poll).result.value;
    EntryContent(images, up.parseUrl, i);
  }

  /** Non-array results: fixed texts in the stream, and an empty `data` list without streaming. */
  lemma NonArrayResults(parseUrl: string -> Option<string>)
    ensures StreamContent(Undefined, parseUrl) == "Image generation failed. Please try again."
    ensures StreamContent(NotArray, parseUrl) == "Invalid response format. Please try again."
    ensures ListData(Undefined) == [] && ListData(NotArray) == []
    ensures forall images: seq<ImageEntry> :: ListData(Images(images)) == images
  {
  }

  /**
   * Errors: a job that throws after both checks passed gives a 500 image_generation_error with the
   * thrown message, or the default text when the message is empty; a non-streamed success lists
   * the images the job returned.
   */
  lemma JobOutcomeReply(req: ImageRequest, up: ImageUpstream)
    requires req.prompt.Some? && req.prompt.value != "" && req.model.GetOr(DefaultModel) in SupportedModels
    ensures var model := req.model.GetOr(DefaultModel);
      var run := ImageJob(model, req.prompt.value, req.n.GetOr(1), req.size.GetOr("1024x1024"), up.submit, up.poll);
      && (run.result.Failure? ==>
            var message := ErrorMessage(run.result.error);
            ImageResponse(req, up) == Rejected(ErrorReply(500, ErrorBody(
              if message == "" then "An error occurred during image generation" else message,
              "server_error", Null, Text("image_generation_error")))))
      && (run.result.Success? && !req.stream ==> ImageResponse(req, up) == ImageList(run.result.value, model))
      && (run.result.Success? && req.stream ==>
            ImageResponse(req, up).Streamed? && ImageResponse(req, up).writes[1] == ContentEvent(model, StreamContent(Images(run.result.value), up.parseUrl)))
  {
  }

  /** An invalid size is reported as a 500 carrying the size error, and nothing is submitted. */
  lemma InvalidSizeReply(req: ImageRequest, up: ImageUpstream)
    requires req.prompt.Some? && req.prompt.value != "" && req.model.GetOr(DefaultModel) in SupportedModels
    requires req.size == Some("1024")
    ensures ImageResponse(req, up) == Rejected(ErrorReply(500, ErrorBody(
      ErrorMessage(InvalidSizeFormat("1024")), "server_error", Null, Text("image_generation_error"))))
  {
    assert 'x' !in "1024";
    assert Split("1024", 'x') == ["1024"];
    assert ParseSize("1024") == Failure(InvalidSizeFormat("1024"));
    var model := req.model.GetOr(DefaultModel);
    assert BuildRequestBody(model, req.prompt.value, req.n.GetOr(1), "1024") == Failure(InvalidSizeFormat("1024"));
    assert ImageJob(model, req.prompt.value, req.n.GetOr(1), "1024", up.submit, up.poll).result == Failure(InvalidSizeFormat("1024"));
    assert ErrorMessage(InvalidSizeFormat("1024")) != "";
  }
}
