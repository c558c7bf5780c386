/**
 * The image job of src/services/imageService.js: pick the queue endpoints of a model, validate
 * the requested size, build the request body (a reduced aspect ratio for two models, explicit
 * dimensions otherwise), submit it, then poll the job's status with a capped backoff until it
 * completes, fails, or the attempts run out.
 *
 * The network is an input: the submit reply is one `SubmitOutcome`, and `net(i)` is what the
 * i-th status poll (and, when it reports COMPLETED, the result fetch after it) comes back with.
 * Sleeps are recorded as the delays they would wait.
 */
module ImageService {
  import opened Wrappers
  import opened Text

  // ---------------------------------------------------------------------------
  // Endpoints
  // ---------------------------------------------------------------------------

  datatype ModelUrls = ModelUrls(submitUrl: string, statusBaseUrl: string)

  /** The service's own endpoint table; unlike the model catalog it has no entry for imagen3. */
  const ImageModelUrls: map<string, ModelUrls> := map[
    "flux-1.1-ultra" := ModelUrls("https://queue.fal.run/fal-ai/flux-pro/v1.1-ultra", "https://queue.fal.run/fal-ai/flux-pro"),
    "recraft-v3" := ModelUrls("https://queue.fal.run/fal-ai/recraft-v3", "https://queue.fal.run/fal-ai/recraft-v3"),
    "flux-1.1-pro" := ModelUrls("https://queue.fal.run/fal-ai/flux-pro/v1.1", "https://queue.fal.run/fal-ai/flux-pro"),
    "ideogram-v2" := ModelUrls("https://queue.fal.run/fal-ai/ideogram/v2", "https://queue.fal.run/fal-ai/ideogram"),
    "flux-dev" := ModelUrls("https://queue.fal.run/fal-ai/flux/dev", "https://queue.fal.run/fal-ai/flux")
  ]

  const FallbackModel: string := "flux-dev"

  /** `IMAGE_MODEL_URLS[model] || IMAGE_MODEL_URLS["flux-dev"]`. */
  function ModelUrlsFor(model: string): ModelUrls {
    if model in ImageModelUrls then ImageModelUrls[model] else ImageModelUrls[FallbackModel]
  }

  /** Endpoint fallback: a model without an entry, imagen3 among them, is sent to the flux-dev endpoints. */
  lemma EndpointFallback(model: string)
    requires model != "flux-1.1-ultra" && model != "recraft-v3" && model != "flux-1.1-pro" && model != "ideogram-v2"
    ensures ModelUrlsFor(model) == ModelUrls("https://queue.fal.run/fal-ai/flux/dev", "https://queue.fal.run/fal-ai/flux")
    ensures ModelUrlsFor("imagen3") == ModelUrlsFor(FallbackModel)
  {
  }

  function StatusUrl(statusBaseUrl: string, requestId: string): string {
    statusBaseUrl + "/requests/" + requestId + "/status"
  }

  function ResultUrl(statusBaseUrl: string, requestId: string): string {
    statusBaseUrl + "/requests/" + requestId
  }

  // ---------------------------------------------------------------------------
  // Sizes and the aspect ratio
  // ---------------------------------------------------------------------------

  /**
   * `Number(text)` on the texts the model covers: a string of decimal digits is its value (the
   * empty string is 0), anything else is NaN.
   */
  datatype JsNumber = Num(value: nat) | NaN

  function ToNumber(text: string): JsNumber {
    if IsDigits(text) then Num(DigitsValue(text)) else NaN
  }

  /** How a `JsNumber` prints inside a template string. */
  function NumberText(n: JsNumber): string {
    match n
    case Num(v) => NatToString(v)
    case NaN => "NaN"
  }

  datatype Size = Size(width: nat, height: nat)

  /** Every way an image job fails, with the message of the error it throws. */
  datatype ImageError =
    | InvalidSizeFormat(size: string)
    | InvalidSizeValues(width: JsNumber, height: JsNumber)
    | SubmitReferenceError                 // the non-ok submit branch names the undefined `Successfully`
    | SubmitFailed(status: nat, body: string)
    | MissingRequestId
    | StatusCheckFailed(body: string)
    | ResultFetchFailed(body: string)
    | NoImagesFound
    | RequestFailed(reason: string)
    | TimedOut
    | OldTimedOut
    | Thrown(message: string)              // a network fault or unparsable JSON, re-thrown unchanged

  function ErrorMessage(e: ImageError): string {
    match e
    case InvalidSizeFormat(size) => "Invalid size format: " + size + ". Expected format: widthxheight (e.g. 1024x1024)"
    case InvalidSizeValues(w, h) =>
      "Invalid size values: width=" + NumberText(w) + ", height=" + NumberText(h) + ". Both values must be positive numbers."
    case SubmitReferenceError => "Successfully is not defined"
    case SubmitFailed(status, body) => "API request failed with status " + NatToString(status) + ": " + body
    case MissingRequestId => "Missing request_id in API response"
    case StatusCheckFailed(body) => "Error checking status: " + body
    case ResultFetchFailed(body) => "Error fetching result: " + body
    case NoImagesFound => "No images found in the response"
    case RequestFailed(reason) => "Request failed: " + reason
    case TimedOut => "Image generation timed out. Please try again."
    case OldTimedOut => "Request timed out after multiple polling attempts"
    case Thrown(message) => message
  }

  /** The size check: exactly two "x"-separated pieces, each a positive decimal number. */
  function ParseSize(size: string): (r: Result<Size, ImageError>)
    ensures |Split(size, 'x')| != 2 <==> r == Failure(InvalidSizeFormat(size))
    ensures r.Success? <==>
      var parts := Split(size, 'x');
      |parts| == 2 && IsDigits(parts[0]) && IsDigits(parts[1]) && DigitsValue(parts[0]) > 0 && DigitsValue(parts[1]) > 0
    ensures r.Success? ==>
      var parts := Split(size, 'x');
      && size == parts[0] + "x" + parts[1]
      && r.value == Size(DigitsValue(parts[0]), DigitsValue(parts[1])) && r.value.width > 0 && r.value.height > 0
  {
    var parts := Split(size, 'x');
    if |parts| != 2 then Failure(InvalidSizeFormat(size))
    else
      var width := ToNumber(parts[0]);
      var height := ToNumber(parts[1]);
      if width.NaN? || height.NaN? || width.value <= 0 || height.value <= 0 then Failure(InvalidSizeValues(width, height))
      else Success(Size(width.value, height.value))
  }

  /** Size round trip: the text "WxH" of two positive numbers parses back to them. */
  lemma ParseSizeOfText(width: nat, height: nat)
    requires width > 0 && height > 0
    ensures ParseSize(NatToString(width) + "x" + NatToString(height)) == Success(Size(width, height))
  {
    var w, h := NatToString(width), NatToString(height);
    assert forall i :: 0 <= i < |w| ==> IsDigit(w[i]);
    assert forall i :: 0 <= i < |h| ==> IsDigit(h[i]);
    assert 'x' !in w && 'x' !in h;
    assert JoinWith([w, h], "x") == w + "x" + h by {
      assert [w, h][1..] == [h];
    }
    SplitJoin([w, h], 'x');
  }

  /** Euclid's algorithm, as the recursive arrow function `gcd` computes it. */
  function Gcd(a: nat, b: nat): (g: nat)
    ensures g == 0 <==> a == 0 && b == 0
    ensures g > 0 ==> a % g == 0 && b % g == 0
    decreases b
  {
    if b == 0 then a
    else
      var g := Gcd(b, a % b);
      DividesFromRemainder(a, b, g);
      g
  }

  /** A common divisor of `b` and `a % b` divides `a`. */
  lemma DividesFromRemainder(a: nat, b: nat, g: nat)
    requires b > 0 && g > 0 && b % g == 0 && (a % b) % g == 0
    ensures a % g == 0
  {
    var q := a / b;
    var x, y := b / g, (a % b) / g;
    assert b == g * x;
    assert a % b == g * y;
    assert a == q * b + a % b;
    assert a == g * (q * x + y);
    MultipleMod(g, q * x + y);
  }

  lemma MultipleMod(g: nat, m: nat)
    requires g > 0
    ensures (g * m) % g == 0 && (g * m) / g == m
  {
    DivModUnique(g * m, g, m, 0);
  }

  /** Euclidean division has one quotient and one remainder. */
  lemma DivModUnique(x: int, g: int, q: int, r: int)
    requires g > 0 && 0 <= r < g && x == q * g + r
    ensures x / g == q && x % g == r
  {
    var d := q - x / g;
    assert d * g == x % g - r;
  }

  /** Any common divisor of `a` and `b` divides their gcd: it is the greatest one. */
  lemma {:induction false} GcdGreatest(a: nat, b: nat, d: nat)
    requires d > 0 && a % d == 0 && b % d == 0
    ensures Gcd(a, b) % d == 0
    decreases b
  {
    if b > 0 {
      var q := a / b;
      var x, y := a / d, b / d;
      assert a == d * x && b == d * y;
      assert a % b == a - q * b;
      assert a % b == d * (x - q * y);
      MultipleMod(d, x - q * y);
      GcdGreatest(b, a % b, d);
    }
  }

  /** The ratio text `${w / g}:${h / g}` for g = gcd(w, h). */
  function AspectRatioText(width: nat, height: nat): string
    requires width > 0 && height > 0
  {
    var divisor := Gcd(width, height);
    NatToString(width / divisor) + ":" + NatToString(height / divisor)
  }

  /** GCD ratio: the two parts of the ratio are coprime and in proportion width : height. */
  lemma AspectRatioReduced(width: nat, height: nat)
    requires width > 0 && height > 0
    ensures var g := Gcd(width, height);
      && g > 0
      && Gcd(width / g, height / g) == 1
      && (width / g) * height == (height / g) * width
  {
    var g := Gcd(width, height);
    ReducedCoprime(width, height, g);
    ReducedProportional(width, height, g);
  }

  lemma ReducedCoprime(width: nat, height: nat, g: nat)
    requires width > 0 && height > 0 && g == Gcd(width, height)
    ensures g > 0 && Gcd(width / g, height / g) == 1
  {
    var w, h := width / g, height / g;
    DivExact(width, g);
    DivExact(height, g);
    var d := Gcd(w, h);
    assert d > 0 by { assert w != 0; }
    assert g % (d * g) == 0 by {
      ScaledDivisor(w, g, d);
      ScaledDivisor(h, g, d);
      GcdGreatest(width, height, d * g);
    }
    assert d * g <= g by { QuotientPositive(g, d * g); }
    UnitFactor(d, g);
  }

  lemma DivExact(x: nat, g: nat)
    requires g > 0 && x % g == 0
    ensures x == g * (x / g) && (x > 0 ==> x / g > 0)
  {
  }

  lemma UnitFactor(d: nat, g: nat)
    requires d > 0 && g > 0 && d * g <= g
    ensures d == 1
  {
  }

  lemma ReducedProportional(width: nat, height: nat, g: nat)
    requires width > 0 && height > 0 && g == Gcd(width, height)
    ensures g > 0 && (width / g) * height == (height / g) * width
  {
    var w, h := width / g, height / g;
    assert width == g * w && height == g * h;
    assert w * height == w * (g * h) == (w * g) * h == width * h;
  }

  /** A divisor `d` of `w` gives the divisor `d * g` of `g * w`. */
  lemma ScaledDivisor(w: nat, g: nat, d: nat)
    requires g > 0 && d > 0 && w % d == 0
    ensures (g * w) % (d * g) == 0
  {
    var x := w / d;
    assert w == d * x;
    assert g * w == (d * g) * x;
    MultipleMod(d * g, x);
  }

  lemma QuotientPositive(m: nat, n: nat)
    requires m > 0 && n > 0 && m % n == 0
    ensures n <= m
  {
    assert m == (m / n) * n;
    assert m / n >= 1;
  }

  lemma AspectRatioExamples()
    ensures AspectRatioText(1024, 1024) == "1:1"
    ensures AspectRatioText(1920, 1080) == "16:9"
  {
    assert Gcd(1024, 1024) == 1024 by {
      assert Gcd(1024, 0) == 1024;
    }
    assert Gcd(1920, 1080) == 120 by {
      assert Gcd(120, 0) == 120;
      assert Gcd(240, 120) == 120;
      assert Gcd(840, 240) == 120;
      assert Gcd(1080, 840) == 120;
    }
    assert NatToString(1) == "1";
    assert NatToString(9) == "9";
    assert NatToString(16) == NatToString(1) + "6";
  }

  // ---------------------------------------------------------------------------
  // The request body
  // ---------------------------------------------------------------------------

  datatype Sizing = AspectRatio(ratio: string) | ImageSize(width: nat, height: nat)

  /** `{prompt, num_images}` plus `aspect_ratio` or `image_size` when a size was given. */
  datatype RequestBody = RequestBody(prompt: string, numImages: int, sizing: Option<Sizing>)

  predicate UsesAspectRatio(model: string) {
    model == "flux-1.1-ultra" || model == "ideogram-v2"
  }

  /** The body `generateImage` submits, or the size error it throws first; `size == ""` is a falsy size. */
  function BuildRequestBody(model: string, prompt: string, numImages: int, size: string): (r: Result<RequestBody, ImageError>)
    ensures r.Failure? <==> size != "" && ParseSize(size).Failure?
    ensures r.Success? ==> r.value.prompt == prompt && r.value.numImages == numImages
    ensures r.Success? ==> (r.value.sizing.None? <==> size == "")
    ensures r.Success? && size != "" ==>
      var s := ParseSize(size).value;
      r.value.sizing == Some(if UsesAspectRatio(model) then AspectRatio(AspectRatioText(s.width, s.height)) else ImageSize(s.width, s.height))
  {
    if size == "" then Success(RequestBody(prompt, numImages, None))
    else
      match ParseSize(size)
      case Failure(e) => Failure(e)
      case Success(s) =>
        var sizing := if UsesAspectRatio(model) then AspectRatio(AspectRatioText(s.width, s.height)) else ImageSize(s.width, s.height);
        Success(RequestBody(prompt, numImages, Some(sizing)))
  }

  // ---------------------------------------------------------------------------
  // Replies of the queue API
  // ---------------------------------------------------------------------------

  /** An entry of a result's `images`; `url` is `None` for a null entry or one without a truthy url. */
  datatype ImageEntry = ImageEntry(url: Option<string>)

  predicate HasUrl(e: ImageEntry) {
    e.url.Some? && e.url.value != ""
  }

  /** `images.filter(img => img && img.url).map(img => ({url: img.url}))`. */
  function WithUrls(images: seq<ImageEntry>): (r: seq<ImageEntry>)
    ensures |r| <= |images|
    ensures forall i :: 0 <= i < |r| ==> HasUrl(r[i])
    ensures forall e :: e in r <==> e in images && HasUrl(e)
  {
    if images == [] then []
    else (if HasUrl(images[0]) then [images[0]] else []) + WithUrls(images[1..])
  }

  /** The filter keeps the order of the entries it retains. */
  lemma {:induction false} WithUrlsAppend(a: seq<ImageEntry>, b: seq<ImageEntry>)
    ensures WithUrls(a + b) == WithUrls(a) + WithUrls(b)
  {
    if a == [] {
      assert a + b == b;
    } else {
      assert (a + b)[1..] == a[1..] + b;
      WithUrlsAppend(a[1..], b);
    }
  }

  lemma WithUrlsSnoc(a: seq<ImageEntry>, x: ImageEntry)
    ensures WithUrls(a + [x]) == WithUrls(a) + (if HasUrl(x) then [ImageEntry(x.url)] else [])
  {
    WithUrlsAppend(a, [x]);
    assert [x][1..] == [];
  }

  /** The reply to the submit request. */
  datatype SubmitOutcome =
    | SubmitThrew(message: string)             // fetch or response.json() rejected
    | SubmitNotOk(status: nat, body: string)
    | SubmitOk(requestId: Option<string>)      // the body's request_id, None when absent

  /** The reply to the result fetch that follows a COMPLETED status. */
  datatype ResultFetch =
    | ResultTimeout(message: string)           // AbortError or request-timeout
    | ResultThrew(message: string)
    | ResultNotOk(status: nat, body: string)
    | ResultOk(images: Option<seq<ImageEntry>>)

  /** The reply to one status poll; `result` is only fetched when `status` is COMPLETED. */
  datatype PollOutcome =
    | StatusTimeout(message: string)
    | StatusThrew(message: string)
    | StatusNotOk(status: nat, body: string)
    | StatusOk(state: string, error: Option<string>, result: ResultFetch)

  /** What one attempt of the poll loop does: go on (sleeping first or not), or end the job. */
  datatype Step = Retry(sleep: bool) | Finish(result: Result<seq<ImageEntry>, ImageError>)

  predicate Retryable(status: nat) {
    status == 429 || status >= 500
  }

  function FailureReason(error: Option<string>): string {
    if error.Some? && error.value != "" then error.value else "Unknown error"
  }

  function PollStep(outcome: PollOutcome): Step {
    match outcome
    case StatusTimeout(_) => Retry(false)
    case StatusThrew(message) => Finish(Failure(Thrown(message)))
    case StatusNotOk(status, body) =>
      if Retryable(status) then Retry(true) else Finish(Failure(StatusCheckFailed(body)))
    case StatusOk(status, error, result) =>
      if status == "COMPLETED" then
        match result
        case ResultTimeout(_) => Retry(false)
        case ResultThrew(message) => Finish(Failure(Thrown(message)))
        case ResultNotOk(_, body) => Finish(Failure(ResultFetchFailed(body)))
        case ResultOk(images) =>
          if images.Some? && |images.value| > 0 then Finish(Success(WithUrls(images.value)))
          else Finish(Failure(NoImagesFound))
      else if status == "FAILED" then Finish(Failure(RequestFailed(FailureReason(error))))
      else Retry(true)
  }

  // ---------------------------------------------------------------------------
  // The poll loop
  // ---------------------------------------------------------------------------

  const MaxAttempts: nat := 120
  const InitialDelay: nat := 1000
  const MaxDelay: nat := 5000

  /** `Math.min(currentDelay * 1.5, maxDelay)`; exact on the delays the loop reaches. */
  function NextDelay(delay: nat): nat {
    if delay * 3 / 2 <= MaxDelay then delay * 3 / 2 else MaxDelay
  }

  /** The outcome of polling from `attempt` on, the number of polls made in all, and the delays slept. */
  datatype PollRun = PollRun(result: Result<seq<ImageEntry>, ImageError>, polls: nat, sleeps: seq<nat>)

  function WithSleeps(sleeps: seq<nat>, run: PollRun): PollRun {
    PollRun(run.result, run.polls, sleeps + run.sleeps)
  }

  function PollFrom(net: nat -> PollOutcome, attempt: nat, delay: nat): PollRun
    decreases MaxAttempts - attempt
  {
    if attempt >= MaxAttempts then PollRun(Failure(TimedOut), attempt, [])
    else
      match PollStep(net(attempt))
      case Finish(result) => PollRun(result, attempt + 1, [])
      case Retry(sleep) =>
        if sleep then WithSleeps([delay], PollFrom(net, attempt + 1, NextDelay(delay)))
        else PollFrom(net, attempt + 1, delay)
  }

  /** At most 120 polls; every run ends after its last poll, and a timeout means all 120 were made. */
  lemma {:induction false} PollBounds(net: nat -> PollOutcome, attempt: nat, delay: nat)
    requires attempt <= MaxAttempts
    ensures var run := PollFrom(net, attempt, delay);
      && attempt <= run.polls <= MaxAttempts
      && |run.sleeps| <= run.polls - attempt
      && (run.result == Failure(TimedOut) ==> run.polls == MaxAttempts)
    decreases MaxAttempts - attempt
  {
    if attempt < MaxAttempts {
      PollBounds(net, attempt + 1, delay);
      PollBounds(net, attempt + 1, NextDelay(delay));
      match PollStep(net(attempt)) {
        case Finish(result) =>
          assert result != Failure(TimedOut);
        case Retry(sleep) =>
      }
    }
  }

  /** A backoff schedule: delays within [1000, 5000], none below `floor`, and nondecreasing. */
  predicate Schedule(s: seq<nat>, floor: nat) {
    && (forall i :: 0 <= i < |s| ==> InitialDelay <= s[i] <= MaxDelay)
    && (forall i :: 0 <= i < |s| ==> floor <= s[i])
    && (forall i, j :: 0 <= i < j < |s| ==> s[i] <= s[j])
  }

  /** A successful poll run returns only entries that have a url. */
  lemma {:induction false} PollSuccessHasUrls(net: nat -> PollOutcome, attempt: nat, delay: nat)
    ensures var r := PollFrom(net, attempt, delay).result;
      r.Success? ==> forall i :: 0 <= i < |r.value| ==> HasUrl(r.value[i])
    decreases MaxAttempts - attempt
  {
    if attempt < MaxAttempts {
      match PollStep(net(attempt)) {
        case Finish(_) =>
        case Retry(sleep) =>
          PollSuccessHasUrls(net, attempt + 1, NextDelay(delay));
          PollSuccessHasUrls(net, attempt + 1, delay);
      }
    }
  }

  /** Backoff: every delay slept lies in [1000, 5000], and each is at least the one before. */
  lemma {:induction false} SleepsWithinBounds(net: nat -> PollOutcome, attempt: nat, delay: nat)
    requires InitialDelay <= delay <= MaxDelay
    ensures Schedule(PollFrom(net, attempt, delay).sleeps, delay)
    decreases MaxAttempts - attempt
  {
    if attempt < MaxAttempts {
      match PollStep(net(attempt)) {
        case Finish(_) =>
        case Retry(sleep) =>
          if sleep {
            var next := NextDelay(delay);
            assert delay <= next <= MaxDelay;
            SleepsWithinBounds(net, attempt + 1, next);
            var rest := PollFrom(net, attempt + 1, next).sleeps;
            assert PollFrom(net, attempt, delay).sleeps == [delay] + rest;
            PrependSchedule(delay, next, rest);
          } else {
            SleepsWithinBounds(net, attempt + 1, delay);
            assert PollFrom(net, attempt, delay) == PollFrom(net, attempt + 1, delay);
          }
      }
    }
  }

  lemma PrependSchedule(delay: nat, next: nat, rest: seq<nat>)
    requires InitialDelay <= delay <= next && delay <= MaxDelay && Schedule(rest, next)
    ensures Schedule([delay] + rest, delay)
  {
    var s := [delay] + rest;
    assert forall i :: 0 < i < |s| ==> s[i] == rest[i - 1];
  }

  /** The delay schedule: 1000, 1500, 2250, 3375, then 5000 from there on. */
  lemma BackoffSchedule()
    ensures NextDelay(InitialDelay) == 1500
    ensures NextDelay(1500) == 2250
    ensures NextDelay(2250) == 3375
    ensures NextDelay(3375) == MaxDelay
    ensures NextDelay(MaxDelay) == MaxDelay
  {
  }

  /** A network timeout (of the status poll or of the result fetch) uses an attempt but neither sleeps nor changes the delay. */
  lemma TimeoutDoesNotSleep(net: nat -> PollOutcome, attempt: nat, delay: nat)
    requires attempt < MaxAttempts
    requires net(attempt).StatusTimeout? || (net(attempt).StatusOk? && net(attempt).state == "COMPLETED" && net(attempt).result.ResultTimeout?)
    ensures PollFrom(net, attempt, delay) == PollFrom(net, attempt + 1, delay)
  {
  }

  /** Retryable vs fatal: 429 and 5xx statuses sleep and poll again, every other non-ok status ends the job. */
  lemma NonOkStatus(net: nat -> PollOutcome, attempt: nat, delay: nat, status: nat, body: string)
    requires attempt < MaxAttempts && net(attempt) == StatusNotOk(status, body)
    ensures Retryable(status) ==>
      PollFrom(net, attempt, delay) == WithSleeps([delay], PollFrom(net, attempt + 1, NextDelay(delay)))
    ensures !Retryable(status) ==>
      PollFrom(net, attempt, delay) == PollRun(Failure(StatusCheckFailed(body)), attempt + 1, [])
  {
  }

  /** A job rate-limited twice and then completed succeeds after exactly three polls and two sleeps. */
  lemma RetryThenComplete(net: nat -> PollOutcome, images: seq<ImageEntry>, body0: string, body1: string)
    requires net(0) == StatusNotOk(429, body0) && net(1) == StatusNotOk(429, body1)
    requires net(2) == StatusOk("COMPLETED", None, ResultOk(Some(images))) && |images| > 0
    ensures PollFrom(net, 0, InitialDelay) == PollRun(Success(WithUrls(images)), 3, [1000, 1500])
  {
    assert PollStep(net(2)) == Finish(Success(WithUrls(images)));
    assert PollFrom(net, 2, 2250) == PollRun(Success(WithUrls(images)), 3, []);
    assert PollStep(net(1)) == Retry(true);
    assert NextDelay(1500) == 2250;
    assert PollFrom(net, 1, 1500) == PollRun(Success(WithUrls(images)), 3, [1500]);
    assert PollStep(net(0)) == Retry(true);
    assert NextDelay(1000) == 1500;
  }

  /** A FAILED status ends the job with the reported reason, or "Unknown error" without one. */
  lemma FailedStatus(net: nat -> PollOutcome, attempt: nat, delay: nat, error: Option<string>, result: ResultFetch)
    requires attempt < MaxAttempts && net(attempt) == StatusOk("FAILED", error, result)
    ensures PollFrom(net, attempt, delay).result == Failure(RequestFailed(FailureReason(error)))
    ensures error == Some("oom") ==> ErrorMessage(PollFrom(net, attempt, delay).result.error) == "Request failed: oom"
    ensures error.None? ==> ErrorMessage(PollFrom(net, attempt, delay).result.error) == "Request failed: Unknown error"
  {
  }

  /**
   * COMPLETED: a non-ok result fetch is fatal, a non-empty `images` list yields its entries that
   * have a url, in order, and a missing or empty list is "No images found".
   */
  lemma CompletedStatus(net: nat -> PollOutcome, attempt: nat, delay: nat, error: Option<string>, result: ResultFetch)
    requires attempt < MaxAttempts && net(attempt) == StatusOk("COMPLETED", error, result)
    ensures result.ResultNotOk? ==> PollFrom(net, attempt, delay).result == Failure(ResultFetchFailed(result.body))
    ensures result.ResultOk? && result.images.Some? && |result.images.value| > 0 ==>
      PollFrom(net, attempt, delay) == PollRun(Success(WithUrls(result.images.value)), attempt + 1, [])
    ensures result.ResultOk? && (result.images.None? || result.images.value == []) ==>
      PollFrom(net, attempt, delay).result == Failure(NoImagesFound)
  {
  }

  /** Any other status (PROCESSING, IN_QUEUE, ...) sleeps and polls again. */
  lemma PendingStatus(net: nat -> PollOutcome, attempt: nat, delay: nat, status: string, error: Option<string>, result: ResultFetch)
    requires attempt < MaxAttempts && net(attempt) == StatusOk(status, error, result)
    requires status != "COMPLETED" && status != "FAILED"
    ensures PollFrom(net, attempt, delay) == WithSleeps([delay], PollFrom(net, attempt + 1, NextDelay(delay)))
  {
  }

  // ---------------------------------------------------------------------------
  // The whole job
  // ---------------------------------------------------------------------------

  datatype SubmitRequest = SubmitRequest(url: string, body: RequestBody)

  datatype JobUrls = JobUrls(statusUrl: string, resultUrl: string)

  /** What a call of `generateImage` returns or throws, what it submitted, where it polled, and how. */
  datatype ImageRun = ImageRun(
    result: Result<seq<ImageEntry>, ImageError>,
    submitted: Option<SubmitRequest>,
    job: Option<JobUrls>,
    polls: nat,
    sleeps: seq<nat>)

  function ImageJob(model: string, prompt: string, numImages: int, size: string, submit: SubmitOutcome, net: nat -> PollOutcome): ImageRun {
    match BuildRequestBody(model, prompt, numImages, size)
    case Failure(e) => ImageRun(Failure(e), None, None, 0, [])
    case Success(body) => SubmittedJob(ModelUrlsFor(model), body, submit, net)
  }

  /** The job once `body` is posted to the model's submit URL: read the request id, then poll. */
  function SubmittedJob(urls: ModelUrls, body: RequestBody, submit: SubmitOutcome, net: nat -> PollOutcome): ImageRun {
    var sent := Some(SubmitRequest(urls.submitUrl, body));
    match submit
    case SubmitThrew(message) => ImageRun(Failure(Thrown(message)), sent, None, 0, [])
    case SubmitNotOk(_, _) => ImageRun(Failure(SubmitReferenceError), sent, None, 0, [])
    case SubmitOk(id) =>
      if id.None? || id.value == "" then ImageRun(Failure(MissingRequestId), sent, None, 0, [])
      else
        var run := PollFrom(net, 0, InitialDelay);
        ImageRun(run.result, sent, Some(JobUrls(StatusUrl(urls.statusBaseUrl, id.value), ResultUrl(urls.statusBaseUrl, id.value))),
                 run.polls, run.sleeps)
  }

  /** `generateImage(model, prompt, numImages, size)`. */
  method GenerateImage(model: string, prompt: string, numImages: int, size: string, submit: SubmitOutcome, net: nat -> PollOutcome)
    returns (run: ImageRun)
    ensures run == ImageJob(model, prompt, numImages, size, submit, net)
  {
    var modelUrls := if model in ImageModelUrls then ImageModelUrls[model] else ImageModelUrls[FallbackModel];
    var built := BuildBody(model, prompt, numImages, size);
    if built.Failure? {
      return ImageRun(Failure(built.error), None, None, 0, []);
    }
    var requestBody := built.value;
    assert modelUrls == ModelUrlsFor(model);
    run := SubmitAndPoll(modelUrls.submitUrl, modelUrls.statusBaseUrl, requestBody, submit, net);
  }

  /** The size handling at the start of `generateImage`: the body starts as `{prompt, num_images}` and gains a size field. */
  method BuildBody(model: string, prompt: string, numImages: int, size: string) returns (r: Result<RequestBody, ImageError>)
    ensures r == BuildRequestBody(model, prompt, numImages, size)
  {
    var requestBody := RequestBody(prompt, numImages, None);
    if size != "" {
      var parts := Split(size, 'x');
      if |parts| != 2 {
        return Failure(InvalidSizeFormat(size));
      }
      var width := ToNumber(parts[0]);
      var height := ToNumber(parts[1]);
      if width.NaN? || height.NaN? || width.value <= 0 || height.value <= 0 {
        return Failure(InvalidSizeValues(width, height));
      }
      if model == "flux-1.1-ultra" || model == "ideogram-v2" {
        var divisor := Gcd(width.value, height.value);
        requestBody := requestBody.(sizing := Some(AspectRatio(NatToString(width.value / divisor) + ":" + NatToString(height.value / divisor))));
      } else {
        requestBody := requestBody.(sizing := Some(ImageSize(width.value, height.value)));
      }
    }
    return Success(requestBody);
  }

  /** The submit `fetch`, the request id check and the polling loop of `generateImage`. */
  method SubmitAndPoll(submitUrl: string, statusBaseUrl: string, requestBody: RequestBody, submit: SubmitOutcome, net: nat -> PollOutcome)
    returns (run: ImageRun)
    ensures run == SubmittedJob(ModelUrls(submitUrl, statusBaseUrl), requestBody, submit, net)
  {
    var sent := Some(SubmitRequest(submitUrl, requestBody));
    match submit {
      case SubmitThrew(message) =>
        return ImageRun(Failure(Thrown(message)), sent, None, 0, []);
      case SubmitNotOk(_, _) =>
        return ImageRun(Failure(SubmitReferenceError), sent, None, 0, []);
      case SubmitOk(requestId) =>
        if requestId.None? || requestId.value == "" {
          return ImageRun(Failure(MissingRequestId), sent, None, 0, []);
        }
        var job := JobUrls(StatusUrl(statusBaseUrl, requestId.value), ResultUrl(statusBaseUrl, requestId.value));
        var result, polls, sleeps := PollStatus(net);
        run := ImageRun(result, sent, Some(job), polls, sleeps);
    }
  }

  /** The `for (attempt ...)` loop of `generateImage`. */
  method PollStatus(net: nat -> PollOutcome) returns (result: Result<seq<ImageEntry>, ImageError>, polls: nat, sleeps: seq<nat>)
    ensures PollRun(result, polls, sleeps) == PollFrom(net, 0, InitialDelay)
  {
    var currentDelay := InitialDelay;
    sleeps := [];
    for attempt := 0 to MaxAttempts
      invariant WithSleeps(sleeps, PollFrom(net, attempt, currentDelay)) == PollFrom(net, 0, InitialDelay)
    {
      var step := AttemptOnce(net(attempt));
      match step {
        case Finish(r) =>
          return r, attempt + 1, sleeps;
        case Retry(sleep) =>
          if sleep {
            sleeps := sleeps + [currentDelay];
            currentDelay := NextDelay(currentDelay);
          }
      }
    }
    return Failure(TimedOut), MaxAttempts, sleeps;
  }

  /** The body of one attempt: the branches on the status reply and, after COMPLETED, on the result reply. */
  method AttemptOnce(outcome: PollOutcome) returns (step: Step)
    ensures step == PollStep(outcome)
  {
    match outcome {
      case StatusTimeout(_) =>
        return Retry(false);
      case StatusThrew(message) =>
        return Finish(Failure(Thrown(message)));
      case StatusNotOk(status, errorText) =>
        if status == 429 || status >= 500 {
          return Retry(true);
        }
        return Finish(Failure(StatusCheckFailed(errorText)));
      case StatusOk(status, error, resultReply) =>
        if status == "COMPLETED" {
          match resultReply {
            case ResultTimeout(_) =>
              return Retry(false);
            case ResultThrew(message) =>
              return Finish(Failure(Thrown(message)));
            case ResultNotOk(_, errorText) =>
              return Finish(Failure(ResultFetchFailed(errorText)));
            case ResultOk(images) =>
              if images.Some? && |images.value| > 0 {
                var imageUrls := CollectImageUrls(images.value);
                return Finish(Success(imageUrls));
              }
              return Finish(Failure(NoImagesFound));
          }
        } else if status == "FAILED" {
          return Finish(Failure(RequestFailed(if error.Some? && error.value != "" then error.value else "Unknown error")));
        }
        return Retry(true);
    }
  }

  /** The `filter(...).map(...)` over a result's images. */
  method CollectImageUrls(images: seq<ImageEntry>) returns (imageUrls: seq<ImageEntry>)
    ensures imageUrls == WithUrls(images)
  {
    imageUrls := [];
    for i := 0 to |images|
      invariant imageUrls == WithUrls(images[..i])
    {
      var img := images[i];
      assert images[..i + 1] == images[..i] + [img];
      WithUrlsSnoc(images[..i], img);
      if img.url.Some? && img.url.value != "" {
        imageUrls := imageUrls + [ImageEntry(img.url)];
      }
    }
    assert images[..|images|] == images;
  }

  // ---------------------------------------------------------------------------
  // Properties of the whole job
  // ---------------------------------------------------------------------------

  /** Size validation happens before anything is sent: an invalid size throws and nothing is submitted or polled. */
  lemma InvalidSizeSendsNothing(model: string, prompt: string, numImages: int, size: string, submit: SubmitOutcome, net: nat -> PollOutcome)
    requires size != "" && ParseSize(size).Failure?
    ensures var run := ImageJob(model, prompt, numImages, size, submit, net);
      && run.result == Failure(ParseSize(size).error)
      && run.submitted.None? && run.job.None? && run.polls == 0
  {
  }

  /**
   * Submit errors: a non-ok submit throws (a ReferenceError, not the intended message), a missing
   * request id throws, and in neither case is anything polled. With an id, the status URL is
   * base + "/requests/" + id + "/status" and the result URL the same without "/status".
   */
  lemma SubmitOutcomes(model: string, prompt: string, numImages: int, size: string, submit: SubmitOutcome, net: nat -> PollOutcome)
    requires BuildRequestBody(model, prompt, numImages, size).Success?
    ensures var run := ImageJob(model, prompt, numImages, size, submit, net);
      && run.submitted == Some(SubmitRequest(ModelUrlsFor(model).submitUrl, BuildRequestBody(model, prompt, numImages, size).value))
      && (submit.SubmitNotOk? ==> run.result.Failure? && run.job.None? && run.polls == 0)
      && (submit.SubmitNotOk? ==> ErrorMessage(run.result.error) == "Successfully is not defined")
      && (submit.SubmitOk? && (submit.requestId.None? || submit.requestId.value == "") ==>
            run.result == Failure(MissingRequestId) && run.polls == 0)
      && (submit.SubmitOk? && submit.requestId.Some? && submit.requestId.value != "" ==>
            var base := ModelUrlsFor(model).statusBaseUrl;
            var id := submit.requestId.value;
            && run.job == Some(JobUrls(base + "/requests/" + id + "/status", base + "/requests/" + id))
            && run.job.value.statusUrl == run.job.value.resultUrl + "/status")
  {
  }
}
