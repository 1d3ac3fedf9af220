/**
  The language-model side of the syllabus parser (`lib/openai/syllabusParser.ts`):
  one attempt on the text path and on the vision path (read the reply, parse it, copy
  aliases, validate, stamp the metadata), the retry loops around them with their backoff
  rules, the confidence gate and timing stamp of `parseSyllabusWithOpenAI`, the quality
  score of `analyzeParsingQuality` and the model choice of `chooseOptimalModel`.

  The chat-completions service is the function `service`: `service(k)` is what the
  `k`-th attempt's request gives (the prompt it sends is not modelled). `JSON.parse` is
  the function `parse`, `None` standing for a `SyntaxError`. Sleeps are not taken but
  recorded: the loops return the delays they would have waited, in order.
*/
module SyllabusParser {
  import opened Options
  import opened JsString
  import opened JsonValue
  import opened ResponseValidation
  import opened SyllabusTypes
  import FileProcessor

  // ---- Thrown values, service outcomes, errors ----

  /** A thrown value: an `Error` with its `name` and `message`, or anything else. */
  datatype Thrown = ErrorObject(name: string, message: string) | NonErrorValue

  /** `new Error(message)`. */
  function PlainError(message: string): Thrown {
    ErrorObject("Error", message)
  }

  /** The `TypeError` the runtime throws when a member of `null` is read. */
  const NullReadError: Thrown := ErrorObject("TypeError", "Cannot read properties of null")

  /** The `TypeError` the runtime throws when `push` is called on a warnings value that is
      not an array. */
  const NotAnArrayError: Thrown := ErrorObject("TypeError", "warnings.push is not a function")

  /** One request to the chat-completions service: the content of the first choice
      (`None` when there is none), or the value the client library throws. */
  datatype ServiceOutcome = Reply(content: Option<string>) | Raise(thrown: Thrown)

  datatype ErrorKind = ApiError | AuthError | RateLimit | ParsingFailure | InvalidResponse

  /** A `ParsingError`; `details` is not modelled. */
  datatype ParsingError = ParsingError(kind: ErrorKind, message: string, retryAfter: Option<nat>)

  /** What the two parsing paths return: the reply data, or `{ error }`. */
  datatype ParseResult = Parsed(data: Json) | Failed(error: ParsingError)

  /** The outcome of one `try` block: a value, or what it throws. */
  datatype AttemptOutcome = Success(data: Json) | Failure(thrown: Thrown)

  /** What a `catch` block decides: go on to the next attempt after an optional wait,
      or return an error. */
  datatype Decision = Retry(delay: Option<nat>) | Stop(error: ParsingError)

  /** A whole attempt loop: what it returns, how many requests it made, and the waits
      between them. */
  datatype Run = Run(result: ParseResult, calls: nat, delays: seq<nat>)

  const MalformedJson := "Invalid response structure: Malformed JSON response"
  const ImageNote := "Parsed from image - accuracy may vary"
  const TextFallback := ParsingError(ApiError, "Unexpected error in parsing logic", None)
  const VisionFallback := ParsingError(ApiError, "All vision API attempts failed", None)
  const InvalidKey := ParsingError(AuthError, "Invalid OpenAI API key", None)
  const MissingKey := ParsingError(AuthError, "OpenAI API key is not configured", None)

  function RateLimitExceeded(wait: nat): ParsingError {
    ParsingError(RateLimit, "OpenAI rate limit exceeded", Some(wait))
  }

  // ---- The reply's metadata ----

  /** The reply is an object whose `metadata` is an object. */
  predicate HasMetadata(data: Json) {
    data.Obj? && "metadata" in data.fields && data.fields["metadata"].Obj?
  }

  function Metadata(data: Json): map<string, Json>
    requires HasMetadata(data)
  {
    data.fields["metadata"].fields
  }

  /** `data.metadata[key] = value`. */
  function SetMetadata(data: Json, key: string, value: Json): (r: Json)
    requires HasMetadata(data)
    ensures HasMetadata(r) && Metadata(r) == Metadata(data)[key := value]
    ensures forall k :: k != "metadata" ==> Get(r, k) == Get(data, k)
  {
    Set(data, "metadata", Obj(Metadata(data)[key := value]))
  }

  /** `metadata.warnings` is falsy (so `|| []` replaces it) or an array (so `push`
      works). */
  predicate WarningsAppendable(data: Json)
    requires HasMetadata(data)
  {
    var w := Get(Obj(Metadata(data)), "warnings");
    !Present(w) || w.value.Arr?
  }

  /** The warnings `push` appends to. */
  function Warnings(data: Json): seq<Json>
    requires HasMetadata(data)
  {
    var w := Get(Obj(Metadata(data)), "warnings");
    if Present(w) && w.value.Arr? then w.value.items else []
  }

  /** `metadata.warnings = metadata.warnings || []; metadata.warnings.push(note)`;
      `None` when `push` throws because the warnings are a truthy non-array. */
  function AppendWarning(data: Json, note: string): (r: Option<Json>)
    requires HasMetadata(data)
    ensures r.Some? <==> WarningsAppendable(data)
    ensures r.Some? ==>
      (HasMetadata(r.value) && Metadata(r.value) == Metadata(data)["warnings" := Arr(Warnings(data) + [Str(note)])])
  {
    if WarningsAppendable(data) then Some(SetMetadata(data, "warnings", Arr(Warnings(data) + [Str(note)])))
    else None
  }

  /** An accepted reply: metadata is an object and its confidence a number. */
  predicate AcceptedShape(data: Json) {
    HasMetadata(data) && "parsing_confidence" in Metadata(data) && Metadata(data)["parsing_confidence"].Num?
  }

  /** `metadata[key]` is present and equal to `value`. */
  predicate MetadataIs(data: Json, key: string, value: Json) {
    HasMetadata(data) && key in Metadata(data) && Metadata(data)[key] == value
  }

  function Confidence(data: Json): real
    requires AcceptedShape(data)
  {
    Metadata(data)["parsing_confidence"].n
  }

  // ---- One attempt ----

  /** Read the first choice's content and parse it: no or empty content throws
      `noContent`, unparseable content the malformed-JSON error. */
  function ReadReply(outcome: ServiceOutcome, noContent: string, parse: string -> Option<Json>): AttemptOutcome {
    match outcome
    case Raise(t) => Failure(t)
    case Reply(content) =>
      if content.None? || content.value == "" then Failure(PlainError(noContent))
      else
        match parse(content.value)
        case None => Failure(PlainError(MalformedJson))
        case Some(data) => Success(data)
  }

  /** Validate the reply; on success stamp `metadata.original_format`. */
  function AcceptReply(data: Json, format: string): (r: AttemptOutcome)
    ensures r.Success? <==> ResponseViolations(data) == Checked(true, [])
    ensures r.Success? ==>
      HasMetadata(data) && AcceptedShape(r.data)
      && Metadata(r.data) == Metadata(data)["original_format" := Str(format)]
    ensures ResponseViolations(data).Threw? ==> r == Failure(NullReadError)
    ensures ResponseViolations(data).Checked? && !ResponseViolations(data).isValid ==>
      r == Failure(PlainError("Invalid response structure: " + Join(ResponseViolations(data).errors, ", ")))
  {
    match ResponseViolations(data)
    case Threw => Failure(NullReadError)
    case Checked(valid, errors) =>
      if !valid then Failure(PlainError("Invalid response structure: " + Join(errors, ", ")))
      else
        AcceptedReplyShape(data);
        Success(SetMetadata(data, "original_format", Str(format)))
  }

  /** The `try` block of one text attempt: read and parse, copy aliases (reading
      `course_info` of a `null` reply throws), validate, stamp `'text'`. */
  function TextAttempt(outcome: ServiceOutcome, parse: string -> Option<Json>): (r: AttemptOutcome)
    ensures r.Success? ==> AcceptedShape(r.data) && MetadataIs(r.data, "original_format", Str("text"))
  {
    match ReadReply(outcome, "No content received from OpenAI", parse)
    case Failure(t) => Failure(t)
    case Success(data) =>
      if data.Null? then Failure(NullReadError) else AcceptReply(NormalizeAliases(data), "text")
  }

  /** The `try` block of one vision attempt: read and parse, validate, stamp `'image'`,
      append the image note to the warnings. */
  function VisionAttempt(outcome: ServiceOutcome, parse: string -> Option<Json>): (r: AttemptOutcome)
    ensures r.Success? ==> AcceptedShape(r.data) && MetadataIs(r.data, "original_format", Str("image"))
  {
    match ReadReply(outcome, "No content received from OpenAI Vision API", parse)
    case Failure(t) => Failure(t)
    case Success(data) =>
      match AcceptReply(data, "image")
      case Failure(t) => Failure(t)
      case Success(stamped) =>
        match AppendWarning(stamped, ImageNote)
        case None => Failure(NotAnArrayError)
        case Some(noted) => Success(noted)
  }

  /** A vision attempt on a reply that parses succeeds exactly when the validation
      accepts the reply and its warnings can take a `push`; the result is the reply with
      `original_format` set to `'image'` and the image note after the reply's own
      warnings. */
  lemma {:induction false} VisionAttemptAppendsNote(outcome: ServiceOutcome, parse: string -> Option<Json>)
    requires ReadReply(outcome, "No content received from OpenAI Vision API", parse).Success?
    ensures var data := ReadReply(outcome, "No content received from OpenAI Vision API", parse).data;
      var r := VisionAttempt(outcome, parse);
      && (r.Success? <==> ResponseViolations(data) == Checked(true, []) && WarningsAppendable(data))
      && (r.Success? ==>
            HasMetadata(data) &&
            Metadata(r.data) == Metadata(data)["original_format" := Str("image")]
                                              ["warnings" := Arr(Warnings(data) + [Str(ImageNote)])])
  {
    var data := ReadReply(outcome, "No content received from OpenAI Vision API", parse).data;
    var accepted := AcceptReply(data, "image");
    if accepted.Success? {
      var stamped := accepted.data;
      assert Get(Obj(Metadata(stamped)), "warnings") == Get(Obj(Metadata(data)), "warnings");
    }
  }

  // ---- The catch blocks ----

  /** `2 ** k`. */
  function Pow2(k: nat): (p: nat)
    ensures p >= 1
  {
    if k == 0 then 1 else 2 * Pow2(k - 1)
  }

  /** The wait before the next attempt after attempt `attempt`: `2 ** attempt * 1000` ms. */
  function Backoff(attempt: nat): nat {
    Pow2(attempt) * 1000
  }

  /** An `Error` whose message mentions a rate limit or whose name is `RateLimitError`. */
  predicate IsRateLimited(t: Thrown) {
    t.ErrorObject? && (Contains(t.message, "rate limit") || t.name == "RateLimitError")
  }

  /** An `Error` whose message mentions the API key or whose name is
      `AuthenticationError`. */
  predicate IsAuthFailure(t: Thrown) {
    t.ErrorObject? && (Contains(t.message, "API key") || t.name == "AuthenticationError")
  }

  /** `error instanceof Error ? error.message : fallback`. */
  function ThrownMessage(t: Thrown, fallback: string): string {
    if t.ErrorObject? then t.message else fallback
  }

  /** The text path's `catch` after attempt `attempt` of `attempts`: a rate limit waits
      and retries unless it is the last attempt; an authentication failure stops; any
      other failure stops on the last attempt and retries at once before it. */
  function TextCatch(attempt: nat, attempts: int, t: Thrown): Decision {
    if IsRateLimited(t) then
      if attempt < attempts then Retry(Some(Backoff(attempt)))
      else Stop(RateLimitExceeded(Backoff(attempt)))
    else if IsAuthFailure(t) then Stop(InvalidKey)
    else if attempt == attempts then
      Stop(ParsingError(ParsingFailure, ThrownMessage(t, "Failed to parse syllabus"), None))
    else Retry(None)
  }

  /** The vision path's `catch`: the last attempt stops, any earlier one waits and
      retries. */
  function VisionCatch(attempt: nat, attempts: int, t: Thrown): Decision {
    if attempt == attempts then
      Stop(ParsingError(ParsingFailure, ThrownMessage(t, "Failed to parse syllabus image"), None))
    else Retry(Some(Backoff(attempt)))
  }

  // ---- The attempt loops, as runs ----

  function DelaySeq(delay: Option<nat>): seq<nat> {
    if delay.Some? then [delay.value] else []
  }

  /** One request and its wait, then the rest of the run. */
  function After(delay: Option<nat>, rest: Run): Run {
    Run(rest.result, 1 + rest.calls, DelaySeq(delay) + rest.delays)
  }

  /** A run whose first `calls` requests and `delays` have already happened. */
  function Continue(calls: nat, delays: seq<nat>, rest: Run): Run {
    Run(rest.result, calls + rest.calls, delays + rest.delays)
  }

  /** Attempt `k` of the text path is `TextAttempt` on the `k`-th request. */
  function TextTries(service: nat -> ServiceOutcome, parse: string -> Option<Json>): nat -> AttemptOutcome {
    (k: nat) => TextAttempt(service(k), parse)
  }

  /** Attempt `k` of the vision path is `VisionAttempt` on the `k`-th request. */
  function VisionTries(service: nat -> ServiceOutcome, parse: string -> Option<Json>): nat -> AttemptOutcome {
    (k: nat) => VisionAttempt(service(k), parse)
  }

  lemma {:induction false} TextTriesStamped(service: nat -> ServiceOutcome, parse: string -> Option<Json>)
    ensures forall k: nat :: TextTries(service, parse)(k).Success? ==>
      AcceptedShape(TextTries(service, parse)(k).data) && MetadataIs(TextTries(service, parse)(k).data, "original_format", Str("text"))
  {
    forall k: nat | TextTries(service, parse)(k).Success?
      ensures AcceptedShape(TextTries(service, parse)(k).data) && MetadataIs(TextTries(service, parse)(k).data, "original_format", Str("text"))
    {
      assert TextTries(service, parse)(k) == TextAttempt(service(k), parse);
    }
  }

  lemma {:induction false} VisionTriesStamped(service: nat -> ServiceOutcome, parse: string -> Option<Json>)
    ensures forall k: nat :: VisionTries(service, parse)(k).Success? ==>
      AcceptedShape(VisionTries(service, parse)(k).data) && MetadataIs(VisionTries(service, parse)(k).data, "original_format", Str("image"))
  {
    forall k: nat | VisionTries(service, parse)(k).Success?
      ensures AcceptedShape(VisionTries(service, parse)(k).data) && MetadataIs(VisionTries(service, parse)(k).data, "original_format", Str("image"))
    {
      assert VisionTries(service, parse)(k) == VisionAttempt(service(k), parse);
    }
  }

  /** The text loop from attempt `attempt` up to `attempts`, attempt `k` giving
      `tries(k)`. */
  function TextRun(attempt: nat, attempts: int, tries: nat -> AttemptOutcome): Run
    decreases if attempt <= attempts then attempts - attempt + 1 else 0
  {
    if attempt > attempts then Run(Failed(TextFallback), 0, [])
    else
      match tries(attempt)
      case Success(data) => Run(Parsed(data), 1, [])
      case Failure(t) =>
        match TextCatch(attempt, attempts, t)
        case Stop(e) => Run(Failed(e), 1, [])
        case Retry(delay) => After(delay, TextRun(attempt + 1, attempts, tries))
  }

  /** The vision loop from attempt `attempt` up to `attempts`, attempt `k` giving
      `tries(k)`. */
  function VisionRun(attempt: nat, attempts: int, tries: nat -> AttemptOutcome): Run
    decreases if attempt <= attempts then attempts - attempt + 1 else 0
  {
    if attempt > attempts then Run(Failed(VisionFallback), 0, [])
    else
      match tries(attempt)
      case Success(data) => Run(Parsed(data), 1, [])
      case Failure(t) =>
        match VisionCatch(attempt, attempts, t)
        case Stop(e) => Run(Failed(e), 1, [])
        case Retry(delay) => After(delay, VisionRun(attempt + 1, attempts, tries))
  }

  lemma {:induction false} ContinueAfter(calls: nat, delays: seq<nat>, delay: Option<nat>, rest: Run)
    ensures Continue(calls, delays, After(delay, rest)) == Continue(calls + 1, delays + DelaySeq(delay), rest)
  {
    assert delays + (DelaySeq(delay) + rest.delays) == (delays + DelaySeq(delay)) + rest.delays;
  }

  /** `parseWithTextAPI`: attempts `1..attempts`, each one request. */
  method ParseWithTextApi(attempts: int, service: nat -> ServiceOutcome, parse: string -> Option<Json>)
    returns (result: ParseResult, calls: nat, delays: seq<nat>)
    ensures Run(result, calls, delays) == TextRun(1, attempts, TextTries(service, parse))
  {
    calls := 0;
    delays := [];
    var attempt: nat := 1;
    while attempt <= attempts
      invariant attempt >= 1
      invariant TextRun(1, attempts, TextTries(service, parse)) == Continue(calls, delays, TextRun(attempt, attempts, TextTries(service, parse)))
      decreases attempts - attempt
    {
      var tried := TextAttempt(service(attempt), parse);
      if tried.Success? {
        assert delays + [] == delays;
        return Parsed(tried.data), calls + 1, delays;
      }
      var decision := TextCatch(attempt, attempts, tried.thrown);
      if decision.Stop? {
        assert delays + [] == delays;
        return Failed(decision.error), calls + 1, delays;
      }
      ContinueAfter(calls, delays, decision.delay, TextRun(attempt + 1, attempts, TextTries(service, parse)));
      if decision.delay.Some? {
        delays := delays + [decision.delay.value];
      } else {
        assert delays + DelaySeq(decision.delay) == delays;
      }
      calls := calls + 1;
      attempt := attempt + 1;
    }
    assert delays + [] == delays;
    result := Failed(TextFallback);
  }

  /** `parseWithVisionAPI`: attempts `1..attempts`, each one request. */
  method ParseWithVisionApi(attempts: int, service: nat -> ServiceOutcome, parse: string -> Option<Json>)
    returns (result: ParseResult, calls: nat, delays: seq<nat>)
    ensures Run(result, calls, delays) == VisionRun(1, attempts, VisionTries(service, parse))
  {
    calls := 0;
    delays := [];
    var attempt: nat := 1;
    while attempt <= attempts
      invariant attempt >= 1
      invariant VisionRun(1, attempts, VisionTries(service, parse)) == Continue(calls, delays, VisionRun(attempt, attempts, VisionTries(service, parse)))
      decreases attempts - attempt
    {
      var tried := VisionAttempt(service(attempt), parse);
      if tried.Success? {
        assert delays + [] == delays;
        return Parsed(tried.data), calls + 1, delays;
      }
      var decision := VisionCatch(attempt, attempts, tried.thrown);
      if decision.Stop? {
        assert delays + [] == delays;
        return Failed(decision.error), calls + 1, delays;
      }
      ContinueAfter(calls, delays, decision.delay, VisionRun(attempt + 1, attempts, VisionTries(service, parse)));
      delays := delays + [decision.delay.value];
      calls := calls + 1;
      attempt := attempt + 1;
    }
    assert delays + [] == delays;
    result := Failed(VisionFallback);
  }

  // ---- What the text loop guarantees ----

  /** The text loop makes at most one request per remaining attempt and none when no
      attempt is left, in which case it returns the fallback `API_ERROR`; with an attempt
      left it never returns that fallback, and it waits less often than it calls. */
  lemma {:induction false} TextRunBounds(attempt: nat, attempts: int, tries: nat -> AttemptOutcome)
    ensures var r := TextRun(attempt, attempts, tries);
      && (attempt > attempts ==> r == Run(Failed(TextFallback), 0, []))
      && (attempt <= attempts ==> 1 <= r.calls <= attempts - attempt + 1 && r.result != Failed(TextFallback))
      && |r.delays| <= r.calls
      && (r.calls > 0 ==> |r.delays| < r.calls)
    decreases if attempt <= attempts then attempts - attempt + 1 else 0
  {
    if attempt <= attempts {
      var tried := tries(attempt);
      if tried.Failure? && TextCatch(attempt, attempts, tried.thrown).Retry? {
        TextRunBounds(attempt + 1, attempts, tries);
      }
    }
  }

  /** With `retryAttempts < 1` the text loop makes no request and returns the fallback
      `API_ERROR`; otherwise at most `retryAttempts` requests. */
  lemma {:induction false} TextCallLimit(attempts: int, tries: nat -> AttemptOutcome)
    ensures attempts < 1 ==> TextRun(1, attempts, tries) == Run(Failed(TextFallback), 0, [])
    ensures attempts >= 1 ==> 1 <= TextRun(1, attempts, tries).calls <= attempts
  {
    TextRunBounds(1, attempts, tries);
  }

  /** Every error the text loop returns with an attempt left is a rate limit, an invalid
      key or a parsing error; a rate limit or parsing error is only returned after every
      attempt was made, and a rate limit carries `retryAfter = 2 ** attempts * 1000`. */
  lemma {:induction false} TextRunErrors(attempt: nat, attempts: int, tries: nat -> AttemptOutcome)
    requires 1 <= attempt <= attempts
    ensures var r := TextRun(attempt, attempts, tries);
      && (r.result.Failed? ==> r.result.error.kind in {RateLimit, AuthError, ParsingFailure})
      && (r.result.Failed? && r.result.error.kind == AuthError ==> r.result.error == InvalidKey)
      && (r.result.Failed? && r.result.error.kind == RateLimit ==>
            r.result.error == RateLimitExceeded(Backoff(attempts)) && r.calls == attempts - attempt + 1)
      && (r.result.Failed? && r.result.error.kind == ParsingFailure ==> r.calls == attempts - attempt + 1)
    decreases attempts - attempt
  {
    var tried := tries(attempt);
    if tried.Failure? && TextCatch(attempt, attempts, tried.thrown).Retry? {
      TextRunErrors(attempt + 1, attempts, tries);
    }
  }

  /** A failed attempt that is neither rate-limited nor an authentication failure. */
  predicate OrdinaryFailure(a: AttemptOutcome) {
    a.Failure? && !IsRateLimited(a.thrown) && !IsAuthFailure(a.thrown)
  }

  /** When attempts `attempt..k-1` fail in ordinary ways and attempt `k` is refused for its
      key, the loop returns `AUTH_ERROR` after exactly those requests, without waiting. */
  lemma {:induction false} AuthFailureEndsRun(attempt: nat, k: nat, attempts: int, tries: nat -> AttemptOutcome)
    requires 1 <= attempt <= k <= attempts
    requires forall j :: attempt <= j < k ==> OrdinaryFailure(tries(j))
    requires tries(k).Failure?
    requires !IsRateLimited(tries(k).thrown)
    requires IsAuthFailure(tries(k).thrown)
    ensures TextRun(attempt, attempts, tries) == Run(Failed(InvalidKey), k - attempt + 1, [])
    decreases k - attempt
  {
    if attempt < k {
      assert OrdinaryFailure(tries(attempt));
      AuthFailureEndsRun(attempt + 1, k, attempts, tries);
    }
  }

  /** The waits `2 ** a * 1000, ..., 2 ** (n - 1) * 1000`. */
  function BackoffSchedule(a: nat, n: int): seq<nat>
    decreases if a < n then n - a else 0
  {
    if a >= n then [] else [Backoff(a)] + BackoffSchedule(a + 1, n)
  }

  /** When every attempt from `attempt` on is rate-limited, the loop makes every request,
      waits the doubling schedule between them and returns `RATE_LIMIT` with
      `retryAfter = 2 ** attempts * 1000`. */
  lemma {:induction false} RateLimitedThroughout(attempt: nat, attempts: int, tries: nat -> AttemptOutcome)
    requires 1 <= attempt <= attempts
    requires forall j :: attempt <= j <= attempts ==>
      tries(j).Failure? && IsRateLimited(tries(j).thrown)
    ensures TextRun(attempt, attempts, tries)
            == Run(Failed(RateLimitExceeded(Backoff(attempts))), attempts - attempt + 1, BackoffSchedule(attempt, attempts))
    decreases attempts - attempt
  {
    if attempt < attempts {
      RateLimitedThroughout(attempt + 1, attempts, tries);
    }
  }

  /** Two rate limits and then an accepted reply: three requests, waits of 2 and 4
      seconds, and the accepted data. */
  lemma {:induction false} RateLimitedTwiceThenAccepted(attempts: int, tries: nat -> AttemptOutcome)
    requires attempts >= 3
    requires forall j :: 1 <= j <= 2 ==>
      tries(j).Failure? && IsRateLimited(tries(j).thrown)
    requires tries(3).Success?
    ensures TextRun(1, attempts, tries)
            == Run(Parsed(tries(3).data), 3, [2000, 4000])
  {
    var third := TextRun(3, attempts, tries);
    assert third == Run(Parsed(tries(3).data), 1, []);
    assert tries(2).Failure? && IsRateLimited(tries(2).thrown);
    assert Backoff(2) == 4000;
    var second := TextRun(2, attempts, tries);
    assert second == After(Some(4000), third);
    assert tries(1).Failure? && IsRateLimited(tries(1).thrown);
    assert Backoff(1) == 2000;
    assert TextRun(1, attempts, tries) == After(Some(2000), second);
  }

  /** The text loop returns the data of one of its attempts: when every attempt that
      succeeds gives an accepted reply stamped `'text'`, so does the loop. */
  lemma {:induction false} TextRunStampsText(attempt: nat, attempts: int, tries: nat -> AttemptOutcome)
    requires forall k :: tries(k).Success? ==>
      AcceptedShape(tries(k).data) && MetadataIs(tries(k).data, "original_format", Str("text"))
    ensures var r := TextRun(attempt, attempts, tries);
      r.result.Parsed? ==> AcceptedShape(r.result.data) && MetadataIs(r.result.data, "original_format", Str("text"))
    decreases if attempt <= attempts then attempts - attempt + 1 else 0
  {
    if attempt <= attempts {
      var tried := tries(attempt);
      if tried.Failure? && TextCatch(attempt, attempts, tried.thrown).Retry? {
        TextRunStampsText(attempt + 1, attempts, tries);
      }
    }
  }

  // ---- What the vision loop guarantees ----

  /** The vision loop makes at most one request per remaining attempt, returns the
      fallback `API_ERROR` only when no attempt is left, and returns a parsing error
      only after its last attempt. */
  lemma {:induction false} VisionRunBounds(attempt: nat, attempts: int, tries: nat -> AttemptOutcome)
    ensures var r := VisionRun(attempt, attempts, tries);
      && (attempt > attempts ==> r == Run(Failed(VisionFallback), 0, []))
      && (attempt <= attempts ==> 1 <= r.calls <= attempts - attempt + 1 && r.result != Failed(VisionFallback))
      && (attempt <= attempts && r.result.Failed? ==>
            r.result.error.kind == ParsingFailure && r.calls == attempts - attempt + 1)
    decreases if attempt <= attempts then attempts - attempt + 1 else 0
  {
    if attempt <= attempts {
      var tried := tries(attempt);
      if tried.Failure? && VisionCatch(attempt, attempts, tried.thrown).Retry? {
        VisionRunBounds(attempt + 1, attempts, tries);
      }
    }
  }

  /** Between two consecutive vision requests the loop waits `2 ** k * 1000` ms after
      attempt `k`: the waits are the doubling schedule up to the last request. */
  lemma {:induction false} VisionRunWaits(attempt: nat, attempts: int, tries: nat -> AttemptOutcome)
    ensures var r := VisionRun(attempt, attempts, tries);
      r.calls > 0 ==> r.delays == BackoffSchedule(attempt, attempt + r.calls - 1)
    decreases if attempt <= attempts then attempts - attempt + 1 else 0
  {
    if attempt <= attempts {
      var tried := tries(attempt);
      var r := VisionRun(attempt, attempts, tries);
      if tried.Failure? && VisionCatch(attempt, attempts, tried.thrown).Retry? {
        var rest := VisionRun(attempt + 1, attempts, tries);
        assert r == After(Some(Backoff(attempt)), rest);
        VisionRunWaits(attempt + 1, attempts, tries);
        VisionRunBounds(attempt + 1, attempts, tries);
        assert r.delays == [Backoff(attempt)] + rest.delays;
        assert attempt + r.calls - 1 == attempt + rest.calls;
        assert BackoffSchedule(attempt, attempt + rest.calls) == [Backoff(attempt)] + BackoffSchedule(attempt + 1, attempt + rest.calls);
      } else {
        assert r.calls == 1 && r.delays == [];
      }
    }
  }

  /** The vision loop returns the data of one of its attempts: when every attempt that
      succeeds gives an accepted reply stamped `'image'`, so does the loop. */
  lemma {:induction false} VisionRunStampsImage(attempt: nat, attempts: int, tries: nat -> AttemptOutcome)
    requires forall k :: tries(k).Success? ==>
      AcceptedShape(tries(k).data) && MetadataIs(tries(k).data, "original_format", Str("image"))
    ensures var r := VisionRun(attempt, attempts, tries);
      r.result.Parsed? ==> AcceptedShape(r.result.data) && MetadataIs(r.result.data, "original_format", Str("image"))
    decreases if attempt <= attempts then attempts - attempt + 1 else 0
  {
    if attempt <= attempts {
      var tried := tries(attempt);
      if tried.Failure? && VisionCatch(attempt, attempts, tried.thrown).Retry? {
        VisionRunStampsImage(attempt + 1, attempts, tries);
      }
    }
  }

  // ---- parseSyllabusWithOpenAI ----

  /** What `parseSyllabusWithOpenAI` returns: the reply data, or `{ error }`. */
  datatype SyllabusOutcome = Syllabus(data: Json) | ParseFailed(error: ParsingError)

  const DefaultRetryAttempts: int := 3
  const DefaultConfidenceThreshold: real := 0.7

  /** The low-confidence warning; `fixed2` renders `toFixed(2)`. */
  function LowConfidenceWarning(confidence: real, fixed2: real -> string): string {
    "Low parsing confidence: " + fixed2(confidence)
  }

  /** The steps after a successful parse: the confidence gate (a push on a non-array
      warnings value throws, and the outer `catch` turns that into `API_ERROR`), then the
      `processing_time` stamp. */
  function FinishReply(data: Json, threshold: real, fixed2: real -> string, elapsed: nat): (r: SyllabusOutcome)
    requires AcceptedShape(data)
    ensures r.Syllabus? ==> MetadataIs(r.data, "processing_time", Num(elapsed as real))
  {
    var gated :=
      if Confidence(data) < threshold then AppendWarning(data, LowConfidenceWarning(Confidence(data), fixed2))
      else Some(data);
    match gated
    case None => ParseFailed(ParsingError(ApiError, NotAnArrayError.message, None))
    case Some(d) => Syllabus(SetMetadata(d, "processing_time", Num(elapsed as real)))
  }

  /** The gate adds the low-confidence warning after the existing ones exactly when the
      confidence is below the threshold, and otherwise leaves the warnings alone; only a
      truthy non-array warnings value below the threshold makes it fail. */
  lemma {:induction false} ConfidenceGate(data: Json, threshold: real, fixed2: real -> string, elapsed: nat)
    requires AcceptedShape(data)
    ensures var r := FinishReply(data, threshold, fixed2, elapsed);
      && (r.ParseFailed? <==> Confidence(data) < threshold && !WarningsAppendable(data))
      && (Confidence(data) >= threshold ==>
            r == Syllabus(SetMetadata(data, "processing_time", Num(elapsed as real))))
      && (Confidence(data) < threshold && WarningsAppendable(data) ==>
            r.Syllabus? &&
            Metadata(r.data) == Metadata(data)
              ["warnings" := Arr(Warnings(data) + [Str(LowConfidenceWarning(Confidence(data), fixed2))])]
              ["processing_time" := Num(elapsed as real)])
  {
  }

  /** `parseSyllabusWithOpenAI` as a function of its inputs: the key check, the route by
      processing method, the early return of anything with an `error` member, then the
      gate and the timing stamp. */
  function ParseSyllabus(method_: FileProcessor.ProcessingMethod, attempts: int, threshold: real,
                         keyConfigured: bool, service: nat -> ServiceOutcome, parse: string -> Option<Json>,
                         fixed2: real -> string, elapsed: nat): SyllabusOutcome
  {
    if !keyConfigured then ParseFailed(MissingKey)
    else
      var run := if method_ == FileProcessor.VisionApi then VisionRun(1, attempts, VisionTries(service, parse))
                 else TextRun(1, attempts, TextTries(service, parse));
      TextTriesStamped(service, parse);
      VisionTriesStamped(service, parse);
      TextRunStampsText(1, attempts, TextTries(service, parse));
      VisionRunStampsImage(1, attempts, VisionTries(service, parse));
      match run.result
      case Failed(e) => ParseFailed(e)
      case Parsed(data) =>
        if "error" in data.fields then Syllabus(data)
        else FinishReply(data, threshold, fixed2, elapsed)
  }

  /** The route's run decides the outcome: a failed run is returned as it is; an accepted
      reply keeps the `original_format` of its route ('image' for vision, 'text' otherwise)
      through the confidence gate, and gets the low-confidence warning after its own
      exactly when its confidence is below the threshold. */
  lemma {:induction false} ParseSyllabusOutcome(method_: FileProcessor.ProcessingMethod, attempts: int, threshold: real,
                                                service: nat -> ServiceOutcome, parse: string -> Option<Json>,
                                                fixed2: real -> string, elapsed: nat)
    ensures var r := ParseSyllabus(method_, attempts, threshold, true, service, parse, fixed2, elapsed);
      var format := if method_ == FileProcessor.VisionApi then "image" else "text";
      var run := if method_ == FileProcessor.VisionApi then VisionRun(1, attempts, VisionTries(service, parse))
                 else TextRun(1, attempts, TextTries(service, parse));
      && (run.result.Failed? ==> r == ParseFailed(run.result.error))
      && (run.result.Parsed? ==>
            AcceptedShape(run.result.data) && MetadataIs(run.result.data, "original_format", Str(format)))
      && (run.result.Parsed? && "error" !in run.result.data.fields ==>
            && r == FinishReply(run.result.data, threshold, fixed2, elapsed)
            && (r.ParseFailed? <==>
                  Confidence(run.result.data) < threshold && !WarningsAppendable(run.result.data))
            && (r.Syllabus? ==> MetadataIs(r.data, "original_format", Str(format)))
            && (r.Syllabus? && Confidence(run.result.data) < threshold ==>
                  MetadataIs(r.data, "warnings",
                    Arr(Warnings(run.result.data)
                        + [Str(LowConfidenceWarning(Confidence(run.result.data), fixed2))])))
            && (r.Syllabus? && Confidence(run.result.data) >= threshold ==>
                  Get(Obj(Metadata(r.data)), "warnings") == Get(Obj(Metadata(run.result.data)), "warnings")))
  {
    TextTriesStamped(service, parse);
    VisionTriesStamped(service, parse);
    TextRunStampsText(1, attempts, TextTries(service, parse));
    VisionRunStampsImage(1, attempts, VisionTries(service, parse));
    var run := if method_ == FileProcessor.VisionApi then VisionRun(1, attempts, VisionTries(service, parse))
               else TextRun(1, attempts, TextTries(service, parse));
    if run.result.Parsed? && "error" !in run.result.data.fields {
      ConfidenceGate(run.result.data, threshold, fixed2, elapsed);
    }
  }

  /** `parseSyllabusWithOpenAI`; `keyConfigured` is whether `OPENAI_API_KEY` is set and
      `elapsed` is `Date.now() - startTime` at the end. */
  method ParseSyllabusWithOpenAI(file: FileProcessor.ProcessedFile, attempts: int, threshold: real,
                                 keyConfigured: bool, service: nat -> ServiceOutcome,
                                 parse: string -> Option<Json>, fixed2: real -> string, elapsed: nat)
    returns (r: SyllabusOutcome)
    ensures r == ParseSyllabus(file.processingMethod, attempts, threshold, keyConfigured, service, parse, fixed2, elapsed)
    ensures !keyConfigured ==> r == ParseFailed(MissingKey)
  {
    if !keyConfigured {
      return ParseFailed(MissingKey);
    }
    var result: ParseResult;
    var calls: nat;
    var delays: seq<nat>;
    if file.processingMethod == FileProcessor.VisionApi {
      result, calls, delays := ParseWithVisionApi(attempts, service, parse);
    } else {
      result, calls, delays := ParseWithTextApi(attempts, service, parse);
    }
    TextTriesStamped(service, parse);
    VisionTriesStamped(service, parse);
    TextRunStampsText(1, attempts, TextTries(service, parse));
    VisionRunStampsImage(1, attempts, VisionTries(service, parse));
    if result.Failed? {
      return ParseFailed(result.error);
    }
    var data := result.data;
    if "error" in data.fields {
      return Syllabus(data);
    }
    r := FinishReply(data, threshold, fixed2, elapsed);
  }

  /** A vision reply accepted below the threshold ends with the reply's own warnings, then
      the image note, then the low-confidence warning. */
  lemma {:induction false} ImageNoteBeforeLowConfidence(outcome: ServiceOutcome, parse: string -> Option<Json>,
                                     threshold: real, fixed2: real -> string, elapsed: nat)
    requires ReadReply(outcome, "No content received from OpenAI Vision API", parse).Success?
    requires VisionAttempt(outcome, parse).Success?
    requires Confidence(VisionAttempt(outcome, parse).data) < threshold
    ensures var data := ReadReply(outcome, "No content received from OpenAI Vision API", parse).data;
      var done := VisionAttempt(outcome, parse).data;
      var r := FinishReply(done, threshold, fixed2, elapsed);
      && HasMetadata(data)
      && r.Syllabus?
      && Metadata(r.data)["warnings"]
         == Arr(Warnings(data) + [Str(ImageNote), Str(LowConfidenceWarning(Confidence(done), fixed2))])
  {
    VisionAttemptAppendsNote(outcome, parse);
    var data := ReadReply(outcome, "No content received from OpenAI Vision API", parse).data;
    var done := VisionAttempt(outcome, parse).data;
    var noted := Warnings(data) + [Str(ImageNote)];
    assert Metadata(done)["warnings"] == Arr(noted);
    GateAppendsAfter(done, threshold, fixed2, elapsed, noted);
    AppendTwo(Warnings(data), Str(ImageNote), Str(LowConfidenceWarning(Confidence(done), fixed2)));
  }

  lemma {:induction false} AppendTwo(w: seq<Json>, a: Json, b: Json)
    ensures w + [a] + [b] == w + [a, b]
  {
  }

  /** Below the threshold, a reply whose warnings are the array `w` ends with `w` followed
      by the low-confidence warning. */
  lemma {:induction false} GateAppendsAfter(done: Json, threshold: real, fixed2: real -> string, elapsed: nat,
                                            w: seq<Json>)
    requires AcceptedShape(done) && Confidence(done) < threshold
    requires "warnings" in Metadata(done) && Metadata(done)["warnings"] == Arr(w)
    ensures var r := FinishReply(done, threshold, fixed2, elapsed);
      r.Syllabus? && "warnings" in Metadata(r.data)
      && Metadata(r.data)["warnings"] == Arr(w + [Str(LowConfidenceWarning(Confidence(done), fixed2))])
  {
    assert Get(Obj(Metadata(done)), "warnings") == Some(Arr(w));
    assert Warnings(done) == w && WarningsAppendable(done);
    ConfidenceGate(done, threshold, fixed2, elapsed);
  }

  // ---- analyzeParsingQuality ----

  datatype Quality = Quality(score: nat, suggestions: seq<string>, strengths: seq<string>)

  const CompleteInfo := "Complete course information"
  const MoreDetails := "Consider extracting more course details"
  const AllDated := "All assignments have date information"
  const SomeUndated := "Some assignments missing date information"
  const AllTyped := "All assignments properly categorized"
  const SomeUntyped := "Some assignments missing type classification"
  const NoAssignments := "No assignments found - check syllabus format"
  const HighConfidence := "High parsing confidence"
  const ModerateConfidence := "Moderate parsing confidence - consider manual review"
  const LowConfidence := "Low parsing confidence - manual review recommended"

  /** `a.week || a.specific_date`. */
  predicate IsDated(a: Assignment) {
    HasWeek(a) || HasSpecificDate(a)
  }

  /** `a.type` is truthy. */
  predicate IsTyped(a: Assignment) {
    a.kind != ""
  }

  predicate AllDatedList(s: seq<Assignment>) {
    forall i :: 0 <= i < |s| ==> IsDated(s[i])
  }

  predicate AllTypedList(s: seq<Assignment>) {
    forall i :: 0 <= i < |s| ==> IsTyped(s[i])
  }

  /** The strength `Found ${n} assignments`. */
  function FoundMessage(n: nat): (m: string)
    ensures |m| > 0 && m[0] == 'F'
  {
    var m := "Found " + NatToString(n) + " assignments";
    assert m[0] == "Found "[0];
    m
  }

  /** The length of `filter(a => a.week || a.specific_date)`. */
  function CountDated(s: seq<Assignment>): (n: nat)
    ensures n <= |s|
  {
    if s == [] then 0 else CountDated(s[..|s| - 1]) + (if IsDated(s[|s| - 1]) then 1 else 0)
  }

  /** The length of `filter(a => a.type)`. */
  function CountTyped(s: seq<Assignment>): (n: nat)
    ensures n <= |s|
  {
    if s == [] then 0 else CountTyped(s[..|s| - 1]) + (if IsTyped(s[|s| - 1]) then 1 else 0)
  }

  lemma {:induction false} CountDatedFullIff(s: seq<Assignment>)
    ensures CountDated(s) == |s| <==> forall i :: 0 <= i < |s| ==> IsDated(s[i])
  {
    if s != [] {
      var init := s[..|s| - 1];
      CountDatedFullIff(init);
      assert forall i :: 0 <= i < |init| ==> init[i] == s[i];
    }
  }

  lemma {:induction false} CountTypedFullIff(s: seq<Assignment>)
    ensures CountTyped(s) == |s| <==> forall i :: 0 <= i < |s| ==> IsTyped(s[i])
  {
    if s != [] {
      var init := s[..|s| - 1];
      CountTypedFullIff(init);
      assert forall i :: 0 <= i < |init| ==> init[i] == s[i];
    }
  }

  /** The rubric, part by part: course information (up to 25), assignments (up to 50),
      confidence (up to 25). */
  function CourseInfoPoints(info: CourseInfo): nat {
    (if info.name != "" then 10 else 0) + (if Filled(info.code) then 5 else 0)
    + (if Filled(info.instructor) then 5 else 0) + (if Filled(info.semester) then 5 else 0)
  }

  function AssignmentPoints(s: seq<Assignment>): nat {
    if s == [] then 0
    else 20 + (if AllDatedList(s) then 15 else 0) + (if AllTypedList(s) then 15 else 0)
  }

  function ConfidencePoints(c: real): nat {
    if c >= 0.8 then 25 else if c >= 0.6 then 15 else 0
  }

  /** A syllabus with every course field, only dated and typed assignments (at least
      one) and high confidence. */
  predicate Exemplary(data: SyllabusData) {
    && data.courseInfo.name != "" && Filled(data.courseInfo.code)
    && Filled(data.courseInfo.instructor) && Filled(data.courseInfo.semester)
    && data.assignments != []
    && AllDatedList(data.assignments) && AllTypedList(data.assignments)
    && data.parsingConfidence >= 0.8
  }

  /** The course-information part of `analyzeParsingQuality` (25 points). */
  method CheckCourseInfo(info: CourseInfo) returns (points: nat, strengths: seq<string>, suggestions: seq<string>)
    ensures points == CourseInfoPoints(info)
    ensures strengths == (if points >= 20 then [CompleteInfo] else [])
    ensures suggestions == (if points >= 20 then [] else [MoreDetails])
  {
    points := 0;
    if info.name != "" { points := points + 10; }
    if Filled(info.code) { points := points + 5; }
    if Filled(info.instructor) { points := points + 5; }
    if Filled(info.semester) { points := points + 5; }
    if points >= 20 {
      strengths, suggestions := [CompleteInfo], [];
    } else {
      strengths, suggestions := [], [MoreDetails];
    }
  }

  /** The assignment part of `analyzeParsingQuality` (50 points). */
  method CheckAssignments(assignments: seq<Assignment>) returns (points: nat, strengths: seq<string>, suggestions: seq<string>)
    ensures points == AssignmentPoints(assignments)
    ensures |strengths| + |suggestions| == if assignments == [] then 1 else 3
    ensures NoAssignments in suggestions <==> assignments == []
    ensures FoundMessage(|assignments|) in strengths <==> assignments != []
    ensures AllDated in strengths <==> assignments != [] && AllDatedList(assignments)
    ensures SomeUndated in suggestions <==> assignments != [] && !AllDatedList(assignments)
    ensures AllTyped in strengths <==> assignments != [] && AllTypedList(assignments)
    ensures SomeUntyped in suggestions <==> assignments != [] && !AllTypedList(assignments)
    ensures forall m :: m in strengths ==>
      m == FoundMessage(|assignments|) || m == AllDated || m == AllTyped
    ensures forall m :: m in suggestions ==>
      m == NoAssignments || m == SomeUndated || m == SomeUntyped
    ensures CompleteInfo !in strengths && HighConfidence !in strengths
    ensures MoreDetails !in suggestions && ModerateConfidence !in suggestions && LowConfidence !in suggestions
  {
    QualityMessagesDistinct(|assignments|);
    strengths, suggestions := [], [];
    points := 0;
    if |assignments| > 0 {
      points := points + 20;
      strengths := strengths + [FoundMessage(|assignments|)];
      CountDatedFullIff(assignments);
      if CountDated(assignments) == |assignments| {
        points := points + 15;
        strengths := strengths + [AllDated];
      } else {
        suggestions := suggestions + [SomeUndated];
      }
      CountTypedFullIff(assignments);
      if CountTyped(assignments) == |assignments| {
        points := points + 15;
        strengths := strengths + [AllTyped];
      } else {
        suggestions := suggestions + [SomeUntyped];
      }
    } else {
      suggestions := suggestions + [NoAssignments];
    }
  }

  /** The confidence part of `analyzeParsingQuality` (25 points). */
  method CheckConfidence(confidence: real) returns (points: nat, strengths: seq<string>, suggestions: seq<string>)
    ensures points == ConfidencePoints(confidence)
    ensures strengths == (if confidence >= 0.8 then [HighConfidence] else [])
    ensures suggestions == (if confidence >= 0.8 then [] else if confidence >= 0.6 then [ModerateConfidence] else [LowConfidence])
  {
    if confidence >= 0.8 {
      points, strengths, suggestions := 25, [HighConfidence], [];
    } else if confidence >= 0.6 {
      points, strengths, suggestions := 15, [], [ModerateConfidence];
    } else {
      points, strengths, suggestions := 0, [], [LowConfidence];
    }
  }

  /** `analyzeParsingQuality`: the three parts in order, their points added up and their
      messages collected. */
  method AnalyzeParsingQuality(data: SyllabusData) returns (q: Quality)
    ensures q.score == CourseInfoPoints(data.courseInfo) + AssignmentPoints(data.assignments)
                       + ConfidencePoints(data.parsingConfidence)
    ensures q.score <= 100
    ensures q.score == 100 <==> Exemplary(data)
    ensures |q.strengths| + |q.suggestions| == if data.assignments == [] then 3 else 5
    ensures NoAssignments in q.suggestions <==> data.assignments == []
    ensures CompleteInfo in q.strengths <==> CourseInfoPoints(data.courseInfo) >= 20
    ensures HighConfidence in q.strengths <==> data.parsingConfidence >= 0.8
    ensures ModerateConfidence in q.suggestions <==> 0.6 <= data.parsingConfidence < 0.8
    ensures LowConfidence in q.suggestions <==> data.parsingConfidence < 0.6
    ensures FoundMessage(|data.assignments|) in q.strengths <==> data.assignments != []
    ensures AllDated in q.strengths <==> data.assignments != [] && AllDatedList(data.assignments)
    ensures SomeUndated in q.suggestions <==> data.assignments != [] && !AllDatedList(data.assignments)
    ensures AllTyped in q.strengths <==> data.assignments != [] && AllTypedList(data.assignments)
    ensures SomeUntyped in q.suggestions <==> data.assignments != [] && !AllTypedList(data.assignments)
  {
    var infoPoints, infoStrengths, infoSuggestions := CheckCourseInfo(data.courseInfo);
    var listPoints, listStrengths, listSuggestions := CheckAssignments(data.assignments);
    var confidencePoints, confidenceStrengths, confidenceSuggestions := CheckConfidence(data.parsingConfidence);
    ScoreMeaning(data);
    StrengthsCollected(data, infoStrengths, listStrengths, confidenceStrengths);
    SuggestionsCollected(data, infoSuggestions, listSuggestions, confidenceSuggestions);
    q := Quality(infoPoints + listPoints + confidencePoints,
                 infoSuggestions + listSuggestions + confidenceSuggestions,
                 infoStrengths + listStrengths + confidenceStrengths);
  }

  /** Which strengths the three parts collect together. */
  lemma {:induction false} StrengthsCollected(data: SyllabusData, info: seq<string>, list: seq<string>,
                                              confidence: seq<string>)
    requires info == (if CourseInfoPoints(data.courseInfo) >= 20 then [CompleteInfo] else [])
    requires confidence == (if data.parsingConfidence >= 0.8 then [HighConfidence] else [])
    requires FoundMessage(|data.assignments|) in list <==> data.assignments != []
    requires AllDated in list <==> data.assignments != [] && AllDatedList(data.assignments)
    requires AllTyped in list <==> data.assignments != [] && AllTypedList(data.assignments)
    requires CompleteInfo !in list && HighConfidence !in list
    ensures var all := info + list + confidence;
      && (CompleteInfo in all <==> CourseInfoPoints(data.courseInfo) >= 20)
      && (HighConfidence in all <==> data.parsingConfidence >= 0.8)
      && (FoundMessage(|data.assignments|) in all <==> data.assignments != [])
      && (AllDated in all <==> data.assignments != [] && AllDatedList(data.assignments))
      && (AllTyped in all <==> data.assignments != [] && AllTypedList(data.assignments))
  {
    MessagesDistinct();
    QualityMessagesDistinct(|data.assignments|);
    InMiddle(FoundMessage(|data.assignments|), info, list, confidence);
    InMiddle(AllDated, info, list, confidence);
    InMiddle(AllTyped, info, list, confidence);
  }

  /** Which suggestions the three parts collect together. */
  lemma {:induction false} SuggestionsCollected(data: SyllabusData, info: seq<string>, list: seq<string>,
                                                confidence: seq<string>)
    requires info == (if CourseInfoPoints(data.courseInfo) >= 20 then [] else [MoreDetails])
    requires confidence == (if data.parsingConfidence >= 0.8 then []
                            else if data.parsingConfidence >= 0.6 then [ModerateConfidence] else [LowConfidence])
    requires NoAssignments in list <==> data.assignments == []
    requires SomeUndated in list <==> data.assignments != [] && !AllDatedList(data.assignments)
    requires SomeUntyped in list <==> data.assignments != [] && !AllTypedList(data.assignments)
    requires MoreDetails !in list && ModerateConfidence !in list && LowConfidence !in list
    ensures var all := info + list + confidence;
      && (NoAssignments in all <==> data.assignments == [])
      && (ModerateConfidence in all <==> 0.6 <= data.parsingConfidence < 0.8)
      && (LowConfidence in all <==> data.parsingConfidence < 0.6)
      && (SomeUndated in all <==> data.assignments != [] && !AllDatedList(data.assignments))
      && (SomeUntyped in all <==> data.assignments != [] && !AllTypedList(data.assignments))
  {
    MessagesDistinct();
    QualityMessagesDistinct(|data.assignments|);
    InMiddle(NoAssignments, info, list, confidence);
    InMiddle(SomeUndated, info, list, confidence);
    InMiddle(SomeUntyped, info, list, confidence);
  }

  /** A message that neither outer part holds is in the three parts exactly when the
      middle part holds it. */
  lemma {:induction false} InMiddle(m: string, a: seq<string>, b: seq<string>, c: seq<string>)
    requires m !in a && m !in c
    ensures m in a + b + c <==> m in b
  {
  }

  /** The three parts add up to at most 100, and to 100 exactly for an exemplary result. */
  lemma {:induction false} ScoreMeaning(data: SyllabusData)
    ensures CourseInfoPoints(data.courseInfo) + AssignmentPoints(data.assignments)
            + ConfidencePoints(data.parsingConfidence) <= 100
    ensures (CourseInfoPoints(data.courseInfo) + AssignmentPoints(data.assignments)
             + ConfidencePoints(data.parsingConfidence) == 100) <==> Exemplary(data)
  {
  }

  /** The assignment messages differ from each other and from the course-information and
      confidence ones. */
  lemma {:induction false} QualityMessagesDistinct(n: nat)
    ensures FoundMessage(n) != AllDated && FoundMessage(n) != AllTyped && AllDated != AllTyped
    ensures FoundMessage(n) != CompleteInfo && FoundMessage(n) != HighConfidence
    ensures AllDated != CompleteInfo && AllDated != HighConfidence
    ensures AllTyped != CompleteInfo && AllTyped != HighConfidence
    ensures NoAssignments != SomeUndated && NoAssignments != SomeUntyped && SomeUndated != SomeUntyped
    ensures SomeUndated != MoreDetails && SomeUndated != ModerateConfidence && SomeUndated != LowConfidence
    ensures SomeUntyped != MoreDetails && SomeUntyped != ModerateConfidence && SomeUntyped != LowConfidence
  {
    assert AllDated[0] == 'A' && AllTyped[0] == 'A' && CompleteInfo[0] == 'C' && HighConfidence[0] == 'H';
    assert |AllDated| != |AllTyped|;
    assert NoAssignments[0] == 'N' && SomeUndated[0] == 'S' && MoreDetails[0] == 'C';
    assert |SomeUndated| != |ModerateConfidence| && |SomeUndated| != |LowConfidence|;
    assert |SomeUntyped| != |ModerateConfidence| && |SomeUntyped| != |LowConfidence|;
    assert |SomeUndated| != |SomeUntyped|;
  }

  /** The course-information suggestion is none of the confidence or assignment ones. */
  lemma {:induction false} MessagesDistinct()
    ensures MoreDetails != NoAssignments && MoreDetails != ModerateConfidence && MoreDetails != LowConfidence
    ensures CompleteInfo != HighConfidence && ModerateConfidence != LowConfidence
  {
    assert |MoreDetails| != |NoAssignments| && |MoreDetails| != |ModerateConfidence|;
    assert CompleteInfo[0] != HighConfidence[0];
  }

  /** The course-information strength needs the name and two of code, instructor and
      semester. */
  lemma {:induction false} CompleteInfoIff(info: CourseInfo)
    ensures CourseInfoPoints(info) >= 20 <==>
      info.name != "" &&
      ((Filled(info.code) && Filled(info.instructor)) || (Filled(info.code) && Filled(info.semester))
       || (Filled(info.instructor) && Filled(info.semester)))
  {
  }

  // ---- chooseOptimalModel ----

  /** `chooseOptimalModel`: the larger model when length (in UTF-16 code units) plus
      line-feed count exceeds 200. */
  function ChooseOptimalModel(text: string): (model: string)
    ensures model == "gpt-4" || model == "gpt-4o-mini"
  {
    var complexity := Utf16Length(text) + CountChar(text, '\n');
    if complexity > 200 then "gpt-4" else "gpt-4o-mini"
  }

  /** The larger model exactly when code units plus line feeds exceed 200. Texts over 200
      characters always get it and texts of at most 100 never do, even when every
      character is a surrogate pair; appending text never switches back to the smaller
      model. */
  lemma {:induction false} ModelChoiceBounds(text: string, more: string)
    ensures ChooseOptimalModel(text) == "gpt-4" <==> Utf16Length(text) + CountChar(text, '\n') > 200
    ensures |text| > 200 ==> ChooseOptimalModel(text) == "gpt-4"
    ensures |text| <= 100 ==> ChooseOptimalModel(text) == "gpt-4o-mini"
    ensures ChooseOptimalModel(text) == "gpt-4" ==> ChooseOptimalModel(text + more) == "gpt-4"
  {
    assert "gpt-4"[4] == '4' && "gpt-4o-mini"[4] == '4' && "gpt-4" != "gpt-4o-mini";
    Utf16LengthWithNewlines(text);
    CountCharAppend(text, more, '\n');
    Utf16LengthAppend(text, more);
  }

  /** A hundred and one emoji are 202 code units, so they already get the larger
      model. */
  lemma {:induction false} AstralTextCountsTwice()
    ensures ChooseOptimalModel(seq(101, _ => '\U{1F600}')) == "gpt-4"
  {
    var text := seq(101, _ => '\U{1F600}');
    AstralLength(text);
    assert CountChar(text, '\n') >= 0;
  }
}
