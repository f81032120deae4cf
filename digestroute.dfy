/**
 * The `GET` and `POST` handlers of src/routes/api/digest/+server.js: the
 * authentication guard, the range checks on the parameters, the call to
 * the pipeline and the mapping of its errors to responses. `parseInt` and
 * JSON body parsing are taken as done: a parameter is an integer or
 * absent.
 */
module DigestRoute {
  import opened Wrappers
  import opened Text
  import opened Ai
  import opened Digests
  import opened MemoryCache
  import opened Agent
  import opened HackerNews

  const UnauthorizedMessage := "Unauthorized"
  const LimitMessage := "Story limit must be between 1 and 50"
  const HoursMessage := "Hours back must be between 1 and 168 (1 week)"
  const KeyNotConfigured := "OpenAI API key not configured. Please set OPENAI_API_KEY environment variable."
  const GenerationFailed := "Failed to generate digest. Please try again later."

  /** The text the handlers look for in an error's message. */
  const KeyMarker := "OpenAI API key"

  datatype Body = ErrorBody(error: string) | DigestBody(digest: Digest)

  datatype Response = Response(status: int, body: Body)

  /** What a handler does with a request before any generation: answer at once, or generate. */
  datatype Decision = Reject(response: Response) | Generate(storyLimit: int, hoursBack: int)

  /**
   * The JSON body of a `POST`: text that does not parse, or `null`, both of
   * which make the destructuring throw; a parsed value that is not an object
   * (a number, a string, an array), which has neither field; or an object
   * whose two fields may be absent.
   */
  datatype PostBody = Unparseable | NotAnObject | PostParams(storyLimit: Option<int>, hoursBack: Option<int>)

  /** The range checks shared by both handlers: the story limit first, then the hours back. */
  function CheckRanges(storyLimit: int, hoursBack: int): (d: Decision)
    ensures !(1 <= storyLimit <= 50) ==> d == Reject(Response(400, ErrorBody(LimitMessage)))
    ensures 1 <= storyLimit <= 50 && !(1 <= hoursBack <= 168) ==> d == Reject(Response(400, ErrorBody(HoursMessage)))
    ensures d.Generate? <==> 1 <= storyLimit <= 50 && 1 <= hoursBack <= 168
    ensures d.Generate? ==> d == Generate(storyLimit, hoursBack)
  {
    if storyLimit < 1 || storyLimit > 50 then Reject(Response(400, ErrorBody(LimitMessage)))
    else if hoursBack < 1 || hoursBack > 168 then Reject(Response(400, ErrorBody(HoursMessage)))
    else Generate(storyLimit, hoursBack)
  }

  /** `GET`: 401 before anything else, then the query parameters with defaults 12 and 24. */
  function DecideGet(authenticated: bool, limit: Option<int>, hours: Option<int>): (d: Decision)
    ensures !authenticated ==> d == Reject(Response(401, ErrorBody(UnauthorizedMessage)))
    ensures authenticated ==> d == CheckRanges(limit.GetOr(12), hours.GetOr(24))
  {
    if !authenticated then Reject(Response(401, ErrorBody(UnauthorizedMessage)))
    else CheckRanges(limit.GetOr(12), hours.GetOr(24))
  }

  /**
   * `POST`: 401 before the body is read; a body that does not parse, or
   * `null`, lands in the generic 500; a body without the fields takes the
   * defaults 12 and 24.
   */
  function DecidePost(authenticated: bool, body: PostBody): (d: Decision)
    ensures !authenticated ==> d == Reject(Response(401, ErrorBody(UnauthorizedMessage)))
    ensures authenticated && body.Unparseable? ==> d == Reject(Response(500, ErrorBody(GenerationFailed)))
    ensures authenticated && body.NotAnObject? ==> d == CheckRanges(12, 24)
    ensures authenticated && body.PostParams? ==>
      d == CheckRanges(body.storyLimit.GetOr(12), body.hoursBack.GetOr(24))
  {
    if !authenticated then Reject(Response(401, ErrorBody(UnauthorizedMessage)))
    else match body
      case Unparseable => Reject(Response(500, ErrorBody(GenerationFailed)))
      case NotAnObject => CheckRanges(12, 24)
      case PostParams(storyLimit, hoursBack) => CheckRanges(storyLimit.GetOr(12), hoursBack.GetOr(24))
  }

  /** The two handlers decide alike on the same parameters. */
  lemma GetAndPostAgree(authenticated: bool, limit: Option<int>, hours: Option<int>)
    ensures DecidePost(authenticated, PostParams(limit, hours)) == DecideGet(authenticated, limit, hours)
  {
  }

  /** A limit out of range is reported whatever the hours are: the hours are checked only after it. */
  lemma LimitCheckedFirst(authenticated: bool, limit: Option<int>, hours: Option<int>, hours': Option<int>)
    requires !(1 <= limit.GetOr(12) <= 50)
    ensures DecideGet(authenticated, limit, hours) == DecideGet(authenticated, limit, hours')
    ensures authenticated ==> DecideGet(authenticated, limit, hours) == Reject(Response(400, ErrorBody(LimitMessage)))
  {
  }

  /** Absent parameters are the limit 12 and the hours 24, which pass the checks. */
  lemma DefaultsGenerate()
    ensures DecideGet(true, None, None) == Generate(12, 24)
    ensures DecidePost(true, PostParams(None, None)) == Generate(12, 24)
    ensures DecidePost(true, NotAnObject) == Generate(12, 24)
  {
  }

  /** The `catch` of both handlers: the key message for an error about the key, the generic one otherwise. */
  function ErrorResponse(message: string): (r: Response)
    ensures r.status == 500
    ensures Includes(message, KeyMarker) ==> r.body == ErrorBody(KeyNotConfigured)
    ensures !Includes(message, KeyMarker) ==> r.body == ErrorBody(GenerationFailed)
  {
    if Includes(message, KeyMarker) then Response(500, ErrorBody(KeyNotConfigured))
    else Response(500, ErrorBody(GenerationFailed))
  }

  /** The response to what `generateDigest` produced. */
  function Respond(generated: Result<Digest>): (r: Response)
    ensures generated.Success? ==> r == Response(200, DigestBody(generated.value))
    ensures generated.Failure? ==> r == ErrorResponse(generated.error)
  {
    match generated
    case Success(digest) => Response(200, DigestBody(digest))
    case Failure(message) => ErrorResponse(message)
  }

  /** The pipeline's missing-key error is the one the handlers single out. */
  lemma MissingKeyIsRecognised()
    ensures Includes(KeyMissing, KeyMarker)
    ensures ErrorResponse(KeyMissing) == Response(500, ErrorBody(KeyNotConfigured))
  {
    assert KeyMarker == ApiKeyPhrase;
    assert KeyMissing[..|KeyMarker|] == KeyMarker;
    assert OccursAt(KeyMissing, KeyMarker, 0);
    OccurrenceIncludes(KeyMissing, KeyMarker, 0);
  }

  /** The configuration that both handlers pass to `generateDigest`. */
  function RequestConfig(storyLimit: int, hoursBack: int, envKey: Option<string>): Config {
    Config(Some(storyLimit), Some(hoursBack), envKey)
  }

  /**
   * With no key in the environment and nothing cached, a valid request
   * ends in the 500 that names the key.
   */
  lemma NoKeyGivesKeyError(storyLimit: int, hoursBack: int, m: map<string, Entry>, now: int, svc: Services)
    requires 1 <= storyLimit <= 50 && 1 <= hoursBack <= 168
    requires Lookup(m, Merge(DefaultConfig(None), RequestConfig(storyLimit, hoursBack, None)), now).None?
    ensures Respond(Generated(m, Merge(DefaultConfig(None), RequestConfig(storyLimit, hoursBack, None)), now, svc))
         == Response(500, ErrorBody(KeyNotConfigured))
  {
    MissingKeyIsRecognised();
  }

  /** Runs a decision: a rejection answers at once, a generation calls the pipeline and maps its outcome. */
  method Handle(d: Decision, envKey: Option<string>, now: int, storedAt: int, svc: Services, cache: DigestCache, ai: AiClient)
    returns (resp: Response)
    modifies cache, ai
    ensures d.Reject? ==> resp == d.response && cache.cache == old(cache.cache) && ai.openai == old(ai.openai)
    ensures d.Generate? ==>
      var finalConfig := Merge(DefaultConfig(envKey), RequestConfig(d.storyLimit, d.hoursBack, envKey));
      var hit := Lookup(old(cache.cache), finalConfig, now);
      var generated := Generated(old(cache.cache), finalConfig, now, svc);
      && resp == Respond(generated)
      && (hit.Some? ==> cache.cache == old(cache.cache) && ai.openai == old(ai.openai))
      && (hit.None? && generated.Success? ==>
            cache.cache == Store(AfterLookup(old(cache.cache), finalConfig, now), finalConfig, generated.value, None, storedAt))
      && (hit.None? && generated.Failure? ==> cache.cache == AfterLookup(old(cache.cache), finalConfig, now))
      && (hit.None? && !Truthy(finalConfig.openaiApiKey) ==> ai.openai == old(ai.openai))
      && (hit.None? && Truthy(finalConfig.openaiApiKey) ==> ai.openai == finalConfig.openaiApiKey)
  {
    match d
    case Reject(response) =>
      return response;
    case Generate(storyLimit, hoursBack) =>
      var digest := GenerateDigest(RequestConfig(storyLimit, hoursBack, envKey), envKey, now, storedAt, svc, cache, ai);
      return Respond(digest);
  }

  /** `GET(request)`. */
  method HandleGet(authenticated: bool, limit: Option<int>, hours: Option<int>, envKey: Option<string>,
                   now: int, storedAt: int, svc: Services, cache: DigestCache, ai: AiClient) returns (resp: Response)
    modifies cache, ai
    ensures var d := DecideGet(authenticated, limit, hours);
      d.Reject? ==> resp == d.response && cache.cache == old(cache.cache) && ai.openai == old(ai.openai)
    ensures var d := DecideGet(authenticated, limit, hours);
      d.Generate? ==>
        var finalConfig := Merge(DefaultConfig(envKey), RequestConfig(d.storyLimit, d.hoursBack, envKey));
        var hit := Lookup(old(cache.cache), finalConfig, now);
        var generated := Generated(old(cache.cache), finalConfig, now, svc);
        && resp == Respond(generated)
        && (hit.Some? ==> cache.cache == old(cache.cache) && ai.openai == old(ai.openai))
        && (hit.None? && generated.Success? ==>
              cache.cache == Store(AfterLookup(old(cache.cache), finalConfig, now), finalConfig, generated.value, None, storedAt))
        && (hit.None? && generated.Failure? ==> cache.cache == AfterLookup(old(cache.cache), finalConfig, now))
        && (hit.None? && !Truthy(finalConfig.openaiApiKey) ==> ai.openai == old(ai.openai))
        && (hit.None? && Truthy(finalConfig.openaiApiKey) ==> ai.openai == finalConfig.openaiApiKey)
  {
    resp := Handle(DecideGet(authenticated, limit, hours), envKey, now, storedAt, svc, cache, ai);
  }

  /** `POST(request)`. */
  method HandlePost(authenticated: bool, body: PostBody, envKey: Option<string>,
                    now: int, storedAt: int, svc: Services, cache: DigestCache, ai: AiClient) returns (resp: Response)
    modifies cache, ai
    ensures var d := DecidePost(authenticated, body);
      d.Reject? ==> resp == d.response && cache.cache == old(cache.cache) && ai.openai == old(ai.openai)
    ensures var d := DecidePost(authenticated, body);
      d.Generate? ==>
        var finalConfig := Merge(DefaultConfig(envKey), RequestConfig(d.storyLimit, d.hoursBack, envKey));
        var hit := Lookup(old(cache.cache), finalConfig, now);
        var generated := Generated(old(cache.cache), finalConfig, now, svc);
        && resp == Respond(generated)
        && (hit.Some? ==> cache.cache == old(cache.cache) && ai.openai == old(ai.openai))
        && (hit.None? && generated.Success? ==>
              cache.cache == Store(AfterLookup(old(cache.cache), finalConfig, now), finalConfig, generated.value, None, storedAt))
        && (hit.None? && generated.Failure? ==> cache.cache == AfterLookup(old(cache.cache), finalConfig, now))
        && (hit.None? && !Truthy(finalConfig.openaiApiKey) ==> ai.openai == old(ai.openai))
        && (hit.None? && Truthy(finalConfig.openaiApiKey) ==> ai.openai == finalConfig.openaiApiKey)
  {
    resp := Handle(DecidePost(authenticated, body), envKey, now, storedAt, svc, cache, ai);
  }
}
