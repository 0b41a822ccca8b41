/**
 * The serverless story endpoint: the method and key gate in front of it, the prompt
 * it builds from the request body, and `safeParse`, which turns the model's reply
 * into a story record. The upstream HTTP exchange is the abstract function `fetch`
 * and `JSON.parse` is the abstract function `parse`.
 */
module GenerateApi {
  import opened JsSemantics
  import OpenAIService

  /** The fields the handler reads from the JSON request body; each may be `undefined`. */
  datatype GenerateRequest = GenerateRequest(
    genre: Option<string>,
    length: Option<string>,
    tone: Option<string>,
    perspective: Option<string>,
    difficulty: Option<string>,
    storyId: Option<string>,
    previousContent: Option<string>,
    userAction: Option<string>,
    storyContext: Option<string>,
    isFirstGeneration: Option<bool>)

  /** The fixed passages of the two prompts and the three known seeds, looked up by name. */
  datatype Passage =
    | MoonlightPactSeed | EchoesTomorrowSeed | SilentCitySeed
    | OpeningLead | OpeningAfterDifficulty | OpeningTail
    | ContinuationAfterGenre | ContinuationAfterAction | ContinuationTail

  function Text(p: Passage): string {
    match p
    case MoonlightPactSeed =>
      "The story begins on the eve of a blood moon, where a secret could bind the protagonist to a world beyond their own."
    case EchoesTomorrowSeed => "A voice from the future warns the protagonist of a choice that will change everything."
    case SilentCitySeed => "Everyone vanished overnight, except the protagonist, and the streets are waiting for something."
    case OpeningLead => "Create the opening scene as JSON.\nRules:\n- Perspective: "
    case OpeningAfterDifficulty => "\n- End with 3 meaningful action choices\n\nSeed: "
    case OpeningTail =>
      "\n\nReturn JSON:\n{\n  \"title\": \"Story Title\",\n  \"content\": \"Story text...\",\n  \"chapter\": 1,\n  \"choices\": [\"Action 1\", \"Action 2\", \"Action 3\"],\n  \"actionPrompt\": \"What do you do?\",\n  \"storyState\": \"Where things stand\",\n  \"characterInfo\": \"Key character info\",\n  \"worldInfo\": \"Key world info\"\n}"
    case ContinuationAfterGenre => " story based on the user's action.\nContext:\n"
    case ContinuationAfterAction => "\n\nRules:\n- Keep tone "
    case ContinuationTail =>
      "\n- Maintain continuity\n- End with 3 new action choices\n\nReturn JSON:\n{\n  \"content\": \"Continuation...\",\n  \"choices\": [\"New Action 1\", \"New Action 2\", \"New Action 3\"],\n  \"actionPrompt\": \"What do you do next?\",\n  \"storyState\": \"Updated state\",\n  \"characterInfo\": \"Updated if changed\",\n  \"worldInfo\": \"Updated if changed\"\n}"
  }

  const CONTINUATION_LEAD: string := "Continue the interactive "
  const PREVIOUS_HEADING: string := "\n\nPrevious:\n"
  const ACTION_HEADING: string := "\n\nUser Action:\n"

  /** `isFirstGeneration !== false`: only an explicit `false` asks for a continuation. */
  predicate IsFirst(p: GenerateRequest) {
    p.isFirstGeneration != Some(false)
  }

  /** The seed passage of each known story id. */
  function KnownSeed(storyId: Option<string>): (r: Option<Passage>)
    ensures r.Some? <==> storyId.Some? && OpenAIService.IsKnownStory(storyId.value)
    ensures storyId == Some(OpenAIService.MOONLIGHT_PACT) ==> r == Some(MoonlightPactSeed)
    ensures storyId == Some(OpenAIService.ECHOES_TOMORROW) ==> r == Some(EchoesTomorrowSeed)
    ensures storyId == Some(OpenAIService.SILENT_CITY) ==> r == Some(SilentCitySeed)
  {
    if storyId == Some(OpenAIService.MOONLIGHT_PACT) then Some(MoonlightPactSeed)
    else if storyId == Some(OpenAIService.ECHOES_TOMORROW) then Some(EchoesTomorrowSeed)
    else if storyId == Some(OpenAIService.SILENT_CITY) then Some(SilentCitySeed)
    else None
  }

  /** The seed sentence: fixed for the three known story ids, `Begin a ${genre} adventure.` otherwise. */
  function Seed(storyId: Option<string>, genre: string): (seed: string)
    ensures KnownSeed(storyId).Some? ==> seed == Text(KnownSeed(storyId).value)
    ensures KnownSeed(storyId).None? ==> Contains(seed, genre)
  {
    match KnownSeed(storyId)
    case Some(passage) => Text(passage)
    case None =>
      ContainsMiddle("Begin a ", genre, " adventure.");
      "Begin a " + genre + " adventure."
  }

  /** The opening prompt carries every setting and the seed verbatim. */
  function OpeningPrompt(perspective: string, tone: string, length: string, difficulty: string, seed: string): (r: string)
    ensures Contains(r, perspective) && Contains(r, tone) && Contains(r, length)
    ensures Contains(r, difficulty) && Contains(r, seed)
  {
    ContainsEachOfFive(Text(OpeningLead), perspective, "\n- Tone: ", tone, "\n- Length: ", length,
                       " (2-3 paragraphs)\n- Difficulty: ", difficulty, Text(OpeningAfterDifficulty), seed, Text(OpeningTail));
    Text(OpeningLead) + perspective + "\n- Tone: " + tone + "\n- Length: " + length
    + " (2-3 paragraphs)\n- Difficulty: " + difficulty + Text(OpeningAfterDifficulty) + seed + Text(OpeningTail)
  }

  /** The continuation prompt carries the genre, the tone, the context, the previous text and the action. */
  function ContinuationPrompt(genre: string, context: string, previous: string, action: string, tone: string): (r: string)
    ensures Contains(r, genre) && Contains(r, context) && Contains(r, previous)
    ensures Contains(r, action) && Contains(r, tone)
  {
    ContainsEachOfFive(CONTINUATION_LEAD, genre, Text(ContinuationAfterGenre), context, PREVIOUS_HEADING, previous,
                       ACTION_HEADING, action, Text(ContinuationAfterAction), tone, Text(ContinuationTail));
    CONTINUATION_LEAD + genre + Text(ContinuationAfterGenre) + context + PREVIOUS_HEADING + previous
    + ACTION_HEADING + action + Text(ContinuationAfterAction) + tone + Text(ContinuationTail)
  }

  /**
   * `buildPrompt`: every setting defaults through `||`, so an empty string defaults
   * too; the opening prompt unless `isFirstGeneration` is exactly `false`.
   */
  function BuildPrompt(p: GenerateRequest): (prompt: string)
    ensures IsFirst(p) ==> Contains(prompt, Seed(p.storyId, Or(p.genre, OpenAIService.DEFAULT_GENRE)))
    ensures !IsFirst(p) ==> Contains(prompt, Or(p.userAction, ""))
  {
    var genre := Or(p.genre, OpenAIService.DEFAULT_GENRE);
    var length := Or(p.length, OpenAIService.DEFAULT_LENGTH);
    var tone := Or(p.tone, OpenAIService.DEFAULT_TONE);
    var perspective := Or(p.perspective, OpenAIService.DEFAULT_PERSPECTIVE);
    var difficulty := Or(p.difficulty, OpenAIService.DEFAULT_DIFFICULTY);
    if IsFirst(p) then
      OpeningPrompt(perspective, tone, length, difficulty, Seed(p.storyId, genre))
    else
      ContinuationPrompt(genre, Or(p.storyContext, ""), Or(p.previousContent, ""), Or(p.userAction, ""), tone)
  }

  /** A first-turn prompt carries the seed and the settings, a default for each missing or empty one. */
  lemma OpeningCarriesRequest(p: GenerateRequest)
    requires IsFirst(p)
    ensures var prompt := BuildPrompt(p);
      Contains(prompt, Seed(p.storyId, Or(p.genre, OpenAIService.DEFAULT_GENRE)))
      && Contains(prompt, Or(p.tone, OpenAIService.DEFAULT_TONE))
      && Contains(prompt, Or(p.length, OpenAIService.DEFAULT_LENGTH))
      && Contains(prompt, Or(p.perspective, OpenAIService.DEFAULT_PERSPECTIVE))
      && Contains(prompt, Or(p.difficulty, OpenAIService.DEFAULT_DIFFICULTY))
  {
  }

  /**
   * A continuation prompt carries the context, the previous text and the action
   * (each as given when non-empty, by the contract of `Or`), the genre and the tone.
   */
  lemma ContinuationCarriesRequest(p: GenerateRequest)
    requires !IsFirst(p)
    ensures Contains(BuildPrompt(p), Or(p.storyContext, ""))
    ensures Contains(BuildPrompt(p), Or(p.previousContent, ""))
    ensures Contains(BuildPrompt(p), Or(p.userAction, ""))
    ensures Contains(BuildPrompt(p), Or(p.genre, OpenAIService.DEFAULT_GENRE))
    ensures Contains(BuildPrompt(p), Or(p.tone, OpenAIService.DEFAULT_TONE))
  {
  }

  /**
   * Unlike the client's destructuring defaults, `||` treats an empty setting as
   * missing: an empty genre, length, tone, perspective or difficulty gives the same
   * prompt as an absent one.
   */
  lemma EmptySettingsDefault(p: GenerateRequest)
    ensures var q := p.(genre := if p.genre == Some("") then None else p.genre,
                        length := if p.length == Some("") then None else p.length,
                        tone := if p.tone == Some("") then None else p.tone,
                        perspective := if p.perspective == Some("") then None else p.perspective,
                        difficulty := if p.difficulty == Some("") then None else p.difficulty);
      BuildPrompt(q) == BuildPrompt(p)
  {
    var q := p.(genre := if p.genre == Some("") then None else p.genre,
                length := if p.length == Some("") then None else p.length,
                tone := if p.tone == Some("") then None else p.tone,
                perspective := if p.perspective == Some("") then None else p.perspective,
                difficulty := if p.difficulty == Some("") then None else p.difficulty);
    assert Or(q.genre, OpenAIService.DEFAULT_GENRE) == Or(p.genre, OpenAIService.DEFAULT_GENRE);
    assert Or(q.length, OpenAIService.DEFAULT_LENGTH) == Or(p.length, OpenAIService.DEFAULT_LENGTH);
    assert Or(q.tone, OpenAIService.DEFAULT_TONE) == Or(p.tone, OpenAIService.DEFAULT_TONE);
    assert Or(q.perspective, OpenAIService.DEFAULT_PERSPECTIVE) == Or(p.perspective, OpenAIService.DEFAULT_PERSPECTIVE);
    assert Or(q.difficulty, OpenAIService.DEFAULT_DIFFICULTY) == Or(p.difficulty, OpenAIService.DEFAULT_DIFFICULTY);
  }

  /** `safeParse`: the parsed reply, or a fixed record that keeps the text verbatim. Never throws. */
  function SafeParse(s: string, parse: string -> Option<OpenAIService.StoryResponse>): (r: OpenAIService.StoryResponse)
    ensures parse(s).Some? ==> r == parse(s).value
    ensures parse(s).None? ==>
      r.content == s && r.title == Some("Generated Story") && r.chapter == Some(1)
      && r.choices == Some(["Continue"]) && r.actionPrompt == Some("What do you do?")
      && r.storyState == Some("Narrative continues")
      && r.characterInfo.None? && r.worldInfo.None?
  {
    match parse(s)
    case Some(story) => story
    case None =>
      OpenAIService.StoryResponse.StoryResponse(s, Some("Generated Story"), Some(1), Some(["Continue"]),
        Some("What do you do?"), Some("Narrative continues"), None, None)
  }

  /** The body of the handler's answer. */
  datatype ReplyBody = NoBody | ErrorBody(error: string) | StoryBody(story: OpenAIService.StoryResponse)

  datatype HandlerReply = HandlerReply(status: int, body: ReplyBody)

  /**
   * The gate at the top of `handler`: a CORS preflight is answered 200, any other
   * method but POST 405, and a missing or empty key 500; `None` lets the request through.
   */
  function Gate(httpMethod: string, apiKey: Option<string>): (r: Option<HandlerReply>)
    ensures httpMethod == "OPTIONS" ==> r == Some(HandlerReply(200, NoBody))
    ensures httpMethod != "OPTIONS" && httpMethod != "POST" ==> r == Some(HandlerReply(405, ErrorBody("Method not allowed")))
    ensures httpMethod == "POST" && !Truthy(apiKey) ==> r.Some? && r.value.status == 500
    ensures r.None? <==> httpMethod == "POST" && Truthy(apiKey)
  {
    if httpMethod == "OPTIONS" then Some(HandlerReply(200, NoBody))
    else if httpMethod != "POST" then Some(HandlerReply(405, ErrorBody("Method not allowed")))
    else if !Truthy(apiKey) then Some(HandlerReply(500, ErrorBody("Server misconfigured: missing OPENAI_API_KEY")))
    else None
  }

  /** The request body, or every field `undefined` when there is none (`req.body || {}`). */
  function Fields(body: Option<GenerateRequest>): GenerateRequest {
    if body.Some? then body.value
    else GenerateRequest(None, None, None, None, None, None, None, None, None, None)
  }

  /**
   * `handler`: the gate, then one model call with the built prompt. A failed call
   * gives 500; otherwise the first choice's content (or "" when there is none) goes
   * through `safeParse` and is answered 200.
   */
  function Handle(httpMethod: string, apiKey: Option<string>, body: Option<GenerateRequest>,
                  fetch: string -> OpenAIService.HttpReply, parse: string -> Option<OpenAIService.StoryResponse>): (r: HandlerReply)
    ensures Gate(httpMethod, apiKey).Some? ==> r == Gate(httpMethod, apiKey).value
    ensures Gate(httpMethod, apiKey).None? ==>
      var reply := fetch(BuildPrompt(Fields(body)));
      (reply.NetworkFailure? ==> r.status == 500)
      && (reply.HttpResponse? && !reply.ok ==> r.status == 500)
      && (reply.HttpResponse? && reply.ok ==>
            r == HandlerReply(200, StoryBody(SafeParse(if reply.firstContent.Some? then reply.firstContent.value else "", parse))))
  {
    match Gate(httpMethod, apiKey)
    case Some(early) => early
    case None =>
      match fetch(BuildPrompt(Fields(body)))
      case NetworkFailure => HandlerReply(500, ErrorBody("Server error"))
      case HttpResponse(ok, _, content) =>
        if !ok then HandlerReply(500, ErrorBody("OpenAI error"))
        else HandlerReply(200, StoryBody(SafeParse(if content.Some? then content.value else "", parse)))
  }

  /** The gate decides before any model call: a gated request's answer does not depend on the model. */
  lemma GateRunsFirst(httpMethod: string, apiKey: Option<string>, body: Option<GenerateRequest>,
                      fetch1: string -> OpenAIService.HttpReply, fetch2: string -> OpenAIService.HttpReply, parse: string -> Option<OpenAIService.StoryResponse>)
    requires !(httpMethod == "POST" && Truthy(apiKey))
    ensures Handle(httpMethod, apiKey, body, fetch1, parse) == Handle(httpMethod, apiKey, body, fetch2, parse)
  {
  }
}
