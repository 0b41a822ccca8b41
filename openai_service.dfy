/**
 * The client-side story generator: the request and reply records, the two prompt
 * templates (opening scene and continuation), the reply fallbacks and the
 * configuration check. The HTTP exchange with the chat-completions endpoint is an
 * abstract function `fetch` from the prompt to the reply it gets, and `JSON.parse`
 * is an abstract function `parse` that may fail.
 */
module OpenAIService {
  import opened JsSemantics

  datatype UserPreferences = UserPreferences(
    name: Option<string>,
    interests: Option<seq<string>>,
    birthday: Option<string>)

  /** What a caller asks the generator for; every field may be left `undefined`. */
  datatype StoryGenerationParams = StoryGenerationParams(
    genre: Option<string>,
    length: Option<string>,
    tone: Option<string>,
    perspective: Option<string>,
    difficulty: Option<string>,
    storyId: Option<string>,
    userPreferences: Option<UserPreferences>,
    previousContent: Option<string>,
    userAction: Option<string>,
    storyContext: Option<string>,
    isFirstGeneration: Option<bool>)

  /**
   * One generated turn. A reply parsed from the model may leave any field but the
   * content out; the continuation format has neither title nor chapter.
   */
  datatype StoryResponse = StoryResponse(
    content: string,
    title: Option<string>,
    chapter: Option<int>,
    choices: Option<seq<string>>,
    actionPrompt: Option<string>,
    storyState: Option<string>,
    characterInfo: Option<string>,
    worldInfo: Option<string>)

  /**
   * What the chat-completions endpoint gives back for one request: a failure (the
   * request did not complete, or the body of the response was not JSON), or an HTTP
   * response with its `ok` flag, whether the body has a `choices` array, and the first
   * choice's message content, if any.
   */
  datatype HttpReply = NetworkFailure | HttpResponse(ok: bool, hasChoices: bool, firstContent: Option<string>)

  /** The result of `makeRequest`: the reply text, or an exception. */
  datatype RequestOutcome = Threw | Returned(text: string)

  const DEFAULT_GENRE: string := "fantasy"
  const DEFAULT_LENGTH: string := "medium"
  const DEFAULT_TONE: string := "engaging"
  const DEFAULT_PERSPECTIVE: string := "second-person"
  const DEFAULT_DIFFICULTY: string := "intermediate"
  const PLACEHOLDER_KEY: string := "your-openai-api-key-here"

  const MOONLIGHT_PACT: string := "moonlight-pact"
  const ECHOES_TOMORROW: string := "echoes-tomorrow"
  const SILENT_CITY: string := "silent-city"

  /**
   * The fixed passages of the two prompt templates and of the failure replies, looked
   * up by name. Each passage is used as it stands; nothing below depends on its wording.
   */
  datatype Passage =
    | OpeningLead | OpeningEnd
    | MoonlightPactRest | EchoesTomorrowRest | SilentCityRest
    | ThemesLead
    | RulesLead | RulesAfterPerspective | RulesAfterTone | RulesAfterLength | RulesTail
    | ContinuationLead | ContinuationAfterGenre | ContinuationAfterTone | ContinuationTail
    | StartFailureLead | StartFailureRest | ContinueFailureContent

  function Text(p: Passage): string {
    match p
    case OpeningLead => "You are a master storyteller creating an interactive "
    case OpeningEnd => " adventure."
    case MoonlightPactRest =>
      "discovering a mysterious secret on the eve of a blood moon that could bind them to a world beyond their own."
    case EchoesTomorrowRest =>
      "receiving a warning from a voice claiming to be from the future about a choice that will change everything."
    case SilentCityRest =>
      "waking up to find that everyone in their city has vanished overnight, and the empty streets seem to be waiting for something."
    case ThemesLead => " The story should incorporate themes related to: "
    case RulesLead => "Create the opening scene of this interactive story. \n\nSTORY RULES:\n- Write in "
    case RulesAfterPerspective => " perspective (\"You are...\", \"You see...\", etc.)\n- Tone: "
    case RulesAfterTone => "\n- Length: "
    case RulesAfterLength => " (2-3 paragraphs for opening)\n- Difficulty: "
    case RulesTail =>
      "\n- Make it immersive and engaging\n- End with a situation that requires the protagonist to make a choice\n- Provide 3 interesting action choices\n\nFORMAT: Return JSON with this structure:\n{\n  \"title\": \"Story Title\",\n  \"content\": \"The opening story content...\",\n  \"chapter\": 1,\n  \"choices\": [\"Action 1\", \"Action 2\", \"Action 3\"],\n  \"actionPrompt\": \"What do you do?\",\n  \"storyState\": \"Brief description of current situation\",\n  \"characterInfo\": \"Brief character description\",\n  \"worldInfo\": \"Brief world/setting description\"\n}"
    case ContinuationLead => "You are continuing an interactive "
    case ContinuationAfterGenre =>
      " story. You must:\n1. Continue the story based on the user's action\n2. Maintain consistency with previous events\n3. Keep the "
    case ContinuationAfterTone =>
      " tone\n4. Create consequences and new situations\n5. End with new choices for the user\n\nSTORY CONTEXT:\n"
    case ContinuationTail =>
      "\n\nContinue the story by describing what happens as a result of the user's action. Make it engaging and create new challenges or opportunities. End with 3 new action choices.\n\nFORMAT: Return JSON with this structure:\n{\n  \"content\": \"The continuation of the story...\",\n  \"choices\": [\"New Action 1\", \"New Action 2\", \"New Action 3\"],\n  \"actionPrompt\": \"What do you do next?\",\n  \"storyState\": \"Updated situation description\",\n  \"characterInfo\": \"Updated character info if changed\",\n  \"worldInfo\": \"Updated world info if changed\"\n}"
    case StartFailureLead =>
      "You find yourself at the beginning of an incredible journey. "
    case StartFailureRest =>
      "The path ahead is uncertain, but filled with endless possibilities. What will you choose to do next?"
    case ContinueFailureContent =>
      "The story continues with new possibilities unfolding before you. What will you choose to do next?"
  }

  /** The words the three story premises share, before their own continuation. */
  const PREMISE_LEAD: string := " The story begins with the protagonist "
  const NAME_LEAD: string := " The protagonist's name is "
  const SENTENCE_END: string := "."
  const PROMPT_SEPARATOR: string := "\n\n"
  const PREVIOUS_CONTENT_HEADING: string := "\n\nPREVIOUS CONTENT:\n"
  const USER_ACTION_HEADING: string := "\n\nUSER'S ACTION:\n"
  const NO_CONTEXT: string := "No previous context"
  const NO_PREVIOUS_CONTENT: string := "No previous content"
  const NO_ACTION: string := "No action specified"

  /** The generic opening sentence, used when no known story is selected. */
  function OpeningSentence(genre: string): (r: string)
    ensures Contains(r, genre)
  {
    ContainsMiddle(Text(OpeningLead), genre, Text(OpeningEnd));
    Text(OpeningLead) + genre + Text(OpeningEnd)
  }

  predicate IsKnownStory(id: string) {
    id == MOONLIGHT_PACT || id == ECHOES_TOMORROW || id == SILENT_CITY
  }

  /** The `storyPrompts` table: the passage that ends the premise of each known story id. */
  function StoryPremise(id: string): (r: Option<Passage>)
    ensures id == MOONLIGHT_PACT ==> r == Some(MoonlightPactRest)
    ensures id == ECHOES_TOMORROW ==> r == Some(EchoesTomorrowRest)
    ensures id == SILENT_CITY ==> r == Some(SilentCityRest)
    ensures r.Some? <==> IsKnownStory(id)
  {
    if id == MOONLIGHT_PACT then Some(MoonlightPactRest)
    else if id == ECHOES_TOMORROW then Some(EchoesTomorrowRest)
    else if id == SILENT_CITY then Some(SilentCityRest)
    else None
  }

  /**
   * The sentence a known story id adds after the opening sentence (the three
   * `storyPrompts` entries all start with it), or nothing for any other id.
   */
  function PremiseTail(storyId: Option<string>): (r: string)
    ensures r == "" <==> !(storyId.Some? && IsKnownStory(storyId.value))
    ensures storyId.Some? && IsKnownStory(storyId.value) ==> r == PREMISE_LEAD + Text(StoryPremise(storyId.value).value)
  {
    match StoryPremise(Or(storyId, ""))
    case None => ""
    case Some(rest) => PREMISE_LEAD + Text(rest)
  }

  /** The premise for `storyId`, or the generic opening alone. */
  function Premise(storyId: Option<string>, genre: string): string
  {
    OpeningSentence(genre) + PremiseTail(storyId)
  }

  predicate HasName(prefs: Option<UserPreferences>) {
    prefs.Some? && Truthy(prefs.value.name)
  }

  predicate HasInterests(prefs: Option<UserPreferences>) {
    prefs.Some? && prefs.value.interests.Some? && |prefs.value.interests.value| > 0
  }

  /** The protagonist sentence, present only for a non-empty name. */
  function NameSentence(prefs: Option<UserPreferences>): (r: string)
    ensures r == "" <==> !HasName(prefs)
    ensures HasName(prefs) ==> Contains(r, prefs.value.name.value)
  {
    if HasName(prefs) then
      ContainsMiddle(NAME_LEAD, prefs.value.name.value, SENTENCE_END);
      NAME_LEAD + prefs.value.name.value + SENTENCE_END
    else ""
  }

  /** The themes sentence, present only for a non-empty interest list, joined with ", ". */
  function ThemesSentence(prefs: Option<UserPreferences>): (r: string)
    ensures r == "" <==> !HasInterests(prefs)
    ensures HasInterests(prefs) ==> Contains(r, Join(prefs.value.interests.value, ", "))
  {
    if HasInterests(prefs) then
      var themes := Join(prefs.value.interests.value, ", ");
      ContainsMiddle(Text(ThemesLead), themes, SENTENCE_END);
      Text(ThemesLead) + themes + SENTENCE_END
    else ""
  }

  /** The story rules and the JSON shape asked of the model for an opening scene. */
  function InitialUserPrompt(perspective: string, tone: string, length: string, difficulty: string): (r: string)
    ensures Contains(r, perspective) && Contains(r, tone) && Contains(r, length) && Contains(r, difficulty)
  {
    ContainsEachOfFour(Text(RulesLead), perspective, Text(RulesAfterPerspective), tone, Text(RulesAfterTone),
                       length, Text(RulesAfterLength), difficulty, Text(RulesTail));
    Text(RulesLead) + perspective + Text(RulesAfterPerspective) + tone + Text(RulesAfterTone)
    + length + Text(RulesAfterLength) + difficulty + Text(RulesTail)
  }

  /**
   * The opening-scene prompt: the premise, then the optional protagonist and themes
   * sentences in that order, a blank line and the rules. Destructuring defaults fill
   * only `undefined` fields, so an empty string is used as it is.
   */
  function BuildInitialStoryPrompt(p: StoryGenerationParams): (r: string)
    ensures Premise(p.storyId, Default(p.genre, DEFAULT_GENRE)) <= r
    ensures HasName(p.userPreferences) ==> Contains(r, p.userPreferences.value.name.value)
    ensures HasInterests(p.userPreferences) ==> Contains(r, Join(p.userPreferences.value.interests.value, ", "))
    ensures var rules := InitialUserPrompt(Default(p.perspective, DEFAULT_PERSPECTIVE), Default(p.tone, DEFAULT_TONE),
                                           Default(p.length, DEFAULT_LENGTH), Default(p.difficulty, DEFAULT_DIFFICULTY));
      |r| >= |rules| && r[|r| - |rules|..] == rules
      && (!HasName(p.userPreferences) && !HasInterests(p.userPreferences) ==>
            r == Premise(p.storyId, Default(p.genre, DEFAULT_GENRE)) + PROMPT_SEPARATOR + rules)
      && r == Premise(p.storyId, Default(p.genre, DEFAULT_GENRE)) + NameSentence(p.userPreferences)
              + ThemesSentence(p.userPreferences) + PROMPT_SEPARATOR + rules
  {
    var premise := Premise(p.storyId, Default(p.genre, DEFAULT_GENRE));
    var name := NameSentence(p.userPreferences);
    var themes := ThemesSentence(p.userPreferences);
    var rules := InitialUserPrompt(Default(p.perspective, DEFAULT_PERSPECTIVE), Default(p.tone, DEFAULT_TONE),
                                   Default(p.length, DEFAULT_LENGTH), Default(p.difficulty, DEFAULT_DIFFICULTY));
    EndsOfFive(premise, name, themes, PROMPT_SEPARATOR, rules);
    var given := if HasName(p.userPreferences) then p.userPreferences.value.name.value else "";
    var joined := if HasInterests(p.userPreferences) then Join(p.userPreferences.value.interests.value, ", ") else "";
    ContainsInSecond(premise, name, themes, PROMPT_SEPARATOR, rules, given);
    ContainsInThird(premise, name, themes, PROMPT_SEPARATOR, rules, joined);
    DropEmptyParts(premise, name, themes, PROMPT_SEPARATOR, rules);
    premise + name + themes + PROMPT_SEPARATOR + rules
  }

  /**
   * The continuation prompt: it carries the genre, the tone, the context, the previous
   * content and the action verbatim, the last three replaced by a fixed phrase when
   * missing or empty.
   */
  function ContinuationPrompt(genre: string, tone: string, storyContext: Option<string>,
                              previousContent: Option<string>, userAction: Option<string>): (r: string)
    ensures Contains(r, genre) && Contains(r, tone)
    ensures Contains(r, Or(storyContext, NO_CONTEXT))
    ensures Contains(r, Or(previousContent, NO_PREVIOUS_CONTENT))
    ensures Contains(r, Or(userAction, NO_ACTION))
  {
    var context := Or(storyContext, NO_CONTEXT);
    var previous := Or(previousContent, NO_PREVIOUS_CONTENT);
    var action := Or(userAction, NO_ACTION);
    ContainsEachOfFive(Text(ContinuationLead), genre, Text(ContinuationAfterGenre), tone, Text(ContinuationAfterTone),
                       context, PREVIOUS_CONTENT_HEADING, previous, USER_ACTION_HEADING, action, Text(ContinuationTail));
    Text(ContinuationLead) + genre + Text(ContinuationAfterGenre) + tone + Text(ContinuationAfterTone)
    + context + PREVIOUS_CONTENT_HEADING + previous + USER_ACTION_HEADING + action + Text(ContinuationTail)
  }

  /** `buildContinuationPrompt`: the destructuring defaults for genre and tone, the turn values as given. */
  function BuildContinuationPrompt(p: StoryGenerationParams): (r: string)
    ensures Contains(r, Default(p.genre, DEFAULT_GENRE)) && Contains(r, Default(p.tone, DEFAULT_TONE))
    ensures Contains(r, Or(p.storyContext, NO_CONTEXT)) && Contains(r, Or(p.previousContent, NO_PREVIOUS_CONTENT))
    ensures Contains(r, Or(p.userAction, NO_ACTION))
  {
    ContinuationPrompt(Default(p.genre, DEFAULT_GENRE), Default(p.tone, DEFAULT_TONE),
                       p.storyContext, p.previousContent, p.userAction)
  }

  /** A non-empty action, previous content and context all reach the continuation prompt verbatim. */
  lemma ContinuationCarriesTurn(p: StoryGenerationParams)
    ensures Truthy(p.userAction) ==> Contains(BuildContinuationPrompt(p), p.userAction.value)
    ensures Truthy(p.previousContent) ==> Contains(BuildContinuationPrompt(p), p.previousContent.value)
    ensures Truthy(p.storyContext) ==> Contains(BuildContinuationPrompt(p), p.storyContext.value)
    ensures !Truthy(p.userAction) ==> Contains(BuildContinuationPrompt(p), NO_ACTION)
  {
  }

  /** `buildStoryPrompt`: the opening prompt unless `isFirstGeneration` is `false`. */
  function BuildStoryPrompt(p: StoryGenerationParams): (r: string)
    ensures p.isFirstGeneration != Some(false) ==> Premise(p.storyId, Default(p.genre, DEFAULT_GENRE)) <= r
    ensures p.isFirstGeneration == Some(false) ==> Contains(r, Or(p.userAction, NO_ACTION))
  {
    if p.isFirstGeneration != Some(false) then BuildInitialStoryPrompt(p) else BuildContinuationPrompt(p)
  }

  lemma FirstTurnUnlessExplicitlyFalse(p: StoryGenerationParams)
    ensures p.isFirstGeneration != Some(false) ==> BuildStoryPrompt(p) == BuildInitialStoryPrompt(p)
    ensures p.isFirstGeneration == Some(false) ==> BuildStoryPrompt(p) == BuildContinuationPrompt(p)
  {
  }

  /** With every field `undefined`, the opening prompt is the generic opening and the default rules. */
  lemma InitialPromptDefaults(p: StoryGenerationParams)
    requires p.genre.None? && p.length.None? && p.tone.None? && p.perspective.None? && p.difficulty.None?
    requires p.storyId.None? && p.userPreferences.None?
    ensures BuildInitialStoryPrompt(p)
         == OpeningSentence(DEFAULT_GENRE) + PROMPT_SEPARATOR
            + InitialUserPrompt(DEFAULT_PERSPECTIVE, DEFAULT_TONE, DEFAULT_LENGTH, DEFAULT_DIFFICULTY)
  {
    assert PremiseTail(p.storyId) == "";
    assert Premise(p.storyId, DEFAULT_GENRE) == OpeningSentence(DEFAULT_GENRE);
  }

  /** A known story id selects its own premise, right after the opening sentence. */
  lemma KnownStoryPremise(p: StoryGenerationParams)
    requires p.storyId.Some? && IsKnownStory(p.storyId.value)
    ensures OpeningSentence(Default(p.genre, DEFAULT_GENRE)) + (PREMISE_LEAD + Text(StoryPremise(p.storyId.value).value))
            <= BuildInitialStoryPrompt(p)
  {
    assert PremiseTail(p.storyId) == PREMISE_LEAD + Text(StoryPremise(p.storyId.value).value);
  }

  /** The fallback when the opening reply is not JSON: the raw reply is kept verbatim. */
  function StartParseFallback(raw: string): (r: StoryResponse)
    ensures r.content == raw && r.chapter == Some(1)
    ensures r.choices.Some? && |r.choices.value| == 3
    ensures r.title == Some("Generated Story")
    ensures r.choices == Some(["Continue the story", "Explore further", "Make a different choice"])
    ensures r.actionPrompt.None? && r.storyState.None? && r.characterInfo.None? && r.worldInfo.None?
  {
    StoryResponse(raw, Some("Generated Story"), Some(1),
      Some(["Continue the story", "Explore further", "Make a different choice"]),
      None, None, None, None)
  }

  /** A reply made up after a failed request: chapter 1 and the given choices, around a fixed text. */
  function FailureFallback(content: string, title: string, choices: seq<string>,
                           actionPrompt: Option<string>, storyState: Option<string>): (r: StoryResponse)
    ensures r.content == content && r.title == Some(title) && r.chapter == Some(1) && r.choices == Some(choices)
  {
    StoryResponse(content, Some(title), Some(1), Some(choices), actionPrompt, storyState, None, None)
  }

  /** The choices offered when the opening request fails. */
  const START_FAILURE_CHOICES: seq<string> := ["Take the left path", "Go straight ahead", "Turn back"]

  /** The fixed opening returned when the request fails. */
  const START_FAILURE_FALLBACK: StoryResponse :=
    FailureFallback(Text(StartFailureLead) + Text(StartFailureRest), "Adventure Awaits", START_FAILURE_CHOICES, None, None)

  /** The fallback when a continuation reply is not JSON: the raw reply is kept verbatim. */
  function ContinueParseFallback(raw: string): (r: StoryResponse)
    ensures r.content == raw && r.chapter == Some(1)
    ensures r.choices.Some? && |r.choices.value| == 3
    ensures r.actionPrompt == Some("What do you do next?") && r.storyState == Some("The story continues...")
    ensures r.title == Some("Story Continuation")
    ensures r.choices == Some(["Continue exploring", "Try something else", "Look around more"])
    ensures r.characterInfo.None? && r.worldInfo.None?
  {
    StoryResponse(raw, Some("Story Continuation"), Some(1),
      Some(["Continue exploring", "Try something else", "Look around more"]),
      Some("What do you do next?"), Some("The story continues..."), None, None)
  }

  /** The choices offered when the continuation request fails. */
  const CONTINUE_FAILURE_CHOICES: seq<string> := ["Explore further", "Take a different approach", "Reflect on the situation"]

  /** The fixed continuation returned when the request fails. */
  const CONTINUE_FAILURE_FALLBACK: StoryResponse :=
    FailureFallback(Text(ContinueFailureContent), "Story Continuation", CONTINUE_FAILURE_CHOICES,
                    Some("What do you do next?"), Some("The adventure continues..."))

  /** Whichever request fails, its fixed reply opens chapter 1 with three choices to pick from. */
  lemma FailureOffersChoices(r: StoryResponse)
    requires r == START_FAILURE_FALLBACK || r == CONTINUE_FAILURE_FALLBACK
    ensures r.chapter == Some(1) && r.choices.Some? && |r.choices.value| == 3
  {
  }

  class OpenAIClient {
    const apiKey: string

    constructor(apiKey: string)
      ensures this.apiKey == apiKey
    {
      this.apiKey := apiKey;
    }

    /** The key is usable: neither empty nor the placeholder text. */
    predicate IsConfigured()
      ensures IsConfigured() ==> apiKey != ""
      ensures apiKey == PLACEHOLDER_KEY ==> !IsConfigured()
      ensures apiKey != "" && apiKey != PLACEHOLDER_KEY ==> IsConfigured()
    {
      apiKey != "" && apiKey != PLACEHOLDER_KEY
    }

    /** The reply is a successful one whose body has a `choices` array. */
    static predicate Usable(reply: HttpReply) {
      reply.HttpResponse? && reply.ok && reply.hasChoices
    }

    /**
     * `makeRequest`: an unconfigured key throws before anything is sent; a network
     * failure, a non-ok status or a body without `choices` throws; otherwise the
     * first choice's content is returned, or "" when it is missing or empty.
     */
    function MakeRequest(prompt: string, fetch: string -> HttpReply): (r: RequestOutcome)
      ensures r.Threw? <==> !IsConfigured() || !Usable(fetch(prompt))
      ensures r.Returned? ==> r.text == Or(fetch(prompt).firstContent, "")
    {
      if !IsConfigured() then Threw
      else
        match fetch(prompt)
        case NetworkFailure => Threw
        case HttpResponse(ok, hasChoices, content) =>
          if !ok || !hasChoices then Threw else Returned(Or(content, ""))
    }

    /** The key check comes first: without a usable key the outcome does not depend on the network. */
    lemma NoKeyNoRequest(prompt: string, fetch1: string -> HttpReply, fetch2: string -> HttpReply)
      requires !IsConfigured()
      ensures MakeRequest(prompt, fetch1) == MakeRequest(prompt, fetch2) == Threw
    {
    }

    /**
     * `generateStory`: never throws. A failed request gives the fixed opening; a reply
     * that does not parse gives the verbatim-text fallback; a parsed reply is returned.
     */
    method GenerateStory(params: StoryGenerationParams, fetch: string -> HttpReply, parse: string -> Option<StoryResponse>)
      returns (storyData: StoryResponse)
      ensures match MakeRequest(BuildStoryPrompt(params), fetch)
        case Threw => storyData == START_FAILURE_FALLBACK
        case Returned(text) =>
          (parse(text).Some? ==> storyData == parse(text).value)
          && (parse(text).None? ==> storyData.content == text && storyData == StartParseFallback(text))
      ensures !IsConfigured() ==> storyData == START_FAILURE_FALLBACK
    {
      var prompt := BuildStoryPrompt(params);
      var response := MakeRequest(prompt, fetch);
      if response.Threw? {
        storyData := START_FAILURE_FALLBACK;
        return;
      }
      var parsed := parse(response.text);
      if parsed.Some? {
        storyData := parsed.value;
      } else {
        storyData := StartParseFallback(response.text);
      }
    }

    /**
     * `continueStory`: forces `isFirstGeneration` to `false`, so the continuation
     * prompt is always the one sent, and never throws.
     */
    method ContinueStory(params: StoryGenerationParams, fetch: string -> HttpReply, parse: string -> Option<StoryResponse>)
      returns (storyData: StoryResponse)
      ensures var prompt := BuildContinuationPrompt(params);
        match MakeRequest(prompt, fetch)
        case Threw => storyData == CONTINUE_FAILURE_FALLBACK
        case Returned(text) =>
          (parse(text).Some? ==> storyData == parse(text).value)
          && (parse(text).None? ==> storyData.content == text && storyData == ContinueParseFallback(text))
      ensures !IsConfigured() ==> storyData == CONTINUE_FAILURE_FALLBACK
    {
      var continuationParams := params.(isFirstGeneration := Some(false));
      var prompt := BuildStoryPrompt(continuationParams);
      assert prompt == BuildContinuationPrompt(params);
      var response := MakeRequest(prompt, fetch);
      if response.Threw? {
        storyData := CONTINUE_FAILURE_FALLBACK;
        return;
      }
      var parsed := parse(response.text);
      if parsed.Some? {
        storyData := parsed.value;
      } else {
        storyData := ContinueParseFallback(response.text);
      }
    }
  }
}
