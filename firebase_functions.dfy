/**
 * The Firebase story function: the `hookId` guard of the `/generateStory` route and
 * the prompt it builds from an opening hook, a length hint and a style clause. The
 * completion call is the abstract function `complete`.
 */
module FirebaseFunctions {
  import opened JsSemantics

  /** The fields the route reads from the JSON request body; each may be `undefined`. */
  datatype HookRequest = HookRequest(
    hookId: Option<string>,
    genre: Option<string>,
    length: Option<string>,
    tone: Option<string>,
    perspective: Option<string>,
    difficulty: Option<string>)

  const DEFAULT_HOOK: string := "A compelling mysterious opening."
  const SHORT_HINT: string := "about 400-600 words"
  const LONG_HINT: string := "about 900-1200 words"
  const MEDIUM_HINT: string := "about 700-900 words"
  const DEFAULT_STYLE: string := "your best crowd-pleasing style"

  /** The fixed passages of the prompt and the three known hooks, looked up by name. */
  datatype Passage = MoonlightPactHook | EchoesTomorrowHook | SilentCityHook | PromptLead | PromptTail

  function Text(p: Passage): string {
    match p
    case MoonlightPactHook => "On the eve of a blood moon, a pact binds the narrator to a hidden realm."
    case EchoesTomorrowHook => "A message from the future warns the narrator of a pivotal choice."
    case SilentCityHook => "Everyone vanishes overnight; the narrator wanders an eerily silent city."
    case PromptLead => "Write an original short story "
    case PromptTail => "\nAvoid graphic content; keep it suitable for teens. Use clear paragraphs."
  }

  /** The `hookMap` table: the passage of each known hook id. */
  function KnownHook(hookId: Option<string>): (r: Option<Passage>)
    ensures hookId == Some("moonlight-pact") ==> r == Some(MoonlightPactHook)
    ensures hookId == Some("echoes-tomorrow") ==> r == Some(EchoesTomorrowHook)
    ensures hookId == Some("silent-city") ==> r == Some(SilentCityHook)
    ensures r.Some? <==> hookId in {Some("moonlight-pact"), Some("echoes-tomorrow"), Some("silent-city")}
  {
    if hookId == Some("moonlight-pact") then Some(MoonlightPactHook)
    else if hookId == Some("echoes-tomorrow") then Some(EchoesTomorrowHook)
    else if hookId == Some("silent-city") then Some(SilentCityHook)
    else None
  }

  /** `hookMap[hookId] || 'A compelling mysterious opening.'`. */
  function Hook(hookId: Option<string>): (hook: string)
    ensures KnownHook(hookId).Some? ==> hook == Text(KnownHook(hookId).value)
    ensures KnownHook(hookId).None? ==> hook == DEFAULT_HOOK
  {
    match KnownHook(hookId)
    case Some(passage) => Text(passage)
    case None => DEFAULT_HOOK
  }

  /** The length hint: short and long have their own, anything else (also `undefined`) the medium one. */
  function LengthHint(length: Option<string>): (hint: string)
    ensures length == Some("short") ==> hint == SHORT_HINT
    ensures length == Some("long") ==> hint == LONG_HINT
    ensures length != Some("short") && length != Some("long") ==> hint == MEDIUM_HINT
  {
    if length == Some("short") then SHORT_HINT
    else if length == Some("long") then LONG_HINT
    else MEDIUM_HINT
  }

  /** One labelled facet of the style list, or nothing when its value is falsy (`filter(Boolean)`). */
  function Facet(heading: string, value: Option<string>): (part: seq<string>)
    ensures Truthy(value) ==> part == [heading + value.value]
    ensures !Truthy(value) ==> part == []
  {
    if Truthy(value) then [heading + value.value] else []
  }

  /** The truthy facets, labelled, in the fixed order genre, tone, perspective, reading level. */
  function StyleParts(genre: Option<string>, tone: Option<string>, perspective: Option<string>, difficulty: Option<string>): (parts: seq<string>)
    ensures |parts| <= 4
    ensures Truthy(genre) ==> |parts| > 0 && parts[0] == "genre: " + genre.value
    ensures Truthy(difficulty) ==> |parts| > 0 && parts[|parts| - 1] == "reading level: " + difficulty.value
  {
    Facet("genre: ", genre) + Facet("tone: ", tone)
    + Facet("narrative perspective: ", perspective) + Facet("reading level: ", difficulty)
  }

  /** The style clause: the parts joined with ", ", or the fixed fallback when there are none. */
  function StyleClause(genre: Option<string>, tone: Option<string>, perspective: Option<string>, difficulty: Option<string>): (clause: string)
    ensures clause != ""
  {
    var style := Join(StyleParts(genre, tone, perspective, difficulty), ", ");
    if style != "" then style else DEFAULT_STYLE
  }

  /** No facet of the style list is truthy. */
  predicate NoFacets(genre: Option<string>, tone: Option<string>, perspective: Option<string>, difficulty: Option<string>) {
    !Truthy(genre) && !Truthy(tone) && !Truthy(perspective) && !Truthy(difficulty)
  }

  /** No style part is empty, and there are none exactly when no facet is truthy. */
  lemma StylePartsShape(genre: Option<string>, tone: Option<string>, perspective: Option<string>, difficulty: Option<string>)
    ensures var parts := StyleParts(genre, tone, perspective, difficulty);
      (forall i :: 0 <= i < |parts| ==> |parts[i]| > 0)
      && (|parts| == 0 <==> NoFacets(genre, tone, perspective, difficulty))
  {
    var g := Facet("genre: ", genre);
    var t := Facet("tone: ", tone);
    var p := Facet("narrative perspective: ", perspective);
    var d := Facet("reading level: ", difficulty);
    var parts := g + t + p + d;
    assert forall x :: x in parts ==> x in g || x in t || x in p || x in d;
    assert forall x :: x in parts ==> |x| > 0;
    assert forall i :: 0 <= i < |parts| ==> parts[i] in parts;
  }

  /** The joined style is empty exactly when no facet is truthy, and only then is the fallback used. */
  lemma DefaultStyleIff(genre: Option<string>, tone: Option<string>, perspective: Option<string>, difficulty: Option<string>)
    ensures Join(StyleParts(genre, tone, perspective, difficulty), ", ") == "" <==> NoFacets(genre, tone, perspective, difficulty)
    ensures NoFacets(genre, tone, perspective, difficulty) ==> StyleClause(genre, tone, perspective, difficulty) == DEFAULT_STYLE
    ensures !NoFacets(genre, tone, perspective, difficulty) ==>
      StyleClause(genre, tone, perspective, difficulty) == Join(StyleParts(genre, tone, perspective, difficulty), ", ")
  {
    StylePartsShape(genre, tone, perspective, difficulty);
    JoinEmptyIff(StyleParts(genre, tone, perspective, difficulty), ", ");
  }

  /** Any listed part reaches the style clause: with a part present, the clause is the join. */
  lemma PartReachesClause(genre: Option<string>, tone: Option<string>, perspective: Option<string>, difficulty: Option<string>, k: nat)
    requires k < |StyleParts(genre, tone, perspective, difficulty)|
    ensures Contains(StyleClause(genre, tone, perspective, difficulty), StyleParts(genre, tone, perspective, difficulty)[k])
  {
    DefaultStyleIff(genre, tone, perspective, difficulty);
    JoinContainsParts(StyleParts(genre, tone, perspective, difficulty), ", ", k);
  }

  /** Every truthy facet reaches the style clause verbatim, after its label. */
  lemma StyleCarriesFacets(genre: Option<string>, tone: Option<string>, perspective: Option<string>, difficulty: Option<string>)
    ensures Truthy(genre) ==> Contains(StyleClause(genre, tone, perspective, difficulty), "genre: " + genre.value)
    ensures Truthy(tone) ==> Contains(StyleClause(genre, tone, perspective, difficulty), "tone: " + tone.value)
    ensures Truthy(perspective) ==>
      Contains(StyleClause(genre, tone, perspective, difficulty), "narrative perspective: " + perspective.value)
    ensures Truthy(difficulty) ==>
      Contains(StyleClause(genre, tone, perspective, difficulty), "reading level: " + difficulty.value)
  {
    var g := Facet("genre: ", genre);
    var t := Facet("tone: ", tone);
    var p := Facet("narrative perspective: ", perspective);
    if Truthy(genre) {
      PartReachesClause(genre, tone, perspective, difficulty, 0);
    }
    if Truthy(tone) {
      PartReachesClause(genre, tone, perspective, difficulty, |g|);
    }
    if Truthy(perspective) {
      PartReachesClause(genre, tone, perspective, difficulty, |g| + |t|);
    }
    if Truthy(difficulty) {
      PartReachesClause(genre, tone, perspective, difficulty, |g| + |t| + |p|);
    }
  }

  /** All four facets given: the clause lists them in order, comma separated. */
  lemma FullStyle(g: string, t: string, p: string, d: string)
    requires g != "" && t != "" && p != "" && d != ""
    ensures StyleParts(Some(g), Some(t), Some(p), Some(d))
         == ["genre: " + g, "tone: " + t, "narrative perspective: " + p, "reading level: " + d]
  {
  }

  /** `buildPrompt`: total, and it carries the length hint, the hook and the style clause verbatim. */
  function BuildPrompt(r: HookRequest): (prompt: string)
    ensures Contains(prompt, LengthHint(r.length))
    ensures Contains(prompt, Hook(r.hookId))
    ensures Contains(prompt, StyleClause(r.genre, r.tone, r.perspective, r.difficulty))
  {
    var hint := LengthHint(r.length);
    var hook := Hook(r.hookId);
    var style := StyleClause(r.genre, r.tone, r.perspective, r.difficulty);
    ContainsEachOfThree(Text(PromptLead), hint, ".\nOpening hook: ", hook, "\nStyle constraints: ", style, Text(PromptTail));
    Text(PromptLead) + hint + ".\nOpening hook: " + hook + "\nStyle constraints: " + style + Text(PromptTail)
  }

  /** What the completion call gives: an exception (with its message, if a string), or the first choice's content. */
  datatype Completion = Failed(message: Option<string>) | Completed(firstContent: Option<string>)

  datatype RouteReply = BadRequest | StoryReply(story: string) | InternalError(text: string)

  /**
   * The `/generateStory` route: a falsy `hookId` is answered 400 before anything else;
   * otherwise one completion call, answered with its content (or "") or with a 500.
   */
  function GenerateStoryRoute(body: Option<HookRequest>, complete: string -> Completion): (reply: RouteReply)
    ensures (body.None? || !Truthy(body.value.hookId)) <==> reply == BadRequest
    ensures body.Some? && Truthy(body.value.hookId) ==>
      match complete(BuildPrompt(body.value))
      case Completed(content) => reply == StoryReply(Or(content, ""))
      case Failed(message) => reply.InternalError?
  {
    if body.None? || !Truthy(body.value.hookId) then BadRequest
    else
      match complete(BuildPrompt(body.value))
      case Completed(content) => StoryReply(Or(content, ""))
      case Failed(message) => InternalError(if message.Some? then message.value else "Internal error")
  }

  /** The guard runs before any model call: a request without hook gets the same answer whatever the model does. */
  lemma GuardRunsFirst(body: Option<HookRequest>, complete1: string -> Completion, complete2: string -> Completion)
    requires body.None? || !Truthy(body.value.hookId)
    ensures GenerateStoryRoute(body, complete1) == GenerateStoryRoute(body, complete2) == BadRequest
  {
  }
}
