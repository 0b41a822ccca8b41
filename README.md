# Pathread story pipeline, in Dafny

Pathread is an interactive-fiction app. A user signs up by giving a first name, a
birthday and some interests. The birthday is mapped to a zodiac sign, and the app
builds a character bio from the sign and the interests. The user then picks a genre
and reads a story that a language model writes turn by turn. After each turn the
user picks an action, and the app asks the model to continue.

This project models the logic behind that flow.

- `StoryStateService` (`story_state_service.dfy`) is the in-memory session store.
  - It is a class whose `stories` map is updated in place by create, update,
    continue, delete and import.
  - It derives the continuation context from the last five history entries.
  - It has export and import through abstract `encode`/`decode` functions.
- `OpenAIService` (`openai_service.dfy`) is the client-side generator.
  - It builds the opening and continuation prompts, with their defaults.
  - `makeRequest` decides between an outcome and an exception.
  - `generateStory`/`continueStory` never throw: they fall back to a fixed
    record when the request fails, and to a verbatim-text record when the reply
    is not JSON.
- `GenerateApi` (`generate_api.dfy`) is the serverless endpoint `api/generate.js`.
  - It has the method and key gate, the prompt builder with `||` defaults, and
    `safeParse`.
- `FirebaseFunctions` (`firebase_functions.dfy`) is the Firebase
  `/generateStory` route.
  - It has the `hookId` guard, the hook table, the length hint and the filtered
    style clause.
- `Zodiac` (`zodiac.dfy`) is the twelve-sign date table and the first-match
  search of `getZodiacSign`.
  - It proves that the search is total and unique over months 1 to 12.
  - It proves the boundary days.
- `BioGenerator` (`bio_generator.dfy`) is the fallback character bio and the rule
  that the remote bio call falls back to it.
- `SignUp` (`sign_up.dfy`) covers the sign-up screen.
  - It has the capped, duplicate-free interest toggle.
  - It has the four-step onboarding machine as a class with a guarded
    `Continue` method.
- `StoryType` (`story_type.dfy`) covers the genre cards, their split into three
  rows, and the Continue guard.
- `JsSemantics` (`js_semantics.dfy`) holds the JavaScript value semantics the
  others share:
  - `undefined` as `Option`, truthiness and `||` on strings;
  - `Array.prototype.join`, clamped `slice`, `indexOf`;
  - `parseInt(s, 10)`, ASCII `trim` and `toLowerCase`;
  - a substring relation `Contains` with its lemmas.

Network calls, `JSON.parse`, `JSON.stringify`, the clock and `Math.random` are
parameters of the operations that use them. A reply from the chat-completions
endpoint is a value of `OpenAIService.HttpReply`. Parsing is a function
`string -> Option<…>`, where `None` means that the text is not JSON.

`updateStoryWithResponse` replaces the chapter with any truthy incoming value
(`Pathread/services/storyStateService.ts:72`), so the chapter can go down:
`StoryStateService.ChapterCanDecrease` exhibits a reply that moves a story from
chapter 3 to chapter 1.

## Model

| member | source | states |
|---|---|---|
| StoryStateService.StoryId | Pathread/services/storyStateService.ts:131-133 | a generated id is never empty and starts with `story_`, whatever the clock and the random part |
| StoryStateService.NewStory | Pathread/services/storyStateService.ts:34-53 | a new record has empty title, content, history and choices, chapter 1, the fixed action prompt, each setting from the params or its default (`||`), and both timestamps equal to the creation time |
| StoryStateService.MergeChapter | Pathread/services/storyStateService.ts:72 | a present non-zero incoming chapter wins; a missing or zero one keeps the current chapter |
| StoryStateService.ApplyResponse | Pathread/services/storyStateService.ts:63-73 | the content is appended to the history exactly once and becomes the current content; the choices are replaced (by `[]` when absent); title, action prompt, state, character and world info change only for a truthy incoming value; the chapter is merged; `lastUpdated` is the new time; every other field is unchanged |
| StoryStateService.ChapterCanDecrease | Pathread/services/storyStateService.ts:72 | some stored story and reply give a smaller chapter after the update (the overwrite is not a max-merge) |
| StoryStateService.ActionEntry | Pathread/services/storyStateService.ts:84 | an action entry is the action text after a two-character marker |
| StoryStateService.RecordAction | Pathread/services/storyStateService.ts:83-85 | recording an action appends exactly its entry to the history and refreshes `lastUpdated`; every other field is unchanged |
| StoryStateService.TurnAppendsEntry | Pathread/services/storyStateService.ts:66-85 | a response or an action appends exactly its own entry and keeps the id and the creation time |
| StoryStateService.HistoryAppendOnly | Pathread/services/storyStateService.ts:59-89 | after any sequence of responses and actions, the old history is a prefix of the new one, entry `i` after it records turn `i`, and id and creation time are unchanged |
| StoryStateService.ActionPrecedesResponse | Pathread/services/storyStateService.ts:66-85 | an action recorded before a response precedes that response's content, directly after the old history |
| StoryStateService.Context | Pathread/services/storyStateService.ts:110-111 | the context of an empty history is empty, and a history of at most five entries is joined whole with blank lines |
| StoryStateService.ContextIgnoresOlder | Pathread/services/storyStateService.ts:110 | entries older than the five newest never change the context |
| StoryStateService.JoinEndsWithLast | Pathread/services/storyStateService.ts:111 | a non-empty join ends with its last part |
| StoryStateService.ContextEndsWithNewest | Pathread/services/storyStateService.ts:110-111 | the context of a non-empty history ends with the newest entry |
| StoryStateService.StoryContextLine | Pathread/services/storyStateService.ts:126 | the context line carries the title, the character info, the world info and the current state verbatim |
| StoryStateService.ContinuationParams | Pathread/services/storyStateService.ts:118-128 | the next-turn parameters echo the stored settings and preferences, set `isFirstGeneration` to false, carry the context as previous content and the context line as story context, and leave story id and action unset |
| StoryStateService.ContinuationPromptCarriesHistory | Pathread/services/storyStateService.ts:114-129 | those parameters select the continuation prompt, which carries the stored genre and tone and the recent history verbatim (or the fixed phrase when there is none) |
| StoryStateService.ValidateImport | Pathread/services/storyStateService.ts:145-151 | an import is accepted exactly when the text decodes to a record with a non-empty id and a non-empty title, and then it is that record |
| StoryStateService.ExportImportRoundTrip | Pathread/services/storyStateService.ts:136-163 | for an encoding that decodes back, a titled record survives export then import, and an untitled one is rejected |
| StoryStateService.InsertByRecency | Pathread/services/storyStateService.ts:96-98 | one insertion step of the newest-first sort grows the list by one |
| StoryStateService.ConsNewestFirst | Pathread/services/storyStateService.ts:96-98 | a record at least as recent as every record of a newest-first list can go in front of it |
| StoryStateService.InsertAddsOne | Pathread/services/storyStateService.ts:96-98 | the insertion adds exactly that record and loses none (as multisets) |
| StoryStateService.InsertMembers | Pathread/services/storyStateService.ts:96-98 | after the insertion the list holds exactly the inserted record and the old ones |
| StoryStateService.InsertKeepsNewestFirst | Pathread/services/storyStateService.ts:96-98 | inserting into a newest-first list keeps it newest first |
| StoryStateService.StoryStore.constructor | Pathread/services/storyStateService.ts:29 | the store starts empty and valid |
| StoryStateService.StoryStore.GetStory | Pathread/services/storyStateService.ts:91-93 | the stored record for a known id, `null` exactly for an unknown one |
| StoryStateService.StoryStore.CreateNewStory | Pathread/services/storyStateService.ts:31-57 | the new record is filed under its generated id, only that key changes, the store stays valid, and `getStory` then returns it |
| StoryStateService.StoryStore.UpdateStoryWithResponse | Pathread/services/storyStateService.ts:59-77 | an unknown id gives `null` and no change; a known id's record is replaced by the updated one and returned, and only that key changes |
| StoryStateService.StoryStore.ContinueStoryWithAction | Pathread/services/storyStateService.ts:79-89 | an unknown id gives `null` and no change; a known id's record gets the action entry and is returned, and only that key changes |
| StoryStateService.StoryStore.DeleteStory | Pathread/services/storyStateService.ts:101-103 | the result is true exactly when the id was present, and only that key is removed |
| StoryStateService.StoryStore.GetStoryContext | Pathread/services/storyStateService.ts:105-112 | `""` for an unknown id, otherwise the recent context of that story's history |
| StoryStateService.StoryStore.GetStoryForContinuation | Pathread/services/storyStateService.ts:114-129 | `null` exactly for an unknown id, otherwise the next-turn parameters, whose previous content is `getStoryContext(id)` |
| StoryStateService.StoryStore.ExportStory | Pathread/services/storyStateService.ts:136-141 | `null` exactly for an unknown id, otherwise the encoding of the stored record |
| StoryStateService.StoryStore.ImportStory | Pathread/services/storyStateService.ts:144-163 | never throws; a rejected text gives `null` and leaves the store unchanged; an accepted record is filed under its id, replacing any record there, and the store stays valid |
| StoryStateService.StoryStore.StoredRoundTrip | Pathread/services/storyStateService.ts:136-163 | a stored titled story exports, and importing the export gives back the same record |
| StoryStateService.StoryStore.GetAllStories | Pathread/services/storyStateService.ts:95-99 | every stored record is listed exactly once (as many entries as keys, each one stored), newest first |
| OpenAIService.OpeningSentence | Pathread/services/openaiService.ts:143 | the generic opening sentence carries the genre |
| OpenAIService.StoryPremise | Pathread/services/openaiService.ts:137-141 | `moonlight-pact`, `echoes-tomorrow` and `silent-city` each select their own passage, and no other id has one |
| OpenAIService.PremiseTail | Pathread/services/openaiService.ts:137-143 | a known story id adds the shared lead followed by that id's own passage after the opening; any other or missing id adds nothing |
| OpenAIService.NameSentence | Pathread/services/openaiService.ts:146-148 | the protagonist sentence is present exactly when the name is non-empty, and then carries the name |
| OpenAIService.ThemesSentence | Pathread/services/openaiService.ts:150-152 | the themes sentence is present exactly when the interest list is non-empty, and then carries the interests joined with `, ` |
| OpenAIService.InitialUserPrompt | Pathread/services/openaiService.ts:154-175 | the rules carry the perspective, tone, length and difficulty verbatim |
| OpenAIService.BuildInitialStoryPrompt | Pathread/services/openaiService.ts:125-178 | the opening prompt is the premise (the defaulted genre where `undefined`), then the name sentence, then the themes sentence, a blank line and the rules built from the defaulted settings; by the contracts of `NameSentence` and `ThemesSentence` the name and themes sentences appear only for a non-empty name and a non-empty interest list, so without preferences it is exactly premise, blank line and rules |
| OpenAIService.ContinuationPrompt | Pathread/services/openaiService.ts:189-217 | the continuation prompt carries genre and tone, and the context, previous content and action verbatim, each replaced by its fixed phrase when missing or empty |
| OpenAIService.BuildContinuationPrompt | Pathread/services/openaiService.ts:180-218 | the continuation prompt built from the params carries the defaulted genre and tone, and the context, previous content and action, each replaced by its fixed phrase when missing or empty |
| OpenAIService.BuildStoryPrompt | Pathread/services/openaiService.ts:103-123 | a first turn (`isFirstGeneration` not `false`) starts with the premise; a later turn carries the action or its fixed phrase |
| OpenAIService.ContinuationCarriesTurn | Pathread/services/openaiService.ts:180-218 | a non-empty action, previous content and context each reach the continuation prompt verbatim; a missing action gives `No action specified` |
| OpenAIService.FirstTurnUnlessExplicitlyFalse | Pathread/services/openaiService.ts:103-123 | the opening prompt is chosen unless `isFirstGeneration` is `false`, and only then the continuation prompt |
| OpenAIService.InitialPromptDefaults | Pathread/services/openaiService.ts:125-177 | with every setting and the story id `undefined`, the opening prompt is the generic opening with `fantasy`, a blank line, and the rules with `second-person`, `engaging`, `medium`, `intermediate` |
| OpenAIService.KnownStoryPremise | Pathread/services/openaiService.ts:137-143 | each known story id puts its own passage directly after the opening sentence of the prompt |
| OpenAIService.StartParseFallback | Pathread/services/openaiService.ts:229-238 | a reply that is not JSON becomes a record with that text verbatim as content, title `Generated Story`, chapter 1, the three fixed choices `Continue the story`, `Explore further`, `Make a different choice`, and no other field |
| OpenAIService.ContinueParseFallback | Pathread/services/openaiService.ts:269-279 | the same for a continuation: title `Story Continuation`, chapter 1, the fixed choices `Continue exploring`, `Try something else`, `Look around more`, action prompt `What do you do next?`, state `The story continues...`, and no character or world info |
| OpenAIService.OpenAIClient.constructor | Pathread/services/openaiService.ts:39-47 | the client keeps the configured key |
| OpenAIService.FailureOffersChoices | Pathread/services/openaiService.ts:242-295 | the fixed reply of a failed opening or continuation request opens chapter 1 with three choices |
| OpenAIService.OpenAIClient.IsConfigured | Pathread/services/openaiService.ts:298-300 | the key counts as configured exactly when it is neither empty nor the placeholder text |
| OpenAIService.OpenAIClient.NoKeyNoRequest | Pathread/services/openaiService.ts:49-53 | without a configured key the request throws whatever the network would answer |
| OpenAIService.OpenAIClient.MakeRequest | Pathread/services/openaiService.ts:49-101 | it throws exactly when the key is empty or the placeholder (`isConfigured` false), the request fails, the status is not ok, or the body has no `choices`; otherwise it returns the first content, or `""` when that is missing or empty |
| OpenAIService.OpenAIClient.GenerateStory | Pathread/services/openaiService.ts:220-252 | never throws: a failed request (including an unconfigured key) gives the fixed opening; a reply that parses is returned; a reply that does not parse gives the verbatim-text fallback |
| OpenAIService.OpenAIClient.ContinueStory | Pathread/services/openaiService.ts:255-295 | the prompt sent is always the continuation prompt of the given params; the outcomes are as for `generateStory`, with the continuation fallbacks |
| GenerateApi.KnownSeed | api/generate.js:85-90 | a fixed seed exists exactly for the three known story ids, each its own |
| GenerateApi.Seed | api/generate.js:85-91 | the seed is the fixed sentence of a known id, and otherwise a sentence carrying the genre |
| GenerateApi.OpeningPrompt | api/generate.js:93-113 | the opening prompt carries perspective, tone, length, difficulty and seed verbatim |
| GenerateApi.ContinuationPrompt | api/generate.js:116-139 | the continuation prompt carries genre, context, previous content, action and tone verbatim |
| GenerateApi.BuildPrompt | api/generate.js:75-140 | a first-turn prompt carries the seed of the story id (with the `||`-defaulted genre); a later one carries the action, or `""` |
| GenerateApi.OpeningCarriesRequest | api/generate.js:76-113 | a first-turn prompt carries the seed and every setting, the default standing in for a missing or empty one |
| GenerateApi.ContinuationCarriesRequest | api/generate.js:82-139 | when `isFirstGeneration` is exactly `false`, the prompt carries context, previous content and action (`""` when missing), the genre and the tone |
| GenerateApi.EmptySettingsDefault | api/generate.js:77-81 | an empty setting gives the same prompt as a missing one |
| GenerateApi.SafeParse | api/generate.js:142-154 | a parsed reply is returned as it is; otherwise the fixed record with the text verbatim, chapter 1, the single choice `Continue`, and the fixed title, action prompt and state |
| GenerateApi.Gate | api/generate.js:3-15 | OPTIONS gets 200, any other non-POST 405, POST without a key 500, and a request passes exactly when it is a POST with a key |
| GenerateApi.Handle | api/generate.js:1-74 | a gated request gets the gate's answer; otherwise a failed call or a non-ok status gives 500, and an ok reply gives 200 with `safeParse` of the first content (or of `""`) |
| GenerateApi.GateRunsFirst | api/generate.js:3-15 | a gated request's answer does not depend on the model |
| FirebaseFunctions.KnownHook | Pathread/firebase/functions/index.js:43-47 | a hook passage exists exactly for the three known ids, each its own |
| FirebaseFunctions.Hook | Pathread/firebase/functions/index.js:48 | the hook is the known passage, or the fixed default for any other or missing id |
| FirebaseFunctions.LengthHint | Pathread/firebase/functions/index.js:50-51 | `short` and `long` get their own hints; anything else, including missing, gets the medium hint |
| FirebaseFunctions.Facet | Pathread/firebase/functions/index.js:54-59 | a truthy facet gives one labelled part, a falsy one none |
| FirebaseFunctions.StyleParts | Pathread/firebase/functions/index.js:53-60 | at most four parts; a truthy genre gives the first part and a truthy reading level the last, each after its label |
| FirebaseFunctions.StyleClause | Pathread/firebase/functions/index.js:53-64 | the style clause is never empty: the fallback stands in for an empty join |
| FirebaseFunctions.StylePartsShape | Pathread/firebase/functions/index.js:53-59 | no style part is empty, and there are none exactly when no facet is truthy |
| FirebaseFunctions.DefaultStyleIff | Pathread/firebase/functions/index.js:53-64 | the joined style is empty exactly when no facet is truthy, and exactly then the fallback style is used; otherwise the clause is the join |
| FirebaseFunctions.PartReachesClause | Pathread/firebase/functions/index.js:53-64 | every listed style part occurs in the style clause |
| FirebaseFunctions.StyleCarriesFacets | Pathread/firebase/functions/index.js:53-60 | each truthy facet occurs in the clause, after its own label |
| FirebaseFunctions.FullStyle | Pathread/firebase/functions/index.js:53-60 | with all four facets the parts are, in order, genre, tone, narrative perspective, reading level |
| FirebaseFunctions.BuildPrompt | Pathread/firebase/functions/index.js:62-65 | the prompt is total and carries the length hint, the hook and the style clause verbatim |
| FirebaseFunctions.GenerateStoryRoute | Pathread/firebase/functions/index.js:16-40 | a missing body or falsy `hookId` gets exactly 400; otherwise the content of the completion (`""` when missing or empty) or a 500 when the call fails |
| FirebaseFunctions.GuardRunsFirst | Pathread/firebase/functions/index.js:18-19 | a request without a hook gets 400 whatever the model does |
| Zodiac.SignKeyOf | Pathread/app/screens/SignUp/constants/zodiac.ts:12-97 | a string names a table entry exactly when some sign has that name, and the entry found has it |
| Zodiac.SignKeyOfName | Pathread/app/screens/SignUp/constants/zodiac.ts:12-97 | each sign's name finds that sign |
| Zodiac.FirstMatch | Pathread/app/screens/SignUp/constants/zodiac.ts:103-120 | a found entry is in the rest of the table and matches; nothing is found exactly when no entry there matches |
| Zodiac.FirstMatchIsFirst | Pathread/app/screens/SignUp/constants/zodiac.ts:103-120 | every entry before the one found fails to match |
| Zodiac.GetZodiacSign | Pathread/app/screens/SignUp/constants/zodiac.ts:99-123 | a sign is found exactly when the month is among the first twelve of the list and the day parses; the sign's range holds the date, and the result carries the table key and that entry's fields |
| Zodiac.StartingIn | Pathread/app/screens/SignUp/constants/zodiac.ts:12-97 | each month has a sign that starts in it |
| Zodiac.EndingIn | Pathread/app/screens/SignUp/constants/zodiac.ts:12-97 | the sign ending in a month ends the day before the next one starts |
| Zodiac.RangesWithinYear | Pathread/app/screens/SignUp/constants/zodiac.ts:12-97 | every range starts and ends in months 1 to 12 |
| Zodiac.Matches | Pathread/app/screens/SignUp/constants/zodiac.ts:104-119 | a matching entry needs a numeric day, and the month must be the sign's start or end month |
| Zodiac.MatchesByMonth | Pathread/app/screens/SignUp/constants/zodiac.ts:104-119 | a sign matches exactly when it starts in the month on or before the day, or ends in the month on or after it |
| Zodiac.ExactlyOneMatches | Pathread/app/screens/SignUp/constants/zodiac.ts:12-97 | for every month 1 to 12 and every day number, exactly one sign matches |
| Zodiac.MatchIffValid | Pathread/app/screens/SignUp/constants/zodiac.ts:99-123 | the search finds a sign exactly when the month number is 1 to 12 and the day is a number |
| Zodiac.UnknownMonthIsNull | Pathread/app/screens/SignUp/constants/zodiac.ts:100-122 | a month missing from the list gives `null` |
| Zodiac.NaNDayIsNull | Pathread/app/screens/SignUp/constants/zodiac.ts:101-122 | a day that parses to NaN gives `null` |
| Zodiac.CapricornRange | Pathread/app/screens/SignUp/constants/zodiac.ts:107-110 | Capricorn is the only year-wrapping sign and matches exactly December 22 onward and January up to the 19th |
| Zodiac.LookupIsTheMatch | Pathread/app/screens/SignUp/constants/zodiac.ts:103-122 | the search returns the matching sign |
| Zodiac.Boundaries | Pathread/app/screens/SignUp/constants/zodiac.ts:74-95 | Mar 20 gives Pisces and Mar 21 Aries; Dec 21 Sagittarius and Dec 22 Capricorn; Jan 19 Capricorn and Jan 20 Aquarius |
| Zodiac.PickedDateGivesItsSign | Pathread/app/screens/SignUp/constants/zodiac.ts:99-123 | with distinct month names, the `m`-th name and the numeral of a day always give a sign, the one whose range holds that date |
| BioGenerator.Title | Pathread/app/screens/Character/utils/bioGenerator.ts:64 | the title of a sign name is that sign's title, and `The Unique Individual` for any other string |
| BioGenerator.TitleOfSign | Pathread/app/screens/Character/utils/bioGenerator.ts:11-24 | each sign name gets its own title from the table; a string naming no sign gets the fixed one |
| BioGenerator.TagWordsNonEmpty | Pathread/app/screens/Character/utils/bioGenerator.ts:27-58 | no word of the tag table is empty, so `||` falls back only for unmapped interests |
| BioGenerator.Tag | Pathread/app/screens/Character/utils/bioGenerator.ts:59 | a mapped interest gets its word, any other `Unique` |
| BioGenerator.Tags | Pathread/app/screens/Character/utils/bioGenerator.ts:26 | one tag per interest, in order |
| BioGenerator.InterestTags | Pathread/app/screens/Character/utils/bioGenerator.ts:26-60 | there are `min(3, n)` tags, tag `i` being the tag of interest `i` |
| BioGenerator.FirstTwo | Pathread/app/screens/Character/utils/bioGenerator.ts:65 | no interests give `""`, one gives itself, two or more give the first two joined with ` and ` |
| BioGenerator.FirstTwoCarries | Pathread/app/screens/Character/utils/bioGenerator.ts:65 | each of the first two interests occurs in that join |
| BioGenerator.Description | Pathread/app/screens/Character/utils/bioGenerator.ts:65 | the description carries the sign, the first name and the joined interests |
| BioGenerator.Backstory | Pathread/app/screens/Character/utils/bioGenerator.ts:67 | the backstory opens with the first name and carries the lower-cased sign and the joined interests |
| BioGenerator.FallbackBio | Pathread/app/screens/Character/utils/bioGenerator.ts:10-69 | the name is the first name; the title comes from the sign; the tags are those of the first three interests; description and backstory carry the sign (lower-cased in the backstory) and the first two interests joined |
| BioGenerator.BioMentionsInterests | Pathread/app/screens/Character/utils/bioGenerator.ts:65-67 | each of the first two interests occurs in both the description and the backstory |
| BioGenerator.GenerateCharacterBio | Pathread/app/screens/Character/utils/bioGenerator.ts:71-101 | an unreachable service, a non-OK status or a body that is not JSON gives the fallback bio; otherwise the remote `characterBio` |
| SignUp.Without | Pathread/app/screens/SignUp/SignUpScreen.tsx:78 | the filter removes every copy of the item and keeps every other item with its number of copies; the list shrinks exactly when the item was there and is unchanged otherwise |
| SignUp.WithoutSingle | Pathread/app/screens/SignUp/SignUpScreen.tsx:78 | filtering out an item that occurs only at position `k` leaves exactly the items before it and after it, in their order |
| SignUp.WithoutAt | Pathread/app/screens/SignUp/SignUpScreen.tsx:78 | in a duplicate-free list, filtering out the item at position `k` leaves exactly the items before it and after it, in their order |
| SignUp.WithoutEach | Pathread/app/screens/SignUp/SignUpScreen.tsx:78 | the same for every position the item occupies |
| SignUp.ToggleInterest | Pathread/app/screens/SignUp/SignUpScreen.tsx:75-84 | a selected interest is removed and nothing else, the rest keeping its order and copies; an unselected one is appended when fewer than ten are selected, and ignored otherwise |
| SignUp.WithoutKeepsDistinct | Pathread/app/screens/SignUp/SignUpScreen.tsx:78 | filtering a duplicate-free list keeps it duplicate-free |
| SignUp.ToggleKeepsSelection | Pathread/app/screens/SignUp/SignUpScreen.tsx:75-84 | a toggle keeps the selection duplicate-free and at most ten long |
| SignUp.TogglesKeepSelection | Pathread/app/screens/SignUp/SignUpScreen.tsx:37-84 | from a valid selection (the initial `[]` among them), any sequence of toggles keeps it valid |
| SignUp.SignUpFlow.constructor | Pathread/app/screens/SignUp/SignUpScreen.tsx:29-38 | the flow starts at the name step with empty fields, no sign and no interests |
| SignUp.SignUpFlow.SetFirstName | Pathread/app/screens/SignUp/SignUpScreen.tsx:31 | typing a name changes only the name |
| SignUp.SignUpFlow.SelectDate | Pathread/app/screens/SignUp/SignUpScreen.tsx:32-33 | picking a date changes only month and day |
| SignUp.SignUpFlow.TapInterest | Pathread/app/screens/SignUp/SignUpScreen.tsx:75-84 | a tap toggles the selection, keeps it valid and changes nothing else |
| SignUp.SignUpFlow.CanContinue | Pathread/app/screens/SignUp/SignUpScreen.tsx:86-116 | the name step passes exactly with a non-blank name; the birthday step exactly with both pickers set, a month among the first twelve of the list and a numeric day; the results step always; the interests step exactly with at least three selected |
| SignUp.SignUpFlow.Continue | Pathread/app/screens/SignUp/SignUpScreen.tsx:86-117 | a failing guard changes nothing; otherwise the step moves one forward (name needs a non-blank name; birthday needs both pickers and a sign, and records the sign found and its name; results always moves); at interests with three or more selected the sign, selection and name are handed on; the step never moves back |
| SignUp.SignUpFlow.RecordSign | Pathread/app/screens/SignUp/SignUpScreen.tsx:94-101 | no sign changes nothing; a sign is recorded with its name and the step moves to results |
| StoryType.KeysDistinct | Pathread/app/screens/StoryType/StoryTypeScreen.tsx:27-54 | no two genre cards share a key |
| StoryType.GenreListed | Pathread/app/screens/StoryType/StoryTypeScreen.tsx:27-54 | every card is in the list at its position |
| StoryType.GenresDistinct | Pathread/app/screens/StoryType/StoryTypeScreen.tsx:27-54 | no card is listed twice |
| StoryType.RowSize | Pathread/app/screens/StoryType/StoryTypeScreen.tsx:171 | the row size is the least `s` with `3s >= n`, for every `n` including 0 |
| StoryType.Rows | Pathread/app/screens/StoryType/StoryTypeScreen.tsx:170-177 | there are always three rows; together, in order, they give back the list; none is longer than the row size |
| StoryType.RowsFillInOrder | Pathread/app/screens/StoryType/StoryTypeScreen.tsx:172-176 | a row holds cards only when the row before it is full |
| StoryType.GenreRows | Pathread/app/screens/StoryType/StoryTypeScreen.tsx:170-177 | the 25 genres give rows of 9, 9 and 7 |
| StoryType.OnContinue | Pathread/app/screens/StoryType/StoryTypeScreen.tsx:58-61 | nothing happens without a selected genre; otherwise exactly the selected key is passed on |
| StoryType.ContinueWithCard | Pathread/app/screens/StoryType/StoryTypeScreen.tsx:58-61 | continuing with a selected card passes a key that no other card has, so the key identifies the card |

## Left out

- Network I/O (`fetch`, the OpenAI SDK call, the bio request) is not modelled. Each call is a function parameter that gives the reply it gets. Timeouts, retries and headers are not modelled.
- `JSON.parse` and `JSON.stringify` are abstract functions. The export/import round trip assumes, as a lemma precondition, that decoding an encoding gives the record back. A parsed value that is JSON but not an object of the expected shape (a number, an array, a field of another type) is not modelled. A response body that is not JSON counts as a failed request (`NetworkFailure`), which is how both callers treat the exception.
- `Date.now()`, `new Date()` and `Math.random()` are parameters (`now`, `random`). Ids are not proved unique, because the code does not guarantee it. Dates are millisecond numbers, and the date revival in `importStory` is left out.
- StoryStateService.StoryStore: records are values, so aliasing between a returned record and the stored one is not captured. The code mutates that object in place.
- StoryStateService.StoryStore.GetAllStories: the order among records with equal `lastUpdated` is not fixed. The source sorts stably in map insertion order, and the model only proves newest first.
- Lookup tables are plain JavaScript objects, so keys such as `constructor` hit prototype members. The model treats every key outside the table as absent.
- `toLowerCase` and `trim` are modelled on ASCII letters and JavaScript white space. Unicode case mapping is not modelled.
- HTTP plumbing is not modelled: CORS headers, express and `onRequest` wiring, response writing, `process.env`, model names, temperature and token limits. The error detail texts of the 500 answers are also not modelled.
- Async scheduling, animations, `setTimeout`, React state batching and navigation are not modelled. The sign-up hand-off to the character screen is the value `Continue` returns, and the genre hand-off is the value `OnContinue` returns.
- The month list comes from the `months` constants module that the sign-up screen imports, which is not part of this model. It is a parameter of the sign-up flow and of `getZodiacSign`.
- Zodiac.GetZodiacSign: the result keeps the table key alongside the sign's fields, and the spread into one object is not modelled.
- The card images of the genre screen and the emoji of the sign table are data only and are not analysed.
- The wording of the prompt templates is used as written and is not analysed. The contracts state which values each prompt carries; only the opening prompt of `OpenAIService` is pinned part by part, in order.
- The field values of the model's parsed JSON replies are taken as given; a continuation reply with no `title` or `chapter` keeps the stored ones through the sparse update.
