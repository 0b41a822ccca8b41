/**
 * The in-memory story session store: a map from story id to the state of one
 * interactive story (its history, current choices and settings). The clock and
 * the random part of a new id are parameters; `JSON.stringify` and `JSON.parse`
 * are the abstract functions `encode` and `decode`.
 */
module StoryStateService {
  import opened JsSemantics
  import opened OpenAIService

  /** One story session. Dates are millisecond timestamps. */
  datatype StoryState = StoryState(
    id: string,
    title: string,
    currentContent: string,
    fullStory: seq<string>,
    currentChoices: seq<string>,
    actionPrompt: string,
    storyState: string,
    characterInfo: string,
    worldInfo: string,
    chapter: int,
    genre: string,
    tone: string,
    length: string,
    perspective: string,
    difficulty: string,
    userPreferences: Option<UserPreferences>,
    createdAt: int,
    lastUpdated: int)

  const FIRST_ACTION_PROMPT: string := "What do you do?"
  const ACTION_MARK: string := "> "
  const CONTEXT_SEPARATOR: string := "\n\n"
  const RECENT_ENTRIES: nat := 5

  /** `story_${Date.now()}_${random}`: never empty, whatever the random part is. */
  function StoryId(now: nat, random: string): (id: string)
    ensures id != "" && "story_" <= id
  {
    "story_" + DecimalString(now) + "_" + random
  }

  /** The record `createNewStory` registers: empty history, chapter 1, `||` defaults. */
  function NewStory(id: string, params: StoryGenerationParams, now: int): (s: StoryState)
    ensures s.id == id && s.title == "" && s.currentContent == ""
    ensures s.fullStory == [] && s.currentChoices == [] && s.chapter == 1
    ensures s.actionPrompt == FIRST_ACTION_PROMPT
    ensures s.genre == Or(params.genre, DEFAULT_GENRE) && s.tone == Or(params.tone, DEFAULT_TONE)
    ensures s.length == Or(params.length, DEFAULT_LENGTH)
    ensures s.perspective == Or(params.perspective, DEFAULT_PERSPECTIVE)
    ensures s.difficulty == Or(params.difficulty, DEFAULT_DIFFICULTY)
    ensures s.userPreferences == params.userPreferences
    ensures s.createdAt == now && s.lastUpdated == now
  {
    StoryState(id, "", "", [], [], FIRST_ACTION_PROMPT, "", "", "",
      1,
      Or(params.genre, DEFAULT_GENRE), Or(params.tone, DEFAULT_TONE), Or(params.length, DEFAULT_LENGTH),
      Or(params.perspective, DEFAULT_PERSPECTIVE), Or(params.difficulty, DEFAULT_DIFFICULTY),
      params.userPreferences, now, now)
  }

  /** `response.chapter || story.chapter`: a missing or zero chapter keeps the old one. */
  function MergeChapter(incoming: Option<int>, current: int): (c: int)
    ensures incoming.Some? && incoming.value != 0 ==> c == incoming.value
    ensures incoming.None? || incoming.value == 0 ==> c == current
  {
    if incoming.Some? && incoming.value != 0 then incoming.value else current
  }

  /**
   * The record after `updateStoryWithResponse`: the content is appended to the
   * history once, the choices are replaced, and the other fields are overwritten
   * only by a truthy incoming value.
   */
  function ApplyResponse(s: StoryState, response: StoryResponse, now: int): (r: StoryState)
    ensures r.fullStory == s.fullStory + [response.content]
    ensures r.currentContent == response.content
    ensures r.currentChoices == (if response.choices.Some? then response.choices.value else [])
    ensures Truthy(response.title) ==> r.title == response.title.value
    ensures !Truthy(response.title) ==> r.title == s.title
    ensures Truthy(response.actionPrompt) ==> r.actionPrompt == response.actionPrompt.value
    ensures !Truthy(response.actionPrompt) ==> r.actionPrompt == s.actionPrompt
    ensures Truthy(response.storyState) ==> r.storyState == response.storyState.value
    ensures !Truthy(response.storyState) ==> r.storyState == s.storyState
    ensures Truthy(response.characterInfo) ==> r.characterInfo == response.characterInfo.value
    ensures !Truthy(response.characterInfo) ==> r.characterInfo == s.characterInfo
    ensures Truthy(response.worldInfo) ==> r.worldInfo == response.worldInfo.value
    ensures !Truthy(response.worldInfo) ==> r.worldInfo == s.worldInfo
    ensures r.chapter == MergeChapter(response.chapter, s.chapter)
    ensures r.lastUpdated == now
    ensures r.(title := s.title, currentContent := s.currentContent, fullStory := s.fullStory,
               currentChoices := s.currentChoices, actionPrompt := s.actionPrompt, storyState := s.storyState,
               characterInfo := s.characterInfo, worldInfo := s.worldInfo, chapter := s.chapter,
               lastUpdated := s.lastUpdated) == s
  {
    s.(title := Or(response.title, s.title),
       currentContent := response.content,
       fullStory := s.fullStory + [response.content],
       currentChoices := if response.choices.Some? then response.choices.value else [],
       actionPrompt := Or(response.actionPrompt, s.actionPrompt),
       storyState := Or(response.storyState, s.storyState),
       characterInfo := Or(response.characterInfo, s.characterInfo),
       worldInfo := Or(response.worldInfo, s.worldInfo),
       chapter := MergeChapter(response.chapter, s.chapter),
       lastUpdated := now)
  }

  /** The chapter is overwritten, not max-merged: a reply can move a story back to chapter 1. */
  lemma ChapterCanDecrease()
    ensures exists s: StoryState, response: StoryResponse, now: int ::
      ApplyResponse(s, response, now).chapter < s.chapter
  {
    var s := NewStory("story_1_a", StoryGenerationParams(None, None, None, None, None, None, None, None, None, None, None), 1);
    var s3 := s.(chapter := 3);
    var response := StoryResponse("", None, Some(1), None, None, None, None, None);
    assert ApplyResponse(s3, response, 2).chapter == 1;
  }

  /** The history entry that records a user action. */
  function ActionEntry(action: string): (e: string)
    ensures |e| == |action| + 2 && e[2..] == action
  {
    ACTION_MARK + action
  }

  /** The record after `continueStoryWithAction`: one `"> action"` entry and a new timestamp, nothing else. */
  function RecordAction(s: StoryState, action: string, now: int): (r: StoryState)
    ensures r.fullStory == s.fullStory + [ActionEntry(action)]
    ensures r.lastUpdated == now
    ensures r.(fullStory := s.fullStory, lastUpdated := s.lastUpdated) == s
  {
    s.(fullStory := s.fullStory + [ActionEntry(action)], lastUpdated := now)
  }

  /** One mutation of a stored story, as the reader screen issues them. */
  datatype Turn = Respond(response: StoryResponse, at: int) | Act(action: string, at2: int)

  function Entry(t: Turn): string {
    match t
    case Respond(response, _) => response.content
    case Act(action, _) => ActionEntry(action)
  }

  function ApplyTurn(s: StoryState, t: Turn): StoryState {
    match t
    case Respond(response, now) => ApplyResponse(s, response, now)
    case Act(action, now) => RecordAction(s, action, now)
  }

  function ApplyTurns(s: StoryState, turns: seq<Turn>): StoryState
    decreases |turns|
  {
    if |turns| == 0 then s else ApplyTurns(ApplyTurn(s, turns[0]), turns[1..])
  }

  /** One turn appends its own entry and keeps the id and the creation time. */
  lemma TurnAppendsEntry(s: StoryState, t: Turn)
    ensures ApplyTurn(s, t).fullStory == s.fullStory + [Entry(t)]
    ensures ApplyTurn(s, t).id == s.id && ApplyTurn(s, t).createdAt == s.createdAt
  {
  }

  /**
   * The history is append-only: after any sequence of responses and actions the old
   * history is a prefix of the new one, and entry `i` after it records turn `i`, in order.
   * The id and the creation time never change.
   */
  lemma {:induction false} HistoryAppendOnly(s: StoryState, turns: seq<Turn>)
    ensures var r := ApplyTurns(s, turns);
      |r.fullStory| == |s.fullStory| + |turns|
      && r.fullStory[..|s.fullStory|] == s.fullStory
      && (forall i :: 0 <= i < |turns| ==> r.fullStory[|s.fullStory| + i] == Entry(turns[i]))
      && r.id == s.id && r.createdAt == s.createdAt
    decreases |turns|
  {
    if |turns| > 0 {
      var s1 := ApplyTurn(s, turns[0]);
      TurnAppendsEntry(s, turns[0]);
      HistoryAppendOnly(s1, turns[1..]);
      var r := ApplyTurns(s, turns);
      assert r == ApplyTurns(s1, turns[1..]);
      forall i | 0 <= i < |turns|
        ensures r.fullStory[|s.fullStory| + i] == Entry(turns[i])
      {
        if i > 0 {
          assert turns[1..][i - 1] == turns[i];
          assert r.fullStory[|s1.fullStory| + (i - 1)] == Entry(turns[1..][i - 1]);
        } else {
          assert r.fullStory[..|s1.fullStory|] == s1.fullStory;
        }
      }
      assert r.fullStory[..|s.fullStory|] == r.fullStory[..|s1.fullStory|][..|s.fullStory|];
    }
  }

  /** An action recorded before its response precedes that response's content in the history. */
  lemma ActionPrecedesResponse(s: StoryState, action: string, response: StoryResponse, t1: int, t2: int)
    ensures var r := ApplyTurns(s, [Act(action, t1), Respond(response, t2)]);
      r.fullStory == s.fullStory + [ActionEntry(action), response.content]
  {
    var turns := [Act(action, t1), Respond(response, t2)];
    HistoryAppendOnly(s, turns);
    var r := ApplyTurns(s, turns);
    assert r.fullStory == r.fullStory[..|s.fullStory|] + [r.fullStory[|s.fullStory|], r.fullStory[|s.fullStory| + 1]];
  }

  /** The recent context: the last `min(5, n)` history entries, joined with blank lines. */
  function Context(history: seq<string>): (c: string)
    ensures |history| == 0 ==> c == ""
    ensures |history| <= RECENT_ENTRIES ==> c == Join(history, CONTEXT_SEPARATOR)
  {
    Join(TakeLast(history, RECENT_ENTRIES), CONTEXT_SEPARATOR)
  }

  /** Only the five newest entries matter: older history never reaches the context. */
  lemma ContextIgnoresOlder(older: seq<string>, recent: seq<string>)
    requires |recent| >= RECENT_ENTRIES
    ensures Context(older + recent) == Context(recent)
  {
    var h := older + recent;
    assert TakeLast(h, RECENT_ENTRIES) == TakeLast(recent, RECENT_ENTRIES) by {
      assert h[|h| - RECENT_ENTRIES..] == recent[|recent| - RECENT_ENTRIES..];
    }
  }

  /** A join ends with its last part. */
  lemma {:induction false} JoinEndsWithLast(parts: seq<string>, sep: string)
    requires |parts| > 0
    ensures var j := Join(parts, sep); var l := parts[|parts| - 1];
      |j| >= |l| && j[|j| - |l|..] == l
    decreases |parts|
  {
    if |parts| > 1 {
      JoinEndsWithLast(parts[1..], sep);
      var rest := Join(parts[1..], sep);
      var j := Join(parts, sep);
      assert j == parts[0] + sep + rest;
      assert parts[1..][|parts[1..]| - 1] == parts[|parts| - 1];
    }
  }

  /** The context always ends with the newest history entry, and never holds more than five entries. */
  lemma ContextEndsWithNewest(history: seq<string>)
    requires |history| > 0
    ensures var c := Context(history); var newest := history[|history| - 1];
      |c| >= |newest| && c[|c| - |newest|..] == newest
  {
    var recent := TakeLast(history, RECENT_ENTRIES);
    assert recent[|recent| - 1] == history[|history| - 1];
    JoinEndsWithLast(recent, CONTEXT_SEPARATOR);
  }

  /** `Title: …\nCharacter: …\nWorld: …\nCurrent State: …`. */
  function StoryContextLine(s: StoryState): (line: string)
    ensures Contains(line, s.title) && Contains(line, s.characterInfo)
    ensures Contains(line, s.worldInfo) && Contains(line, s.storyState)
  {
    ContainsEachOfFour("Title: ", s.title, "\nCharacter: ", s.characterInfo, "\nWorld: ", s.worldInfo,
                       "\nCurrent State: ", s.storyState, "");
    "Title: " + s.title + "\nCharacter: " + s.characterInfo + "\nWorld: " + s.worldInfo
    + "\nCurrent State: " + s.storyState + ""
  }

  /** The generation parameters `getStoryForContinuation` builds from a stored record. */
  function ContinuationParams(s: StoryState): (p: StoryGenerationParams)
    ensures p.genre == Some(s.genre) && p.tone == Some(s.tone) && p.length == Some(s.length)
    ensures p.perspective == Some(s.perspective) && p.difficulty == Some(s.difficulty)
    ensures p.userPreferences == s.userPreferences
    ensures p.previousContent == Some(Context(s.fullStory))
    ensures p.storyContext == Some(StoryContextLine(s))
    ensures p.isFirstGeneration == Some(false)
    ensures p.storyId.None? && p.userAction.None?
  {
    StoryGenerationParams(
      genre := Some(s.genre), length := Some(s.length), tone := Some(s.tone),
      perspective := Some(s.perspective), difficulty := Some(s.difficulty),
      storyId := None, userPreferences := s.userPreferences,
      previousContent := Some(Context(s.fullStory)), userAction := None,
      storyContext := Some(StoryContextLine(s)), isFirstGeneration := Some(false))
  }

  /**
   * The parameters for the next turn ask for the continuation prompt, and that prompt
   * carries the recent history verbatim (or the fixed phrase when there is none yet),
   * with the stored genre and tone.
   */
  lemma ContinuationPromptCarriesHistory(s: StoryState)
    ensures BuildStoryPrompt(ContinuationParams(s)) == BuildContinuationPrompt(ContinuationParams(s))
    ensures var prompt := BuildStoryPrompt(ContinuationParams(s));
      Contains(prompt, s.genre) && Contains(prompt, s.tone)
      && (Context(s.fullStory) != "" ==> Contains(prompt, Context(s.fullStory)))
      && (Context(s.fullStory) == "" ==> Contains(prompt, NO_PREVIOUS_CONTENT))
  {
  }

  /** The checks `importStory` makes on a decoded record: both `id` and `title` non-empty. */
  function ValidateImport(data: string, decode: string -> Option<StoryState>): (r: Option<StoryState>)
    ensures r.Some? <==> decode(data).Some? && decode(data).value.id != "" && decode(data).value.title != ""
    ensures r.Some? ==> r == decode(data)
  {
    match decode(data)
    case None => None
    case Some(story) => if story.id == "" || story.title == "" then None else Some(story)
  }

  /** Exporting a titled story and importing the text gives back the same record. */
  lemma ExportImportRoundTrip(s: StoryState, encode: StoryState -> string, decode: string -> Option<StoryState>)
    requires decode(encode(s)) == Some(s)
    requires s.id != ""
    ensures s.title != "" ==> ValidateImport(encode(s), decode) == Some(s)
    ensures s.title == "" ==> ValidateImport(encode(s), decode) == None
  {
  }

  /** A record sorted by `lastUpdated`, newest first. */
  predicate NewestFirst(stories: seq<StoryState>) {
    forall i, j :: 0 <= i < j < |stories| ==> stories[i].lastUpdated >= stories[j].lastUpdated
  }

  /** A record at least as recent as every record of a newest-first list can go in front of it. */
  lemma ConsNewestFirst(x: StoryState, rest: seq<StoryState>)
    requires NewestFirst(rest)
    requires forall y :: y in rest ==> y.lastUpdated <= x.lastUpdated
    ensures NewestFirst([x] + rest)
  {
    var r := [x] + rest;
    forall i, j | 0 <= i < j < |r|
      ensures r[i].lastUpdated >= r[j].lastUpdated
    {
      assert r[j] == rest[j - 1];
      if i > 0 {
        assert r[i] == rest[i - 1];
      } else {
        assert r[j] in rest;
      }
    }
  }

  /** Insert one record in front of the first record that is not more recent than it. */
  function InsertByRecency(sorted: seq<StoryState>, s: StoryState): (r: seq<StoryState>)
    ensures |r| == |sorted| + 1
    decreases |sorted|
  {
    if |sorted| == 0 || s.lastUpdated >= sorted[0].lastUpdated then [s] + sorted
    else [sorted[0]] + InsertByRecency(sorted[1..], s)
  }

  /** The insertion adds exactly the one record and loses none. */
  lemma {:induction false} InsertAddsOne(sorted: seq<StoryState>, s: StoryState)
    ensures multiset(InsertByRecency(sorted, s)) == multiset(sorted) + multiset{s}
    decreases |sorted|
  {
    if |sorted| > 0 && s.lastUpdated < sorted[0].lastUpdated {
      InsertAddsOne(sorted[1..], s);
      assert sorted == [sorted[0]] + sorted[1..];
    }
  }

  /** The records of the list after the insertion are the inserted one and the old ones. */
  lemma InsertMembers(sorted: seq<StoryState>, s: StoryState)
    ensures forall x :: x in InsertByRecency(sorted, s) <==> x == s || x in sorted
  {
    InsertAddsOne(sorted, s);
    var r := InsertByRecency(sorted, s);
    forall x
      ensures x in r <==> x == s || x in sorted
    {
      assert x in r <==> x in multiset(r);
      assert x in sorted <==> x in multiset(sorted);
    }
  }

  /** Inserting into a newest-first list keeps it newest first. */
  lemma {:induction false} InsertKeepsNewestFirst(sorted: seq<StoryState>, s: StoryState)
    requires NewestFirst(sorted)
    ensures NewestFirst(InsertByRecency(sorted, s))
    decreases |sorted|
  {
    if |sorted| == 0 || s.lastUpdated >= sorted[0].lastUpdated {
      forall y | y in sorted
        ensures y.lastUpdated <= s.lastUpdated
      {
        var k :| 0 <= k < |sorted| && sorted[k] == y;
        assert sorted[0].lastUpdated >= sorted[k].lastUpdated;
      }
      ConsNewestFirst(s, sorted);
    } else {
      var rest := InsertByRecency(sorted[1..], s);
      InsertKeepsNewestFirst(sorted[1..], s);
      InsertAddsOne(sorted[1..], s);
      forall y | y in rest
        ensures y.lastUpdated <= sorted[0].lastUpdated
      {
        assert y in multiset(rest);
        if y != s {
          assert y in multiset(sorted[1..]);
          var k :| 0 <= k < |sorted[1..]| && sorted[1..][k] == y;
          assert sorted[k + 1] == y;
        }
      }
      ConsNewestFirst(sorted[0], rest);
    }
  }

  class StoryStore {
    var stories: map<string, StoryState>

    /** Every record is filed under its own id, and no id is empty. */
    predicate Valid()
      reads this
    {
      forall k :: k in stories ==> stories[k].id == k && k != ""
    }

    constructor()
      ensures stories == map[] && Valid()
    {
      stories := map[];
    }

    /** `getStory`: the stored record, or `null` for an unknown id. */
    function GetStory(id: string): (r: Option<StoryState>)
      reads this
      ensures r.Some? <==> id in stories
      ensures r.Some? ==> r.value == stories[id]
    {
      if id in stories then Some(stories[id]) else None
    }

    /** `createNewStory`: registers a fresh record under `story_<now>_<random>` and returns it. */
    method CreateNewStory(params: StoryGenerationParams, now: nat, random: string) returns (story: StoryState)
      requires Valid()
      modifies this
      ensures Valid()
      ensures story == NewStory(StoryId(now, random), params, now)
      ensures stories == old(stories)[story.id := story]
      ensures GetStory(story.id) == Some(story)
    {
      var id := StoryId(now, random);
      story := NewStory(id, params, now);
      stories := stories[id := story];
    }

    /** `updateStoryWithResponse`: `null` and no change for an unknown id. */
    method UpdateStoryWithResponse(id: string, response: StoryResponse, now: int) returns (result: Option<StoryState>)
      requires Valid()
      modifies this
      ensures Valid()
      ensures id !in old(stories) ==> result.None? && stories == old(stories)
      ensures id in old(stories) ==>
        result == Some(ApplyResponse(old(stories)[id], response, now))
        && stories == old(stories)[id := result.value]
    {
      if id !in stories {
        return None;
      }
      var story := ApplyResponse(stories[id], response, now);
      stories := stories[id := story];
      result := Some(story);
    }

    /** `continueStoryWithAction`: `null` and no change for an unknown id. */
    method ContinueStoryWithAction(id: string, action: string, now: int) returns (result: Option<StoryState>)
      requires Valid()
      modifies this
      ensures Valid()
      ensures id !in old(stories) ==> result.None? && stories == old(stories)
      ensures id in old(stories) ==>
        result == Some(RecordAction(old(stories)[id], action, now))
        && stories == old(stories)[id := result.value]
    {
      if id !in stories {
        return None;
      }
      var story := RecordAction(stories[id], action, now);
      stories := stories[id := story];
      result := Some(story);
    }

    /** `deleteStory`: true exactly when the id was present; only that key goes. */
    method DeleteStory(id: string) returns (deleted: bool)
      requires Valid()
      modifies this
      ensures Valid()
      ensures deleted <==> id in old(stories)
      ensures stories == old(stories) - {id}
    {
      deleted := id in stories;
      stories := stories - {id};
    }

    /** `getStoryContext`: the recent history of the story, or "" for an unknown id. */
    function GetStoryContext(id: string): (c: string)
      reads this
      ensures id !in stories ==> c == ""
      ensures id in stories ==> c == Context(stories[id].fullStory)
    {
      if id in stories then Context(stories[id].fullStory) else ""
    }

    /** `getStoryForContinuation`: the next turn's parameters, or `null` for an unknown id. */
    function GetStoryForContinuation(id: string): (r: Option<StoryGenerationParams>)
      reads this
      ensures r.Some? <==> id in stories
      ensures r.Some? ==>
        r.value == ContinuationParams(stories[id]) && r.value.previousContent == Some(GetStoryContext(id))
    {
      if id in stories then Some(ContinuationParams(stories[id])) else None
    }

    /** `exportStory`: the encoded record, or `null` for an unknown id. */
    function ExportStory(id: string, encode: StoryState -> string): (r: Option<string>)
      reads this
      ensures r.Some? <==> id in stories
      ensures r.Some? ==> r.value == encode(stories[id])
    {
      if id in stories then Some(encode(stories[id])) else None
    }

    /**
     * `importStory`: never throws. A text that does not decode, or a record without
     * id or title, gives `null` and leaves the store alone; otherwise the record is
     * filed under its id, replacing any record there.
     */
    method ImportStory(data: string, decode: string -> Option<StoryState>) returns (result: Option<StoryState>)
      requires Valid()
      modifies this
      ensures Valid()
      ensures result == ValidateImport(data, decode)
      ensures result.None? ==> stories == old(stories)
      ensures result.Some? ==> stories == old(stories)[result.value.id := result.value]
    {
      result := ValidateImport(data, decode);
      if result.Some? {
        stories := stories[result.value.id := result.value];
      }
    }

    /** A stored titled story survives an export followed by an import unchanged. */
    lemma StoredRoundTrip(id: string, encode: StoryState -> string, decode: string -> Option<StoryState>)
      requires Valid()
      requires id in stories && stories[id].title != ""
      requires decode(encode(stories[id])) == Some(stories[id])
      ensures ExportStory(id, encode).Some?
      ensures ValidateImport(ExportStory(id, encode).value, decode) == Some(stories[id])
    {
      ExportImportRoundTrip(stories[id], encode, decode);
    }

    /** `getAllStories`: every stored record exactly once, newest first. */
    method GetAllStories() returns (all: seq<StoryState>)
      requires Valid()
      ensures NewestFirst(all)
      ensures |all| == |stories|
      ensures forall k :: k in stories ==> stories[k] in all
      ensures forall s :: s in all ==> s.id in stories && stories[s.id] == s
    {
      all := [];
      var remaining := stories.Keys;
      while remaining != {}
        invariant remaining <= stories.Keys
        invariant NewestFirst(all)
        invariant |all| + |remaining| == |stories|
        invariant forall k :: k in stories && k !in remaining ==> stories[k] in all
        invariant forall s :: s in all ==> s.id in stories && stories[s.id] == s && s.id !in remaining
        decreases |remaining|
      {
        var k :| k in remaining;
        InsertKeepsNewestFirst(all, stories[k]);
        InsertMembers(all, stories[k]);
        all := InsertByRecency(all, stories[k]);
        remaining := remaining - {k};
      }
    }
  }
}
