/**
 * The story-type screen: the fixed genre cards, their split into three rows,
 * and the Continue guard that passes the chosen genre key on.
 */
module StoryType {
  import opened JsSemantics

  /** The genre cards, in the order the screen lists them (their images are not modelled). */
  datatype GenreCard = Horror | Romance | SciFi | Fantasy | Mystery | Adventure | Comedy | Mythology | History | Thriller | Drama | Action | Supernatural | Western | Steampunk | Detective | Romantic | Space | Magic | Suspense | Exploration | Humor | Legends | Historical | Psychological

  const GENRES: seq<GenreCard> := [
    Horror, Romance, SciFi, Fantasy, Mystery,
    Adventure, Comedy, Mythology, History, Thriller,
    Drama, Action, Supernatural, Western, Steampunk,
    Detective, Romantic, Space, Magic, Suspense,
    Exploration, Humor, Legends, Historical, Psychological
  ]

  /** The key of each card, passed on as the chosen genre. */
  function Key(g: GenreCard): string {
    match g
    case Horror => "horror"
    case Romance => "romance"
    case SciFi => "scifi"
    case Fantasy => "fantasy"
    case Mystery => "mystery"
    case Adventure => "adventure"
    case Comedy => "comedy"
    case Mythology => "mythology"
    case History => "history"
    case Thriller => "thriller"
    case Drama => "drama"
    case Action => "action"
    case Supernatural => "supernatural"
    case Western => "western"
    case Steampunk => "steampunk"
    case Detective => "detective"
    case Romantic => "romantic"
    case Space => "space"
    case Magic => "magic"
    case Suspense => "suspense"
    case Exploration => "exploration"
    case Humor => "humor"
    case Legends => "legends"
    case Historical => "historical"
    case Psychological => "psychological"
  }

  /** The title shown on each card. */
  function Title(g: GenreCard): string {
    match g
    case Horror => "Horror"
    case Romance => "Romance"
    case SciFi => "Sci-Fi"
    case Fantasy => "Fantasy"
    case Mystery => "Mystery"
    case Adventure => "Adventure"
    case Comedy => "Comedy"
    case Mythology => "Mythology"
    case History => "History"
    case Thriller => "Thriller"
    case Drama => "Drama"
    case Action => "Action"
    case Supernatural => "Supernatural"
    case Western => "Western"
    case Steampunk => "Steampunk"
    case Detective => "Detective"
    case Romantic => "Romantic"
    case Space => "Space"
    case Magic => "Magic"
    case Suspense => "Suspense"
    case Exploration => "Exploration"
    case Humor => "Humor"
    case Legends => "Legends"
    case Historical => "Historical"
    case Psychological => "Psychological"
  }

  /** Genre keys are pairwise distinct (their length, first and last letters already tell them apart). */
  lemma KeysDistinct(g: GenreCard, h: GenreCard)
    ensures Key(g) == Key(h) ==> g == h
  {
    if Key(g) == Key(h) {
      var k := Key(g);
      assert |k| == |Key(h)| && k[0] == Key(h)[0] && k[|k| - 1] == Key(h)[|Key(h)| - 1];
    }
  }

  /** The place of each card in the list. */
  function Position(g: GenreCard): nat {
    match g
    case Horror => 0
    case Romance => 1
    case SciFi => 2
    case Fantasy => 3
    case Mystery => 4
    case Adventure => 5
    case Comedy => 6
    case Mythology => 7
    case History => 8
    case Thriller => 9
    case Drama => 10
    case Action => 11
    case Supernatural => 12
    case Western => 13
    case Steampunk => 14
    case Detective => 15
    case Romantic => 16
    case Space => 17
    case Magic => 18
    case Suspense => 19
    case Exploration => 20
    case Humor => 21
    case Legends => 22
    case Historical => 23
    case Psychological => 24
  }

  /** Every card is in the list, at its position. */
  lemma GenreListed(g: GenreCard)
    ensures Position(g) < |GENRES| && GENRES[Position(g)] == g
  {
  }

  /** No card is listed twice. */
  lemma GenresDistinct()
    ensures forall i, j :: 0 <= i < j < |GENRES| ==> GENRES[i] != GENRES[j]
  {
    assert forall i :: 0 <= i < |GENRES| ==> Position(GENRES[i]) == i;
  }

  /** `Math.ceil(n / 3)` for a list length. */
  function RowSize(n: nat): (s: nat)
    ensures 3 * s >= n && 3 * s < n + 3
  {
    (n + 2) / 3
  }

  /** The `rows` memo: the slices `[0, s)`, `[s, 2s)` and `[2s, n)` with `s = ceil(n / 3)`. */
  function Rows<T>(items: seq<T>): (rows: seq<seq<T>>)
    ensures |rows| == 3
    ensures rows[0] + rows[1] + rows[2] == items
    ensures forall r :: 0 <= r < 3 ==> |rows[r]| <= RowSize(|items|)
  {
    var size := RowSize(|items|);
    var first := Slice(items, 0, size);
    var second := Slice(items, size, size * 2);
    var third := SliceFrom(items, size * 2);
    assert first + second + third == items;
    [first, second, third]
  }

  /** Rows fill up in order: the first row is full whenever the second holds anything, and so on. */
  lemma RowsFillInOrder<T>(items: seq<T>)
    ensures var rows := Rows(items);
      (|rows[1]| > 0 ==> |rows[0]| == RowSize(|items|)) && (|rows[2]| > 0 ==> |rows[1]| == RowSize(|items|))
  {
  }

  /** The twenty-five genres of the screen give rows of nine, nine and seven cards. */
  lemma GenreRows()
    ensures |GENRES| == 25
    ensures |Rows(GENRES)[0]| == 9 && |Rows(GENRES)[1]| == 9 && |Rows(GENRES)[2]| == 7
  {
  }

  /**
   * `onContinue`: nothing happens while no genre is selected; otherwise the selected
   * key is passed on, unchanged, as the `genre` parameter.
   */
  function OnContinue(selected: Option<string>): (genre: Option<string>)
    ensures genre.None? <==> !Truthy(selected)
    ensures genre.Some? ==> genre.value == selected.value
  {
    if !Truthy(selected) then None else Some(selected.value)
  }

  /** The key a selected card passes on identifies that card: no other card has it. */
  lemma ContinueWithCard(g: GenreCard)
    ensures OnContinue(Some(Key(g))).Some?
    ensures forall h :: OnContinue(Some(Key(g))) == Some(Key(h)) ==> h == g
  {
    forall h | OnContinue(Some(Key(g))) == Some(Key(h))
      ensures h == g
    {
      KeysDistinct(g, h);
    }
  }
}
