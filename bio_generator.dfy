/**
 * The character bio of the sign-up flow: the locally generated fallback bio
 * (`generateFallbackBio`) and the rule that the remote bio call falls back to it.
 */
module BioGenerator {
  import opened JsSemantics
  import Zodiac

  datatype CharacterBio = CharacterBio(
    name: string, title: string, description: string, tags: seq<string>, backstory: string)

  const UNIQUE_TITLE: string := "The Unique Individual"
  const UNIQUE_TAG: string := "Unique"
  const INTEREST_SEPARATOR: string := " and "
  const DESCRIPTION_LEAD: string := "As a "
  const DESCRIPTION_AFTER_SIGN: string := ", "

  /** The fixed sentences of the description and the backstory, looked up by name. */
  datatype Passage = DescriptionMiddle | DescriptionTail | BackstoryAfterName | BackstoryAfterSign | BackstoryTail

  function Text(p: Passage): string {
    match p
    case DescriptionMiddle => " brings their natural personality traits to everything they do. With interests in "
    case DescriptionTail => ", they approach life with enthusiasm and authenticity."
    case BackstoryAfterName => " has always been known for their "
    case BackstoryAfterSign => " nature, bringing their unique perspective to their interests in "
    case BackstoryTail => ". Their journey has been shaped by their natural personality traits and the experiences they've gained through their passions."
  }

  /** The `zodiacTitles` table. */
  function SignTitle(k: Zodiac.SignKey): string {
    match k
    case Aries => "The Natural Leader"
    case Taurus => "The Reliable Friend"
    case Gemini => "The Social Connector"
    case Cancer => "The Caring Soul"
    case Leo => "The Confident Performer"
    case Virgo => "The Detail-Oriented Helper"
    case Libra => "The Peaceful Mediator"
    case Scorpio => "The Intense Explorer"
    case Sagittarius => "The Curious Traveler"
    case Capricorn => "The Ambitious Achiever"
    case Aquarius => "The Independent Thinker"
    case Pisces => "The Creative Dreamer"
  }

  /** `zodiacTitles[zodiacSign] || 'The Unique Individual'`: a sign's own title, the fixed one for any other string. */
  function Title(zodiacSign: string): (title: string)
    ensures Zodiac.SignKeyOf(zodiacSign).Some? ==> title == SignTitle(Zodiac.SignKeyOf(zodiacSign).value)
    ensures Zodiac.SignKeyOf(zodiacSign).None? ==> title == UNIQUE_TITLE
  {
    match Zodiac.SignKeyOf(zodiacSign)
    case Some(k) => SignTitle(k)
    case None => UNIQUE_TITLE
  }

  /** Every sign name of the zodiac table has its own title; no other string has one. */
  lemma TitleOfSign(k: Zodiac.SignKey, other: string)
    requires forall k' :: Zodiac.SignName(k') != other
    ensures Title(Zodiac.SignName(k)) == SignTitle(k)
    ensures Title(other) == UNIQUE_TITLE
  {
    Zodiac.SignKeyOfName(k);
  }

  /** The character words of the `tagMap` table. */
  datatype TagWord = Creative | Strategic | Adventurous | Determined | Artistic | Observant | Nurturing | Explorer | Thoughtful | Imaginative | Competitive | Expressive | Communicative | Innovative | Peaceful | Stylish | Mindful | Patient | DetailOriented | Curious | Knowledgeable | Analytical | Cultural | Compassionate | Passionate | Witty | Strong | Flexible | ProblemSolver

  function TagText(w: TagWord): string {
    match w
    case Creative => "Creative"
    case Strategic => "Strategic"
    case Adventurous => "Adventurous"
    case Determined => "Determined"
    case Artistic => "Artistic"
    case Observant => "Observant"
    case Nurturing => "Nurturing"
    case Explorer => "Explorer"
    case Thoughtful => "Thoughtful"
    case Imaginative => "Imaginative"
    case Competitive => "Competitive"
    case Expressive => "Expressive"
    case Communicative => "Communicative"
    case Innovative => "Innovative"
    case Peaceful => "Peaceful"
    case Stylish => "Stylish"
    case Mindful => "Mindful"
    case Patient => "Patient"
    case DetailOriented => "Detail-Oriented"
    case Curious => "Curious"
    case Knowledgeable => "Knowledgeable"
    case Analytical => "Analytical"
    case Cultural => "Cultural"
    case Compassionate => "Compassionate"
    case Passionate => "Passionate"
    case Witty => "Witty"
    case Strong => "Strong"
    case Flexible => "Flexible"
    case ProblemSolver => "Problem-Solver"
  }

  /** The `tagMap` table: the character word of each known interest. */
  function MappedTag(interest: string): Option<TagWord> {
    if interest == "Art & Design" then Some(Creative)
    else if interest == "Gaming" then Some(Strategic)
    else if interest == "Hiking" then Some(Adventurous)
    else if interest == "Exercising" then Some(Determined)
    else if interest == "Music" then Some(Artistic)
    else if interest == "Photography" then Some(Observant)
    else if interest == "Cooking" then Some(Nurturing)
    else if interest == "Travel" then Some(Explorer)
    else if interest == "Reading" then Some(Thoughtful)
    else if interest == "Movies" then Some(Imaginative)
    else if interest == "Sports" then Some(Competitive)
    else if interest == "Dancing" then Some(Expressive)
    else if interest == "Writing" then Some(Communicative)
    else if interest == "Technology" then Some(Innovative)
    else if interest == "Nature" then Some(Peaceful)
    else if interest == "Fashion" then Some(Stylish)
    else if interest == "Meditation" then Some(Mindful)
    else if interest == "Gardening" then Some(Patient)
    else if interest == "Crafting" then Some(DetailOriented)
    else if interest == "Astronomy" then Some(Curious)
    else if interest == "History" then Some(Knowledgeable)
    else if interest == "Science" then Some(Analytical)
    else if interest == "Languages" then Some(Cultural)
    else if interest == "Volunteering" then Some(Compassionate)
    else if interest == "Collecting" then Some(Passionate)
    else if interest == "Theater" then Some(Artistic)
    else if interest == "Comedy" then Some(Witty)
    else if interest == "Fitness" then Some(Strong)
    else if interest == "Yoga" then Some(Flexible)
    else if interest == "Puzzles" then Some(ProblemSolver)
    else None
  }

  /** No word of the table is empty, so `||` falls back exactly for the unmapped interests. */
  lemma TagWordsNonEmpty(w: TagWord)
    ensures TagText(w) != ""
  {
  }

  /** `tagMap[interest] || 'Unique'`. */
  function Tag(interest: string): (tag: string)
    ensures MappedTag(interest).Some? ==> tag == TagText(MappedTag(interest).value)
    ensures MappedTag(interest).None? ==> tag == UNIQUE_TAG
  {
    match MappedTag(interest)
    case Some(w) => TagText(w)
    case None => UNIQUE_TAG
  }

  /** `.map(interest => Tag(interest))`: one tag per interest, in the same order. */
  function Tags(interests: seq<string>): (tags: seq<string>)
    ensures |tags| == |interests|
    ensures forall i :: 0 <= i < |interests| ==> tags[i] == Tag(interests[i])
  {
    if |interests| == 0 then [] else [Tag(interests[0])] + Tags(interests[1..])
  }

  /** `interests.slice(0, 3).map(…)`: the tags of the first three interests, in order. */
  function InterestTags(interests: seq<string>): (tags: seq<string>)
    ensures |tags| == Min(3, |interests|)
    ensures forall i :: 0 <= i < |tags| ==> tags[i] == Tag(interests[i])
  {
    Tags(Slice(interests, 0, 3))
  }

  /** `interests.slice(0, 2).join(' and ')`. */
  function FirstTwo(interests: seq<string>): (joined: string)
    ensures |interests| == 0 ==> joined == ""
    ensures |interests| == 1 ==> joined == interests[0]
    ensures |interests| >= 2 ==> joined == interests[0] + INTEREST_SEPARATOR + interests[1]
  {
    var two := Slice(interests, 0, 2);
    assert |interests| >= 2 ==> two == interests[..2] && two[1..] == [interests[1]] && Join(two[1..], INTEREST_SEPARATOR) == interests[1];
    Join(two, INTEREST_SEPARATOR)
  }

  /** Each of the first two interests occurs in their join. */
  lemma FirstTwoCarries(interests: seq<string>, i: nat)
    requires i < 2 && i < |interests|
    ensures Contains(FirstTwo(interests), interests[i])
  {
    var two := Slice(interests, 0, 2);
    JoinContainsParts(two, INTEREST_SEPARATOR, i);
  }

  function Description(zodiacSign: string, firstName: string, joined: string): (d: string)
    ensures Contains(d, zodiacSign) && Contains(d, firstName) && Contains(d, joined)
  {
    ContainsEachOfThree(DESCRIPTION_LEAD, zodiacSign, DESCRIPTION_AFTER_SIGN, firstName,
      Text(DescriptionMiddle), joined, Text(DescriptionTail));
    DESCRIPTION_LEAD + zodiacSign + DESCRIPTION_AFTER_SIGN + firstName + Text(DescriptionMiddle) + joined + Text(DescriptionTail)
  }

  /** The backstory opens with the first name and names the sign in lower case. */
  function Backstory(zodiacSign: string, firstName: string, joined: string): (b: string)
    ensures firstName <= b
    ensures Contains(b, AsciiLower(zodiacSign)) && Contains(b, joined)
  {
    var lower := AsciiLower(zodiacSign);
    OpensWithAndContainsTwo(firstName, Text(BackstoryAfterName), lower, Text(BackstoryAfterSign), joined, Text(BackstoryTail));
    firstName + Text(BackstoryAfterName) + lower + Text(BackstoryAfterSign) + joined + Text(BackstoryTail)
  }

  /**
   * `generateFallbackBio`: the name is the first name; the title comes from the sign;
   * the tags are those of the first three interests, in order; description and
   * backstory both carry the sign and the first two interests joined with " and ".
   */
  function FallbackBio(zodiacSign: string, interests: seq<string>, firstName: string): (bio: CharacterBio)
    ensures bio.name == firstName
    ensures bio.title == Title(zodiacSign)
    ensures bio.tags == InterestTags(interests)
    ensures Contains(bio.description, zodiacSign) && Contains(bio.description, FirstTwo(interests))
    ensures Contains(bio.backstory, AsciiLower(zodiacSign)) && Contains(bio.backstory, FirstTwo(interests))
  {
    var joined := FirstTwo(interests);
    CharacterBio(
      firstName,
      Title(zodiacSign),
      Description(zodiacSign, firstName, joined),
      InterestTags(interests),
      Backstory(zodiacSign, firstName, joined))
  }

  /** Each of the first two interests appears in both the description and the backstory. */
  lemma BioMentionsInterests(zodiacSign: string, interests: seq<string>, firstName: string, i: nat)
    requires i < 2 && i < |interests|
    ensures Contains(FallbackBio(zodiacSign, interests, firstName).description, interests[i])
    ensures Contains(FallbackBio(zodiacSign, interests, firstName).backstory, interests[i])
  {
    var bio := FallbackBio(zodiacSign, interests, firstName);
    FirstTwoCarries(interests, i);
    ContainsTrans(bio.description, FirstTwo(interests), interests[i]);
    ContainsTrans(bio.backstory, FirstTwo(interests), interests[i]);
  }

  /** What the bio request gives: a network failure, or a response with its status and body. */
  datatype BioReply = Unreachable | BioResponse(ok: bool, body: string)

  /**
   * `generateCharacterBio`: the remote bio when the request succeeds and its body
   * parses (`None` stands for an absent `characterBio`); the fallback bio whenever
   * the request fails, the status is not OK or the body does not parse.
   */
  function GenerateCharacterBio(zodiacSign: string, interests: seq<string>, firstName: string,
                                reply: BioReply, parse: string -> Option<Option<CharacterBio>>): (bio: Option<CharacterBio>)
    ensures (reply.Unreachable? || !reply.ok || parse(reply.body).None?) ==>
      bio == Some(FallbackBio(zodiacSign, interests, firstName))
    ensures reply.BioResponse? && reply.ok && parse(reply.body).Some? ==> bio == parse(reply.body).value
  {
    match reply
    case Unreachable => Some(FallbackBio(zodiacSign, interests, firstName))
    case BioResponse(ok, body) =>
      if !ok then Some(FallbackBio(zodiacSign, interests, firstName))
      else
        match parse(body)
        case None => Some(FallbackBio(zodiacSign, interests, firstName))
        case Some(characterBio) => characterBio
  }
}
