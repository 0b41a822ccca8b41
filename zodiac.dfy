/**
 * The zodiac table of the sign-up flow and `getZodiacSign`, which turns a month
 * name and a day numeral into the sign whose date range holds that day.
 */
module Zodiac {
  import opened JsSemantics

  /** The twelve keys of `ZODIAC_SIGNS`. */
  datatype SignKey = Aries | Taurus | Gemini | Cancer | Leo | Virgo
                   | Libra | Scorpio | Sagittarius | Capricorn | Aquarius | Pisces

  datatype MonthDay = MonthDay(month: int, day: int)

  /** One entry of the table: its display fields and its date range. */
  datatype ZodiacSign = ZodiacSign(
    emoji: string, name: string, traits: string, archetype: string,
    start: MonthDay, end: MonthDay)

  /** What `getZodiacSign` returns: `{ signName, ...signData }` (the key is kept alongside). */
  datatype SignResult = SignResult(key: SignKey, signName: string, sign: ZodiacSign)

  /** The table keys in declaration order, which `Object.entries` walks. */
  const ZODIAC_ORDER: seq<SignKey> :=
    [Aries, Taurus, Gemini, Cancer, Leo, Virgo, Libra, Scorpio, Sagittarius, Capricorn, Aquarius, Pisces]

  function SignName(k: SignKey): string {
    match k
    case Aries => "Aries"
    case Taurus => "Taurus"
    case Gemini => "Gemini"
    case Cancer => "Cancer"
    case Leo => "Leo"
    case Virgo => "Virgo"
    case Libra => "Libra"
    case Scorpio => "Scorpio"
    case Sagittarius => "Sagittarius"
    case Capricorn => "Capricorn"
    case Aquarius => "Aquarius"
    case Pisces => "Pisces"
  }

  /** Looking a sign up by its key string, as `Record<string, …>` indexing does. */
  function SignKeyOf(signName: string): (r: Option<SignKey>)
    ensures r.Some? ==> SignName(r.value) == signName
    ensures r.None? ==> forall k :: SignName(k) != signName
  {
    if signName == "Aries" then Some(Aries)
    else if signName == "Taurus" then Some(Taurus)
    else if signName == "Gemini" then Some(Gemini)
    else if signName == "Cancer" then Some(Cancer)
    else if signName == "Leo" then Some(Leo)
    else if signName == "Virgo" then Some(Virgo)
    else if signName == "Libra" then Some(Libra)
    else if signName == "Scorpio" then Some(Scorpio)
    else if signName == "Sagittarius" then Some(Sagittarius)
    else if signName == "Capricorn" then Some(Capricorn)
    else if signName == "Aquarius" then Some(Aquarius)
    else if signName == "Pisces" then Some(Pisces)
    else None
  }

  /** Sign names are distinct keys: looking up a sign's own name finds that sign. */
  lemma SignKeyOfName(k: SignKey)
    ensures SignKeyOf(SignName(k)) == Some(k)
  {
  }

  /** First day of each sign's range. */
  function Start(k: SignKey): MonthDay {
    match k
    case Aries => MonthDay(3, 21)
    case Taurus => MonthDay(4, 20)
    case Gemini => MonthDay(5, 21)
    case Cancer => MonthDay(6, 21)
    case Leo => MonthDay(7, 23)
    case Virgo => MonthDay(8, 23)
    case Libra => MonthDay(9, 23)
    case Scorpio => MonthDay(10, 23)
    case Sagittarius => MonthDay(11, 22)
    case Capricorn => MonthDay(12, 22)
    case Aquarius => MonthDay(1, 20)
    case Pisces => MonthDay(2, 19)
  }

  /** Last day of each sign's range. */
  function End(k: SignKey): MonthDay {
    match k
    case Aries => MonthDay(4, 19)
    case Taurus => MonthDay(5, 20)
    case Gemini => MonthDay(6, 20)
    case Cancer => MonthDay(7, 22)
    case Leo => MonthDay(8, 22)
    case Virgo => MonthDay(9, 22)
    case Libra => MonthDay(10, 22)
    case Scorpio => MonthDay(11, 21)
    case Sagittarius => MonthDay(12, 21)
    case Capricorn => MonthDay(1, 19)
    case Aquarius => MonthDay(2, 18)
    case Pisces => MonthDay(3, 20)
  }

  function Emoji(k: SignKey): string {
    match k
    case Aries => "\U{1F525}"
    case Taurus => "\U{1F33F}"
    case Gemini => "\U{1F32C}"
    case Cancer => "\U{1F30A}"
    case Leo => "\U{2600}\U{FE0F}"
    case Virgo => "\U{1F33E}"
    case Libra => "\U{2696}\U{FE0F}"
    case Scorpio => "\U{1F982}"
    case Sagittarius => "\U{1F30C}"
    case Capricorn => "\U{1FAA8}"
    case Aquarius => "\U{1F320}"
    case Pisces => "\U{1F319}"
  }

  /** The sign's persona name (the `name` field). */
  function PersonaName(k: SignKey): string {
    match k
    case Aries => "Flamebearer"
    case Taurus => "Earthwarden"
    case Gemini => "Twinweaver"
    case Cancer => "Tidekeeper"
    case Leo => "Sunforged"
    case Virgo => "Quillwright"
    case Libra => "Balanceseeker"
    case Scorpio => "Veilbreaker"
    case Sagittarius => "Pathwanderer"
    case Capricorn => "Stonebound"
    case Aquarius => "Starborn"
    case Pisces => "Dreamtide"
  }

  function Traits(k: SignKey): string {
    match k
    case Aries => "Bold, adventurous, energetic, pioneering."
    case Taurus => "Steadfast, patient, sensual, grounded."
    case Gemini => "Curious, witty, adaptable, sociable."
    case Cancer => "Nurturing, emotional, intuitive, protective."
    case Leo => "Confident, radiant, expressive, loyal."
    case Virgo => "Analytical, detail-oriented, practical, helpful."
    case Libra => "Harmonious, diplomatic, aesthetic, fair."
    case Scorpio => "Intense, transformative, passionate, mysterious."
    case Sagittarius => "Adventurous, philosophical, optimistic, free-spirited."
    case Capricorn => "Disciplined, ambitious, responsible, determined."
    case Aquarius => "Visionary, unconventional, humanitarian, innovative."
    case Pisces => "Compassionate, imaginative, spiritual, empathetic."
  }

  function Archetype(k: SignKey): string {
    match k
    case Aries => "The Hero who sparks journeys."
    case Taurus => "The Guardian of comfort and stability."
    case Gemini => "The Trickster who thrives on duality."
    case Cancer => "The Healer or Caretaker of stories."
    case Leo => "The Performer who commands the stage."
    case Virgo => "The Scholar or Scribe who perfects the tale."
    case Libra => "The Mediator who restores balance."
    case Scorpio => "The Rebel who uncovers hidden truths."
    case Sagittarius => "The Explorer in search of wisdom."
    case Capricorn => "The Builder who creates lasting legacies."
    case Aquarius => "The Dreamer who imagines new worlds."
    case Pisces => "The Mystic who swims in stories and symbols."
  }

  /** `ZODIAC_SIGNS[SignName(k)]`. */
  function Entry(k: SignKey): ZodiacSign {
    ZodiacSign(Emoji(k), PersonaName(k), Traits(k), Archetype(k), Start(k), End(k))
  }

  /** The sign whose range wraps the year end: it starts in December and ends in January. */
  predicate WrapsYear(k: SignKey) {
    Start(k).month == 12 && End(k).month == 1
  }

  /**
   * The test of one table entry against a month number and a parsed day. A NaN day
   * (`None`) makes every comparison false. The year-wrapping entry is tested on its
   * own pair of conditions; every other entry by its start and its end month.
   */
  predicate Matches(k: SignKey, monthNum: int, dayNum: Option<int>)
    ensures Matches(k, monthNum, dayNum) ==> dayNum.Some?
    ensures Matches(k, monthNum, dayNum) ==> monthNum == Start(k).month || monthNum == End(k).month
  {
    var s := Start(k);
    var e := End(k);
    if WrapsYear(k) then
      (monthNum == 12 && dayNum.Some? && dayNum.value >= s.day) || (monthNum == 1 && dayNum.Some? && dayNum.value <= e.day)
    else
      (monthNum == s.month && dayNum.Some? && dayNum.value >= s.day)
      || (monthNum == e.month && dayNum.Some? && dayNum.value <= e.day)
  }

  /** The first entry of `table[i..]` that matches, in table order. */
  function FirstMatch(table: seq<SignKey>, i: nat, monthNum: int, dayNum: Option<int>): (r: Option<SignKey>)
    requires i <= |table|
    ensures r.Some? ==> r.value in table[i..] && Matches(r.value, monthNum, dayNum)
    ensures r.None? <==> forall k :: k in table[i..] ==> !Matches(k, monthNum, dayNum)
    decreases |table| - i
  {
    if i == |table| then None
    else if Matches(table[i], monthNum, dayNum) then Some(table[i])
    else
      assert table[i..] == [table[i]] + table[i + 1..];
      FirstMatch(table, i + 1, monthNum, dayNum)
  }

  /** The entry found is the first match: every entry before it in the table fails to match. */
  lemma {:induction false} FirstMatchIsFirst(table: seq<SignKey>, i: nat, monthNum: int, dayNum: Option<int>, j: nat)
    requires i <= j < |table|
    requires FirstMatch(table, i, monthNum, dayNum) == Some(table[j])
    requires forall l :: i <= l < j ==> table[l] != table[j]
    ensures forall l :: i <= l < j ==> !Matches(table[l], monthNum, dayNum)
    decreases |table| - i
  {
    if i < j {
      assert table[i] != table[j];
      FirstMatchIsFirst(table, i + 1, monthNum, dayNum, j);
    }
  }

  /** The search of `getZodiacSign` once month and day have been turned into numbers. */
  function Lookup(monthNum: int, dayNum: Option<int>): Option<SignKey> {
    FirstMatch(ZODIAC_ORDER, 0, monthNum, dayNum)
  }

  /**
   * `getZodiacSign(month, day, monthsList)`: the month number is the 1-based
   * position of `month` in `monthsList` (0 when absent), the day is `parseInt(day, 10)`.
   * It gives a sign exactly when the month is one of the first twelve listed and
   * the day parses, and then the sign's range holds that day.
   */
  function GetZodiacSign(month: string, day: string, monthsList: seq<string>): (r: Option<SignResult>)
    ensures r.Some? <==> 0 <= IndexOf(monthsList, month) < 12 && ParseInt(day).Some?
    ensures r.Some? ==> Matches(r.value.key, IndexOf(monthsList, month) + 1, ParseInt(day))
    ensures r.Some? ==> r.value.signName == SignName(r.value.key) && r.value.sign == Entry(r.value.key)
  {
    var monthNum := IndexOf(monthsList, month) + 1;
    var dayNum := ParseInt(day);
    MatchIffValid(monthNum, dayNum);
    match Lookup(monthNum, dayNum)
    case Some(k) => Some(SignResult(k, SignName(k), Entry(k)))
    case None => None
  }

  /** The sign whose range starts in month `m`. */
  function StartingIn(m: int): SignKey
    requires 1 <= m <= 12
    ensures Start(StartingIn(m)).month == m
  {
    if m == 1 then Aquarius else if m == 2 then Pisces else if m == 3 then Aries
    else if m == 4 then Taurus else if m == 5 then Gemini else if m == 6 then Cancer
    else if m == 7 then Leo else if m == 8 then Virgo else if m == 9 then Libra
    else if m == 10 then Scorpio else if m == 11 then Sagittarius else Capricorn
  }

  /** The sign whose range ends in month `m`: the one before `StartingIn(m)`, ending the day before. */
  function EndingIn(m: int): (k: SignKey)
    requires 1 <= m <= 12
    ensures End(k).month == m
    ensures End(k).day + 1 == Start(StartingIn(m)).day
  {
    if m == 1 then Capricorn else if m == 2 then Aquarius else if m == 3 then Pisces
    else if m == 4 then Aries else if m == 5 then Taurus else if m == 6 then Gemini
    else if m == 7 then Cancer else if m == 8 then Leo else if m == 9 then Virgo
    else if m == 10 then Libra else if m == 11 then Scorpio else Sagittarius
  }

  /** Every range starts and ends within the months 1 to 12. */
  lemma RangesWithinYear(k: SignKey)
    ensures 1 <= Start(k).month <= 12 && 1 <= End(k).month <= 12
  {
  }

  /**
   * An entry matches a month and day exactly when it is the sign starting in that
   * month and the day is on or after its first day, or the sign ending in that
   * month and the day is on or before its last day.
   */
  lemma MatchesByMonth(k: SignKey, m: int, d: int)
    requires 1 <= m <= 12
    ensures Matches(k, m, Some(d)) <==>
      (k == StartingIn(m) && d >= Start(k).day) || (k == EndingIn(m) && d <= End(k).day)
  {
  }

  /** Totality and uniqueness: for every month 1 to 12 and every day number exactly one entry matches. */
  lemma ExactlyOneMatches(m: int, d: int) returns (k: SignKey)
    requires 1 <= m <= 12
    ensures Matches(k, m, Some(d))
    ensures forall k' :: Matches(k', m, Some(d)) ==> k' == k
  {
    if d >= Start(StartingIn(m)).day {
      k := StartingIn(m);
    } else {
      k := EndingIn(m);
    }
    forall k' | Matches(k', m, Some(d))
      ensures k' == k
    {
      MatchesByMonth(k', m, d);
    }
  }

  /** Some entry matches exactly when the month is 1 to 12 and the day parsed. */
  lemma MatchIffValid(monthNum: int, dayNum: Option<int>)
    ensures Lookup(monthNum, dayNum).Some? <==> 1 <= monthNum <= 12 && dayNum.Some?
  {
    if 1 <= monthNum <= 12 && dayNum.Some? {
      var k := ExactlyOneMatches(monthNum, dayNum.value);
      assert k in ZODIAC_ORDER[0..];
    } else {
      forall k | k in ZODIAC_ORDER[0..]
        ensures !Matches(k, monthNum, dayNum)
      {
        RangesWithinYear(k);
      }
    }
  }

  /** A month name missing from the list gives month number 0 and so no sign. */
  lemma UnknownMonthIsNull(month: string, day: string, monthsList: seq<string>)
    requires month !in monthsList
    ensures GetZodiacSign(month, day, monthsList).None?
  {
  }

  /** A day with no leading digits parses to NaN and so gives no sign. */
  lemma NaNDayIsNull(month: string, day: string, monthsList: seq<string>)
    requires ParseInt(day).None?
    ensures GetZodiacSign(month, day, monthsList).None?
  {
  }

  /** The year-wrapping entry is Capricorn, matching December 22 onward and January up to the 19th. */
  lemma CapricornRange(m: int, d: int)
    ensures WrapsYear(Capricorn) && forall k :: WrapsYear(k) ==> k == Capricorn
    ensures Matches(Capricorn, m, Some(d)) <==> (m == 12 && d >= 22) || (m == 1 && d <= 19)
  {
  }

  /** The lookup picks the unique matching entry, whatever the table order. */
  lemma LookupIsTheMatch(m: int, d: int, k: SignKey)
    requires Matches(k, m, Some(d))
    ensures Lookup(m, Some(d)) == Some(k)
  {
    RangesWithinYear(k);
    var only := ExactlyOneMatches(m, d);
    MatchIffValid(m, Some(d));
  }

  /** The boundary days of the ranges around the spring equinox and the year end. */
  lemma Boundaries()
    ensures Lookup(3, Some(20)) == Some(Pisces) && Lookup(3, Some(21)) == Some(Aries)
    ensures Lookup(12, Some(21)) == Some(Sagittarius) && Lookup(12, Some(22)) == Some(Capricorn)
    ensures Lookup(1, Some(19)) == Some(Capricorn) && Lookup(1, Some(20)) == Some(Aquarius)
  {
    LookupIsTheMatch(3, 20, Pisces);
    LookupIsTheMatch(3, 21, Aries);
    LookupIsTheMatch(12, 21, Sagittarius);
    LookupIsTheMatch(12, 22, Capricorn);
    LookupIsTheMatch(1, 19, Capricorn);
    LookupIsTheMatch(1, 20, Aquarius);
  }

  /**
   * With a list of distinct month names, picking the `m`-th name and the numeral
   * of a day gives the sign whose range holds that month and day.
   */
  lemma PickedDateGivesItsSign(monthsList: seq<string>, m: nat, d: nat)
    requires 1 <= m <= 12 && m <= |monthsList|
    requires forall i, j :: 0 <= i < j < |monthsList| ==> monthsList[i] != monthsList[j]
    ensures GetZodiacSign(monthsList[m - 1], DecimalString(d), monthsList).Some?
    ensures Some(GetZodiacSign(monthsList[m - 1], DecimalString(d), monthsList).value.key) == Lookup(m, Some(d))
  {
    ParseIntOfDecimal(d);
    var r := GetZodiacSign(monthsList[m - 1], DecimalString(d), monthsList);
    assert r.Some? && Matches(r.value.key, m, Some(d));
    LookupIsTheMatch(m, d, r.value.key);
  }
}
