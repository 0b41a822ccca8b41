/**
 * The sign-up screen: the capped, duplicate-free interest toggle and the
 * four-step onboarding machine (name, birthday, results, interests) driven by
 * the Continue button.
 */
module SignUp {
  import opened JsSemantics
  import Zodiac

  const MAX_INTERESTS: nat := 10
  const MIN_INTERESTS_TO_CONTINUE: nat := 3

  /** `prev.filter(item => item !== x)`: every copy of `x` removed, the rest in order. */
  function Without(prev: seq<string>, x: string): (r: seq<string>)
    ensures x !in r
    ensures forall y :: y != x ==> (y in r <==> y in prev)
    ensures |r| <= |prev|
    ensures x in prev ==> |r| < |prev|
    ensures x !in prev ==> r == prev
    ensures multiset(r) == multiset(prev)[x := 0]
  {
    if |prev| == 0 then []
    else
      assert prev == [prev[0]] + prev[1..];
      if prev[0] == x then Without(prev[1..], x)
      else [prev[0]] + Without(prev[1..], x)
  }

  /**
   * `toggleInterest`: a selected interest is removed (every copy); an unselected one
   * is appended when fewer than ten are selected, and ignored otherwise.
   */
  function ToggleInterest(prev: seq<string>, interest: string): (next: seq<string>)
    ensures interest in prev ==> interest !in next && |next| < |prev|
    ensures interest in prev ==> forall y :: y != interest ==> (y in next <==> y in prev)
    ensures interest in prev ==> multiset(next) == multiset(prev)[interest := 0]
    ensures NoDuplicates(prev) ==>
      forall k :: 0 <= k < |prev| && prev[k] == interest ==> next == prev[..k] + prev[k + 1..]
    ensures interest !in prev && |prev| < MAX_INTERESTS ==> next == prev + [interest]
    ensures interest !in prev && |prev| >= MAX_INTERESTS ==> next == prev
  {
    if interest in prev then
      WithoutEach(prev, interest);
      Without(prev, interest)
    else if |prev| < MAX_INTERESTS then prev + [interest]
    else prev
  }

  predicate NoDuplicates(s: seq<string>) {
    forall i, j :: 0 <= i < j < |s| ==> s[i] != s[j]
  }

  /** The tail of a duplicate-free list is duplicate-free and does not hold its head. */
  lemma DistinctTail(s: seq<string>)
    requires NoDuplicates(s) && |s| > 0
    ensures NoDuplicates(s[1..]) && s[0] !in s[1..]
  {
    forall i, j | 0 <= i < j < |s[1..]|
      ensures s[1..][i] != s[1..][j]
    {
      assert s[1..][i] == s[i + 1] && s[1..][j] == s[j + 1];
    }
    forall j | 0 <= j < |s[1..]|
      ensures s[1..][j] != s[0]
    {
      assert s[1..][j] == s[j + 1];
    }
  }

  /** Removing an item that occurs once, at `k`, leaves the others in their order. */
  lemma {:induction false} WithoutSingle(prev: seq<string>, k: nat)
    requires k < |prev|
    requires prev[k] !in prev[..k] && prev[k] !in prev[k + 1..]
    ensures Without(prev, prev[k]) == prev[..k] + prev[k + 1..]
    decreases k
  {
    if k > 0 {
      var x := prev[k];
      var tail := prev[1..];
      assert prev[0] == prev[..k][0];
      assert tail[k - 1] == x;
      assert tail[..k - 1] == prev[1..k];
      assert x !in tail[..k - 1] by {
        forall y | y in prev[1..k]
          ensures y in prev[..k]
        {
        }
      }
      assert tail[k..] == prev[k + 1..];
      WithoutSingle(tail, k - 1);
      assert prev[..k] == [prev[0]] + tail[..k - 1];
    }
  }

  /** In a duplicate-free list, removing the item at `k` leaves the others in their order. */
  lemma WithoutAt(prev: seq<string>, k: nat)
    requires NoDuplicates(prev) && k < |prev|
    ensures Without(prev, prev[k]) == prev[..k] + prev[k + 1..]
  {
    var before, after := prev[..k], prev[k + 1..];
    forall j | 0 <= j < |before|
      ensures before[j] != prev[k]
    {
      assert before[j] == prev[j];
    }
    forall j | 0 <= j < |after|
      ensures after[j] != prev[k]
    {
      assert after[j] == prev[k + 1 + j];
    }
    WithoutSingle(prev, k);
  }

  /** `WithoutAt` for every position of `x`. */
  lemma WithoutEach(prev: seq<string>, x: string)
    ensures NoDuplicates(prev) ==>
      forall k :: 0 <= k < |prev| && prev[k] == x ==> Without(prev, x) == prev[..k] + prev[k + 1..]
  {
    if NoDuplicates(prev) {
      forall k | 0 <= k < |prev| && prev[k] == x
        ensures Without(prev, x) == prev[..k] + prev[k + 1..]
      {
        WithoutAt(prev, k);
      }
    }
  }

  /** What the selection may hold: distinct interests, at most ten. */
  predicate Selection(s: seq<string>) {
    NoDuplicates(s) && |s| <= MAX_INTERESTS
  }

  /** Removing from a duplicate-free list keeps it duplicate-free. */
  lemma {:induction false} WithoutKeepsDistinct(prev: seq<string>, x: string)
    requires NoDuplicates(prev)
    ensures NoDuplicates(Without(prev, x))
    decreases |prev|
  {
    if |prev| > 0 {
      DistinctTail(prev);
      WithoutKeepsDistinct(prev[1..], x);
      if prev[0] != x {
        var rest := Without(prev[1..], x);
        assert prev[0] !in rest;
        var r := [prev[0]] + rest;
        forall i, j | 0 <= i < j < |r|
          ensures r[i] != r[j]
        {
          if i == 0 {
            assert r[j] == rest[j - 1];
          } else {
            assert r[i] == rest[i - 1] && r[j] == rest[j - 1];
          }
        }
      }
    }
  }

  /** A toggle keeps the selection distinct and within the cap. */
  lemma ToggleKeepsSelection(prev: seq<string>, interest: string)
    requires Selection(prev)
    ensures Selection(ToggleInterest(prev, interest))
  {
    if interest in prev {
      WithoutKeepsDistinct(prev, interest);
    } else if |prev| < MAX_INTERESTS {
      var next := prev + [interest];
      forall i, j | 0 <= i < j < |next|
        ensures next[i] != next[j]
      {
        if j == |prev| {
          assert next[i] == prev[i];
        }
      }
    }
  }

  /** The selection after a sequence of taps on interests. */
  function ApplyToggles(start: seq<string>, taps: seq<string>): seq<string>
    decreases |taps|
  {
    if |taps| == 0 then start else ApplyToggles(ToggleInterest(start, taps[0]), taps[1..])
  }

  /** Starting from any valid selection, in particular the empty one, every sequence of taps keeps it valid. */
  lemma {:induction false} TogglesKeepSelection(start: seq<string>, taps: seq<string>)
    requires Selection(start)
    ensures Selection(ApplyToggles(start, taps))
    decreases |taps|
  {
    if |taps| > 0 {
      ToggleKeepsSelection(start, taps[0]);
      TogglesKeepSelection(ToggleInterest(start, taps[0]), taps[1..]);
    }
  }

  /** The screens of the flow, in the order they are shown. */
  datatype Step = Name | Birthday | Results | Interests

  function Rank(s: Step): nat {
    match s
    case Name => 0
    case Birthday => 1
    case Results => 2
    case Interests => 3
  }

  /** What the last step hands to the character screen. */
  datatype Handoff = Handoff(zodiacSign: string, interests: seq<string>, firstName: string)

  /**
   * The state of the sign-up screen. The month list is fixed when the screen is
   * created (the months constants module is not part of this model).
   */
  class SignUpFlow {
    var step: Step
    var firstName: string
    var selectedMonth: string
    var selectedDay: string
    var zodiacResult: Option<Zodiac.SignResult>
    var zodiacSign: string
    var selectedInterests: seq<string>
    const months: seq<string>

    /** The selection is valid, and once past the birthday step the sign has been recorded. */
    predicate Valid()
      reads this
    {
      Selection(selectedInterests)
      && (Rank(step) >= Rank(Results) ==> zodiacResult.Some? && zodiacSign == zodiacResult.value.signName)
    }

    constructor(months: seq<string>)
      ensures Valid()
      ensures step == Name && firstName == "" && selectedMonth == "" && selectedDay == ""
      ensures zodiacResult == None && zodiacSign == "" && selectedInterests == []
      ensures this.months == months
    {
      step := Name;
      firstName := "";
      selectedMonth := "";
      selectedDay := "";
      zodiacResult := None;
      zodiacSign := "";
      selectedInterests := [];
      this.months := months;
    }

    method SetFirstName(name: string)
      requires Valid()
      modifies this
      ensures Valid()
      ensures firstName == name
      ensures step == old(step) && selectedMonth == old(selectedMonth) && selectedDay == old(selectedDay)
      ensures zodiacResult == old(zodiacResult) && zodiacSign == old(zodiacSign)
      ensures selectedInterests == old(selectedInterests)
    {
      firstName := name;
    }

    method SelectDate(month: string, day: string)
      requires Valid()
      modifies this
      ensures Valid()
      ensures selectedMonth == month && selectedDay == day
      ensures step == old(step) && firstName == old(firstName)
      ensures zodiacResult == old(zodiacResult) && zodiacSign == old(zodiacSign)
      ensures selectedInterests == old(selectedInterests)
    {
      selectedMonth := month;
      selectedDay := day;
    }

    /** A tap on an interest: the selection is toggled and stays valid; nothing else changes. */
    method TapInterest(interest: string)
      requires Valid()
      modifies this
      ensures Valid()
      ensures selectedInterests == ToggleInterest(old(selectedInterests), interest)
      ensures step == old(step) && firstName == old(firstName)
      ensures selectedMonth == old(selectedMonth) && selectedDay == old(selectedDay)
      ensures zodiacResult == old(zodiacResult) && zodiacSign == old(zodiacSign)
    {
      ToggleKeepsSelection(selectedInterests, interest);
      selectedInterests := ToggleInterest(selectedInterests, interest);
    }

    /**
     * The guard of Continue on the current step: on the birthday step, a month found
     * among the first twelve of the list and a numeric day; the results step always passes.
     */
    predicate CanContinue()
      reads this
      ensures step == Birthday ==>
        (CanContinue() <==> selectedMonth != "" && selectedDay != ""
                            && 0 <= IndexOf(months, selectedMonth) < 12 && ParseInt(selectedDay).Some?)
      ensures step == Name ==> (CanContinue() <==> !IsBlank(firstName))
      ensures step == Results ==> CanContinue()
      ensures step == Interests ==> (CanContinue() <==> |selectedInterests| >= MIN_INTERESTS_TO_CONTINUE)
    {
      match step
      case Name => !IsBlank(firstName)
      case Birthday =>
        selectedMonth != "" && selectedDay != ""
        && Zodiac.GetZodiacSign(selectedMonth, selectedDay, months).Some?
      case Results => true
      case Interests => |selectedInterests| >= MIN_INTERESTS_TO_CONTINUE
    }

    /**
     * `handleContinue`: when the current step's guard holds, name moves to birthday,
     * birthday records the sign and moves to results, results moves to interests,
     * and interests hands the sign, the selection and the name on. A failing guard
     * changes nothing; the step never moves backwards.
     */
    method Continue() returns (handoff: Option<Handoff>)
      requires Valid()
      modifies this
      ensures Valid()
      ensures firstName == old(firstName) && selectedMonth == old(selectedMonth) && selectedDay == old(selectedDay)
      ensures selectedInterests == old(selectedInterests)
      ensures Rank(step) >= Rank(old(step))
      ensures !old(CanContinue()) ==> unchanged(this) && handoff.None?
      ensures old(CanContinue()) && old(step) != Interests ==> Rank(step) == Rank(old(step)) + 1 && handoff.None?
      ensures old(step) == Birthday && old(CanContinue()) ==>
        zodiacResult.Some? && zodiacResult == Zodiac.GetZodiacSign(selectedMonth, selectedDay, months)
        && zodiacSign == zodiacResult.value.signName
      ensures old(step) != Birthday ==> zodiacResult == old(zodiacResult) && zodiacSign == old(zodiacSign)
      ensures handoff.Some? <==> old(step) == Interests && old(CanContinue())
      ensures handoff.Some? ==>
        handoff.value == Handoff(zodiacSign, selectedInterests, firstName)
        && MIN_INTERESTS_TO_CONTINUE <= |handoff.value.interests| <= MAX_INTERESTS
    {
      handoff := None;
      match step
      case Name =>
        if !IsBlank(firstName) {
          step := Birthday;
        }
      case Birthday =>
        if selectedMonth != "" && selectedDay != "" {
          var zodiacData := Zodiac.GetZodiacSign(selectedMonth, selectedDay, months);
          RecordSign(zodiacData);
        }
      case Results =>
        step := Interests;
      case Interests =>
        if |selectedInterests| >= MIN_INTERESTS_TO_CONTINUE {
          handoff := Some(Handoff(zodiacSign, selectedInterests, firstName));
        }
    }

    /** The birthday step with both pickers set, given what the lookup found: on a sign, record it and move on. */
    method RecordSign(found: Option<Zodiac.SignResult>)
      requires Valid() && step == Birthday
      modifies this
      ensures Valid()
      ensures found.Some? ==> step == Results && zodiacResult == found && zodiacSign == found.value.signName
      ensures found.None? ==> unchanged(this)
      ensures firstName == old(firstName) && selectedMonth == old(selectedMonth) && selectedDay == old(selectedDay)
      ensures selectedInterests == old(selectedInterests)
    {
      if found.None? {
        return;
      }
      zodiacSign := found.value.signName;
      zodiacResult := found;
      step := Results;
    }
  }
}
