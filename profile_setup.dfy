/** The first-run profile wizard of components/profile-setup.tsx: its zodiac table, the
    classifier over it, and the four-step form whose buttons are guarded by the fields. */
module ProfileSetup {
  import opened Wrappers
  import opened Seqs
  import opened Text
  import opened Profiles
  import opened Session

  /** The wizard's zodiac table. Its symbol texts are the sign glyphs as stored in this file:
      UTF-8 bytes read back in the Mac Roman encoding, three characters each. */
  const SETUP_ZODIAC_SIGNS: seq<ZodiacEntry> := [
    SETUP_ARIES, SETUP_TAURUS, SETUP_GEMINI, SETUP_CANCER,
    SETUP_LEO, SETUP_VIRGO, SETUP_LIBRA, SETUP_SCORPIO,
    SETUP_SAGITTARIUS, SETUP_CAPRICORN, SETUP_AQUARIUS, SETUP_PISCES]

  const SETUP_ARIES: ZodiacEntry :=
    ZodiacEntry("Aries", "\U{201A}\U{F4}\U{E0}", "Fire", ["Bold", "Energetic", "Independent"],
      "March 21 - April 19", Range(3, 21, 4, 19))
  const SETUP_TAURUS: ZodiacEntry :=
    ZodiacEntry("Taurus", "\U{201A}\U{F4}\U{E2}", "Earth", ["Reliable", "Patient", "Practical"],
      "April 20 - May 20", Range(4, 20, 5, 20))
  const SETUP_GEMINI: ZodiacEntry :=
    ZodiacEntry("Gemini", "\U{201A}\U{F4}\U{E4}", "Air", ["Curious", "Adaptable", "Expressive"],
      "May 21 - June 20", Range(5, 21, 6, 20))
  const SETUP_CANCER: ZodiacEntry :=
    ZodiacEntry("Cancer", "\U{201A}\U{F4}\U{E3}", "Water", ["Nurturing", "Intuitive", "Protective"],
      "June 21 - July 22", Range(6, 21, 7, 22))
  const SETUP_LEO: ZodiacEntry :=
    ZodiacEntry("Leo", "\U{201A}\U{F4}\U{E5}", "Fire", ["Confident", "Creative", "Generous"],
      "July 23 - August 22", Range(7, 23, 8, 22))
  const SETUP_VIRGO: ZodiacEntry :=
    ZodiacEntry("Virgo", "\U{201A}\U{F4}\U{E7}", "Earth", ["Analytical", "Helpful", "Detail-oriented"],
      "August 23 - September 22", Range(8, 23, 9, 22))
  const SETUP_LIBRA: ZodiacEntry :=
    ZodiacEntry("Libra", "\U{201A}\U{F4}\U{E9}", "Air", ["Diplomatic", "Balanced", "Social"],
      "September 23 - October 22", Range(9, 23, 10, 22))
  const SETUP_SCORPIO: ZodiacEntry :=
    ZodiacEntry("Scorpio", "\U{201A}\U{F4}\U{E8}", "Water", ["Intense", "Passionate", "Mysterious"],
      "October 23 - November 21", Range(10, 23, 11, 21))
  const SETUP_SAGITTARIUS: ZodiacEntry :=
    ZodiacEntry("Sagittarius", "\U{201A}\U{F4}\U{EA}", "Fire", ["Adventurous", "Optimistic", "Free-spirited"],
      "November 22 - December 21", Range(11, 22, 12, 21))
  const SETUP_CAPRICORN: ZodiacEntry :=
    ZodiacEntry("Capricorn", "\U{201A}\U{F4}\U{EB}", "Earth", ["Ambitious", "Disciplined", "Responsible"],
      "December 22 - January 19", Range(12, 22, 1, 19))
  const SETUP_AQUARIUS: ZodiacEntry :=
    ZodiacEntry("Aquarius", "\U{201A}\U{F4}\U{ED}", "Air", ["Independent", "Innovative", "Humanitarian"],
      "January 20 - February 18", Range(1, 20, 2, 18))
  const SETUP_PISCES: ZodiacEntry :=
    ZodiacEntry("Pisces", "\U{201A}\U{F4}\U{EC}", "Water", ["Compassionate", "Artistic", "Intuitive"],
      "February 19 - March 20", Range(2, 19, 3, 20))

  /** The wizard's classifier: the matching table row, range included, Aries when none
      matches. */
  function CalculateZodiacSign(month: int, day: int): (z: ZodiacSign)
    ensures exists i :: (0 <= i < |SETUP_ZODIAC_SIGNS| && z.sign == SETUP_ZODIAC_SIGNS[i].sign
      && z.element == SETUP_ZODIAC_SIGNS[i].element && z.range == Some(SETUP_ZODIAC_SIGNS[i].range))
    ensures FirstMatch(SETUP_ZODIAC_SIGNS, month, day).Some? ==>
      var e := SETUP_ZODIAC_SIGNS[FirstMatch(SETUP_ZODIAC_SIGNS, month, day).value];
      z.sign == e.sign && z.element == e.element && z.range == Some(e.range)
    ensures FirstMatch(SETUP_ZODIAC_SIGNS, month, day).None? ==> z.sign == "Aries"
  {
    var e := Classify(SETUP_ZODIAC_SIGNS, month, day);
    ZodiacSign(e.sign, e.symbol, e.element, e.traits, e.dates, Some(e.range))
  }

  /** Only the tenth row is Capricorn's. */
  lemma CapricornRow()
    ensures SETUP_ZODIAC_SIGNS[9].sign == "Capricorn"
    ensures forall i :: 0 <= i < |SETUP_ZODIAC_SIGNS| && i != 9 ==> SETUP_ZODIAC_SIGNS[i].sign != "Capricorn"
  {
  }

  /** The fourth row is Cancer's. */
  lemma CancerRow()
    ensures SETUP_ZODIAC_SIGNS[3].sign == "Cancer"
  {
  }

  /** The row a (month, day) falls in: for each month, the row ending in it up to its end
      day and the row starting in it afterwards. */
  function SignIndex(month: int, day: int): (i: nat)
    ensures i < |SETUP_ZODIAC_SIGNS|
  {
    if month == 1 then (if day <= 19 then 9 else 10)
    else if month == 2 then (if day <= 18 then 10 else 11)
    else if month == 3 then (if day <= 20 then 11 else 0)
    else if month == 4 then (if day <= 19 then 0 else 1)
    else if month == 5 then (if day <= 20 then 1 else 2)
    else if month == 6 then (if day <= 20 then 2 else 3)
    else if month == 7 then (if day <= 22 then 3 else 4)
    else if month == 8 then (if day <= 22 then 4 else 5)
    else if month == 9 then (if day <= 22 then 5 else 6)
    else if month == 10 then (if day <= 22 then 6 else 7)
    else if month == 11 then (if day <= 21 then 7 else 8)
    else (if day <= 21 then 8 else 9)
  }

  /** A row's condition holds exactly at the dates `SignIndex` assigns to it. */
  lemma MatchesIffSignIndex(i: nat, month: int, day: int)
    requires 1 <= month <= 12 && i < |SETUP_ZODIAC_SIGNS|
    ensures Matches(SETUP_ZODIAC_SIGNS[i], month, day) <==> i == SignIndex(month, day)
  {
    CapricornRow();
  }

  /** For every month of the year and every day number exactly one row's condition holds, so
      the Aries fallback is never reached for a real date. */
  lemma ExactlyOneSign(month: int, day: int)
    requires 1 <= month <= 12
    ensures FirstMatch(SETUP_ZODIAC_SIGNS, month, day) == Some(SignIndex(month, day))
    ensures forall i, j :: 0 <= i < j < |SETUP_ZODIAC_SIGNS| ==>
      !(Matches(SETUP_ZODIAC_SIGNS[i], month, day) && Matches(SETUP_ZODIAC_SIGNS[j], month, day))
  {
    var t := SETUP_ZODIAC_SIGNS;
    forall i | 0 <= i < |t| ensures Matches(t[i], month, day) <==> i == SignIndex(month, day) {
      MatchesIffSignIndex(i, month, day);
    }
    assert Matches(t[SignIndex(month, day)], month, day);
  }

  /** Capricorn is the row that wraps the year: from December 22 on and up to January 19. */
  lemma CapricornWraps(day: int)
    ensures day >= 22 ==> CalculateZodiacSign(12, day).sign == "Capricorn"
    ensures day <= 19 ==> CalculateZodiacSign(1, day).sign == "Capricorn"
  {
    CapricornRow();
    if day >= 22 {
      SignOfRow(12, day, 9, "Capricorn");
    }
    if day <= 19 {
      SignOfRow(1, day, 9, "Capricorn");
    }
  }

  /** A date in the middle of the year falls in its own range: July up to the 22nd is
      Cancer. */
  lemma CancerInJuly(day: int)
    requires day <= 22
    ensures CalculateZodiacSign(7, day).sign == "Cancer"
  {
    CancerRow();
    SignOfRow(7, day, 3, "Cancer");
  }

  /** A date whose `SignIndex` row carries `sign` is classified as `sign`. */
  lemma SignOfRow(month: int, day: int, i: nat, sign: string)
    requires 1 <= month <= 12 && i < |SETUP_ZODIAC_SIGNS|
    requires SignIndex(month, day) == i && SETUP_ZODIAC_SIGNS[i].sign == sign
    ensures CalculateZodiacSign(month, day).sign == sign
  {
    SignAtIndex(month, day);
  }

  /** For a real month the classifier picks the row `SignIndex` names. */
  lemma SignAtIndex(month: int, day: int)
    requires 1 <= month <= 12
    ensures CalculateZodiacSign(month, day).sign == SETUP_ZODIAC_SIGNS[SignIndex(month, day)].sign
  {
    ExactlyOneSign(month, day);
    assert Classify(SETUP_ZODIAC_SIGNS, month, day) == SETUP_ZODIAC_SIGNS[SignIndex(month, day)];
  }

  /** Every sign's element is one of the four elements offered. */
  lemma SignElementsOffered()
    ensures forall i :: 0 <= i < |SETUP_ZODIAC_SIGNS| ==> SETUP_ZODIAC_SIGNS[i].element in ELEMENTS
  {
  }

  /** The zodiac the wizard keeps for a date input: none for a blank input. */
  function ZodiacFor(b: DateInput): (z: Option<ZodiacSign>)
    ensures z.None? <==> b.Blank?
  {
    if b.Blank? then None else Some(CalculateZodiacSign(b.month, b.day))
  }

  /** Where the wizard sends the visitor: signed-out users to sign-in, users who already have a
      profile to the dashboard; everyone else stays. */
  function SetupRedirect(user: Option<AuthUser>): (route: Option<string>)
    ensures user.None? ==> route == Some("/auth/signin")
    ensures user.Some? && user.value.hasProfile ==> route == Some("/dashboard")
    ensures route.None? <==> user.Some? && !user.value.hasProfile
  {
    if user.None? then Some("/auth/signin")
    else if user.value.hasProfile then Some("/dashboard")
    else None
  }

  /** What finishing the wizard does: nothing when a field is missing; otherwise the profile to
      hand to `completeProfile` and, when the user has a backend id, the update request. */
  datatype SetupOutcome = Incomplete | Completed(request: Option<ProfileUpdate>, profile: UserProfile)

  class SetupWizard {
    var step: int
    var name: string
    var birthday: DateInput
    var favoriteElement: string
    var selectedGoals: seq<string>
    var calculatedZodiac: Option<ZodiacSign>

    /** The step is one of the four, the selection is capped and duplicate-free, and the
        zodiac is the one computed from the birthday. */
    predicate Valid()
      reads this
    {
      1 <= step <= 4 && |selectedGoals| <= MAX_GOALS && NoDup(selectedGoals)
      && calculatedZodiac == ZodiacFor(birthday)
    }

    /** `remainingSelectionSlots`. */
    function RemainingSlots(): (n: int)
      reads this
      requires Valid()
      ensures 0 <= n <= MAX_GOALS
      ensures n == 0 <==> |selectedGoals| == MAX_GOALS
    {
      MAX_GOALS - |selectedGoals|
    }

    /** The forward button of the current step is enabled. */
    predicate CanAdvance()
      reads this
    {
      (step == 1 && Trim(name) != "")
      || (step == 2 && birthday.Picked? && calculatedZodiac.Some?)
      || (step == 3 && favoriteElement != "")
    }

    constructor()
      ensures Valid()
      ensures step == 1 && name == "" && birthday == Blank && favoriteElement == ""
      ensures selectedGoals == [] && calculatedZodiac.None?
    {
      step := 1;
      name := "";
      birthday := Blank;
      favoriteElement := "";
      selectedGoals := [];
      calculatedZodiac := None;
    }

    method SetName(n: string)
      requires Valid()
      modifies this
      ensures Valid()
      ensures name == n
      ensures step == old(step) && birthday == old(birthday) && favoriteElement == old(favoriteElement)
      ensures selectedGoals == old(selectedGoals) && calculatedZodiac == old(calculatedZodiac)
    {
      name := n;
    }

    /** `handleBirthdayChange`: a blank date clears the zodiac, a picked one recomputes it. */
    method ChangeBirthday(date: DateInput)
      requires Valid()
      modifies this
      ensures Valid()
      ensures birthday == date
      ensures date.Blank? ==> calculatedZodiac.None?
      ensures date.Picked? ==> calculatedZodiac == Some(CalculateZodiacSign(date.month, date.day))
      ensures step == old(step) && name == old(name) && favoriteElement == old(favoriteElement)
      ensures selectedGoals == old(selectedGoals)
    {
      birthday := date;
      if date.Picked? {
        calculatedZodiac := Some(CalculateZodiacSign(date.month, date.day));
      } else {
        calculatedZodiac := None;
      }
    }

    method ChooseElement(element: string)
      requires Valid()
      modifies this
      ensures Valid()
      ensures favoriteElement == element
      ensures step == old(step) && name == old(name) && birthday == old(birthday)
      ensures selectedGoals == old(selectedGoals) && calculatedZodiac == old(calculatedZodiac)
    {
      favoriteElement := element;
    }

    /** A goal button: enabled when the goal is selected or a slot is free, and then it toggles
        the goal. */
    method ClickGoal(goal: string)
      requires Valid()
      modifies this
      ensures Valid()
      ensures goal in old(selectedGoals) || |old(selectedGoals)| < MAX_GOALS ==>
        selectedGoals == ToggleGoal(old(selectedGoals), goal)
      ensures !(goal in old(selectedGoals) || |old(selectedGoals)| < MAX_GOALS) ==>
        selectedGoals == old(selectedGoals)
      ensures step == old(step) && name == old(name) && birthday == old(birthday)
      ensures favoriteElement == old(favoriteElement) && calculatedZodiac == old(calculatedZodiac)
    {
      var canSelect := goal in selectedGoals || RemainingSlots() > 0;
      if canSelect {
        selectedGoals := ToggleGoal(selectedGoals, goal);
      }
    }

    /** The forward button: moves one step on only when the current step's field is filled. */
    method Next()
      requires Valid()
      modifies this
      ensures Valid()
      ensures step == (if old(CanAdvance()) then old(step) + 1 else old(step))
      ensures name == old(name) && birthday == old(birthday) && favoriteElement == old(favoriteElement)
      ensures selectedGoals == old(selectedGoals) && calculatedZodiac == old(calculatedZodiac)
    {
      if CanAdvance() {
        step := step + 1;
      }
    }

    /** The back button of steps 2 to 4. */
    method Back()
      requires Valid()
      modifies this
      ensures Valid()
      ensures step == (if old(step) > 1 then old(step) - 1 else old(step))
      ensures name == old(name) && birthday == old(birthday) && favoriteElement == old(favoriteElement)
      ensures selectedGoals == old(selectedGoals) && calculatedZodiac == old(calculatedZodiac)
    {
      if step > 1 {
        step := step - 1;
      }
    }

    /** `handleComplete`: nothing unless a user, a name, a birthday, an element, a goal and a
        zodiac are all present. Otherwise the backend update is requested when the user has an
        id, with the element lowercased, and the profile is completed whatever that request's
        outcome. */
    method Complete(user: Option<AuthUser>, userId: Option<string>) returns (outcome: SetupOutcome)
      requires Valid()
      ensures outcome.Completed? <==>
        user.Some? && name != "" && birthday.Picked? && favoriteElement != ""
        && |selectedGoals| > 0 && calculatedZodiac.Some?
      ensures outcome.Completed? ==>
        outcome.profile == UserProfile(name, birthday, favoriteElement, selectedGoals, calculatedZodiac.value)
        && outcome.profile.zodiacSign == CalculateZodiacSign(birthday.month, birthday.day)
      ensures outcome.Completed? ==> (outcome.request.Some? <==> userId.Some? && userId.value != "")
      ensures outcome.Completed? && outcome.request.Some? ==>
        outcome.request.value == ProfileUpdate(birthday, ToLower(favoriteElement), selectedGoals)
    {
      if user.None? || name == "" || birthday.Blank? || favoriteElement == ""
        || |selectedGoals| == 0 || calculatedZodiac.None? {
        return Incomplete;
      }
      var profile := UserProfile(name, birthday, favoriteElement, selectedGoals, calculatedZodiac.value);
      var request: Option<ProfileUpdate> := None;
      if userId.Some? && userId.value != "" {
        request := Some(ProfileUpdate(birthday, ToLower(favoriteElement), selectedGoals));
      }
      outcome := Completed(request, profile);
    }
  }
}
