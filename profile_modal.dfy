/** The profile editor of components/profile-modal.tsx: its own copy of the zodiac table and
    classifier, the displayed-zodiac rule, the goal buttons, and the save and cancel handlers. */
module ProfileModal {
  import opened Wrappers
  import opened Text
  import opened Profiles
  import ProfileSetup

  /** The editor's zodiac table: the wizard's rows with the sign glyphs as symbols. */
  const MODAL_ZODIAC_SIGNS: seq<ZodiacEntry> := [
    ZodiacEntry("Aries", "\U{2648}", "Fire", ["Bold", "Energetic", "Independent"],
      "March 21 - April 19", Range(3, 21, 4, 19)),
    ZodiacEntry("Taurus", "\U{2649}", "Earth", ["Reliable", "Patient", "Practical"],
      "April 20 - May 20", Range(4, 20, 5, 20)),
    ZodiacEntry("Gemini", "\U{264A}", "Air", ["Curious", "Adaptable", "Expressive"],
      "May 21 - June 20", Range(5, 21, 6, 20)),
    ZodiacEntry("Cancer", "\U{264B}", "Water", ["Nurturing", "Intuitive", "Protective"],
      "June 21 - July 22", Range(6, 21, 7, 22)),
    ZodiacEntry("Leo", "\U{264C}", "Fire", ["Confident", "Creative", "Generous"],
      "July 23 - August 22", Range(7, 23, 8, 22)),
    ZodiacEntry("Virgo", "\U{264D}", "Earth", ["Analytical", "Helpful", "Detail-oriented"],
      "August 23 - September 22", Range(8, 23, 9, 22)),
    ZodiacEntry("Libra", "\U{264E}", "Air", ["Diplomatic", "Balanced", "Social"],
      "September 23 - October 22", Range(9, 23, 10, 22)),
    ZodiacEntry("Scorpio", "\U{264F}", "Water", ["Intense", "Passionate", "Mysterious"],
      "October 23 - November 21", Range(10, 23, 11, 21)),
    ZodiacEntry("Sagittarius", "\U{2650}", "Fire", ["Adventurous", "Optimistic", "Free-spirited"],
      "November 22 - December 21", Range(11, 22, 12, 21)),
    ZodiacEntry("Capricorn", "\U{2651}", "Earth", ["Ambitious", "Disciplined", "Responsible"],
      "December 22 - January 19", Range(12, 22, 1, 19)),
    ZodiacEntry("Aquarius", "\U{2652}", "Air", ["Independent", "Innovative", "Humanitarian"],
      "January 20 - February 18", Range(1, 20, 2, 18)),
    ZodiacEntry("Pisces", "\U{2653}", "Water", ["Compassionate", "Artistic", "Intuitive"],
      "February 19 - March 20", Range(2, 19, 3, 20))
  ]

  /** The editor's classifier: the matching row copied without its range, Aries when none
      matches. */
  function CalculateZodiacSign(month: int, day: int): (z: ZodiacSign)
    ensures z.range.None?
    ensures FirstMatch(MODAL_ZODIAC_SIGNS, month, day).Some? ==>
      var e := MODAL_ZODIAC_SIGNS[FirstMatch(MODAL_ZODIAC_SIGNS, month, day).value];
      z.sign == e.sign && z.symbol == e.symbol && z.element == e.element && z.traits == e.traits && z.dates == e.dates
    ensures FirstMatch(MODAL_ZODIAC_SIGNS, month, day).None? ==> z.sign == "Aries"
  {
    var e := Classify(MODAL_ZODIAC_SIGNS, month, day);
    ZodiacSign(e.sign, e.symbol, e.element, e.traits, e.dates, None)
  }

  /** The two copies of the classifier agree on every date: same sign, element, traits and
      date text; only the symbol text and the presence of the range differ. */
  lemma ClassifiersAgree(month: int, day: int)
    ensures var m, s := CalculateZodiacSign(month, day), ProfileSetup.CalculateZodiacSign(month, day);
      m.sign == s.sign && m.element == s.element && m.traits == s.traits && m.dates == s.dates
  {
    var a, b := MODAL_ZODIAC_SIGNS, ProfileSetup.SETUP_ZODIAC_SIGNS;
    assert forall i :: 0 <= i < |a| ==>
      a[i].sign == b[i].sign && a[i].range == b[i].range && a[i].element == b[i].element
      && a[i].traits == b[i].traits && a[i].dates == b[i].dates;
    SameRangesSameMatch(a, b, month, day);
  }

  /** The zodiac shown: recomputed from the form's birthday when one is picked, else the
      stored profile's. */
  function DisplayedZodiac(birthday: DateInput, stored: ZodiacSign): (z: ZodiacSign)
    ensures birthday.Picked? ==> z == CalculateZodiacSign(birthday.month, birthday.day)
    ensures birthday.Blank? ==> z == stored
  {
    match birthday {
      case Blank => stored
      case Picked(_, month, day) => CalculateZodiacSign(month, day)
    }
  }

  /** A goal button is disabled when its goal is unselected and the cap is reached. */
  function GoalDisabled(selected: seq<string>, goal: string): (b: bool)
    ensures b <==> goal !in selected && |selected| >= MAX_GOALS
  {
    goal !in selected && |selected| >= MAX_GOALS
  }

  /** Every enabled goal button changes the selection, and the toggle's own cap check turns a
      disabled button into a no-op. */
  lemma EnabledGoalToggles(selected: seq<string>, goal: string)
    ensures !GoalDisabled(selected, goal) ==> ToggleGoal(selected, goal) != selected
    ensures GoalDisabled(selected, goal) ==> ToggleGoal(selected, goal) == selected
  {
    if !GoalDisabled(selected, goal) && goal in selected {
      assert goal !in ToggleGoal(selected, goal);
    }
  }

  const MISSING_ID_ERROR: string := "Unable to save: User ID not found. Please log out and log back in."
  const INCOMPLETE_ERROR: string := "Please fill in all fields."
  const SAVE_FAILED_ERROR: string := "Failed to save profile. Please try again."

  /** How the backend update ended: success, or a thrown value, carrying its message when it
      is an `Error`. */
  datatype RemoteOutcome = Succeeded | Threw(message: Option<string>)

  class ProfileEditor {
    var name: string
    var birthday: DateInput
    var favoriteElement: string
    var selectedGoals: seq<string>
    var isEditing: bool
    var saveSuccess: bool
    var error: Option<string>

    constructor()
      ensures name == "" && birthday == Blank && favoriteElement == "" && selectedGoals == []
      ensures !isEditing && !saveSuccess && error.None?
    {
      name := "";
      birthday := Blank;
      favoriteElement := "";
      selectedGoals := [];
      isEditing := false;
      saveSuccess := false;
      error := None;
    }

    /** The form fields taken from the stored profile, when there is one. */
    method LoadFrom(profile: Option<UserProfile>)
      modifies this
      ensures profile.Some? ==>
        (name == profile.value.name && birthday == profile.value.birthday
         && favoriteElement == profile.value.favoriteElement && selectedGoals == profile.value.dreamGoals)
      ensures profile.None? ==>
        (name == old(name) && birthday == old(birthday)
         && favoriteElement == old(favoriteElement) && selectedGoals == old(selectedGoals))
      ensures isEditing == old(isEditing) && saveSuccess == old(saveSuccess) && error == old(error)
    {
      if profile.Some? {
        name := profile.value.name;
        birthday := profile.value.birthday;
        favoriteElement := profile.value.favoriteElement;
        selectedGoals := profile.value.dreamGoals;
      }
    }

    method ToggleGoalButton(goal: string)
      modifies this
      ensures selectedGoals == ToggleGoal(old(selectedGoals), goal)
      ensures name == old(name) && birthday == old(birthday) && favoriteElement == old(favoriteElement)
      ensures isEditing == old(isEditing) && saveSuccess == old(saveSuccess) && error == old(error)
    {
      selectedGoals := ToggleGoal(selectedGoals, goal);
    }

    /** `handleSave`: without a user id, or with a field missing, only an error is set.
        Otherwise the update is requested, with the element lowercased; on success the profile
        with the zodiac recomputed from the birthday is completed and editing ends, on failure
        the error is shown and nothing is completed. */
    method Save(userId: Option<string>, remote: RemoteOutcome)
      returns (request: Option<ProfileUpdate>, completed: Option<UserProfile>)
      modifies this
      ensures userId.None? || userId.value == "" ==>
        request.None? && completed.None? && error == Some(MISSING_ID_ERROR)
      ensures (userId.Some? && userId.value != ""
               && (name == "" || birthday.Blank? || favoriteElement == "" || |selectedGoals| == 0)) ==>
        request.None? && completed.None? && error == Some(INCOMPLETE_ERROR)
      ensures request.Some? <==>
        (userId.Some? && userId.value != ""
         && name != "" && birthday.Picked? && favoriteElement != "" && |selectedGoals| > 0)
      ensures request.Some? ==>
        request.value == ProfileUpdate(birthday, ToLower(favoriteElement), selectedGoals)
      ensures completed.Some? <==> request.Some? && remote.Succeeded?
      ensures completed.Some? ==>
        completed.value == UserProfile(name, birthday, favoriteElement, selectedGoals,
          CalculateZodiacSign(birthday.month, birthday.day))
        && saveSuccess && !isEditing && error.None?
      ensures request.Some? && remote.Threw? ==>
        error == Some(remote.message.GetOr(SAVE_FAILED_ERROR)) && !saveSuccess && isEditing == old(isEditing)
      ensures name == old(name) && birthday == old(birthday) && favoriteElement == old(favoriteElement)
      ensures selectedGoals == old(selectedGoals)
      ensures request.None? ==> isEditing == old(isEditing) && saveSuccess == old(saveSuccess)
    {
      request, completed := None, None;
      if userId.None? || userId.value == "" {
        error := Some(MISSING_ID_ERROR);
        return;
      }
      if name == "" || birthday.Blank? || favoriteElement == "" || |selectedGoals| == 0 {
        error := Some(INCOMPLETE_ERROR);
        return;
      }
      saveSuccess := false;
      error := None;
      request := Some(ProfileUpdate(birthday, ToLower(favoriteElement), selectedGoals));
      match remote {
        case Succeeded =>
          var zodiac := CalculateZodiacSign(birthday.month, birthday.day);
          completed := Some(UserProfile(name, birthday, favoriteElement, selectedGoals, zodiac));
          saveSuccess := true;
          isEditing := false;
        case Threw(message) =>
          error := Some(message.GetOr(SAVE_FAILED_ERROR));
      }
    }

    /** `handleCancel`: the fields go back to the stored profile and editing ends. */
    method Cancel(profile: Option<UserProfile>)
      modifies this
      ensures profile.Some? ==>
        (name == profile.value.name && birthday == profile.value.birthday
         && favoriteElement == profile.value.favoriteElement && selectedGoals == profile.value.dreamGoals)
      ensures profile.None? ==>
        (name == old(name) && birthday == old(birthday)
         && favoriteElement == old(favoriteElement) && selectedGoals == old(selectedGoals))
      ensures !isEditing
      ensures saveSuccess == old(saveSuccess) && error == old(error)
    {
      LoadFrom(profile);
      isEditing := false;
    }
  }
}
