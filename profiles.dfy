/** The profile record of types/user-profile.ts and the rules the profile forms share: the
    table-driven zodiac search, the element and goal choices, and the capped goal toggle. */
module Profiles {
  import opened Wrappers
  import opened Seqs

  /** The value of a date input: left blank, or a picked calendar date. */
  datatype DateInput = Blank | Picked(year: int, month: int, day: int)

  /** A zodiac date range as (month, day) of its first and last day. */
  datatype Range = Range(startMonth: int, startDay: int, endMonth: int, endDay: int)

  /** One row of a zodiac table. */
  datatype ZodiacEntry = ZodiacEntry(
    sign: string, symbol: string, element: string, traits: seq<string>, dates: string, range: Range)

  /** The zodiac sign stored in a profile. The setup form stores the table row itself, range
      included; the profile editor stores a copy without it. */
  datatype ZodiacSign = ZodiacSign(
    sign: string, symbol: string, element: string, traits: seq<string>, dates: string, range: Option<Range>)

  /** A user's profile. */
  datatype UserProfile = UserProfile(
    name: string,
    birthday: DateInput,
    favoriteElement: string,
    dreamGoals: seq<string>,
    zodiacSign: ZodiacSign)

  /** The body of the backend's profile update (`birthdate`, `favorite_element`, `dream_goals`). */
  datatype ProfileUpdate = ProfileUpdate(birthdate: DateInput, favoriteElement: string, dreamGoals: seq<string>)

  /** The four elements offered. */
  const ELEMENTS: seq<string> := ["Fire", "Earth", "Air", "Water"]

  /** The eight dream goals offered. */
  const DREAM_GOAL_OPTIONS: seq<string> := [
    "Increase lucid dreaming frequency",
    "Better dream recall",
    "Overcome nightmares",
    "Explore creativity through dreams",
    "Find personal insights",
    "Spiritual growth and connection",
    "Problem-solving through dreams",
    "Emotional healing"
  ]

  /** At most this many goals can be selected. */
  const MAX_GOALS: nat := 3

  // ---------------------------------------------------------------------------------------
  // The zodiac search

  /** The condition a table row tests: Capricorn wraps from December into January; every
      other row covers the tail of its start month, the head of its end month and any month
      strictly between. */
  predicate Matches(e: ZodiacEntry, month: int, day: int) {
    if e.sign == "Capricorn" then
      (month == 12 && day >= e.range.startDay) || (month == 1 && day <= e.range.endDay)
    else
      (month == e.range.startMonth && day >= e.range.startDay)
      || (month == e.range.endMonth && day <= e.range.endDay)
      || (month > e.range.startMonth && month < e.range.endMonth)
  }

  /** The index of the first row whose condition holds, as the search loop returns early. */
  function FirstMatch(table: seq<ZodiacEntry>, month: int, day: int): (r: Option<nat>)
    ensures r.Some? ==> r.value < |table| && Matches(table[r.value], month, day)
    ensures r.Some? ==> forall j :: 0 <= j < r.value ==> !Matches(table[j], month, day)
    ensures r.None? ==> forall j :: 0 <= j < |table| ==> !Matches(table[j], month, day)
  {
    if table == [] then None
    else if Matches(table[0], month, day) then Some(0)
    else match FirstMatch(table[1..], month, day) {
      case None => None
      case Some(i) => Some(i + 1)
    }
  }

  /** The row found by the search, or the first row (Aries) when no condition holds. */
  function Classify(table: seq<ZodiacEntry>, month: int, day: int): (e: ZodiacEntry)
    requires |table| > 0
    ensures e in table
    ensures FirstMatch(table, month, day).Some? ==> Matches(e, month, day)
    ensures FirstMatch(table, month, day).Some? ==> e == table[FirstMatch(table, month, day).value]
    ensures FirstMatch(table, month, day).None? ==> e == table[0]
  {
    match FirstMatch(table, month, day) {
      case None => table[0]
      case Some(i) => table[i]
    }
  }

  /** Two tables that agree on every row's sign and range pick the same row for every date,
      whatever their symbols, elements and texts. */
  lemma {:induction false} SameRangesSameMatch(a: seq<ZodiacEntry>, b: seq<ZodiacEntry>, month: int, day: int)
    requires |a| == |b|
    requires forall i :: 0 <= i < |a| ==> a[i].sign == b[i].sign && a[i].range == b[i].range
    ensures FirstMatch(a, month, day) == FirstMatch(b, month, day)
  {
    if a != [] {
      assert Matches(a[0], month, day) == Matches(b[0], month, day);
      SameRangesSameMatch(a[1..], b[1..], month, day);
    }
  }

  // ---------------------------------------------------------------------------------------
  // Goals

  /** The goal toggle: a selected goal is removed; an unselected one is appended unless the
      cap is reached, in which case nothing changes. */
  function ToggleGoal(prev: seq<string>, goal: string): (r: seq<string>)
    ensures goal in r <==> goal !in prev && |prev| < MAX_GOALS
    ensures forall g :: g != goal ==> (g in r <==> g in prev)
    ensures |prev| <= MAX_GOALS ==> |r| <= MAX_GOALS
    ensures NoDup(prev) ==> NoDup(r)
    ensures goal in prev ==> r == Without(prev, goal)
    ensures goal !in prev && |prev| >= MAX_GOALS ==> r == prev
    ensures goal !in prev && |prev| < MAX_GOALS ==> r == prev + [goal]
  {
    if goal in prev then
      assert NoDup(prev) ==> NoDup(Without(prev, goal)) by {
        if NoDup(prev) { WithoutNoDup(prev, goal); }
      }
      Without(prev, goal)
    else if |prev| >= MAX_GOALS then prev
    else
      assert NoDup(prev) ==> NoDup(prev + [goal]) by {
        if NoDup(prev) { AppendNoDup(prev, goal); }
      }
      prev + [goal]
  }

  /** Selecting a goal and deselecting it again restores the selection exactly; deselecting
      keeps the other goals in their order. */
  lemma ToggleGoalTwice(prev: seq<string>, goal: string)
    requires goal !in prev && |prev| < MAX_GOALS
    ensures ToggleGoal(ToggleGoal(prev, goal), goal) == prev
  {
    WithoutAppend(prev, [goal], goal);
    assert Without([goal], goal) == [];
  }
}
