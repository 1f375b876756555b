/** The dashboard page (app/dashboard/page.tsx): the summary metrics over the journal, where
    the page sends a visitor who may not see it, the greeting name and the pluralised helper
    texts. */
module Dashboard {
  import opened Wrappers
  import opened Seqs
  import opened Text
  import opened Dreams
  import opened Counting
  import opened DreamCounts
  import opened Session

  /** The placeholder shown for a missing value. */
  const NO_VALUE: string := "\U{2014}"

  /** The numbers the dashboard cards show. */
  datatype Metrics = Metrics(
    total: nat,
    lucidCount: nat,
    lucidityRate: nat,
    uniqueTags: nat,
    recentMood: string,
    topMood: Option<string>,
    topMoodCount: nat,
    topTag: Option<string>,
    topTagCount: nat)

  /** The metrics of an empty journal. */
  const EMPTY_METRICS: Metrics := Metrics(0, 0, 0, 0, NO_VALUE, None, 0, None, 0)

  /** `top` and `count` are what a scan for the most frequent element of `xs` must report:
      nothing and 0 when `xs` is empty, and otherwise an element occurring most often with its
      number of occurrences, the one occurring first among those tied. */
  predicate IsMostFrequent(xs: seq<string>, top: Option<string>, count: nat) {
    && (top.None? <==> xs == [])
    && (top.None? ==> count == 0)
    && (top.Some? ==>
      && top.value in xs
      && count == multiset(xs)[top.value]
      && (forall y :: y in xs ==> multiset(xs)[y] <= count)
      && (forall y :: y in xs && y != top.value && multiset(xs)[y] == count ==>
        FirstIndex(xs, top.value) < FirstIndex(xs, y)))
  }

  /** The `metrics` memo: counts in one pass, then the running-maximum scans for the top mood
      and the top tag. */
  method ComputeMetrics(dreams: seq<Dream>) returns (m: Metrics)
    ensures dreams == [] ==> m == EMPTY_METRICS
    ensures dreams != [] ==>
      && m.total == |dreams|
      && m.lucidCount == LucidCount(dreams)
      && m.lucidityRate == RoundPercent(LucidCount(dreams), |dreams|) <= 100
      && m.uniqueTags == |Elements(TagsOf(dreams))|
      && m.recentMood == MoodLabel(dreams[0].mood).GetOr(dreams[0].mood)
      && IsMostFrequent(AllMoods(dreams), m.topMood, m.topMoodCount)
      && IsMostFrequent(TagsOf(dreams), m.topTag, m.topTagCount)
  {
    if dreams == [] {
      return EMPTY_METRICS;
    }
    var lucid, moodCounts, tagCounts := CountDreams(dreams);
    var topMood, topMoodCount := TopEntry(moodCounts);
    var topTag, topTagCount := TopEntry(tagCounts);
    MostCommonFirstSeen(AllMoods(dreams));
    MostCommonFirstSeen(TagsOf(dreams));
    DistinctKeys(TagsOf(dreams));
    m := Metrics(|dreams|, lucid, RoundPercent(lucid, |dreams|), |tagCounts|,
      MoodLabel(dreams[0].mood).GetOr(dreams[0].mood), topMood, topMoodCount, topTag, topTagCount);
  }

  /** Where the dashboard sends a visitor: signed out to sign-in (or home while logging out),
      signed in without a profile to the profile setup; a user with a profile stays. */
  function DashboardRedirect(user: Option<AuthUser>, isLoggingOut: bool): (route: Option<string>)
    ensures user.None? ==> route == Some(if isLoggingOut then "/" else "/auth/signin")
    ensures user.Some? ==> (route.None? <==> user.value.hasProfile)
    ensures user.Some? && route.Some? ==> route.value == "/auth/profile-setup"
  {
    if user.None? then Some(if isLoggingOut then "/" else "/auth/signin")
    else if !user.value.hasProfile then Some("/auth/profile-setup")
    else None
  }

  /** The name the greeting uses before capitalisation: the trimmed profile name, else the
      email, else "dreamer". */
  function GreetingName(user: AuthUser): (name: string)
    ensures name != ""
    ensures user.profile.Some? && Trim(user.profile.value.name) != "" ==> name == Trim(user.profile.value.name)
    ensures (user.profile.None? || Trim(user.profile.value.name) == "") && user.email != "" ==> name == user.email
    ensures (user.profile.None? || Trim(user.profile.value.name) == "") && user.email == "" ==> name == "dreamer"
  {
    if user.profile.Some? && Trim(user.profile.value.name) != "" then Trim(user.profile.value.name)
    else if user.email != "" then user.email
    else "dreamer"
  }

  /** The greeting name with its first letter uppercased. */
  function DisplayName(user: AuthUser): (r: string)
    ensures |r| == |GreetingName(user)| > 0
    ensures r[0] == UpperChar(GreetingName(user)[0]) && r[1..] == GreetingName(user)[1..]
  {
    var n := GreetingName(user);
    [UpperChar(n[0])] + n[1..]
  }

  /** A count followed by a noun, singular exactly when the count is 1. */
  function Counted(n: nat, singular: string, plural: string): string {
    NatToString(n) + " " + (if n == 1 then singular else plural)
  }

  /** The helper under the most common mood, "N entry" or "N entries". */
  function EntriesText(n: nat): string {
    Counted(n, "entry", "entries")
  }

  /** The helper under the top tag, "N mention" or "N mentions". */
  function MentionsText(n: nat): string {
    Counted(n, "mention", "mentions")
  }

  /** The helper texts read back as their count, and the noun is singular only for 1. */
  lemma HelperTextsReadBack(n: nat)
    ensures DigitsValue(EntriesText(n)[..|NatToString(n)|]) == n
    ensures DigitsValue(MentionsText(n)[..|NatToString(n)|]) == n
    ensures EntriesText(n) == NatToString(n) + " entry" <==> n == 1
    ensures MentionsText(n) == NatToString(n) + " mention" <==> n == 1
  {
    NatToStringRoundTrip(n);
    assert EntriesText(n)[..|NatToString(n)|] == NatToString(n);
    assert MentionsText(n)[..|NatToString(n)|] == NatToString(n);
    if n != 1 {
      assert |EntriesText(n)| != |NatToString(n) + " entry"|;
      assert |MentionsText(n)| != |NatToString(n) + " mention"|;
    }
  }
}
