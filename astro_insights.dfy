/** The journal statistics of components/astro-insights.tsx (`calculateDreamStats`): dream
    streaks over calendar days, lucid counts, mood and tag tallies and achievements, and the
    fallbacks used when the astrology texts are looked up by sign and element. */
module AstroInsights {
  import opened Dreams
  import opened Profiles
  import opened Counting
  import opened DreamCounts
  import opened Seqs
  import ProfileSetup
  import ProfileModal

  // ---------------------------------------------------------------- days and runs

  /** The calendar day of each dream, in list order. */
  function Days(ds: seq<Dream>): (days: seq<int>)
    ensures |days| == |ds|
    ensures forall i :: 0 <= i < |ds| ==> days[i] == DayOf(ds[i].date)
  {
    seq(|ds|, i requires 0 <= i < |ds| => DayOf(ds[i].date))
  }

  /** Days never increase from left to right: the order of a newest-first list. */
  predicate NonIncreasing(days: seq<int>) {
    forall i, j :: 0 <= i < j < |days| ==> days[i] >= days[j]
  }

  /** Entries `j - 1` and `j` are on the same day or on consecutive days, so a streak that
      reaches entry `j - 1` carries on to entry `j`. */
  predicate Continues(days: seq<int>, j: int)
    requires 1 <= j < |days|
  {
    0 <= days[j - 1] - days[j] <= 1
  }

  /** Entries `a` to `b` form one unbroken run. */
  predicate Calm(days: seq<int>, a: int, b: int)
    requires 0 <= a <= b < |days|
  {
    forall j :: a < j <= b ==> Continues(days, j)
  }

  /** The number of calendar days from entry `b` up to entry `a`, both included. */
  function Span(days: seq<int>, a: int, b: int): int
    requires 0 <= a <= b < |days|
  {
    1 + days[a] - days[b]
  }

  /** The first entry from `i` on where the run breaks, or the length when it never does. */
  function RunEnd(days: seq<int>, i: nat): (k: nat)
    requires 1 <= i <= |days|
    ensures i <= k <= |days|
    ensures Calm(days, i - 1, k - 1)
    ensures k < |days| ==> !Continues(days, k)
    decreases |days| - i
  {
    if i == |days| || !Continues(days, i) then i else RunEnd(days, i + 1)
  }

  /** A run spans at least one day. */
  lemma {:induction false} CalmSpanPositive(days: seq<int>, a: int, b: int)
    requires 0 <= a <= b < |days| && Calm(days, a, b)
    ensures Span(days, a, b) >= 1
    decreases b - a
  {
    if a < b {
      assert Continues(days, b);
      CalmSpanPositive(days, a, b - 1);
    }
  }

  /** In a newest-first list a run inside another run spans no more days. */
  lemma InnerRunShorter(days: seq<int>, s: int, e: int, a: int, b: int)
    requires NonIncreasing(days)
    requires 0 <= s <= a <= b <= e < |days|
    ensures Span(days, a, b) <= Span(days, s, e)
  {
    if s < a { assert days[s] >= days[a]; }
    if b < e { assert days[b] >= days[e]; }
  }

  /** A run carries on to the next entry when that entry continues it. */
  lemma ExtendRun(days: seq<int>, s: int, i: int)
    requires 0 <= s < i < |days|
    requires Calm(days, s, i - 1) && Continues(days, i)
    ensures Calm(days, s, i)
    ensures Span(days, s, i) == Span(days, s, i - 1) + (days[i - 1] - days[i])
  {
  }

  /** No run reaches across a break. */
  lemma NoRunAcrossBreak(days: seq<int>, s: int, a: int, b: int)
    requires 0 <= a < s <= b < |days|
    requires Calm(days, a, b)
    ensures Continues(days, s)
  {
  }

  /** Every run ending before `e` spans at most the larger of `longest` (a bound for the runs
      before the break at `s`) and the span of the run from `s` to `e`. */
  lemma RunsBounded(days: seq<int>, s: int, e: int, longest: int)
    requires NonIncreasing(days)
    requires 0 <= s <= e < |days|
    requires s > 0 ==> !Continues(days, s)
    requires forall a, b :: 0 <= a <= b < s && Calm(days, a, b) ==> Span(days, a, b) <= longest
    ensures forall a, b :: (0 <= a <= b <= e && Calm(days, a, b) ==>
      Span(days, a, b) <= if longest >= Span(days, s, e) then longest else Span(days, s, e))
  {
    forall a, b | 0 <= a <= b <= e && Calm(days, a, b)
      ensures Span(days, a, b) <= if longest >= Span(days, s, e) then longest else Span(days, s, e)
    {
      if b < s {
      } else if a < s {
        NoRunAcrossBreak(days, s, a, b);
      } else {
        InnerRunShorter(days, s, e, a, b);
      }
    }
  }

  // ---------------------------------------------------------------- streaks

  /** The current streak, given the days of a non-empty newest-first list and today's day
      number: nothing unless the newest dream is from today or yesterday; otherwise the number
      of calendar days covered by the run of entries starting at the newest, which ends at the
      first gap of more than one day. */
  method CurrentStreak(days: seq<int>, today: int) returns (current: nat)
    requires |days| > 0
    ensures today - days[0] > 1 ==> current == 0
    ensures today - days[0] <= 1 ==> current == Span(days, 0, RunEnd(days, 1) - 1)
  {
    current := 0;
    if today - days[0] <= 1 {
      current := 1;
      var i := 1;
      while i < |days|
        invariant 1 <= i <= |days|
        invariant RunEnd(days, i) == RunEnd(days, 1)
        invariant current == Span(days, 0, i - 1)
      {
        var diff := days[i - 1] - days[i];
        if diff == 1 {
          current := current + 1;
        } else if diff == 0 {
        } else {
          break;
        }
        i := i + 1;
      }
    }
  }

  /** The longest streak, given the days of a non-empty newest-first list and the current
      streak: the current streak or the most calendar days any run covers, whichever is more. */
  method LongestStreak(days: seq<int>, current: nat) returns (longest: nat)
    requires |days| > 0 && NonIncreasing(days)
    ensures longest >= current && longest >= 1
    ensures forall a, b :: 0 <= a <= b < |days| && Calm(days, a, b) ==> Span(days, a, b) <= longest
    ensures longest == current ||
      exists a, b :: 0 <= a <= b < |days| && Calm(days, a, b) && Span(days, a, b) == longest
  {
    longest := 0;
    var temp: nat := 1;
    ghost var s := 0;
    ghost var wa, wb := 0, 0;
    var i := 1;
    while i < |days|
      invariant 1 <= i <= |days|
      invariant 0 <= s < i
      invariant Calm(days, s, i - 1) && temp == Span(days, s, i - 1)
      invariant s > 0 ==> !Continues(days, s)
      invariant forall a, b :: 0 <= a <= b < s && Calm(days, a, b) ==> Span(days, a, b) <= longest
      invariant longest == 0 || (0 <= wa <= wb < |days| && Calm(days, wa, wb) && Span(days, wa, wb) == longest)
    {
      var diff := days[i - 1] - days[i];
      assert diff >= 0 by { assert days[i - 1] >= days[i]; }
      if diff <= 1 {
        ExtendRun(days, s, i);
      }
      if diff == 1 {
        temp := temp + 1;
      } else if diff > 1 {
        RunsBounded(days, s, i - 1, longest);
        if temp > longest {
          longest, wa, wb := temp, s, i - 1;
        }
        temp, s := 1, i;
      }
      i := i + 1;
    }
    RunsBounded(days, s, |days| - 1, longest);
    if temp > longest {
      longest, wa, wb := temp, s, |days| - 1;
    }
    assert longest >= 1 ==> Calm(days, wa, wb) && Span(days, wa, wb) == longest;
    if current > longest {
      longest := current;
    }
  }

  // ---------------------------------------------------------------- counts

  /** The non-empty moods, in list order: the ones the mood distribution counts. */
  function MoodsOf(ds: seq<Dream>): (ms: seq<string>)
    ensures |ms| <= |ds|
    ensures forall m :: m in ms ==> m != ""
  {
    if ds == [] then []
    else MoodsOf(ds[..|ds| - 1]) + (if ds[|ds| - 1].mood != "" then [ds[|ds| - 1].mood] else [])
  }

  /** The mood distribution: one pass over the dreams, counting each non-empty mood. */
  method MoodDistribution(ds: seq<Dream>) returns (t: seq<Entry>)
    ensures t == Tally(MoodsOf(ds))
  {
    t := [];
    var i := 0;
    while i < |ds|
      invariant 0 <= i <= |ds|
      invariant t == Tally(MoodsOf(ds[..i]))
    {
      assert ds[..i + 1][..i] == ds[..i];
      if ds[i].mood != "" {
        assert MoodsOf(ds[..i + 1]) == MoodsOf(ds[..i]) + [ds[i].mood];
        TallySnoc(MoodsOf(ds[..i]), ds[i].mood);
        t := Bump(t, ds[i].mood);
      } else {
        assert MoodsOf(ds[..i + 1]) == MoodsOf(ds[..i]) + [];
        assert MoodsOf(ds[..i]) + [] == MoodsOf(ds[..i]);
      }
      i := i + 1;
    }
    assert ds[..|ds|] == ds;
  }

  /** The tag frequency: one pass over the dreams and, inside it, over each dream's tags. */
  method TagFrequency(ds: seq<Dream>) returns (t: seq<Entry>)
    ensures t == Tally(TagsOf(ds))
  {
    t := [];
    var i := 0;
    while i < |ds|
      invariant 0 <= i <= |ds|
      invariant t == Tally(TagsOf(ds[..i]))
    {
      assert ds[..i + 1][..i] == ds[..i];
      assert TagsOf(ds[..i + 1]) == TagsOf(ds[..i]) + ds[i].tags;
      t := BumpAll(t, TagsOf(ds[..i]), ds[i].tags);
      i := i + 1;
    }
    assert ds[..|ds|] == ds;
  }

  /** The mood distribution counts each non-empty mood by its number of dreams, and no more
      dreams than there are. */
  lemma MoodDistributionCounts(ds: seq<Dream>)
    ensures NoDup(Keys(Tally(MoodsOf(ds))))
    ensures forall m :: m in Keys(Tally(MoodsOf(ds))) <==> m in MoodsOf(ds)
    ensures forall m :: CountOf(Tally(MoodsOf(ds)), m) == multiset(MoodsOf(ds))[m]
    ensures Total(Tally(MoodsOf(ds))) <= |ds|
  {
    TallyKeys(MoodsOf(ds));
    TallyTotal(MoodsOf(ds));
    forall m ensures CountOf(Tally(MoodsOf(ds)), m) == multiset(MoodsOf(ds))[m] {
      TallyCounts(MoodsOf(ds), m);
    }
  }

  /** The tag frequency counts each tag by its number of occurrences and adds up to the
      number of tag occurrences. */
  lemma TagFrequencyCounts(ds: seq<Dream>)
    ensures NoDup(Keys(Tally(TagsOf(ds))))
    ensures forall g :: g in Keys(Tally(TagsOf(ds))) <==> g in TagsOf(ds)
    ensures forall g :: CountOf(Tally(TagsOf(ds)), g) == multiset(TagsOf(ds))[g]
    ensures Total(Tally(TagsOf(ds))) == |TagsOf(ds)|
  {
    TallyKeys(TagsOf(ds));
    TallyTotal(TagsOf(ds));
    forall g ensures CountOf(Tally(TagsOf(ds)), g) == multiset(TagsOf(ds))[g] {
      TallyCounts(TagsOf(ds), g);
    }
  }

  // ---------------------------------------------------------------- achievements

  /** What an achievement is measured on. */
  datatype Metric = DreamCount | LucidDreams | Streak

  /** An achievement rule: identity, texts, and the threshold on its metric. */
  datatype Rule = Rule(id: string, name: string, description: string, metric: Metric, threshold: nat)

  /** An achievement as shown: the rule's identity and texts, and whether it is unlocked. */
  datatype Achievement = Achievement(id: string, name: string, description: string, unlocked: bool)

  /** The eight achievements, in display order. */
  const RULES: seq<Rule> := [
    Rule("first_dream", "First Dream", "Record your first dream", DreamCount, 1),
    Rule("week_streak", "Lunar Week", "7-day dream streak", Streak, 7),
    Rule("month_streak", "Moon Cycle Master", "30-day dream streak", Streak, 30),
    Rule("lucid_first", "Awakened Dreamer", "Record a lucid dream", LucidDreams, 1),
    Rule("lucid_10", "Dream Walker", "10 lucid dreams", LucidDreams, 10),
    Rule("dreams_10", "Star Collector", "Record 10 dreams", DreamCount, 10),
    Rule("dreams_50", "Constellation Builder", "Record 50 dreams", DreamCount, 50),
    Rule("dreams_100", "Galaxy Creator", "Record 100 dreams", DreamCount, 100)
  ]

  /** The value a metric takes for the given counts. */
  function Measure(m: Metric, total: nat, lucid: nat, longest: nat): nat {
    match m
    case DreamCount => total
    case LucidDreams => lucid
    case Streak => longest
  }

  /** The achievement list for the given dream count, lucid count and longest streak. */
  function Achievements(total: nat, lucid: nat, longest: nat): (r: seq<Achievement>)
    ensures |r| == |RULES|
    ensures forall i :: 0 <= i < |r| ==>
      r[i].id == RULES[i].id && r[i].name == RULES[i].name && r[i].description == RULES[i].description
    ensures forall i :: 0 <= i < |r| ==>
      (r[i].unlocked <==> Measure(RULES[i].metric, total, lucid, longest) >= RULES[i].threshold)
  {
    seq(|RULES|, i requires 0 <= i < |RULES| =>
      Achievement(RULES[i].id, RULES[i].name, RULES[i].description,
        Measure(RULES[i].metric, total, lucid, longest) >= RULES[i].threshold))
  }

  /** More dreams, more lucid dreams or a longer streak never lock an achievement again. */
  lemma AchievementsMonotone(total: nat, lucid: nat, longest: nat, total': nat, lucid': nat, longest': nat)
    requires total <= total' && lucid <= lucid' && longest <= longest'
    ensures forall i :: 0 <= i < |RULES| ==>
      Achievements(total, lucid, longest)[i].unlocked ==> Achievements(total', lucid', longest')[i].unlocked
  {
    forall i | 0 <= i < |RULES|
      ensures Measure(RULES[i].metric, total, lucid, longest) <= Measure(RULES[i].metric, total', lucid', longest')
    {
    }
  }

  // ---------------------------------------------------------------- all statistics

  /** The statistics shown in the astrology panel. */
  datatype DreamStats = DreamStats(
    currentStreak: nat,
    longestStreak: nat,
    totalDreams: nat,
    lucidCount: nat,
    lucidRate: nat,
    moodDistribution: seq<Entry>,
    tagFrequency: seq<Entry>,
    achievements: seq<Achievement>)

  /** The statistics of an empty journal. */
  const EMPTY_STATS: DreamStats := DreamStats(0, 0, 0, 0, 0, [], [], [])

  /** `calculateDreamStats`, with today's day number as a parameter. */
  method CalculateDreamStats(dreams: seq<Dream>, today: int) returns (stats: DreamStats)
    ensures dreams == [] ==> stats == EMPTY_STATS
    ensures dreams != [] ==> (
      var days := Days(NewestFirst(dreams));
      && stats.totalDreams == |dreams|
      && stats.lucidCount == LucidCount(dreams) <= |dreams|
      && stats.lucidRate == RoundPercent(LucidCount(dreams), |dreams|) <= 100
      && (today - days[0] > 1 ==> stats.currentStreak == 0)
      && (today - days[0] <= 1 ==> stats.currentStreak == Span(days, 0, RunEnd(days, 1) - 1))
      && stats.longestStreak >= stats.currentStreak && stats.longestStreak >= 1
      && (forall a, b :: 0 <= a <= b < |days| && Calm(days, a, b) ==> Span(days, a, b) <= stats.longestStreak)
      && (exists a, b :: 0 <= a <= b < |days| && Calm(days, a, b) && Span(days, a, b) == stats.longestStreak)
      && stats.moodDistribution == Tally(MoodsOf(dreams))
      && stats.tagFrequency == Tally(TagsOf(dreams))
      && stats.achievements == Achievements(|dreams|, LucidCount(dreams), stats.longestStreak))
  {
    if dreams == [] {
      return EMPTY_STATS;
    }
    var sorted := NewestFirst(dreams);
    var days := Days(sorted);
    assert NonIncreasing(days) by {
      forall i, j | 0 <= i < j < |days| ensures days[i] >= days[j] {
        DayMonotone(sorted[j].date, sorted[i].date);
      }
    }
    var current := CurrentStreak(days, today);
    var longest := LongestStreak(days, current);
    if longest == current && today - days[0] <= 1 {
      assert Calm(days, 0, RunEnd(days, 1) - 1);
    }
    var lucid := LucidCount(dreams);
    var moods := MoodDistribution(dreams);
    var tags := TagFrequency(dreams);
    stats := DreamStats(current, longest, |dreams|, lucid, RoundPercent(lucid, |dreams|),
      moods, tags, Achievements(|dreams|, lucid, longest));
  }

  /** A later instant is never on an earlier day. */
  lemma DayMonotone(s: int, t: int)
    requires s <= t
    ensures DayOf(s) <= DayOf(t)
  {
    var q, r := s / MS_PER_DAY, t / MS_PER_DAY;
    assert s == MS_PER_DAY * q + s % MS_PER_DAY;
    assert t == MS_PER_DAY * r + t % MS_PER_DAY;
  }

  // ---------------------------------------------------------------- insight texts

  /** The signs the daily, weekly, monthly and personality texts are written for. */
  const INSIGHT_SIGNS: seq<string> := [
    "Aries", "Taurus", "Gemini", "Cancer", "Leo", "Virgo",
    "Libra", "Scorpio", "Sagittarius", "Capricorn", "Aquarius", "Pisces"
  ]

  /** The sign whose texts are shown: the profile's sign when there are texts for it, and
      the Aries texts otherwise. */
  function InsightSign(sign: string): (k: string)
    ensures k in INSIGHT_SIGNS
    ensures sign in INSIGHT_SIGNS ==> k == sign
    ensures sign !in INSIGHT_SIGNS ==> k == "Aries"
  {
    if sign in INSIGHT_SIGNS then sign else "Aries"
  }

  /** The element whose compatibility text is shown: the profile's element when there is a
      text for it, and the Fire text otherwise. */
  function CompatibilityElement(element: string): (k: string)
    ensures k in ELEMENTS
    ensures element in ELEMENTS ==> k == element
    ensures element !in ELEMENTS ==> k == "Fire"
  {
    if element in ELEMENTS then element else "Fire"
  }

  /** A profile whose sign and element came from either zodiac table gets its own texts;
      the fallbacks only serve profiles stored with other values. */
  lemma ClassifiedSignsHaveTexts(month: int, day: int)
    ensures InsightSign(ProfileSetup.CalculateZodiacSign(month, day).sign)
      == ProfileSetup.CalculateZodiacSign(month, day).sign
    ensures CompatibilityElement(ProfileSetup.CalculateZodiacSign(month, day).element)
      == ProfileSetup.CalculateZodiacSign(month, day).element
    ensures InsightSign(ProfileModal.CalculateZodiacSign(month, day).sign)
      == ProfileModal.CalculateZodiacSign(month, day).sign
    ensures CompatibilityElement(ProfileModal.CalculateZodiacSign(month, day).element)
      == ProfileModal.CalculateZodiacSign(month, day).element
  {
    var t := ProfileSetup.SETUP_ZODIAC_SIGNS;
    assert forall i :: 0 <= i < |t| ==> t[i].sign == INSIGHT_SIGNS[i];
    ProfileSetup.SignElementsOffered();
    ProfileModal.ClassifiersAgree(month, day);
  }
}
