/** The analysis view (components/dream-analysis.tsx): the `summary` memo with its mood and tag
    breakdowns, the six-month timeline, the recent dreams and the insight messages. */
module DreamAnalysis {
  import opened Wrappers
  import opened Seqs
  import opened Text
  import opened Sorting
  import opened Dreams
  import opened Counting
  import opened DreamCounts

  /** Months in the timeline. */
  const MAX_RECENT_MONTHS: nat := 6
  /** Tags listed as frequent. */
  const MAX_FREQUENT_TAGS: nat := 10
  /** Dreams listed as recent. */
  const MAX_RECENT_DREAMS: nat := 6

  /** One row of the mood breakdown: a mood, its count, and its share in percent. */
  datatype MoodShare = MoodShare(mood: string, count: nat, percentage: nat)

  /** One timeline bar: a calendar month, numbered as months since the epoch's first month,
      and the number of dreams recorded in it. */
  datatype MonthCount = MonthCount(month: int, count: nat)

  /** Everything the analysis view shows. */
  datatype Summary = Summary(
    total: nat,
    lucidCount: nat,
    lucidRate: nat,
    uniqueTags: nat,
    moodBreakdown: seq<MoodShare>,
    frequentTags: seq<Entry>,
    timeline: seq<MonthCount>,
    recentDreams: seq<Dream>,
    latestDream: Dream,
    insightMessages: seq<Insight>)

  /** The sort key of `sort((a, b) => b[1] - a[1])`. */
  function CountKey(e: Entry): int {
    e.count
  }

  function Min(a: nat, b: nat): nat {
    if a <= b then a else b
  }

  // ---------------------------------------------------------------- breakdowns

  /** The ten most frequent tags: the tag map sorted by count, cut to ten entries. */
  function FrequentTags(t: seq<Entry>): seq<Entry> {
    var s := SortBy(t, CountKey);
    s[..Min(MAX_FREQUENT_TAGS, |s|)]
  }

  /** The frequent tags are ten entries of the tag map, or all of them when there are fewer,
      in decreasing order of count, and an entry left out never has a larger count than one
      kept. */
  lemma FrequentTagsRanked(t: seq<Entry>)
    ensures var r := FrequentTags(t);
      && |r| == Min(MAX_FREQUENT_TAGS, |t|)
      && SortedDesc(r, CountKey)
      && (forall e :: e in r ==> e in t)
      && (forall e :: e in t && e !in r ==> forall j :: 0 <= j < |r| ==> r[j].count >= e.count)
  {
    var s := SortBy(t, CountKey);
    SortBySameElements(t, CountKey);
    var r := FrequentTags(t);
    assert r == s[..|r|];
    forall e | e in r ensures e in t {
      var k :| 0 <= k < |r| && r[k] == e;
      assert s[k] == e;
    }
    forall e, j | e in t && e !in r && 0 <= j < |r| ensures r[j].count >= e.count {
      var k :| 0 <= k < |s| && s[k] == e;
      assert k >= |r|;
      assert CountKey(s[j]) >= CountKey(s[k]);
    }
  }

  /** The entry a breakdown row stands for. */
  function ShareEntry(m: MoodShare): Entry {
    Entry(m.mood, m.count)
  }

  /** The entries of a breakdown, in its order. */
  function ShareEntries(r: seq<MoodShare>): (es: seq<Entry>)
    ensures |es| == |r|
    ensures forall i :: 0 <= i < |r| ==> es[i] == ShareEntry(r[i])
  {
    seq(|r|, i requires 0 <= i < |r| => ShareEntry(r[i]))
  }

  /** The mood breakdown: the mood map sorted by count, each row with its rounded share of
      `total`. */
  function MoodBreakdown(t: seq<Entry>, total: nat): (r: seq<MoodShare>)
    requires total > 0
    ensures |r| == |t|
  {
    var s := SortBy(t, CountKey);
    seq(|s|, i requires 0 <= i < |s| => MoodShare(s[i].key, s[i].count, RoundPercent(s[i].count, total)))
  }

  /** The breakdown holds the entries of the mood map, rearranged into non-increasing order of
      count, each row with its count's rounded share of `total`. */
  lemma MoodBreakdownRanked(t: seq<Entry>, total: nat)
    requires total > 0
    ensures var r := MoodBreakdown(t, total);
      && multiset(ShareEntries(r)) == multiset(t)
      && (forall i, j :: 0 <= i < j < |r| ==> r[i].count >= r[j].count)
      && (forall i :: 0 <= i < |r| ==> r[i].percentage == RoundPercent(r[i].count, total))
  {
    var s := SortBy(t, CountKey);
    var r := MoodBreakdown(t, total);
    assert ShareEntries(r) == s;
    assert forall i, j :: 0 <= i < j < |r| ==> CountKey(s[i]) >= CountKey(s[j]);
  }

  /** The breakdown of the moods `xs` has one row per distinct mood, each with the mood's
      number of occurrences and a share of at most 100 percent, and the counts add up to the
      number of moods. */
  lemma BreakdownCountsMoods(xs: seq<string>)
    requires xs != []
    ensures var r := MoodBreakdown(Tally(xs), |xs|);
      && NoDup(Keys(ShareEntries(r)))
      && (forall m :: m in Keys(ShareEntries(r)) <==> m in xs)
      && (forall i :: 0 <= i < |r| ==> r[i].count == multiset(xs)[r[i].mood] && r[i].percentage <= 100)
      && Total(ShareEntries(r)) == |xs|
  {
    var r := MoodBreakdown(Tally(xs), |xs|);
    var es := ShareEntries(r);
    MoodBreakdownRanked(Tally(xs), |xs|);
    PermutedTally(xs, es);
    forall i | 0 <= i < |r| ensures r[i].count <= |xs| {
      assert es[i] == ShareEntry(r[i]);
      assert multiset(xs)[r[i].mood] <= |multiset(xs)|;
    }
  }

  /** The frequent tags of the tags `xs` are distinct tags, each with its number of
      occurrences. */
  lemma FrequentTagsCounted(xs: seq<string>)
    ensures var r := FrequentTags(Tally(xs));
      && NoDup(Keys(r))
      && (forall j :: 0 <= j < |r| ==> r[j].key in xs && r[j].count == multiset(xs)[r[j].key])
  {
    var t := Tally(xs);
    var s := SortBy(t, CountKey);
    var r := FrequentTags(t);
    TallyKeys(xs);
    PermutationNoDupKeys(t, s);
    assert r == s[..|r|];
    forall i, j | 0 <= i < j < |r| ensures Keys(r)[i] != Keys(r)[j] {
      assert Keys(s)[i] == r[i].key && Keys(s)[j] == r[j].key;
    }
    forall j | 0 <= j < |r| ensures r[j].key in xs && r[j].count == multiset(xs)[r[j].key] {
      assert r[j] == s[j];
      PermutedTallyEntry(xs, s, j);
    }
  }

  // ---------------------------------------------------------------- timeline and recent dreams

  /** The number of dreams whose date falls in `month`, given the calendar month of each
      instant. */
  function InMonth(ds: seq<Dream>, monthOf: int -> int, month: int): (n: nat)
    ensures n <= |ds|
  {
    if ds == [] then 0
    else InMonth(ds[..|ds| - 1], monthOf, month) + (if monthOf(ds[|ds| - 1].date) == month then 1 else 0)
  }

  /** `months` is the timeline of `ds` ending at `thisMonth`: six consecutive months, oldest
      first, each with its number of dreams. */
  predicate IsTimeline(months: seq<MonthCount>, ds: seq<Dream>, thisMonth: int, monthOf: int -> int) {
    && |months| == MAX_RECENT_MONTHS
    && forall k :: 0 <= k < |months| ==>
      months[k].month == thisMonth - (MAX_RECENT_MONTHS - 1) + k
      && months[k].count == InMonth(ds, monthOf, months[k].month)
  }

  /** The timeline: from five months before `thisMonth` up to `thisMonth`, each month with
      its number of dreams. */
  method Timeline(ds: seq<Dream>, thisMonth: int, monthOf: int -> int) returns (months: seq<MonthCount>)
    ensures IsTimeline(months, ds, thisMonth, monthOf)
  {
    months := [];
    var offset: int := MAX_RECENT_MONTHS - 1;
    while offset >= 0
      invariant -1 <= offset < MAX_RECENT_MONTHS
      invariant |months| == MAX_RECENT_MONTHS - 1 - offset
      invariant forall k :: 0 <= k < |months| ==>
        months[k].month == thisMonth - (MAX_RECENT_MONTHS - 1) + k
        && months[k].count == InMonth(ds, monthOf, months[k].month)
    {
      var month := thisMonth - offset;
      months := months + [MonthCount(month, InMonth(ds, monthOf, month))];
      offset := offset - 1;
    }
  }

  /** The dreams dated at or after `cutoff`, in list order. */
  function OnOrAfter(ds: seq<Dream>, cutoff: int): (r: seq<Dream>)
    ensures |r| <= |ds|
    ensures forall d :: d in r <==> d in ds && d.date >= cutoff
  {
    if ds == [] then []
    else if ds[0].date >= cutoff then [ds[0]] + OnOrAfter(ds[1..], cutoff)
    else OnOrAfter(ds[1..], cutoff)
  }

  /** The cutoff filter distributes over concatenation: the dreams it keeps stay in list
      order, each with all its occurrences. */
  lemma {:induction false} OnOrAfterAppend(a: seq<Dream>, b: seq<Dream>, cutoff: int)
    ensures OnOrAfter(a + b, cutoff) == OnOrAfter(a, cutoff) + OnOrAfter(b, cutoff)
  {
    if a != [] {
      assert (a + b)[0] == a[0] && (a + b)[1..] == a[1..] + b;
      OnOrAfterAppend(a[1..], b, cutoff);
    } else {
      assert a + b == b;
    }
  }

  /** The recent dreams: the first six dated at or after `cutoff`, thirty days before now. */
  function RecentDreams(ds: seq<Dream>, cutoff: int): (r: seq<Dream>)
    ensures |r| == Min(MAX_RECENT_DREAMS, |OnOrAfter(ds, cutoff)|)
    ensures r == OnOrAfter(ds, cutoff)[..|r|]
  {
    var f := OnOrAfter(ds, cutoff);
    f[..Min(MAX_RECENT_DREAMS, |f|)]
  }

  // ---------------------------------------------------------------- insight messages

  /** The insight messages the view can show, by kind; `InsightText` gives the wording of each. */
  datatype Insight =
    | HighLucidity | EmergingLucidity | LowLucidity | NoLucidity
    | GreatRecall | SlowRecall
    | DominantMood(moodName: string)

  /** The four lucidity messages, of which every summary carries exactly one. */
  predicate IsLucidity(m: Insight) {
    m.HighLucidity? || m.EmergingLucidity? || m.LowLucidity? || m.NoLucidity?
  }

  // Each message is written as a short head and its rest, so that the verifier can see the
  // characters the messages differ in.
  const HIGH_LUCIDITY: string := "High lucid " + "dreaming rate \U{2013} keep a reality-check routine to maintain it."
  const EMERGING_LUCIDITY: string := "Lucid moments " + "are emerging. Reflect on what triggered awareness."
  const LOW_LUCIDITY: string := "Try journaling " + "immediately after waking to boost lucid frequency."
  const NO_LUCIDITY: string := "No lucid dreams " + "recorded yet. Reality checks can help build awareness."
  const GREAT_RECALL: string := "Great recall " + "lately. You captured five or more dreams in the past month."
  const SLOW_RECALL: string := "Dream recall " + "has slowed. Consider evening wind-down rituals to improve it."
  const MOOD_PREFIX: string := "Dreams often feel "

  /** The message about a dominant mood, with the mood's label in lower case. */
  function MoodMessage(moodName: string): (s: string)
    ensures IsPrefix(MOOD_PREFIX, s)
  {
    MOOD_PREFIX + ToLower(moodName) + ". Note any waking patterns that match this mood."
  }

  /** The wording the view shows for a message. */
  function InsightText(m: Insight): string {
    match m
    case HighLucidity => HIGH_LUCIDITY
    case EmergingLucidity => EMERGING_LUCIDITY
    case LowLucidity => LOW_LUCIDITY
    case NoLucidity => NO_LUCIDITY
    case GreatRecall => GREAT_RECALL
    case SlowRecall => SLOW_RECALL
    case DominantMood(moodName) => MoodMessage(moodName)
  }

  /** The lucidity message for `lucid` lucid dreams out of `total`: none lucid, a rate of at
      least 25, a rate of at least 10, or a lower rate, each with its own message. */
  function LucidityMessage(lucid: nat, total: nat): (m: Insight)
    requires total > 0
    ensures IsLucidity(m)
    ensures m == NoLucidity <==> lucid == 0
    ensures m == HighLucidity <==> lucid > 0 && RoundPercent(lucid, total) >= 25
    ensures m == EmergingLucidity <==> lucid > 0 && 10 <= RoundPercent(lucid, total) < 25
    ensures m == LowLucidity <==> lucid > 0 && RoundPercent(lucid, total) < 10
  {
    if lucid > 0 then
      var rate := RoundPercent(lucid, total);
      if rate >= 25 then HighLucidity
      else if rate >= 10 then EmergingLucidity
      else LowLucidity
    else NoLucidity
  }

  /** The recall message, if any: great recall for five or more recent dreams, slowed recall
      for fewer when the journal holds more than five; never a lucidity or a mood message. */
  function RecallMessages(recent: nat, total: nat): (r: seq<Insight>)
    ensures |r| <= 1
    ensures forall m :: m in r ==> !IsLucidity(m) && !m.DominantMood?
    ensures GreatRecall in r <==> recent >= 5
    ensures SlowRecall in r <==> recent < 5 && total > 5
  {
    if recent >= 5 then [GreatRecall]
    else if total > 5 then [SlowRecall]
    else []
  }

  /** The mood message, if the top row of the breakdown holds at least 40 percent, naming the
      label of its mood, or the mood itself when it has no label. */
  function MoodMessages(top: Option<MoodShare>): (r: seq<Insight>)
    ensures |r| <= 1
    ensures r != [] <==> top.Some? && top.value.percentage >= 40
    ensures forall m :: m in r ==> top.Some? && m == DominantMood(MoodLabel(top.value.mood).GetOr(top.value.mood))
  {
    if top.Some? && top.value.percentage >= 40 then
      [DominantMood(MoodLabel(top.value.mood).GetOr(top.value.mood))]
    else []
  }

  /** The insight messages: the lucidity message, then the recall message, then the mood
      message. */
  function InsightMessages(total: nat, lucid: nat, recent: nat, top: Option<MoodShare>): seq<Insight>
    requires total > 0
  {
    [LucidityMessage(lucid, total)] + RecallMessages(recent, total) + MoodMessages(top)
  }

  /** Every summary carries exactly one lucidity message, and it comes first. */
  lemma InsightLucidityFirst(total: nat, lucid: nat, recent: nat, top: Option<MoodShare>)
    requires total > 0
    ensures var r := InsightMessages(total, lucid, recent, top);
      && |r| >= 1 && r[0] == LucidityMessage(lucid, total) && IsLucidity(r[0])
      && (forall i :: 1 <= i < |r| ==> !IsLucidity(r[i]))
  {
    var recall, mood := RecallMessages(recent, total), MoodMessages(top);
    var r := InsightMessages(total, lucid, recent, top);
    forall i | 1 <= i < |r| ensures !IsLucidity(r[i]) {
      assert r[i] == (recall + mood)[i - 1];
      assert r[i] in recall || r[i] in mood;
    }
  }

  /** The recall messages of a summary appear exactly under their thresholds. */
  lemma InsightRecall(total: nat, lucid: nat, recent: nat, top: Option<MoodShare>)
    requires total > 0
    ensures var r := InsightMessages(total, lucid, recent, top);
      && (GreatRecall in r <==> recent >= 5)
      && (SlowRecall in r <==> recent < 5 && total > 5)
  {
    var lm, recall, mood := LucidityMessage(lucid, total), RecallMessages(recent, total), MoodMessages(top);
    ThreeMembers(lm, recall, mood);
  }

  /** A summary carries a mood message exactly when the top mood holds at least 40 percent. */
  lemma InsightMood(total: nat, lucid: nat, recent: nat, top: Option<MoodShare>)
    requires total > 0
    ensures var r := InsightMessages(total, lucid, recent, top);
      (exists i :: 0 <= i < |r| && r[i].DominantMood?) <==> top.Some? && top.value.percentage >= 40
  {
    var lm, recall, mood := LucidityMessage(lucid, total), RecallMessages(recent, total), MoodMessages(top);
    var r := InsightMessages(total, lucid, recent, top);
    ThreeMembers(lm, recall, mood);
    if mood != [] {
      assert r[|r| - 1] == mood[0];
    } else {
      forall i | 0 <= i < |r| ensures !r[i].DominantMood? {
        assert r[i] in r;
      }
    }
  }

  /** What is in `[x] + xs + ys`: `x` and what is in `xs` or `ys`. */
  lemma ThreeMembers<T>(x: T, xs: seq<T>, ys: seq<T>)
    ensures forall y :: y in [x] + xs + ys <==> y == x || y in xs || y in ys
  {
  }

  /** Different fixed messages read differently, and a message starts with the mood prefix
      exactly when it is a mood message, so the view's texts tell the kinds apart. */
  lemma MessagesDistinct()
    ensures forall a: Insight, b: Insight :: !a.DominantMood? && !b.DominantMood? && a != b ==> InsightText(a) != InsightText(b)
    ensures forall a: Insight :: IsPrefix(MOOD_PREFIX, InsightText(a)) <==> a.DominantMood?
  {
    assert HIGH_LUCIDITY[0] == 'H' && EMERGING_LUCIDITY[0] == 'L' && LOW_LUCIDITY[0] == 'T';
    assert NO_LUCIDITY[0] == 'N' && GREAT_RECALL[0] == 'G' && SLOW_RECALL[0] == 'D';
    assert SLOW_RECALL[5] == ' ' && MOOD_PREFIX[0] == 'D' && MOOD_PREFIX[5] == 's';
    forall a: Insight, b: Insight | !a.DominantMood? && !b.DominantMood? && a != b
      ensures InsightText(a) != InsightText(b)
    {
      assert InsightText(a)[0] != InsightText(b)[0];
    }
    forall a: Insight | !a.DominantMood? ensures !IsPrefix(MOOD_PREFIX, InsightText(a)) {
      var m := InsightText(a);
      if |MOOD_PREFIX| <= |m| {
        assert m[..|MOOD_PREFIX|][0] == m[0] && m[..|MOOD_PREFIX|][5] == m[5];
      }
    }
  }

  // ---------------------------------------------------------------- the summary

  /** `s` is the summary of the non-empty journal `dreams`: its counts, the breakdowns and the
      recent dreams of the journal, the timeline ending at `thisMonth`, the newest dream, and
      the insight messages that follow from them. */
  predicate Describes(s: Summary, dreams: seq<Dream>, thisMonth: int, monthOf: int -> int, cutoff: int)
    requires dreams != []
  {
    && s.total == |dreams|
    && s.lucidCount == LucidCount(dreams)
    && s.lucidRate == RoundPercent(LucidCount(dreams), |dreams|) <= 100
    && s.uniqueTags == |Elements(TagsOf(dreams))|
    && s.moodBreakdown == MoodBreakdown(Tally(AllMoods(dreams)), |dreams|)
    && |s.moodBreakdown| >= 1
    && s.frequentTags == FrequentTags(Tally(TagsOf(dreams)))
    && IsTimeline(s.timeline, dreams, thisMonth, monthOf)
    && s.recentDreams == RecentDreams(dreams, cutoff)
    && s.latestDream == dreams[0]
    && s.insightMessages == InsightMessages(|dreams|, LucidCount(dreams), |s.recentDreams|, Some(s.moodBreakdown[0]))
  }

  /** The summary assembled from the journal's counts and a timeline of it describes the
      journal. */
  lemma AssembledDescribes(dreams: seq<Dream>, thisMonth: int, monthOf: int -> int, cutoff: int,
      timeline: seq<MonthCount>)
    requires dreams != []
    requires IsTimeline(timeline, dreams, thisMonth, monthOf)
    ensures var moods, tags := Tally(AllMoods(dreams)), Tally(TagsOf(dreams));
      var breakdown := MoodBreakdown(moods, |dreams|);
      |breakdown| >= 1
      && var recent := RecentDreams(dreams, cutoff);
      var messages := InsightMessages(|dreams|, LucidCount(dreams), |recent|, Some(breakdown[0]));
      Describes(Summary(|dreams|, LucidCount(dreams), RoundPercent(LucidCount(dreams), |dreams|), |tags|,
        breakdown, FrequentTags(tags), timeline, recent, dreams[0], messages), dreams, thisMonth, monthOf, cutoff)
  {
    TallyKeys(AllMoods(dreams));
    assert dreams[0].mood in Keys(Tally(AllMoods(dreams)));
    DistinctKeys(TagsOf(dreams));
  }

  /** The `summary` memo: none for an empty journal. `thisMonth` is the current calendar
      month, `monthOf` gives the calendar month of an instant, and `cutoff` is the instant
      thirty days before now. */
  method Summarize(dreams: seq<Dream>, thisMonth: int, monthOf: int -> int, cutoff: int)
    returns (summary: Option<Summary>)
    ensures summary.None? <==> dreams == []
    ensures summary.Some? ==> Describes(summary.value, dreams, thisMonth, monthOf, cutoff)
  {
    if dreams == [] {
      return None;
    }
    var lucid, moodCounts, tagCounts := CountDreams(dreams);
    var timeline := Timeline(dreams, thisMonth, monthOf);
    AssembledDescribes(dreams, thisMonth, monthOf, cutoff, timeline);
    var breakdown := MoodBreakdown(moodCounts, |dreams|);
    var recent := RecentDreams(dreams, cutoff);
    var messages := InsightMessages(|dreams|, lucid, |recent|, Some(breakdown[0]));
    summary := Some(Summary(|dreams|, lucid, RoundPercent(lucid, |dreams|), |tagCounts|, breakdown,
      FrequentTags(tagCounts), timeline, recent, dreams[0], messages));
  }
}
