/** The dream journal entry (`Dream` in components/dream-entry.tsx), the fixed moods, the
    seed collection, the backend's list item and its mapping to a `Dream`. */
module Dreams {
  import opened Wrappers
  import opened Sorting

  /** Milliseconds in a day. */
  const MS_PER_DAY: int := 86400000

  /** A journal entry. `date` is the entry's instant in milliseconds since the epoch (the
      source keeps its ISO-8601 text). */
  datatype Dream = Dream(
    id: string,
    title: string,
    description: string,
    date: int,
    mood: string,
    tags: seq<string>,
    lucidity: bool,
    analysis: string)

  /** The sort key used for "newest first". */
  function DateOf(d: Dream): int {
    d.date
  }

  /** The calendar day of an instant: the instant's midnight divided by the length of a day. */
  function DayOf(t: int): int {
    t / MS_PER_DAY
  }

  /** The list sorted newest first, as `sort((a, b) => time(b) - time(a))` does. */
  function NewestFirst(ds: seq<Dream>): (r: seq<Dream>)
    ensures |r| == |ds| && multiset(r) == multiset(ds)
    ensures forall i, j :: 0 <= i < j < |r| ==> r[i].date >= r[j].date
  {
    var r := SortBy(ds, DateOf);
    assert forall i, j :: 0 <= i < j < |r| ==> DateOf(r[i]) >= DateOf(r[j]);
    r
  }

  /** One choice of the mood selector: the stored value and its label. */
  datatype MoodOption = MoodOption(value: string, name: string)

  /** The nine moods an entry can be given. */
  const MOOD_OPTIONS: seq<MoodOption> := [
    MoodOption("happy", "Happy"),
    MoodOption("peaceful", "Peaceful"),
    MoodOption("excited", "Excited"),
    MoodOption("curious", "Curious"),
    MoodOption("confused", "Confused"),
    MoodOption("anxious", "Anxious"),
    MoodOption("scared", "Scared"),
    MoodOption("sad", "Sad"),
    MoodOption("neutral", "Neutral")
  ]

  /** The label table lookup `moodLabels[mood]`, absent for a mood outside the nine. */
  function MoodLabel(mood: string): (r: Option<string>)
    ensures r.Some? <==> exists i :: 0 <= i < |MOOD_OPTIONS| && MOOD_OPTIONS[i].value == mood
  {
    LabelIn(MOOD_OPTIONS, mood)
  }

  function LabelIn(options: seq<MoodOption>, mood: string): (r: Option<string>)
    ensures r.Some? <==> exists i :: 0 <= i < |options| && options[i].value == mood
    ensures r.Some? ==> exists i :: 0 <= i < |options| && options[i].value == mood && options[i].name == r.value
  {
    if options == [] then None
    else if options[0].value == mood then Some(options[0].name)
    else
      var r := LabelIn(options[1..], mood);
      assert forall i :: 1 <= i < |options| ==> options[i] == options[1..][i - 1];
      r
  }

  /** The nine mood values are distinct and each has a label. */
  lemma MoodOptionsDistinct()
    ensures |MOOD_OPTIONS| == 9
    ensures forall i, j :: 0 <= i < j < |MOOD_OPTIONS| ==> MOOD_OPTIONS[i].value != MOOD_OPTIONS[j].value
  {
  }

  /** The fixed seed collection of lib/initial-dreams.ts (2025-10-26 and 2025-10-25, UTC). */
  const INITIAL_DREAMS: seq<Dream> := [
    Dream("1", "Flying over mountains",
      "I was gliding effortlessly above snow-capped mountains at sunset. The air felt crisp and the sky painted in shades of purple and gold.",
      1761436800000, "peaceful", ["flying", "mountains", "sunset"], true,
      "This dream suggests a desire for freedom and perspective in your life."),
    Dream("2", "Ocean waves",
      "I stood by a quiet shoreline at night, listening to rhythmic waves while constellations shimmered above. The water glowed softly.",
      1761350400000, "calm", ["ocean", "night", "stars"], false,
      "Water often represents emotions; calm waves suggest emotional balance.")
  ]

  /** A dream as the backend lists it; fields the backend may omit are optional. */
  datatype ApiDream = ApiDream(
    id: string,
    title: string,
    dreamText: Option<string>,
    summary: Option<string>,
    submittedAt: Option<int>,
    isLucid: Option<bool>,
    tags: Option<seq<string>>,
    mood: Option<string>)

  /** The backend record turned into a journal entry, `now` standing in for the missing
      submission time. */
  function FromApi(a: ApiDream, now: int): (d: Dream)
    ensures d.id == a.id && d.title == a.title
    ensures a.dreamText.Some? ==> d.description == a.dreamText.value
    ensures a.dreamText.None? && a.summary.Some? ==> d.description == a.summary.value
    ensures a.dreamText.None? && a.summary.None? ==> d.description == ""
    ensures d.date == (if a.submittedAt.Some? then a.submittedAt.value else now)
    ensures d.mood == (if a.mood.Some? then a.mood.value else "neutral")
    ensures d.tags == (if a.tags.Some? then a.tags.value else [])
    ensures d.lucidity <==> a.isLucid == Some(true)
    ensures d.analysis == (if a.summary.Some? then a.summary.value else "")
  {
    Dream(
      a.id,
      a.title,
      a.dreamText.GetOr(a.summary.GetOr("")),
      a.submittedAt.GetOr(now),
      a.mood.GetOr("neutral"),
      a.tags.GetOr([]),
      a.isLucid.GetOr(false),
      a.summary.GetOr(""))
  }

  /** Every backend record of a fetched list mapped, in order. */
  function AllFromApi(items: seq<ApiDream>, now: int): (ds: seq<Dream>)
    ensures |ds| == |items|
    ensures forall i :: 0 <= i < |items| ==> ds[i] == FromApi(items[i], now)
  {
    if items == [] then [] else [FromApi(items[0], now)] + AllFromApi(items[1..], now)
  }

  /** `Partial<Dream>` as the edit form sends it: each field present or left out. */
  datatype DreamPatch = DreamPatch(
    title: Option<string>,
    description: Option<string>,
    date: Option<int>,
    mood: Option<string>,
    tags: Option<seq<string>>,
    lucidity: Option<bool>,
    analysis: Option<string>)

  /** `{ ...d, ...p }`: the fields present in `p` replace those of `d`; the id never changes. */
  function ApplyPatch(d: Dream, p: DreamPatch): (r: Dream)
    ensures r.id == d.id
    ensures r.title == (if p.title.Some? then p.title.value else d.title)
    ensures r.description == (if p.description.Some? then p.description.value else d.description)
    ensures r.date == (if p.date.Some? then p.date.value else d.date)
    ensures r.mood == (if p.mood.Some? then p.mood.value else d.mood)
    ensures r.tags == (if p.tags.Some? then p.tags.value else d.tags)
    ensures r.lucidity == (if p.lucidity.Some? then p.lucidity.value else d.lucidity)
    ensures r.analysis == (if p.analysis.Some? then p.analysis.value else d.analysis)
  {
    Dream(d.id, p.title.GetOr(d.title), p.description.GetOr(d.description), p.date.GetOr(d.date),
      p.mood.GetOr(d.mood), p.tags.GetOr(d.tags), p.lucidity.GetOr(d.lucidity),
      p.analysis.GetOr(d.analysis))
  }

  /** The patch that changes nothing. */
  const EMPTY_PATCH: DreamPatch := DreamPatch(None, None, None, None, None, None, None)

  /** Applying a patch twice is applying it once, and the empty patch is the identity. */
  lemma ApplyPatchIdempotent(d: Dream, p: DreamPatch)
    ensures ApplyPatch(ApplyPatch(d, p), p) == ApplyPatch(d, p)
    ensures ApplyPatch(d, EMPTY_PATCH) == d
  {
  }
}
