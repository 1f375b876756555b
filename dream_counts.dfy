/** The per-dream tallies the dashboard and the analysis view both take: lucid dreams, moods
    and tags (app/dashboard/page.tsx and components/dream-analysis.tsx). */
module DreamCounts {
  import opened Dreams
  import opened Counting

  /** `dreams.filter(d => d.lucidity).length`. */
  function LucidCount(ds: seq<Dream>): (n: nat)
    ensures n <= |ds|
  {
    if ds == [] then 0 else LucidCount(ds[..|ds| - 1]) + (if ds[|ds| - 1].lucidity then 1 else 0)
  }

  /** The mood of every dream, in list order, the empty mood included. */
  function AllMoods(ds: seq<Dream>): (ms: seq<string>)
    ensures |ms| == |ds|
    ensures forall i :: 0 <= i < |ds| ==> ms[i] == ds[i].mood
  {
    seq(|ds|, i requires 0 <= i < |ds| => ds[i].mood)
  }

  /** Every tag of every dream, in list order. */
  function TagsOf(ds: seq<Dream>): seq<string> {
    if ds == [] then [] else TagsOf(ds[..|ds| - 1]) + ds[|ds| - 1].tags
  }

  /** One `forEach` over the dreams: count the lucid ones, bump each dream's mood in the mood
      map and each of its tags in the tag map. */
  method CountDreams(ds: seq<Dream>) returns (lucid: nat, moods: seq<Entry>, tags: seq<Entry>)
    ensures lucid == LucidCount(ds)
    ensures moods == Tally(AllMoods(ds))
    ensures tags == Tally(TagsOf(ds))
  {
    lucid, moods, tags := 0, [], [];
    var i := 0;
    ghost var seen: seq<Dream> := [];
    while i < |ds|
      invariant 0 <= i <= |ds|
      invariant seen == ds[..i]
      invariant lucid == LucidCount(seen)
      invariant moods == Tally(AllMoods(seen))
      invariant tags == Tally(TagsOf(seen))
    {
      var d := ds[i];
      CountsSnoc(seen, d);
      lucid := lucid + if d.lucidity then 1 else 0;
      moods := BumpStep(moods, AllMoods(seen), d.mood);
      tags := BumpAll(tags, TagsOf(seen), d.tags);
      seen := seen + [d];
      PrefixSnoc(ds, i);
      i := i + 1;
    }
    PrefixAll(ds);
  }

  /** The per-dream tallies of a list extended by one more dream. */
  lemma CountsSnoc(seen: seq<Dream>, d: Dream)
    ensures LucidCount(seen + [d]) == LucidCount(seen) + (if d.lucidity then 1 else 0)
    ensures AllMoods(seen + [d]) == AllMoods(seen) + [d.mood]
    ensures TagsOf(seen + [d]) == TagsOf(seen) + d.tags
  {
    assert (seen + [d])[..|seen|] == seen;
  }

  /** A prefix extended by the next element. */
  lemma PrefixSnoc(ds: seq<Dream>, i: nat)
    requires i < |ds|
    ensures ds[..i] + [ds[i]] == ds[..i + 1]
  {
  }

  /** The whole list as a prefix of itself. */
  lemma PrefixAll(ds: seq<Dream>)
    ensures ds[..|ds|] == ds
  {
  }
}
