/** The journal list of components/dream-list.tsx: the search, mood and lucidity filters with
    the newest-first order, and the inline editor whose tags travel as comma-separated text. */
module DreamList {
  import opened Wrappers
  import opened Text
  import opened Dreams

  /** The search term as compared: trimmed and lowercased. */
  function NormalizedSearch(search: string): string {
    ToLower(Trim(search))
  }

  /** Some tag contains the term, ignoring case. */
  predicate SomeTagContains(tags: seq<string>, term: string) {
    exists i :: 0 <= i < |tags| && Contains(ToLower(tags[i]), term)
  }

  /** The text filter alone: a blank term keeps everything, otherwise the title, the
      description or a tag must contain it, ignoring case. */
  predicate MatchesSearch(d: Dream, term: string) {
    term == ""
    || Contains(ToLower(d.title), term)
    || Contains(ToLower(d.description), term)
    || SomeTagContains(d.tags, term)
  }

  /** The filter callback: lucid only when asked, the selected mood unless it is "all", and
      the search term. */
  predicate Keep(d: Dream, search: string, mood: string, lucidOnly: bool) {
    (!lucidOnly || d.lucidity)
    && (mood == "all" || d.mood == mood)
    && MatchesSearch(d, NormalizedSearch(search))
  }

  /** `dreams.filter(keep)`, in the journal's order. */
  function Select(dreams: seq<Dream>, search: string, mood: string, lucidOnly: bool): (r: seq<Dream>)
    ensures |r| <= |dreams|
    ensures forall d :: d in r <==> d in dreams && Keep(d, search, mood, lucidOnly)
    ensures (forall i :: 0 <= i < |dreams| ==> Keep(dreams[i], search, mood, lucidOnly)) ==> r == dreams
  {
    if dreams == [] then []
    else
      var rest := Select(dreams[1..], search, mood, lucidOnly);
      SeqMembersCons(dreams);
      if Keep(dreams[0], search, mood, lucidOnly) then [dreams[0]] + rest else rest
  }

  /** The filter distributes over concatenation: it keeps the dreams in the journal's order,
      each kept dream with all its occurrences. */
  lemma {:induction false} SelectAppend(a: seq<Dream>, b: seq<Dream>, search: string, mood: string, lucidOnly: bool)
    ensures Select(a + b, search, mood, lucidOnly) == Select(a, search, mood, lucidOnly) + Select(b, search, mood, lucidOnly)
  {
    if a != [] {
      assert (a + b)[0] == a[0] && (a + b)[1..] == a[1..] + b;
      SelectAppend(a[1..], b, search, mood, lucidOnly);
    } else {
      assert a + b == b;
    }
  }

  /** Membership in a non-empty list: its head, or membership in its tail. */
  lemma SeqMembersCons(dreams: seq<Dream>)
    requires dreams != []
    ensures forall d :: d in dreams <==> d == dreams[0] || d in dreams[1..]
    ensures forall i :: 0 <= i < |dreams[1..]| ==> dreams[1..][i] == dreams[i + 1]
  {
    assert dreams == [dreams[0]] + dreams[1..];
  }

  /** `filteredDreams`: the kept dreams, newest first. */
  function FilterDreams(dreams: seq<Dream>, search: string, mood: string, lucidOnly: bool): (r: seq<Dream>)
    ensures forall d :: d in r <==> d in dreams && Keep(d, search, mood, lucidOnly)
    ensures forall i, j :: 0 <= i < j < |r| ==> r[i].date >= r[j].date
    ensures multiset(r) == multiset(Select(dreams, search, mood, lucidOnly))
  {
    var kept := Select(dreams, search, mood, lucidOnly);
    var r := NewestFirst(kept);
    forall d ensures d in r <==> d in kept {
      assert d in r <==> d in multiset(r);
    }
    r
  }

  /** The lucid-only switch and the mood selector hold for every dream shown. */
  lemma FilterHonoursSelectors(dreams: seq<Dream>, search: string, mood: string, lucidOnly: bool)
    ensures lucidOnly ==> forall i :: 0 <= i < |FilterDreams(dreams, search, mood, lucidOnly)| ==>
      FilterDreams(dreams, search, mood, lucidOnly)[i].lucidity
    ensures mood != "all" ==> forall i :: 0 <= i < |FilterDreams(dreams, search, mood, lucidOnly)| ==>
      FilterDreams(dreams, search, mood, lucidOnly)[i].mood == mood
  {
    var r := FilterDreams(dreams, search, mood, lucidOnly);
    forall i | 0 <= i < |r| ensures Keep(r[i], search, mood, lucidOnly) {
      assert r[i] in r;
    }
  }

  /** With a blank search, every mood and the switch off, the list shows every dream, each as
      many times as it is in the journal. */
  lemma NoFiltersShowsAll(dreams: seq<Dream>, search: string)
    requires Trim(search) == ""
    ensures multiset(FilterDreams(dreams, search, "all", false)) == multiset(dreams)
  {
    assert NormalizedSearch(search) == "";
    assert forall i :: 0 <= i < |dreams| ==> Keep(dreams[i], search, "all", false);
  }

  // ---------------------------------------------------------------------------------------
  // Tags as comma-separated text

  /** `.map(tag => tag.trim()).filter(tag => tag.length > 0)`. */
  function CleanTags(parts: seq<string>): (r: seq<string>)
    ensures |r| <= |parts|
    ensures forall t :: t in r ==> t != "" && IsTrimmed(t)
    ensures (forall p :: p in parts ==> ',' !in p) ==> forall t :: t in r ==> ',' !in t
  {
    if parts == [] then []
    else
      var t := Trim(parts[0]);
      TrimSubstring(parts[0], ',');
      SeqMembersTail(parts);
      var rest := CleanTags(parts[1..]);
      if t == "" then rest else ConsMembers(t, rest); [t] + rest
  }

  /** What is in `[x] + xs`: `x` and what is in `xs`. */
  lemma ConsMembers<T>(x: T, xs: seq<T>)
    ensures forall y :: y in [x] + xs <==> y == x || y in xs
  {
  }

  /** Whatever is in the tail of a list is in the list. */
  lemma SeqMembersTail<T>(xs: seq<T>)
    requires xs != []
    ensures forall x :: x in xs[1..] ==> x in xs
  {
    assert xs == [xs[0]] + xs[1..];
  }

  /** The tag text parsed back into tags: split at commas, trimmed, blanks dropped. */
  function ParseTags(text: string): (r: seq<string>)
    ensures forall i :: 0 <= i < |r| ==> r[i] != "" && IsTrimmed(r[i]) && ',' !in r[i]
  {
    var parts := Split(text, ',');
    assert forall p :: p in parts ==> ',' !in p;
    var r := CleanTags(parts);
    assert forall i :: 0 <= i < |r| ==> r[i] in r;
    r
  }

  /** Trimming never adds a character. */
  lemma TrimSubstring(s: string, c: char)
    ensures c !in s ==> c !in Trim(s)
  {
    if c in s { return; }
    var a := TrimStart(s);
    SliceAvoids(s, c, |s| - |a|, |s|);
    assert a == s[|s| - |a|..|s|];
    SliceAvoids(a, c, 0, |TrimEnd(a)|);
  }

  /** A value missing from a list is missing from each of its slices. */
  lemma SliceAvoids<T>(xs: seq<T>, x: T, i: nat, j: nat)
    requires x !in xs && i <= j <= |xs|
    ensures x !in xs[i..j]
  {
    forall k | 0 <= k < j - i ensures xs[i..j][k] != x {
      assert xs[i..j][k] == xs[i + k];
    }
  }

  /** Tags that survive the trip through text: trimmed, non-empty and free of commas. */
  predicate JoinableTags(tags: seq<string>) {
    forall i :: 0 <= i < |tags| ==> tags[i] != "" && IsTrimmed(tags[i]) && ',' !in tags[i]
  }

  /** The tag text the editor starts from. */
  function TagText(tags: seq<string>): string {
    Join(tags, ", ")
  }

  /** Tags as the entry form makes them (trimmed, non-empty, comma-free) come back unchanged
      from their text: parsing undoes the join. */
  lemma ParseTagsRoundTrip(tags: seq<string>)
    requires JoinableTags(tags)
    ensures ParseTags(TagText(tags)) == tags
  {
    if tags == [] {
      assert Split("", ',') == [""];
      assert Trim("") == "";
      assert CleanTags([""]) == [];
    } else {
      var text := TagText(tags);
      assert "" + text == text;
      SplitJoinComma("", tags);
      var parts := Split(text, ',');
      assert parts == ["" + tags[0]] + SpacePrefixed(tags[1..]);
      assert parts[0] == tags[0];
      assert parts[1..] == SpacePrefixed(tags[1..]);
      TrimTrimmed(tags[0]);
      CleanSpacePrefixed(tags[1..]);
      assert CleanTags(parts) == [tags[0]] + CleanTags(parts[1..]);
      assert [tags[0]] + tags[1..] == tags;
    }
  }

  lemma {:induction false} CleanSpacePrefixed(tags: seq<string>)
    requires forall i :: 0 <= i < |tags| ==> tags[i] != "" && IsTrimmed(tags[i])
    ensures CleanTags(SpacePrefixed(tags)) == tags
  {
    if tags != [] {
      var sp := SpacePrefixed(tags);
      TrimLeadingSpace(tags[0]);
      assert Trim(sp[0]) == tags[0];
      assert sp[1..] == SpacePrefixed(tags[1..]);
      CleanSpacePrefixed(tags[1..]);
      assert CleanTags(sp) == [tags[0]] + CleanTags(sp[1..]);
    }
  }

  // ---------------------------------------------------------------------------------------
  // The inline editor

  /** The edit form's fields; tags are one line of text. */
  datatype EditForm = EditForm(title: string, description: string, mood: string, tags: string, lucidity: bool)

  /** `beginEditing`: the form filled from the dream, tags joined with ", ". */
  function BeginEditing(d: Dream): (f: EditForm)
    ensures f.title == d.title && f.description == d.description && f.mood == d.mood
    ensures f.lucidity == d.lucidity
    ensures JoinableTags(d.tags) ==> ParseTags(f.tags) == d.tags
  {
    var f := EditForm(d.title, d.description, d.mood, TagText(d.tags), d.lucidity);
    assert JoinableTags(d.tags) ==> ParseTags(f.tags) == d.tags by {
      if JoinableTags(d.tags) { ParseTagsRoundTrip(d.tags); }
    }
    f
  }

  /** `saveEdits`: nothing while no dream is being edited; otherwise the update for that dream's
      id, with trimmed texts, the analysis equal to the description and the parsed tags. */
  function SaveEdits(editing: Option<Dream>, form: EditForm): (r: Option<(string, DreamPatch)>)
    ensures r.None? <==> editing.None?
    ensures r.Some? ==>
      var (id, p) := r.value;
      && id == editing.value.id
      && p.title == Some(Trim(form.title)) && p.description == Some(Trim(form.description))
      && p.analysis == p.description && p.mood == Some(form.mood)
      && p.tags == Some(ParseTags(form.tags)) && p.lucidity == Some(form.lucidity)
      && p.date.None?
  {
    match editing {
      case None => None
      case Some(d) =>
        var description := Trim(form.description);
        Some((d.id, DreamPatch(Some(Trim(form.title)), Some(description), None, Some(form.mood),
          Some(ParseTags(form.tags)), Some(form.lucidity), Some(description))))
    }
  }

  /** Opening the editor and saving it unchanged leaves a dream with trimmed texts and good
      tags as it was, apart from the analysis, which becomes the description. */
  lemma EditUnchangedKeepsDream(d: Dream)
    requires IsTrimmed(d.title) && IsTrimmed(d.description)
    requires JoinableTags(d.tags)
    ensures ApplyPatch(d, SaveEdits(Some(d), BeginEditing(d)).value.1) == d.(analysis := d.description)
  {
    TrimTrimmed(d.title);
    TrimTrimmed(d.description);
  }
}
