/** The new-dream form of components/dream-entry.tsx: submission with its validation, and the
    tag chips added from the tag input and removed one by one. */
module DreamEntry {
  import opened Wrappers
  import opened Seqs
  import opened Text
  import opened Dreams

  /** The form's fields. */
  datatype EntryForm = EntryForm(
    title: string,
    description: string,
    mood: string,
    tagInput: string,
    tags: seq<string>,
    lucidity: bool)

  const EMPTY_FORM: EntryForm := EntryForm("", "", "", "", [], false)

  const SUBMIT_ERROR: string := "Please provide a title, description, and overall mood."

  /** What a submit does: ignored while a submission is in flight, rejected with a message,
      or the new dream handed to the journal. */
  datatype Outcome = Ignored | Rejected(message: string) | Submitted(dream: Dream)

  /** The result of a submit: the outcome, the form afterwards and the error shown. */
  datatype Submission = Submission(outcome: Outcome, form: EntryForm, error: Option<string>)

  /** `handleSubmit`, with the fresh id and the current time as inputs. A title or
      description that is blank after trimming, or no mood, is rejected and the form is kept;
      otherwise the dream is built from the trimmed texts and the form is emptied. */
  function Submit(form: EntryForm, isSubmitting: bool, freshId: string, now: int): (r: Submission)
    ensures isSubmitting ==> r.outcome.Ignored? && r.form == form && r.error.None?
    ensures !isSubmitting ==>
      (r.outcome.Rejected? <==> Trim(form.title) == "" || Trim(form.description) == "" || form.mood == "")
    ensures r.outcome.Rejected? ==> r.form == form && r.error == Some(SUBMIT_ERROR) && r.outcome.message == SUBMIT_ERROR
    ensures r.outcome.Submitted? ==>
      var d := r.outcome.dream;
      && d.id == freshId && d.date == now
      && d.title == Trim(form.title) && d.title != "" && IsTrimmed(d.title)
      && d.description == Trim(form.description) && d.description != "" && IsTrimmed(d.description)
      && d.analysis == d.description
      && d.mood == form.mood && d.mood != ""
      && d.tags == form.tags && d.lucidity == form.lucidity
      && r.form == EMPTY_FORM && r.error.None?
  {
    if isSubmitting then Submission(Ignored, form, None)
    else if Trim(form.title) == "" || Trim(form.description) == "" || form.mood == "" then
      Submission(Rejected(SUBMIT_ERROR), form, Some(SUBMIT_ERROR))
    else
      var description := Trim(form.description);
      var dream := Dream(freshId, Trim(form.title), description, now, form.mood, form.tags, form.lucidity, description);
      Submission(Submitted(dream), EMPTY_FORM, None)
  }

  /** Every chip is a trimmed, non-empty text appearing once. */
  predicate GoodTags(tags: seq<string>) {
    NoDup(tags) && forall i :: 0 <= i < |tags| ==> tags[i] != "" && IsTrimmed(tags[i])
  }

  /** `addTag`: the trimmed input becomes a new chip, at the end, unless it is blank or already
      a chip; the input is cleared only when a chip is added. */
  function AddTag(form: EntryForm): (r: EntryForm)
    ensures var t := Trim(form.tagInput);
      && (t == "" || t in form.tags ==> r == form)
      && (t != "" && t !in form.tags ==> r == form.(tags := form.tags + [t], tagInput := ""))
    ensures GoodTags(form.tags) ==> GoodTags(r.tags)
  {
    var t := Trim(form.tagInput);
    if t == "" || t in form.tags then form
    else
      AppendGoodTag(form.tags, t);
      form.(tags := form.tags + [t], tagInput := "")
  }

  /** A new trimmed, non-empty chip keeps the chips good. */
  lemma AppendGoodTag(tags: seq<string>, t: string)
    requires t != "" && IsTrimmed(t) && t !in tags
    ensures GoodTags(tags) ==> GoodTags(tags + [t])
  {
    if GoodTags(tags) {
      AppendNoDup(tags, t);
      assert forall i :: 0 <= i < |tags + [t]| ==> (tags + [t])[i] == if i < |tags| then tags[i] else t;
    }
  }

  /** `removeTag`: that chip goes, the others stay in order, nothing else changes. */
  function RemoveTag(form: EntryForm, tag: string): (r: EntryForm)
    ensures r.tags == Without(form.tags, tag)
    ensures tag !in r.tags
    ensures forall t :: t != tag ==> (t in r.tags <==> t in form.tags)
    ensures r == form.(tags := r.tags)
    ensures GoodTags(form.tags) ==> GoodTags(r.tags)
  {
    var tags := Without(form.tags, tag);
    assert NoDup(form.tags) ==> NoDup(tags) by {
      if NoDup(form.tags) { WithoutNoDup(form.tags, tag); }
    }
    form.(tags := tags)
  }

  /** Removing a chip that was just added gives back the chips there were. */
  lemma AddThenRemoveTag(form: EntryForm)
    requires Trim(form.tagInput) != "" && Trim(form.tagInput) !in form.tags
    ensures RemoveTag(AddTag(form), Trim(form.tagInput)).tags == form.tags
  {
    var t := Trim(form.tagInput);
    WithoutAppend(form.tags, [t], t);
    assert Without([t], t) == [];
  }
}
