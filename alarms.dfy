/** The wake-up alarms of components/alarm-settings.tsx: the 12-hour time display and the
    alarm list with its composer, toggles, edits and deletes. */
module Alarms {
  import opened Wrappers
  import opened Text

  /** An alarm; `caption` is the label shown and edited beside the time. */
  datatype Alarm = Alarm(id: string, hour: nat, minute: nat, caption: string, enabled: bool)

  /** `Partial<Alarm>` as the list's inputs send it: a label, an hour or a minute. */
  datatype AlarmPatch = AlarmPatch(hour: Option<nat>, minute: Option<nat>, caption: Option<string>, enabled: Option<bool>)

  /** The per-user storage key, with the guest slot for a missing or empty email. */
  function AlarmsKey(email: Option<string>): (k: string)
    ensures email.Some? && email.value != "" ==> k == "reverie_alarms_" + email.value
    ensures !(email.Some? && email.value != "") ==> k == "reverie_alarms_guest"
  {
    if email.Some? && email.value != "" then "reverie_alarms_" + email.value else "reverie_alarms_guest"
  }

  /** The alarm a user without a stored list starts with. */
  const DEFAULT_ALARM: Alarm := Alarm("default-alarm", 7, 0, "Morning Wake-up", true)

  /** The draft the composer opens with. */
  const NEW_DRAFT: Alarm := Alarm("", 7, 0, "New Alarm", true)

  // ---------------------------------------------------------------------------------------
  // Time display

  /** The hour on a 12-hour clock: midnight and noon are 12. */
  function DisplayHour(hour: nat): (h: nat)
    ensures hour < 24 ==> 1 <= h <= 12
    ensures hour == 0 ==> h == 12
    ensures 1 <= hour <= 12 ==> h == hour
    ensures hour > 12 ==> h == hour - 12
  {
    if hour == 0 then 12 else if hour > 12 then hour - 12 else hour
  }

  /** "AM" before noon, "PM" from noon on. */
  function Period(hour: nat): (p: string)
    ensures p == "AM" <==> hour < 12
    ensures p == "PM" <==> hour >= 12
  {
    if hour >= 12 then "PM" else "AM"
  }

  /** `formatTime`: the 12-hour hour, a colon, the minute padded to two digits, a space and the
      period. */
  function FormatTime(hour: nat, minute: nat): (s: string)
    ensures hour < 24 && minute < 100 ==> 7 <= |s| <= 8
    ensures |s| >= 2 && s[|s| - 2..] == Period(hour)
  {
    var s := NatToString(DisplayHour(hour)) + ":" + PadTwo(minute) + " " + Period(hour);
    assert s[|s| - 2..] == Period(hour);
    s
  }

  /** The 24-hour hour back from a 12-hour hour and its period. */
  function From12Hour(h: nat, period: string): nat {
    if period == "AM" then (if h == 12 then 0 else h)
    else (if h == 12 then 12 else h + 12)
  }

  /** Reading a displayed time back: the hour digits before the colon, two minute digits, the
      period. */
  function ReadTime(s: string): (r: Option<(nat, nat)>)
  {
    if |s| < 7 then None
    else
      var h, m, p := s[..|s| - 6], s[|s| - 5..|s| - 3], s[|s| - 2..];
      if (forall i :: 0 <= i < |h| ==> '0' <= h[i] <= '9') && (forall i :: 0 <= i < |m| ==> '0' <= m[i] <= '9')
      then Some((From12Hour(DigitsValue(h), p), DigitsValue(m)))
      else None
  }

  /** The display loses nothing: every time of day read back from its text is that time. */
  lemma FormatTimeRoundTrip(hour: nat, minute: nat)
    requires hour < 24 && minute < 60
    ensures ReadTime(FormatTime(hour, minute)) == Some((hour, minute))
  {
    var hs, ms, p := NatToString(DisplayHour(hour)), PadTwo(minute), Period(hour);
    assert |hs| <= 2 by {
      assert DisplayHour(hour) / 10 < 10;
    }
    ReadTimeParts(hs, ms, p);
    NatToStringRoundTrip(DisplayHour(hour));
    PadTwoRoundTrip(minute);
  }

  /** Reading a time assembled from hour digits, two minute digits and a two-letter period
      takes the parts apart again. */
  lemma ReadTimeParts(hs: string, ms: string, p: string)
    requires 1 <= |hs| <= 2 && |ms| == 2 && |p| == 2
    requires forall i :: 0 <= i < |hs| ==> '0' <= hs[i] <= '9'
    requires forall i :: 0 <= i < |ms| ==> '0' <= ms[i] <= '9'
    ensures ReadTime(hs + ":" + ms + " " + p) == Some((From12Hour(DigitsValue(hs), p), DigitsValue(ms)))
  {
    TimeTextSlices(hs, ms, p);
  }

  /** Where the parts of a displayed time sit in its text. */
  lemma TimeTextSlices(hs: string, ms: string, p: string)
    requires |ms| == 2 && |p| == 2
    ensures var s := hs + ":" + ms + " " + p;
      |s| == |hs| + 6 && s[..|s| - 6] == hs && s[|s| - 5..|s| - 3] == ms && s[|s| - 2..] == p
  {
    var s := hs + ":" + ms + " " + p;
    assert s[..|s| - 6] == hs;
    assert s[|s| - 5..|s| - 3] == ms;
    assert s[|s| - 2..] == p;
  }

  // ---------------------------------------------------------------------------------------
  // List operations

  /** `{ ...alarm, ...updates }`. */
  function ApplyAlarmPatch(a: Alarm, p: AlarmPatch): (r: Alarm)
    ensures r.id == a.id
    ensures r.hour == (if p.hour.Some? then p.hour.value else a.hour)
    ensures r.minute == (if p.minute.Some? then p.minute.value else a.minute)
    ensures r.caption == (if p.caption.Some? then p.caption.value else a.caption)
    ensures r.enabled == (if p.enabled.Some? then p.enabled.value else a.enabled)
  {
    Alarm(a.id, p.hour.GetOr(a.hour), p.minute.GetOr(a.minute), p.caption.GetOr(a.caption), p.enabled.GetOr(a.enabled))
  }

  /** `toggleAlarm`'s map: the matching alarms flip `enabled`, nothing else changes. */
  function Toggled(alarms: seq<Alarm>, id: string): (r: seq<Alarm>)
    ensures |r| == |alarms|
    ensures forall i :: 0 <= i < |alarms| && alarms[i].id != id ==> r[i] == alarms[i]
    ensures forall i :: 0 <= i < |alarms| && alarms[i].id == id ==>
      r[i] == alarms[i].(enabled := !alarms[i].enabled)
  {
    seq(|alarms|, i requires 0 <= i < |alarms| =>
      if alarms[i].id == id then alarms[i].(enabled := !alarms[i].enabled) else alarms[i])
  }

  /** Toggling twice is the identity. */
  lemma ToggleTwice(alarms: seq<Alarm>, id: string)
    ensures Toggled(Toggled(alarms, id), id) == alarms
  {
  }

  /** `updateAlarmField`'s map: the matching alarms take the updates, the others are unchanged. */
  function Updated(alarms: seq<Alarm>, id: string, p: AlarmPatch): (r: seq<Alarm>)
    ensures |r| == |alarms|
    ensures forall i :: 0 <= i < |alarms| && alarms[i].id != id ==> r[i] == alarms[i]
    ensures forall i :: 0 <= i < |alarms| && alarms[i].id == id ==> r[i] == ApplyAlarmPatch(alarms[i], p)
  {
    seq(|alarms|, i requires 0 <= i < |alarms| =>
      if alarms[i].id == id then ApplyAlarmPatch(alarms[i], p) else alarms[i])
  }

  /** `deleteAlarm`'s filter: every alarm with the id goes, the others keep their order. */
  function Removed(alarms: seq<Alarm>, id: string): (r: seq<Alarm>)
    ensures |r| <= |alarms|
    ensures forall i :: 0 <= i < |r| ==> r[i].id != id && r[i] in alarms
    ensures forall i :: 0 <= i < |alarms| && alarms[i].id != id ==> alarms[i] in r
    ensures (forall i :: 0 <= i < |alarms| ==> alarms[i].id != id) ==> r == alarms
  {
    if alarms == [] then []
    else if alarms[0].id == id then Removed(alarms[1..], id)
    else [alarms[0]] + Removed(alarms[1..], id)
  }

  /** Deleting keeps the relative order: it distributes over concatenation. */
  lemma {:induction false} RemovedAppend(a: seq<Alarm>, b: seq<Alarm>, id: string)
    ensures Removed(a + b, id) == Removed(a, id) + Removed(b, id)
  {
    if a == [] {
      assert a + b == b;
    } else {
      assert (a + b)[0] == a[0] && (a + b)[1..] == a[1..] + b;
      RemovedAppend(a[1..], b, id);
    }
  }

  /** The alarm panel: the list, and the composer's draft. */
  class AlarmBoard {
    var alarms: seq<Alarm>
    var draft: Alarm
    var showComposer: bool

    /** The load step: the stored list when it parses, else the default alarm alone. */
    constructor(stored: Stored<seq<Alarm>>)
      ensures alarms == (if stored.Parsed? then stored.value else [DEFAULT_ALARM])
      ensures draft == DEFAULT_ALARM.(id := "") && !showComposer
    {
      alarms := if stored.Parsed? then stored.value else [DEFAULT_ALARM];
      draft := DEFAULT_ALARM.(id := "");
      showComposer := false;
    }

    method OpenComposer()
      modifies this
      ensures draft == NEW_DRAFT && showComposer
      ensures alarms == old(alarms)
    {
      draft := NEW_DRAFT;
      showComposer := true;
    }

    /** A field edit in the composer: the draft takes the edited fields, the list is untouched. */
    method EditDraft(p: AlarmPatch)
      modifies this
      ensures draft == ApplyAlarmPatch(old(draft), p)
      ensures alarms == old(alarms) && showComposer == old(showComposer)
    {
      draft := ApplyAlarmPatch(draft, p);
    }

    /** The composer's cancel button: it closes without saving and keeps the draft. */
    method CloseComposer()
      modifies this
      ensures !showComposer
      ensures alarms == old(alarms) && draft == old(draft)
    {
      showComposer := false;
    }

    /** `saveDraft`: exactly one alarm, the draft with its id or else the fresh one, goes in
        front; the composer closes. */
    method SaveDraft(freshId: string)
      modifies this
      ensures |alarms| == |old(alarms)| + 1 && alarms[1..] == old(alarms)
      ensures alarms[0] == old(draft).(id := if old(draft).id != "" then old(draft).id else freshId)
      ensures draft == old(draft) && !showComposer
    {
      var id := if draft.id != "" then draft.id else freshId;
      alarms := [draft.(id := id)] + alarms;
      showComposer := false;
    }

    method ToggleAlarm(id: string)
      modifies this
      ensures alarms == Toggled(old(alarms), id)
      ensures draft == old(draft) && showComposer == old(showComposer)
    {
      alarms := Toggled(alarms, id);
    }

    method DeleteAlarm(id: string)
      modifies this
      ensures alarms == Removed(old(alarms), id)
      ensures draft == old(draft) && showComposer == old(showComposer)
    {
      alarms := Removed(alarms, id);
    }

    method UpdateAlarmField(id: string, p: AlarmPatch)
      modifies this
      ensures alarms == Updated(old(alarms), id, p)
      ensures draft == old(draft) && showComposer == old(showComposer)
    {
      alarms := Updated(alarms, id, p);
    }
  }
}
