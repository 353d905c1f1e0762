/** The edit dialog (`EditTreatmentDialog`): the form state it derives from a
    stored treatment (on open and whenever the treatment prop changes), and
    the record `handleSave` writes back. The frequency and time handlers are
    `TreatmentForm`'s. */
module EditTreatmentDialog {
  import opened Common
  import opened TreatmentForm

  /** A Firestore timestamp, by its whole seconds. */
  datatype Timestamp = Timestamp(seconds: int)

  /** The value of a document field the dialog does not edit. */
  datatype FieldValue = Text(text: string) | TextList(items: seq<string>) | OtherValue

  /** A treatment as the list hands it to the dialog: its id, the fields the
      dialog reads, and every other field of its document by name (for a
      pharmacist-written document, `medicationName` and `administrationTimes`). */
  datatype StoredTreatment = StoredTreatment(id: string, userId: Option<string>, medicineName: Option<string>,
                                             frequency: Option<int>, times: Option<seq<string>>,
                                             startDate: Option<Timestamp>, endDate: Option<Timestamp>,
                                             rest: map<string, FieldValue>)

  /** The record `handleSave` builds: the stored fields spread, then the five
      edited fields. */
  datatype UpdatedTreatment = UpdatedTreatment(id: string, userId: Option<string>, medicineName: string,
                                               frequency: int, times: seq<string>,
                                               startDate: Option<Date>, endDate: Option<Date>,
                                               rest: map<string, FieldValue>)

  /** `treatment.startDate ? new Date(treatment.startDate.seconds * 1000) : null`. */
  function ToDate(t: Option<Timestamp>): (d: Option<Date>)
    ensures d.Some? <==> t.Some?
    ensures d.Some? ==> d.value.epochMillis == t.value.seconds * 1000
  {
    match t
    case Some(ts) => Some(Date(ts.seconds * 1000))
    case None => None
  }

  /** The state set by the initial `useState` calls and again by the effect on
      `[treatment]`: `medicineName || ''`, `frequency || 1` (a missing or zero
      frequency becomes 1), `times || ['']` (an empty stored array is kept,
      being truthy), and the dates in milliseconds. */
  function Defaults(t: StoredTreatment): (s: FormState)
    ensures s.medicineName == if t.medicineName.Some? then t.medicineName.value else ""
    ensures s.frequency != 0
    ensures t.frequency.Some? && t.frequency.value != 0 ==> s.frequency == t.frequency.value
    ensures t.frequency.None? || t.frequency.value == 0 ==> s.frequency == 1
    ensures s.times == if t.times.Some? then t.times.value else [""]
    ensures s.startDate == ToDate(t.startDate) && s.endDate == ToDate(t.endDate)
  {
    FormState(t.medicineName.GetOr(""),
              if t.frequency.Some? && t.frequency.value != 0 then t.frequency.value else 1,
              t.times.GetOr([""]),
              ToDate(t.startDate), ToDate(t.endDate))
  }

  /** The record `updateDoc` receives: id, owner and every field the dialog
      does not edit kept, the five edited fields overwritten from the form,
      with no empty-time check and no truncation. */
  function Updated(t: StoredTreatment, s: FormState): (u: UpdatedTreatment)
    ensures u.id == t.id && u.userId == t.userId && u.rest == t.rest
    ensures u.medicineName == s.medicineName && u.frequency == s.frequency && u.times == s.times
    ensures u.startDate == s.startDate && u.endDate == s.endDate
  {
    UpdatedTreatment(t.id, t.userId, s.medicineName, s.frequency, s.times, s.startDate, s.endDate, t.rest)
  }

  /** How `handleSave` ends. */
  datatype SaveOutcome = Saved(record: UpdatedTreatment) | SaveFailed(record: UpdatedTreatment)
  {
    /** `onSave(updatedTreatment)` and then `onClose()` run only after a successful update. */
    function Callbacks(): seq<string> {
      if Saved? then ["onSave", "onClose"] else []
    }
  }

  /** `handleSave`, where `updateOk` says whether `updateDoc` succeeded. */
  function HandleSave(t: StoredTreatment, s: FormState, updateOk: bool): (o: SaveOutcome)
    ensures o.record == Updated(t, s)
    ensures o.Saved? <==> updateOk
    ensures o.Callbacks() == (if updateOk then ["onSave", "onClose"] else [])
  {
    if updateOk then Saved(Updated(t, s)) else SaveFailed(Updated(t, s))
  }

  /** The saved document read back: every field present, the other fields as
      written, and each `Date` as a timestamp of whole seconds, rounded down. */
  function Reread(u: UpdatedTreatment): (t: StoredTreatment)
    ensures t.id == u.id && t.userId == u.userId && t.rest == u.rest
    ensures t.medicineName == Some(u.medicineName) && t.frequency == Some(u.frequency) && t.times == Some(u.times)
    ensures t.startDate.Some? <==> u.startDate.Some?
    ensures u.startDate.Some? ==> t.startDate.value.seconds * 1000 <= u.startDate.value.epochMillis < t.startDate.value.seconds * 1000 + 1000
    ensures t.endDate.Some? <==> u.endDate.Some?
    ensures u.endDate.Some? ==> t.endDate.value.seconds * 1000 <= u.endDate.value.epochMillis < t.endDate.value.seconds * 1000 + 1000
  {
    StoredTreatment(u.id, u.userId, Some(u.medicineName), Some(u.frequency), Some(u.times),
                    if u.startDate.Some? then Some(Timestamp(u.startDate.value.epochMillis / 1000)) else None,
                    if u.endDate.Some? then Some(Timestamp(u.endDate.value.epochMillis / 1000)) else None,
                    u.rest)
  }

  /** Dates truncated to whole seconds. */
  function WholeSeconds(d: Option<Date>): Option<Date> {
    if d.Some? then Some(Date(d.value.epochMillis / 1000 * 1000)) else None
  }

  /** Saving, and saving again after re-opening, never drops a field the
      dialog does not edit. */
  lemma SaveKeepsOtherFields(t: StoredTreatment, s: FormState, s2: FormState)
    ensures Updated(Reread(Updated(t, s)), s2).rest == t.rest
  {
  }

  /** Saving and re-opening the dialog shows the form as it was saved, except
      that dates lose their sub-second part and a zero frequency comes back as 1. */
  lemma ReopenAfterSave(t: StoredTreatment, s: FormState)
    ensures var r := Defaults(Reread(Updated(t, s)));
            r.medicineName == s.medicineName && r.times == s.times &&
            r.frequency == (if s.frequency == 0 then 1 else s.frequency) &&
            r.startDate == WholeSeconds(s.startDate) && r.endDate == WholeSeconds(s.endDate)
  {
  }

  /** The save does not re-establish one time per dose: a stored treatment with
      frequency 2 and an empty times array opens, and saves, inconsistent. */
  lemma SaveKeepsInconsistency()
    ensures var t := StoredTreatment("t1", Some("u1"), Some("Aspirin"), Some(2), Some([]), None, None, map[]);
            !Consistent(Defaults(t)) && Updated(t, Defaults(t)).times == [] && Updated(t, Defaults(t)).frequency == 2
  {
  }

  /** A name change saved on unedited times keeps the empty time the form would
      have refused to add. */
  lemma SaveAllowsEmptyTime(t: StoredTreatment, name: string)
    requires t.times.None?
    ensures "" in Updated(t, Defaults(t).(medicineName := name)).times
  {
    assert Defaults(t).times == [""];
  }
}
