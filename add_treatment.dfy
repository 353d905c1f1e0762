/** The treatment form (`components/AddTreatment`): its initial state, and
    `handleSubmit`'s guard, login check and the document it adds. */
module AddTreatment {
  import opened Common
  import Clock
  import UseNotifications
  import opened TreatmentForm

  /** Name empty, frequency 1, one empty time input, no dates. */
  const Initial := FormState("", 1, [""], None, None)

  /** How one submit ends, with the document `addDoc` was given when it got that far. */
  datatype Submission = MissingFields | NotLoggedIn | Added(doc: TreatmentDoc) | AddFailed(doc: TreatmentDoc)
  {
    /** The alert each outcome raises. */
    function Alert(): string {
      match this
      case MissingFields => "Please fill in all fields."
      case NotLoggedIn => "You must be logged in to add a treatment."
      case Added(_) => "Treatment added successfully!"
      case AddFailed(_) => "Failed to add treatment. Please try again."
    }

    /** Only a stored treatment navigates, to the list. */
    function NavigatesTo(): Option<string> {
      if Added? then Some("/treatments") else None
    }
  }

  /** `handleSubmit` for the signed-in user `currentUser`, where `addOk` says
      whether `addDoc` succeeded. */
  function HandleSubmit(s: FormState, currentUser: Option<string>, addOk: bool): (o: Submission)
    ensures o == MissingFields <==> !AllFilled(s.medicineName, s.startDate, s.endDate, s.times)
    ensures o == NotLoggedIn <==> AllFilled(s.medicineName, s.startDate, s.endDate, s.times) && currentUser.None?
    ensures o.Added? <==> AllFilled(s.medicineName, s.startDate, s.endDate, s.times) && currentUser.Some? && addOk
    ensures (o.Added? || o.AddFailed?) ==>
              o.doc.userId == currentUser && o.doc.medicineName == s.medicineName && o.doc.frequency == s.frequency &&
              o.doc.times == NormalizeTimes(s.times) &&
              Some(o.doc.startDate) == s.startDate && Some(o.doc.endDate) == s.endDate
  {
    if !AllFilled(s.medicineName, s.startDate, s.endDate, s.times) then MissingFields
    else if currentUser.None? then NotLoggedIn
    else
      var doc := TreatmentDoc(currentUser, s.medicineName, s.frequency, NormalizeTimes(s.times),
                              s.startDate.value, s.endDate.value);
      if addOk then Added(doc) else AddFailed(doc)
  }

  /** The form as first rendered cannot be submitted: its one time input is empty. */
  lemma InitialRejected(currentUser: Option<string>, addOk: bool)
    ensures Consistent(Initial)
    ensures HandleSubmit(Initial, currentUser, addOk) == MissingFields
  {
    assert "" in Initial.times;
  }

  /** A stored treatment has no empty time, and each time is at most `HH:MM` long. */
  lemma AddedTimesFilled(s: FormState, uid: string)
    requires HandleSubmit(s, Some(uid), true).Added?
    ensures var times := HandleSubmit(s, Some(uid), true).doc.times;
            "" !in times && forall i :: 0 <= i < |times| ==> |times[i]| <= 5
  {
    NormalizeKeepsFilled(s.times);
  }

  /** A dose entered at `hour:minute` (with or without seconds) is reminded of by
      the tick at that minute once the treatment is stored. */
  lemma AddedDoseFires(s: FormState, uid: string, i: nat, hour: nat, minute: nat, suffix: string)
    requires HandleSubmit(s, Some(uid), true).Added?
    requires i < |s.times| && hour < 24 && minute < 60
    requires s.times[i] == Clock.FormatHHMM(hour, minute) + suffix
    ensures UseNotifications.Matches(HandleSubmit(s, Some(uid), true).doc.times, Clock.FormatHHMM(hour, minute))
  {
    StoredTimeFires(s.times, i, hour, minute, suffix);
  }

  /** Filling the form once: name, one dose at 08:00 with seconds, two dates.
      The stored time is cut back to `"08:00"`. */
  method ScenarioMorningDose(uid: string) returns (o: Submission)
    ensures o.Added? && o.doc.times == ["08:00"] && o.doc.userId == Some(uid)
  {
    var s := Initial.(medicineName := "Aspirin", startDate := Some(Date(0)), endDate := Some(Date(86400000)));
    s := HandleFrequencyChange(s, 1);
    s := HandleTimeChange(s, 0, "08:00:00");
    assert "" !in s.times;
    o := HandleSubmit(s, Some(uid), true);
    assert Truncate5("08:00:00") == "08:00";
  }
}
