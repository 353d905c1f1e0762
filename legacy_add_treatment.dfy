/** The older treatment form (`ecomponents/AddTreatment`): only the name and
    the two dates have setters, so `frequency` stays 1 and `times` stays
    `['']`, and the submit guard's empty-time test always fails. */
module LegacyAddTreatment {
  import opened Common
  import opened TreatmentForm

  /** The only state that can change. */
  datatype LegacyForm = LegacyForm(medicineName: string, startDate: Option<Date>, endDate: Option<Date>)

  const Frequency := 1
  const Times: seq<string> := [""]

  datatype Submission = MissingFields | Added(doc: TreatmentDoc) | AddFailed(doc: TreatmentDoc)

  /** The submit logic over whatever `times` the form holds: the guard, then
      the fields stored as they are (times not truncated, `userId` possibly
      undefined), navigating on success. */
  function Submit(medicineName: string, frequency: int, times: seq<string>, startDate: Option<Date>, endDate: Option<Date>,
                  currentUser: Option<string>, addOk: bool): (o: Submission)
    ensures o == MissingFields <==> !AllFilled(medicineName, startDate, endDate, times)
    ensures o.Added? <==> AllFilled(medicineName, startDate, endDate, times) && addOk
    ensures !o.MissingFields? ==>
              o.doc == TreatmentDoc(currentUser, medicineName, frequency, times, startDate.value, endDate.value)
  {
    if !AllFilled(medicineName, startDate, endDate, times) then MissingFields
    else
      var doc := TreatmentDoc(currentUser, medicineName, frequency, times, startDate.value, endDate.value);
      if addOk then Added(doc) else AddFailed(doc)
  }

  /** `handleSubmit` as the component calls it, on its constant times:
      whatever the user types or picks, every submit is rejected. */
  function HandleSubmit(s: LegacyForm, currentUser: Option<string>, addOk: bool): (o: Submission)
    ensures o == MissingFields
  {
    assert Times[0] == "";
    Submit(s.medicineName, Frequency, Times, s.startDate, s.endDate, currentUser, addOk)
  }

  /** Were the times ever filled, they would be stored verbatim: a time
      longer than five characters, such as one with seconds, keeps its tail,
      so the stored times are not the ones the newer form would store. */
  lemma AcceptedTimesVerbatim(medicineName: string, frequency: int, times: seq<string>, startDate: Option<Date>,
                              endDate: Option<Date>, currentUser: Option<string>, addOk: bool, i: int)
    requires AllFilled(medicineName, startDate, endDate, times)
    requires 0 <= i < |times| && |times[i]| > 5
    ensures var o := Submit(medicineName, frequency, times, startDate, endDate, currentUser, addOk);
            !o.MissingFields? && o.doc.times == times && o.doc.times != NormalizeTimes(times)
  {
    var n := NormalizeTimes(times);
    assert |n[i]| <= 5 < |times[i]|;
  }

  /** A dose entered with seconds would be stored with them. */
  lemma SecondsStoredVerbatim(s: LegacyForm, currentUser: Option<string>)
    requires s.medicineName != "" && s.startDate.Some? && s.endDate.Some?
    ensures Submit(s.medicineName, Frequency, ["08:00:00"], s.startDate, s.endDate, currentUser, true).doc.times == ["08:00:00"]
    ensures NormalizeTimes(["08:00:00"]) == ["08:00"]
  {
    AcceptedTimesVerbatim(s.medicineName, Frequency, ["08:00:00"], s.startDate, s.endDate, currentUser, true, 0);
    assert Truncate5("08:00:00") == "08:00";
  }
}
