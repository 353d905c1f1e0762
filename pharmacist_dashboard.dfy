/** The pharmacist's page (`PharmacistDashboard`): a user is looked up by
    phone number, their treatments are listed, and a treatment is added for
    them from a form holding `administrationTimes`. */
module PharmacistDashboard {
  import opened Common
  import Seqs

  /** A user document as the search reads it. */
  datatype User = User(id: string, fullName: string, phoneNumber: string)

  /** The add form, and the fields of a treatment as this page writes and reads them. */
  datatype PharmacistForm = PharmacistForm(medicationName: string, frequency: int, administrationTimes: seq<string>,
                                           startDate: string, endDate: string)

  /** A listed treatment: its document id and fields. */
  datatype Listed = Listed(id: string, fields: PharmacistForm)

  /** The document `addDoc` receives: the selected user's id and the form spread. */
  datatype PharmacistDoc = PharmacistDoc(userId: string, fields: PharmacistForm)

  /** Empty name and dates, frequency 1, one empty time. */
  const DefaultForm := PharmacistForm("", 1, [""], "", "")

  /** The page state that the handlers replace. */
  datatype Page = Page(selectedUser: Option<User>, treatments: seq<Listed>, newTreatment: PharmacistForm)

  const Initial := Page(None, [], DefaultForm)

  /** `handleTimeChange`: one entry of `administrationTimes` (one of the rendered
      inputs) replaced; the rest of the form and the page kept. */
  method HandleTimeChange(p: Page, index: nat, value: string) returns (r: Page)
    requires index < |p.newTreatment.administrationTimes|
    ensures r.selectedUser == p.selectedUser && r.treatments == p.treatments
    ensures r.newTreatment == p.newTreatment.(administrationTimes := r.newTreatment.administrationTimes)
    ensures |r.newTreatment.administrationTimes| == |p.newTreatment.administrationTimes|
    ensures r.newTreatment.administrationTimes[index] == value
    ensures forall j :: 0 <= j < |p.newTreatment.administrationTimes| && j != index ==>
              r.newTreatment.administrationTimes[j] == p.newTreatment.administrationTimes[j]
  {
    var times := Seqs.SetAt(p.newTreatment.administrationTimes, index, value);
    r := p.(newTreatment := p.newTreatment.(administrationTimes := times));
  }

  /** `handleAddTime`: one more, empty, time input; the frequency is not touched. */
  function HandleAddTime(p: Page): (r: Page)
    ensures r.selectedUser == p.selectedUser && r.treatments == p.treatments
    ensures r.newTreatment.medicationName == p.newTreatment.medicationName
    ensures r.newTreatment.frequency == p.newTreatment.frequency
    ensures r.newTreatment.startDate == p.newTreatment.startDate && r.newTreatment.endDate == p.newTreatment.endDate
    ensures |r.newTreatment.administrationTimes| == |p.newTreatment.administrationTimes| + 1
    ensures r.newTreatment.administrationTimes[..|p.newTreatment.administrationTimes|] == p.newTreatment.administrationTimes
    ensures r.newTreatment.administrationTimes[|p.newTreatment.administrationTimes|] == ""
  {
    p.(newTreatment := p.newTreatment.(administrationTimes := p.newTreatment.administrationTimes + [""]))
  }

  /** `searchUser`: the first user with that phone number is selected and
      their treatments (`fetched`) listed; on a miss, both are cleared. */
  function SearchUser(p: Page, found: Option<User>, fetched: seq<Listed>): (r: Page)
    ensures r.newTreatment == p.newTreatment
    ensures r.selectedUser == found
    ensures r.treatments == if found.Some? then fetched else []
  {
    match found
    case Some(u) => p.(selectedUser := Some(u), treatments := fetched)
    case None => p.(selectedUser := None, treatments := [])
  }

  const AddedAlert := "Treatment added successfully"
  const AddFailedAlert := "Failed to add treatment. Please try again."

  /** `handleAddTreatment`, where `addOk` says whether `addDoc` succeeded and
      `fetched` is the user's list read back afterwards. Returns the new page,
      the document submitted and the alert raised. */
  function HandleAddTreatment(p: Page, addOk: bool, fetched: seq<Listed>): (r: (Page, Option<PharmacistDoc>, Option<string>))
    ensures p.selectedUser.None? ==> r == (p, None, None)
    ensures p.selectedUser.Some? ==> r.1 == Some(PharmacistDoc(p.selectedUser.value.id, p.newTreatment))
    ensures p.selectedUser.Some? ==> r.2 == Some(if addOk then AddedAlert else AddFailedAlert)
    ensures r.0.selectedUser == p.selectedUser
    ensures r.0.newTreatment == if p.selectedUser.Some? && addOk then DefaultForm else p.newTreatment
    ensures r.0.treatments == if p.selectedUser.Some? && addOk then fetched else p.treatments
  {
    match p.selectedUser
    case None => (p, None, None)
    case Some(u) =>
      var doc := PharmacistDoc(u.id, p.newTreatment);
      if addOk then (p.(treatments := fetched, newTreatment := DefaultForm), Some(doc), Some(AddedAlert))
      else (p, Some(doc), Some(AddFailedAlert))
  }

  /** A failed add leaves the form as it was, so it can be resubmitted. */
  lemma FailedAddKeepsForm(p: Page, fetched: seq<Listed>)
    ensures HandleAddTreatment(p, false, fetched).0 == p
  {
  }

  /** After a successful add the next add starts from the default form: adding
      again at once writes a treatment whose only time is empty. */
  lemma AddTwiceWritesDefault(p: Page, fetched: seq<Listed>)
    requires p.selectedUser.Some?
    ensures var p1 := HandleAddTreatment(p, true, fetched).0;
            HandleAddTreatment(p1, true, fetched).1 == Some(PharmacistDoc(p.selectedUser.value.id, DefaultForm))
  {
  }

  /** Adding times and then filling them keeps every earlier entry: two
      additions on the default form give three inputs, the first still empty. */
  method ScenarioThreeDoses() returns (times: seq<string>)
    ensures times == ["", "12:00", "20:00"]
  {
    var p := HandleAddTime(HandleAddTime(Initial));
    assert p.newTreatment.administrationTimes == ["", "", ""];
    p := HandleTimeChange(p, 1, "12:00");
    p := HandleTimeChange(p, 2, "20:00");
    times := p.newTreatment.administrationTimes;
  }
}
