/** How each reminder loop sees the treatment documents each writer stores.
    The user-side forms store `medicineName` and `times`; the pharmacist's
    page stores `medicationName` and `administrationTimes`; `useNotifications`
    reads the first pair and `NotificationSystem` the second. A field the
    writer did not store reads as `undefined`. */
module FieldNames {
  import opened Common
  import TreatmentForm
  import PharmacistDashboard
  import UseNotifications
  import NotificationSystem
  import EditTreatmentDialog

  /** `String(undefined)`, what a missing name reads as inside a message. */
  const Undefined := "undefined"

  /** A form-written document as `useNotifications` reads it. */
  function FormDocInHook(id: string, d: TreatmentForm.TreatmentDoc): UseNotifications.Treatment {
    UseNotifications.Treatment(id, d.medicineName, Some(d.times))
  }

  /** A form-written document as `NotificationSystem` reads it: neither field is there. */
  function FormDocInSystem(id: string, d: TreatmentForm.TreatmentDoc): NotificationSystem.Treatment {
    NotificationSystem.Treatment(id, Undefined, None)
  }

  /** A pharmacist-written document as `useNotifications` reads it: neither field is there. */
  function PharmacistDocInHook(id: string, d: PharmacistDashboard.PharmacistDoc): UseNotifications.Treatment {
    UseNotifications.Treatment(id, Undefined, None)
  }

  /** A pharmacist-written document as `NotificationSystem` reads it. */
  function PharmacistDocInSystem(id: string, d: PharmacistDashboard.PharmacistDoc): NotificationSystem.Treatment {
    NotificationSystem.Treatment(id, d.fields.medicationName, Some(d.fields.administrationTimes))
  }

  /** The hook reminds of a form-written treatment exactly at its stored times. */
  lemma FormDocReachesHook(id: string, d: TreatmentForm.TreatmentDoc, now: string, permission: Permission)
    ensures UseNotifications.Evaluate([FormDocInHook(id, d)], now, permission) ==
              if now in d.times then [UseNotifications.Remind(FormDocInHook(id, d), permission)] else []
  {
    UseNotifications.EvaluateOne(FormDocInHook(id, d), now, permission);
  }

  /** `NotificationSystem` never reminds of anything while a form-written
      treatment heads its list: the check throws on it first. */
  lemma FormDocSilencesSystem(id: string, d: TreatmentForm.TreatmentDoc, rest: seq<NotificationSystem.Treatment>,
                              now: string, platform: NotificationSystem.Platform, requested: Permission)
    ensures NotificationSystem.Evaluate([FormDocInSystem(id, d)] + rest, now, platform, requested) == []
  {
    var ts := [FormDocInSystem(id, d)] + rest;
    assert ts[0].administrationTimes.None?;
  }

  /** In the hook, a pharmacist-written treatment ends the check: the
      treatments listed before it are reminded of, those after it never are. */
  lemma PharmacistDocStopsHook(id: string, d: PharmacistDashboard.PharmacistDoc,
                               before: seq<UseNotifications.Treatment>, after: seq<UseNotifications.Treatment>,
                               now: string, permission: Permission)
    requires UseNotifications.AllHaveTimes(before)
    ensures UseNotifications.Evaluate(before + [PharmacistDocInHook(id, d)] + after, now, permission) ==
              UseNotifications.Evaluate(before, now, permission)
  {
    var p := PharmacistDocInHook(id, d);
    UseNotifications.EvaluateAppend(before + [p], after, now, permission);
    assert !UseNotifications.AllHaveTimes(before + [p]) by {
      assert (before + [p])[|before|] == p;
    }
    UseNotifications.EvaluateAppend(before, [p], now, permission);
    UseNotifications.EvaluateOne(p, now, permission);
  }

  /** `NotificationSystem` reminds of a pharmacist-written treatment exactly at its times. */
  lemma PharmacistDocReachesSystem(id: string, d: PharmacistDashboard.PharmacistDoc, now: string,
                                   platform: NotificationSystem.Platform, requested: Permission)
    ensures NotificationSystem.Evaluate([PharmacistDocInSystem(id, d)], now, platform, requested) ==
              if now in d.fields.administrationTimes then NotificationSystem.ShowNotification(d.fields.medicationName, platform, requested) else []
  {
    NotificationSystem.EvaluateOne(PharmacistDocInSystem(id, d), now, platform, requested);
  }

  /** A document saved by the edit dialog as `useNotifications` reads it: the
      dialog always writes `medicineName` and `times`. */
  function SavedDocInHook(u: EditTreatmentDialog.UpdatedTreatment): UseNotifications.Treatment {
    UseNotifications.Treatment(u.id, u.medicineName, Some(u.times))
  }

  /** A document saved by the edit dialog as `NotificationSystem` reads it:
      through the fields the dialog carried over untouched. */
  function SavedDocInSystem(u: EditTreatmentDialog.UpdatedTreatment): NotificationSystem.Treatment {
    var name := if "medicationName" in u.rest && u.rest["medicationName"].Text? then u.rest["medicationName"].text else Undefined;
    var times := if "administrationTimes" in u.rest && u.rest["administrationTimes"].TextList?
                 then Some(u.rest["administrationTimes"].items) else None;
    NotificationSystem.Treatment(u.id, name, times)
  }

  /** Editing a pharmacist-written document in the user's dialog keeps its
      `medicationName` and `administrationTimes` and adds `times`: from then on
      the hook reminds of it at the edited times and `NotificationSystem` at
      the pharmacist's times. */
  lemma EditedPharmacistDocReachesBoth(t: EditTreatmentDialog.StoredTreatment, s: TreatmentForm.FormState,
                                       name: string, administrationTimes: seq<string>, now: string,
                                       permission: Permission, platform: NotificationSystem.Platform, requested: Permission)
    requires "medicationName" in t.rest && t.rest["medicationName"] == EditTreatmentDialog.Text(name)
    requires "administrationTimes" in t.rest && t.rest["administrationTimes"] == EditTreatmentDialog.TextList(administrationTimes)
    ensures var u := EditTreatmentDialog.Updated(t, s);
            UseNotifications.Evaluate([SavedDocInHook(u)], now, permission) ==
              (if now in s.times then [UseNotifications.Remind(SavedDocInHook(u), permission)] else []) &&
            NotificationSystem.Evaluate([SavedDocInSystem(u)], now, platform, requested) ==
              (if now in administrationTimes then NotificationSystem.ShowNotification(name, platform, requested) else [])
  {
    var u := EditTreatmentDialog.Updated(t, s);
    UseNotifications.EvaluateOne(SavedDocInHook(u), now, permission);
    NotificationSystem.EvaluateOne(SavedDocInSystem(u), now, platform, requested);
  }
}
