/** The older onboarding snackbar (`NotificationManager`): it offers to enable
    reminders to any signed-in user who has never answered, without looking
    at the browser permission, and stores whether the request was granted. */
module NotificationManager {
  import opened Common
  import NotificationPermission

  /** `checkPermission`'s condition for showing the snackbar. */
  predicate ShouldShowSnackbar(currentUser: Option<string>, stored: Option<bool>) {
    currentUser.Some? && stored.None?
  }

  /** The state of one mounted snackbar, with the writes and notices it caused. */
  class EnableSnackbar {
    var showSnackbar: bool
    var writes: seq<UserWrite>
    var shown: seq<Notice>

    constructor ()
      ensures !showSnackbar && writes == [] && shown == []
    {
      showSnackbar := false;
      writes := [];
      shown := [];
    }

    method CheckPermission(currentUser: Option<string>, stored: Option<bool>)
      modifies this`showSnackbar
      ensures showSnackbar == (old(showSnackbar) || ShouldShowSnackbar(currentUser, stored))
    {
      if ShouldShowSnackbar(currentUser, stored) {
        showSnackbar := true;
      }
    }

    /** "Enable", where the permission request resolves to `requested` and
        the merged write succeeds exactly when `writeOk`: the snackbar hides;
        with a user, whether it was granted is stored, and a grant is
        confirmed with a notice. The write is awaited without a catch, so a
        rejected write stores nothing and throws before the notice. */
    method RequestPermission(currentUser: Option<string>, requested: Permission, writeOk: bool)
      modifies this`showSnackbar, this`writes, this`shown
      ensures !showSnackbar
      ensures writes == old(writes) + if currentUser.Some? && writeOk then [SetNotificationsEnabled(currentUser.value, requested == Granted)] else []
      ensures shown == old(shown) + if currentUser.Some? && requested == Granted && writeOk then [RemindersEnabledNotice] else []
      ensures currentUser.Some? && writeOk ==> PreferenceAfter(None, currentUser.value, writes) == Some(requested == Granted)
    {
      showSnackbar := false;
      if currentUser.Some? && writeOk {
        var before := writes;
        writes := writes + [SetNotificationsEnabled(currentUser.value, requested == Granted)];
        LastPreferenceWriteWins(None, currentUser.value, before, requested == Granted);
        if requested == Granted {
          shown := shown + [RemindersEnabledNotice];
        }
      }
    }
  }

  /** Whenever the dialog would open, so would the snackbar; the snackbar also
      opens for a user whose browser has already decided, which the dialog
      does not. */
  lemma SnackbarWiderThanDialog(currentUser: Option<string>, stored: Option<bool>, permission: Permission)
    ensures NotificationPermission.ShouldPrompt(currentUser, stored, permission) ==> ShouldShowSnackbar(currentUser, stored)
    ensures ShouldShowSnackbar(currentUser, stored) && permission != Default ==>
              !NotificationPermission.ShouldPrompt(currentUser, stored, permission)
  {
  }

  /** A user who has answered once is not offered the snackbar again. */
  lemma AnsweredNoSnackbar(stored: Option<bool>, uid: string, before: seq<UserWrite>, enabled: bool)
    ensures !ShouldShowSnackbar(Some(uid), PreferenceAfter(stored, uid, before + [SetNotificationsEnabled(uid, enabled)]))
  {
    LastPreferenceWriteWins(stored, uid, before, enabled);
  }

  /** A signed-in first-time user enables and gets a refusal: the snackbar is
      gone, `false` is stored and no notice appears. */
  method ScenarioRefused() returns (visible: bool, preference: Option<bool>, shown: seq<Notice>)
    ensures !visible && preference == Some(false) && shown == []
  {
    var snackbar := new EnableSnackbar();
    snackbar.CheckPermission(Some("u1"), None);
    snackbar.RequestPermission(Some("u1"), Denied, true);
    visible, preference, shown := snackbar.showSnackbar, PreferenceAfter(None, "u1", snackbar.writes), snackbar.shown;
  }

  /** A signed-in first-time user is granted permission but the write is
      rejected: the snackbar is gone, nothing is stored and no notice
      appears, so the snackbar is offered again on the next mount. */
  method ScenarioWriteFails() returns (visible: bool, preference: Option<bool>, shown: seq<Notice>, offeredAgain: bool)
    ensures !visible && preference == None && shown == [] && offeredAgain
  {
    var snackbar := new EnableSnackbar();
    snackbar.CheckPermission(Some("u1"), None);
    snackbar.RequestPermission(Some("u1"), Granted, false);
    visible, preference, shown := snackbar.showSnackbar, PreferenceAfter(None, "u1", snackbar.writes), snackbar.shown;
    offeredAgain := ShouldShowSnackbar(Some("u1"), preference);
  }
}
