/** The onboarding dialog (`NotificationPermission`): it opens for a signed-in
    user who has never answered and whose browser permission is still
    undecided, and each answer is merged into the user's document as
    `notificationsEnabled`. */
module NotificationPermission {
  import opened Common
  import PushNotifications

  /** `checkPermission`'s condition for opening the dialog. */
  predicate ShouldPrompt(currentUser: Option<string>, stored: Option<bool>, permission: Permission) {
    currentUser.Some? && stored.None? && permission == Default
  }

  /** The user's preference after `writes`, from any stored value, is `enabled`. */
  ghost predicate Settled(uid: string, writes: seq<UserWrite>, enabled: bool) {
    forall stored :: PreferenceAfter(stored, uid, writes) == Some(enabled)
  }

  lemma SettledByLastWrite(uid: string, before: seq<UserWrite>, enabled: bool)
    ensures Settled(uid, before + [SetNotificationsEnabled(uid, enabled)], enabled)
  {
    forall stored: Option<bool> ensures PreferenceAfter(stored, uid, before + [SetNotificationsEnabled(uid, enabled)]) == Some(enabled) {
      LastPreferenceWriteWins(stored, uid, before, enabled);
    }
  }

  /** The writes of `handleEnable` for the user `uid`: when granted, the push
      subscription's writes and then `true`; otherwise `false` alone. */
  function EnableWrites(uid: string, requested: Permission, atob: string -> Option<string>, pushSubscription: Option<string>)
    : (writes: seq<UserWrite>)
    ensures |writes| >= 1 && writes[|writes| - 1] == SetNotificationsEnabled(uid, requested == Granted)
    ensures requested != Granted ==> writes == [SetNotificationsEnabled(uid, false)]
    ensures forall k :: 0 <= k < |writes| - 1 ==> writes[k] == SetPushSubscription(uid, pushSubscription)
    ensures Settled(uid, writes, requested == Granted)
  {
    var subscribed := if requested == Granted then PushNotifications.SubscribeWrites(Some(uid), atob, pushSubscription) else [];
    SettledByLastWrite(uid, subscribed, requested == Granted);
    subscribed + [SetNotificationsEnabled(uid, requested == Granted)]
  }

  /** Earlier writes do not matter once the preference is settled. */
  lemma SettledAfterPrefix(uid: string, before: seq<UserWrite>, writes: seq<UserWrite>, enabled: bool)
    requires Settled(uid, writes, enabled)
    ensures Settled(uid, before + writes, enabled)
  {
    forall stored: Option<bool> ensures PreferenceAfter(stored, uid, before + writes) == Some(enabled) {
      PreferenceAfterAppend(stored, uid, before, writes);
    }
  }

  /** The state of one mounted dialog, with the writes and notices it caused. */
  class PermissionPrompt {
    var open: bool
    /** Every merged write to `users/{uid}` so far, in order. */
    var writes: seq<UserWrite>
    /** Every `new Notification(...)` so far. */
    var shown: seq<Notice>

    constructor ()
      ensures !open && writes == [] && shown == []
    {
      open := false;
      writes := [];
      shown := [];
    }

    /** The mount effect: the dialog opens when `ShouldPrompt` holds and is
        otherwise left as it is. */
    method CheckPermission(currentUser: Option<string>, stored: Option<bool>, permission: Permission)
      modifies this`open
      ensures open == (old(open) || ShouldPrompt(currentUser, stored, permission))
    {
      if ShouldPrompt(currentUser, stored, permission) {
        open := true;
      }
    }

    /** "Yes, enable notifications", where the permission request resolves to
        `requested` and the preference write succeeds when `writeOk`. When
        granted: subscribe to push (which swallows its own failures), store
        `true`, confirm with a notice. Otherwise: store `false`. The dialog
        closes once the write is done; a rejected write is not caught, so the
        handler stops there: no confirmation, and the dialog stays open. */
    method HandleEnable(currentUser: Option<string>, requested: Permission,
                        atob: string -> Option<string>, pushSubscription: Option<string>, writeOk: bool)
      modifies this`open, this`writes, this`shown
      ensures open == (old(open) && currentUser.Some? && !writeOk)
      ensures writes == old(writes) + if currentUser.None? then []
                else if writeOk then EnableWrites(currentUser.value, requested, atob, pushSubscription)
                else if requested == Granted then PushNotifications.SubscribeWrites(currentUser, atob, pushSubscription)
                else []
      ensures shown == old(shown) + if currentUser.Some? && requested == Granted && writeOk then [RemindersEnabledNotice] else []
      ensures currentUser.Some? && writeOk ==> Settled(currentUser.value, writes, requested == Granted)
    {
      if currentUser.Some? {
        var uid := currentUser.value;
        var before := writes;
        if requested == Granted {
          var subscribed := PushNotifications.SubscribeUserToPush(currentUser, atob, pushSubscription);
          writes := writes + subscribed;
          if !writeOk {
            return;
          }
          writes := writes + [SetNotificationsEnabled(uid, true)];
          shown := shown + [RemindersEnabledNotice];
        } else {
          if !writeOk {
            return;
          }
          writes := writes + [SetNotificationsEnabled(uid, false)];
        }
        assert writes == before + EnableWrites(uid, requested, atob, pushSubscription);
        SettledAfterPrefix(uid, before, EnableWrites(uid, requested, atob, pushSubscription), requested == Granted);
      }
      open := false;
    }

    /** "No, thanks", and also closing the dialog any other way (`onClose`):
        unsubscribe from push (which swallows its own failures), store
        `false`, close. A rejected preference write leaves the dialog open. */
    method HandleDecline(currentUser: Option<string>, serviceWorkerOk: bool, writeOk: bool)
      modifies this`open, this`writes
      ensures open == (old(open) && currentUser.Some? && !writeOk)
      ensures writes == old(writes) + if currentUser.Some?
                then PushNotifications.UnsubscribeUserFromPush(currentUser, serviceWorkerOk) +
                     (if writeOk then [SetNotificationsEnabled(currentUser.value, false)] else [])
                else []
      ensures currentUser.Some? && writeOk ==> Settled(currentUser.value, writes, false)
    {
      if currentUser.Some? {
        var uid := currentUser.value;
        var before := writes + PushNotifications.UnsubscribeUserFromPush(currentUser, serviceWorkerOk);
        writes := before;
        if !writeOk {
          return;
        }
        writes := before + [SetNotificationsEnabled(uid, false)];
        SettledByLastWrite(uid, before, false);
      }
      open := false;
    }
  }

  /** Once either answer has been stored, the dialog never opens again for that
      user, whatever the browser permission is then. */
  lemma AnsweredNeverPrompted(stored: Option<bool>, uid: string, before: seq<UserWrite>, enabled: bool,
                              after: seq<UserWrite>, permission: Permission)
    requires forall k :: 0 <= k < |after| ==> !after[k].SetNotificationsEnabled?
    ensures !ShouldPrompt(Some(uid), PreferenceAfter(stored, uid, before + [SetNotificationsEnabled(uid, enabled)] + after), permission)
  {
    var answered := before + [SetNotificationsEnabled(uid, enabled)];
    LastPreferenceWriteWins(stored, uid, before, enabled);
    PreferenceAfterAppend(stored, uid, answered, after);
    PreferenceAfterIgnoresOthers(Some(enabled), uid, after);
  }

  /** A signed-in first-time user accepts and the browser grants: the dialog
      closes, the preference is on, and the confirmation is shown. */
  method ScenarioAcceptGranted(atob: string -> Option<string>, pushSubscription: Option<string>)
    returns (open: bool, preference: Option<bool>, shown: seq<Notice>)
    ensures !open && preference == Some(true) && shown == [RemindersEnabledNotice]
  {
    var prompt := new PermissionPrompt();
    prompt.CheckPermission(Some("u1"), None, Default);
    prompt.HandleEnable(Some("u1"), Granted, atob, pushSubscription, true);
    open, preference, shown := prompt.open, PreferenceAfter(None, "u1", prompt.writes), prompt.shown;
  }

  /** Accepting and then being refused by the browser stores `false` and shows nothing. */
  method ScenarioAcceptRefused(atob: string -> Option<string>, pushSubscription: Option<string>)
    returns (open: bool, preference: Option<bool>, shown: seq<Notice>)
    ensures !open && preference == Some(false) && shown == []
  {
    var prompt := new PermissionPrompt();
    prompt.CheckPermission(Some("u1"), None, Default);
    prompt.HandleEnable(Some("u1"), Denied, atob, pushSubscription, true);
    open, preference, shown := prompt.open, PreferenceAfter(None, "u1", prompt.writes), prompt.shown;
  }

  /** Without a signed-in user the dialog never opens, and dismissing it writes nothing. */
  method ScenarioNoUser() returns (openedOnMount: bool, writes: seq<UserWrite>)
    ensures !openedOnMount && writes == []
  {
    var prompt := new PermissionPrompt();
    prompt.CheckPermission(None, None, Default);
    openedOnMount := prompt.open;
    prompt.HandleDecline(None, true, true);
    writes := prompt.writes;
  }

  /** The browser grants but the preference write is rejected: the dialog
      stays open, nothing is confirmed, and the preference is still unset, so
      the dialog would be offered again on the next mount. */
  method ScenarioWriteFails(atob: string -> Option<string>, pushSubscription: Option<string>)
    returns (open: bool, preference: Option<bool>, shown: seq<Notice>)
    ensures open && preference == None && shown == []
  {
    var prompt := new PermissionPrompt();
    prompt.CheckPermission(Some("u1"), None, Default);
    prompt.HandleEnable(Some("u1"), Granted, atob, pushSubscription, false);
    PreferenceAfterIgnoresOthers(None, "u1", prompt.writes);
    open, preference, shown := prompt.open, PreferenceAfter(None, "u1", prompt.writes), prompt.shown;
  }
}
