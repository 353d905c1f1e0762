/** Values shared by the components: optional document fields, the browser's
    notification permission, notices, and the merged writes the components
    issue on `users/{uid}` documents. */
module Common {

  /** An optional field of a stored document (absent, `undefined` or `null`). */
  datatype Option<+T> = None | Some(value: T) {
    function GetOr(default: T): T {
      match this
      case Some(v) => v
      case None => default
    }
  }

  /** Concatenation regroups freely. */
  lemma ConcatAssoc<T>(x: seq<T>, y: seq<T>, z: seq<T>)
    ensures x + (y + z) == (x + y) + z
  {
  }

  /** `Notification.permission`, and the value `Notification.requestPermission()` resolves to. */
  datatype Permission = Granted | Denied | Default

  /** A notification built with `new Notification(title, { body })`. */
  datatype Notice = Notice(title: string, body: string)

  const RemindersEnabledNotice := Notice("Notifications Enabled", "You will now receive medication reminders.")

  /** JavaScript truthiness of an optional string: absent, null and "" are falsy. */
  predicate Truthy(s: Option<string>) {
    s.Some? && s.value != ""
  }

  /** One `setDoc(..., { merge: true })` or `updateDoc` on `users/{uid}`. */
  datatype UserWrite =
    | SetNotificationsEnabled(uid: string, enabled: bool)
    | SetPushSubscription(uid: string, subscription: Option<string>)
    | CompleteProfile(uid: string, fullName: string, phoneNumber: string)
    | SetRole(uid: string, role: string)

  /** The `notificationsEnabled` field of `users/{uid}` after `writes` are merged,
      in order, on top of the stored value `stored`. */
  function PreferenceAfter(stored: Option<bool>, uid: string, writes: seq<UserWrite>): (r: Option<bool>)
    ensures r == stored || (r.Some? && exists k :: 0 <= k < |writes| && writes[k] == SetNotificationsEnabled(uid, r.value))
    decreases |writes|
  {
    if writes == [] then stored
    else
      var next := if writes[0].SetNotificationsEnabled? && writes[0].uid == uid then Some(writes[0].enabled) else stored;
      var r := PreferenceAfter(next, uid, writes[1..]);
      assert forall k :: 0 <= k < |writes[1..]| ==> writes[1..][k] == writes[k + 1];
      r
  }

  /** Writes to other documents, and writes of other fields, leave the preference alone. */
  lemma {:induction false} PreferenceAfterIgnoresOthers(stored: Option<bool>, uid: string, writes: seq<UserWrite>)
    requires forall k :: 0 <= k < |writes| ==> !(writes[k].SetNotificationsEnabled? && writes[k].uid == uid)
    ensures PreferenceAfter(stored, uid, writes) == stored
    decreases |writes|
  {
    if writes != [] {
      PreferenceAfterIgnoresOthers(stored, uid, writes[1..]);
    }
  }

  /** Merging runs left to right: the writes after a prefix see the prefix's result. */
  lemma {:induction false} PreferenceAfterAppend(stored: Option<bool>, uid: string, a: seq<UserWrite>, b: seq<UserWrite>)
    ensures PreferenceAfter(stored, uid, a + b) == PreferenceAfter(PreferenceAfter(stored, uid, a), uid, b)
    decreases |a|
  {
    if a != [] {
      assert (a + b)[0] == a[0] && (a + b)[1..] == a[1..] + b;
      var next := if a[0].SetNotificationsEnabled? && a[0].uid == uid then Some(a[0].enabled) else stored;
      PreferenceAfterAppend(next, uid, a[1..], b);
    } else {
      assert a + b == b;
    }
  }

  /** The last write of the preference wins, whatever was stored or written before. */
  lemma LastPreferenceWriteWins(stored: Option<bool>, uid: string, before: seq<UserWrite>, enabled: bool)
    ensures PreferenceAfter(stored, uid, before + [SetNotificationsEnabled(uid, enabled)]) == Some(enabled)
  {
    PreferenceAfterAppend(stored, uid, before, [SetNotificationsEnabled(uid, enabled)]);
  }
}
