/** The reminder hook (`useNotifications`): a live list of the user's
    treatments, the stored `notificationsEnabled` preference, and a check that
    runs once when (re)armed and then every 60000 ms, dispatching a
    "Medication Reminder" for every treatment whose `times` holds the current
    `HH:MM`. Timers, the Firestore feed and the Notification API are inputs:
    each interval firing is a call of `Tick`, each feed snapshot a call of
    `OnSnapshot`, and "now" and the permission are its arguments. */
module UseNotifications {
  import opened Common
  import Clock

  /** A treatment as the hook reads it, `{ id: doc.id, ...doc.data() }`.
      `times` is absent on documents written under other field names. */
  datatype Treatment = Treatment(id: string, medicineName: string, times: Option<seq<string>>)

  /** One call of `sendNotification(title, body)`, and whether it showed a notification. */
  datatype Dispatch = Dispatch(notice: Notice, shown: bool)

  const ReminderTitle := "Medication Reminder"
  const ReminderPrefix := "It's time to take your "
  const TestNotice := Notice("Test Notification", "This is a test notification from MediGuard")

  /** `times.includes(hhmm)`. */
  function Matches(times: seq<string>, hhmm: string): (r: bool)
    ensures r <==> hhmm in times
    decreases |times|
  {
    if times == [] then false
    else times[0] == hhmm || Matches(times[1..], hhmm)
  }

  /** `sendNotification`: a notification is shown only while the permission is
      'granted'; otherwise the call only logs. */
  function SendNotification(notice: Notice, permission: Permission): (d: Dispatch)
    ensures d.notice == notice
    ensures d.shown <==> permission == Granted
  {
    Dispatch(notice, permission == Granted)
  }

  /** The reminder sent for one treatment. */
  function Remind(t: Treatment, permission: Permission): Dispatch {
    SendNotification(Notice(ReminderTitle, ReminderPrefix + t.medicineName), permission)
  }

  predicate AllHaveTimes(ts: seq<Treatment>) {
    forall i :: 0 <= i < |ts| ==> ts[i].times.Some?
  }

  /** What one run of `checkNotifications` dispatches, in list order: one
      reminder per treatment whose `times` includes `now`. On a treatment
      without `times`, `treatment.times.join` throws, and the rest of the list
      is not looked at. */
  function Evaluate(ts: seq<Treatment>, now: string, permission: Permission): (ds: seq<Dispatch>)
    ensures |ds| <= |ts|
    decreases |ts|
  {
    if ts == [] then []
    else
      match ts[0].times
      case None => []
      case Some(times) =>
        (if Matches(times, now) then [Remind(ts[0], permission)] else []) + Evaluate(ts[1..], now, permission)
  }

  /** A single treatment yields one reminder when `now` is among its times and
      none otherwise, however often `now` is repeated in `times`. */
  lemma EvaluateOne(t: Treatment, now: string, permission: Permission)
    ensures Evaluate([t], now, permission) ==
              if t.times.Some? && now in t.times.value then [Remind(t, permission)] else []
  {
    assert [t][1..] == [];
  }

  lemma AllHaveTimesCons(ts: seq<Treatment>)
    requires ts != []
    ensures AllHaveTimes(ts) <==> ts[0].times.Some? && AllHaveTimes(ts[1..])
  {
    assert forall i :: 1 <= i < |ts| ==> ts[i] == ts[1..][i - 1];
  }

  /** One step of the check: a treatment with `times` contributes its own
      reminder, if due, ahead of the rest of the list. */
  lemma EvaluateCons(ts: seq<Treatment>, now: string, permission: Permission)
    requires ts != [] && ts[0].times.Some?
    ensures Evaluate(ts, now, permission) == Evaluate([ts[0]], now, permission) + Evaluate(ts[1..], now, permission)
  {
    EvaluateOne(ts[0], now, permission);
  }

  /** The check treats each treatment on its own, in order, until one without
      `times` ends it. */
  lemma {:induction false} EvaluateAppend(a: seq<Treatment>, b: seq<Treatment>, now: string, permission: Permission)
    ensures Evaluate(a + b, now, permission) ==
              if AllHaveTimes(a) then Evaluate(a, now, permission) + Evaluate(b, now, permission)
              else Evaluate(a, now, permission)
    decreases |a|
  {
    if a == [] {
      assert a + b == b;
    } else {
      var ab := a + b;
      assert ab[0] == a[0] && ab[1..] == a[1..] + b;
      AllHaveTimesCons(a);
      if a[0].times.Some? {
        EvaluateCons(ab, now, permission);
        EvaluateCons(a, now, permission);
        EvaluateAppend(a[1..], b, now, permission);
        var head := Evaluate([a[0]], now, permission);
        var rest := Evaluate(a[1..], now, permission);
        ConcatAssoc(head, rest, Evaluate(b, now, permission));
      }
    }
  }

  /** Every dispatch is a "Medication Reminder" for a treatment whose times
      include `now`, with that treatment's name in the body, and is shown
      exactly when the permission is 'granted'. */
  lemma {:induction false} EvaluateSound(ts: seq<Treatment>, now: string, permission: Permission, j: nat)
    requires j < |Evaluate(ts, now, permission)|
    ensures Evaluate(ts, now, permission)[j].notice.title == ReminderTitle
    ensures Evaluate(ts, now, permission)[j].shown <==> permission == Granted
    ensures exists k :: 0 <= k < |ts| && ts[k].times.Some? && now in ts[k].times.value &&
                        Evaluate(ts, now, permission)[j] == Remind(ts[k], permission)
    decreases |ts|
  {
    var times := ts[0].times.value;
    var head := if Matches(times, now) then [Remind(ts[0], permission)] else [];
    if j < |head| {
      assert Evaluate(ts, now, permission)[j] == Remind(ts[0], permission);
    } else {
      EvaluateSound(ts[1..], now, permission, j - |head|);
      var k :| 0 <= k < |ts[1..]| && ts[1..][k].times.Some? && now in ts[1..][k].times.value &&
               Evaluate(ts[1..], now, permission)[j - |head|] == Remind(ts[1..][k], permission);
      assert ts[k + 1] == ts[1..][k];
    }
  }

  /** Every treatment up to the first one without `times` whose times include
      `now` gets its reminder. */
  lemma {:induction false} EvaluateComplete(ts: seq<Treatment>, now: string, permission: Permission, k: nat)
    requires k < |ts| && AllHaveTimes(ts[..k + 1])
    requires now in ts[k].times.value
    ensures Remind(ts[k], permission) in Evaluate(ts, now, permission)
    decreases k
  {
    assert ts[..k + 1][0] == ts[0];
    if k > 0 {
      assert ts[1..][..k] == ts[1..k + 1];
      assert forall i :: 0 <= i < k ==> ts[1..][..k][i] == ts[..k + 1][i + 1];
      EvaluateComplete(ts[1..], now, permission, k - 1);
    }
  }

  /** When no time matches, the check dispatches nothing. */
  lemma {:induction false} EvaluateNoMatch(ts: seq<Treatment>, now: string, permission: Permission)
    requires forall k :: 0 <= k < |ts| && ts[k].times.Some? ==> now !in ts[k].times.value
    ensures Evaluate(ts, now, permission) == []
    decreases |ts|
  {
    if ts != [] && ts[0].times.Some? {
      EvaluateNoMatch(ts[1..], now, permission);
    }
  }

  /** The immediate check of a re-run reminder effect throws exactly when the
      list holds a treatment without `times`. The throw escapes the effect
      after its interval was set and before its cleanup is returned. */
  predicate Crashes(enabled: bool, ts: seq<Treatment>) {
    enabled && !AllHaveTimes(ts)
  }

  /** What one minute's firing of every leaked interval dispatches: each runs
      `checkNotifications` over the list it closed over. */
  function EvaluateAll(lists: seq<seq<Treatment>>, now: string, permission: Permission): (ds: seq<Dispatch>)
    ensures lists == [] ==> ds == []
    decreases |lists|
  {
    if lists == [] then []
    else Evaluate(lists[0], now, permission) + EvaluateAll(lists[1..], now, permission)
  }

  /** The state of one mounted `useNotifications` hook. */
  class ReminderHook {
    /** `treatments`: the last snapshot of the user's treatments. */
    var treatments: seq<Treatment>
    /** `notificationsEnabled`: the stored preference, false until loaded. */
    var notificationsEnabled: bool
    /** The preference read started at mount and has not answered yet. */
    var preferencePending: bool
    /** The `onSnapshot` listener is live. */
    var subscribed: bool
    /** The interval set by the reminder effect is live and has its cleanup. */
    var intervalArmed: bool
    /** Intervals whose effect threw before returning its cleanup, each with
        the list its check closed over. Nothing ever clears them. */
    var leaked: seq<seq<Treatment>>
    /** Every `sendNotification` call made so far. */
    var log: seq<Dispatch>

    ghost predicate Valid()
      reads this
    {
      intervalArmed ==> notificationsEnabled && AllHaveTimes(treatments)
    }

    /** First render; the reminder effect runs with the preference still false
        and sets no interval. */
    constructor ()
      ensures Valid()
      ensures treatments == [] && !notificationsEnabled && !preferencePending
      ensures !subscribed && !intervalArmed && leaked == [] && log == []
    {
      treatments := [];
      notificationsEnabled := false;
      preferencePending := false;
      subscribed := false;
      intervalArmed := false;
      leaked := [];
      log := [];
    }

    /** The mount effect: with no current user it does nothing; otherwise it
        starts reading the preference and subscribes to the user's treatments. */
    method Mount(currentUser: Option<string>)
      requires Valid()
      modifies this`preferencePending, this`subscribed
      ensures Valid()
      ensures subscribed == currentUser.Some? && preferencePending == currentUser.Some?
    {
      preferencePending := currentUser.Some?;
      subscribed := currentUser.Some?;
    }

    /** One run of `checkNotifications` over `ts` at `hour:minute`; it
        completes exactly when no treatment lacks `times`, and otherwise
        throws after dispatching for the treatments before that one. */
    method RunCheck(ts: seq<Treatment>, hour: nat, minute: nat, permission: Permission) returns (completed: bool)
      requires hour < 24 && minute < 60
      modifies this`log
      ensures log == old(log) + Evaluate(ts, Clock.FormatHHMM(hour, minute), permission)
      ensures completed == AllHaveTimes(ts)
    {
      var now := Clock.FormatHHMM(hour, minute);
      var i := 0;
      completed := true;
      while i < |ts|
        invariant 0 <= i <= |ts|
        invariant forall j :: 0 <= j < i ==> ts[j].times.Some?
        invariant log + Evaluate(ts[i..], now, permission) == old(log) + Evaluate(ts, now, permission)
      {
        var t := ts[i];
        assert ts[i..][0] == t && ts[i..][1..] == ts[i + 1..];
        if t.times.None? {
          completed := false;
          return;
        }
        var due := if Matches(t.times.value, now) then [Remind(t, permission)] else [];
        ConcatAssoc(log, due, Evaluate(ts[i + 1..], now, permission));
        log := log + due;
        i := i + 1;
      }
    }

    /** The reminder effect re-run: the previous interval is cleared; when the
        preference is off nothing else happens, otherwise a new interval is set
        and the check runs once immediately. When that check throws, the new
        interval leaks with the current list, and React, with no error
        boundary above the hook, tears down the tree: the feed is unsubscribed
        and a late preference read is ignored. */
    method Rearm(hour: nat, minute: nat, permission: Permission)
      requires hour < 24 && minute < 60
      modifies this`intervalArmed, this`log, this`leaked, this`subscribed, this`preferencePending
      ensures Valid()
      ensures intervalArmed == (notificationsEnabled && AllHaveTimes(treatments))
      ensures log == old(log) + if notificationsEnabled then Evaluate(treatments, Clock.FormatHHMM(hour, minute), permission) else []
      ensures leaked == old(leaked) + if Crashes(notificationsEnabled, treatments) then [treatments] else []
      ensures subscribed == (old(subscribed) && !Crashes(notificationsEnabled, treatments))
      ensures preferencePending == (old(preferencePending) && !Crashes(notificationsEnabled, treatments))
    {
      intervalArmed := false;
      if notificationsEnabled {
        var completed := RunCheck(treatments, hour, minute, permission);
        if completed {
          intervalArmed := true;
        } else {
          leaked := leaked + [treatments];
          subscribed := false;
          preferencePending := false;
        }
      }
    }

    /** The preference read answers: a missing field counts as false. The
        reminder effect re-runs only when the value changes. After teardown
        the answer is ignored. */
    method OnPreferenceLoaded(stored: Option<bool>, hour: nat, minute: nat, permission: Permission)
      requires hour < 24 && minute < 60
      requires Valid()
      modifies this`notificationsEnabled, this`preferencePending, this`intervalArmed, this`log, this`leaked, this`subscribed
      ensures Valid()
      ensures !preferencePending
      ensures notificationsEnabled == if old(preferencePending) then stored == Some(true) else old(notificationsEnabled)
      ensures if old(preferencePending) && notificationsEnabled != old(notificationsEnabled) then
                intervalArmed == (notificationsEnabled && AllHaveTimes(treatments)) &&
                log == old(log) + (if notificationsEnabled then Evaluate(treatments, Clock.FormatHHMM(hour, minute), permission) else []) &&
                leaked == old(leaked) + (if Crashes(notificationsEnabled, treatments) then [treatments] else []) &&
                subscribed == (old(subscribed) && !Crashes(notificationsEnabled, treatments))
              else
                intervalArmed == old(intervalArmed) && log == old(log) && leaked == old(leaked) && subscribed == old(subscribed)
    {
      if preferencePending {
        preferencePending := false;
        var enabled := stored == Some(true);
        if enabled != notificationsEnabled {
          notificationsEnabled := enabled;
          Rearm(hour, minute, permission);
        }
      }
    }

    /** A feed snapshot replaces the whole list; the new list re-runs the
        reminder effect, so an enabled hook checks again at once. After
        teardown the feed delivers nothing. */
    method OnSnapshot(snapshot: seq<Treatment>, hour: nat, minute: nat, permission: Permission)
      requires hour < 24 && minute < 60
      requires Valid()
      modifies this`treatments, this`intervalArmed, this`log, this`leaked, this`subscribed, this`preferencePending
      ensures Valid()
      ensures treatments == if old(subscribed) then snapshot else old(treatments)
      ensures old(subscribed) ==>
                intervalArmed == (notificationsEnabled && AllHaveTimes(snapshot)) &&
                log == old(log) + (if notificationsEnabled then Evaluate(snapshot, Clock.FormatHHMM(hour, minute), permission) else []) &&
                leaked == old(leaked) + (if Crashes(notificationsEnabled, snapshot) then [snapshot] else []) &&
                subscribed == !Crashes(notificationsEnabled, snapshot) &&
                preferencePending == (old(preferencePending) && !Crashes(notificationsEnabled, snapshot))
      ensures !old(subscribed) ==>
                intervalArmed == old(intervalArmed) && log == old(log) && leaked == old(leaked) &&
                !subscribed && preferencePending == old(preferencePending)
    {
      if subscribed {
        treatments := snapshot;
        Rearm(hour, minute, permission);
      }
    }

    /** A minute passes: the armed interval, if any, runs its check over the
        current list, and every leaked interval runs its check over the list
        it closed over. With reminders off and nothing leaked, nothing is sent. */
    method Tick(hour: nat, minute: nat, permission: Permission)
      requires hour < 24 && minute < 60
      requires Valid()
      modifies this`log
      ensures Valid()
      ensures log == old(log) + (if intervalArmed then Evaluate(treatments, Clock.FormatHHMM(hour, minute), permission) else [])
                              + EvaluateAll(leaked, Clock.FormatHHMM(hour, minute), permission)
      ensures !notificationsEnabled && leaked == [] ==> log == old(log)
    {
      var now := Clock.FormatHHMM(hour, minute);
      if intervalArmed {
        var _ := RunCheck(treatments, hour, minute, permission);
      }
      ghost var base := log;
      assert base == old(log) + if intervalArmed then Evaluate(treatments, now, permission) else [];
      var k := 0;
      while k < |leaked|
        invariant 0 <= k <= |leaked|
        invariant log + EvaluateAll(leaked[k..], now, permission) == base + EvaluateAll(leaked, now, permission)
      {
        assert leaked[k..][0] == leaked[k] && leaked[k..][1..] == leaked[k + 1..];
        ConcatAssoc(log, Evaluate(leaked[k], now, permission), EvaluateAll(leaked[k + 1..], now, permission));
        var _ := RunCheck(leaked[k], hour, minute, permission);
        k := k + 1;
      }
      assert leaked[|leaked|..] == [];
      assert log == base + EvaluateAll(leaked, now, permission);
    }

    /** Teardown: both effects' cleanups unsubscribe the feed and clear the
        armed interval; a preference read still in flight is ignored from now
        on. A leaked interval has no cleanup and keeps running. */
    method Unmount()
      requires Valid()
      modifies this`subscribed, this`intervalArmed, this`preferencePending
      ensures Valid() && !subscribed && !intervalArmed && !preferencePending
    {
      subscribed := false;
      intervalArmed := false;
      preferencePending := false;
    }

    /** `testNotification`: one test notice through the same permission gate. */
    method TestNotification(permission: Permission)
      modifies this`log
      ensures log == old(log) + [SendNotification(TestNotice, permission)]
    {
      log := log + [SendNotification(TestNotice, permission)];
    }
  }

  const Aspirin := Treatment("t1", "Aspirin", Some(["08:00", "20:00"]))
  /** The Aspirin reminder, shown with permission granted. */
  const AspirinReminder := Remind(Aspirin, Granted)

  lemma AspirinReminderText()
    ensures AspirinReminder == Dispatch(Notice(ReminderTitle, "It's time to take your Aspirin"), true)
  {
    assert ReminderPrefix + "Aspirin" == "It's time to take your Aspirin";
  }

  lemma AspirinHasTimes()
    ensures AllHaveTimes([Aspirin])
  {
  }

  /** Aspirin in one minute: reminded of exactly when the minute is one of
      its times. */
  lemma AspirinAt(now: string, permission: Permission)
    ensures Evaluate([Aspirin], now, permission) ==
              if now == "08:00" || now == "20:00" then [Remind(Aspirin, permission)] else []
  {
    EvaluateOne(Aspirin, now, permission);
  }

  /** Aspirin, due at 08:00 and 20:00, is reminded of in the 08:00 minute
      and not in the minutes around it. */
  lemma AspirinMinutes()
    ensures AllHaveTimes([Aspirin])
    ensures Evaluate([Aspirin], Clock.FormatHHMM(7, 59), Granted) == []
    ensures Evaluate([Aspirin], Clock.FormatHHMM(8, 0), Granted) == [AspirinReminder]
    ensures Evaluate([Aspirin], Clock.FormatHHMM(8, 1), Granted) == []
  {
    AspirinHasTimes();
    Clock.Format0759();
    Clock.Format0800();
    Clock.Format0801();
    AspirinAt("07:59", Granted);
    AspirinAt("08:00", Granted);
    AspirinAt("08:01", Granted);
  }

  /** Aspirin followed by a treatment without `times` is checked as Aspirin
      alone: the check stops at the second one. */
  lemma AspirinThenBad(bad: Treatment, now: string)
    requires bad.times.None?
    ensures Evaluate([Aspirin, bad], now, Granted) == Evaluate([Aspirin], now, Granted)
  {
    assert [Aspirin, bad] == [Aspirin] + [bad];
    EvaluateAppend([Aspirin], [bad], now, Granted);
    EvaluateOne(bad, now, Granted);
  }

  /** A list of Aspirin followed by a treatment without `times`: the check
      reminds of Aspirin in its minute only, then throws. */
  lemma LeakedAspirin(bad: Treatment)
    requires bad.times.None?
    ensures Evaluate([Aspirin, bad], Clock.FormatHHMM(7, 0), Granted) == []
    ensures EvaluateAll([[Aspirin, bad]], Clock.FormatHHMM(8, 0), Granted) == [AspirinReminder]
  {
    AspirinMinutes();
    Clock.Format0700();
    AspirinAt("07:00", Granted);
    AspirinThenBad(bad, "07:00");
    AspirinThenBad(bad, Clock.FormatHHMM(8, 0));
    assert [[Aspirin, bad]][1..] == [];
  }

  /** A user with reminders on and permission granted: the 08:00 tick sends one
      Aspirin reminder, the 08:01 tick none. */
  method ScenarioReminderWindow() returns (at0800: seq<Dispatch>, at0801: seq<Dispatch>)
    ensures at0800 == [AspirinReminder]
    ensures at0801 == []
  {
    AspirinMinutes();
    var hook := new ReminderHook();
    hook.Mount(Some("u1"));
    hook.OnPreferenceLoaded(Some(true), 7, 59, Granted);
    assert hook.log == [] && hook.subscribed && hook.notificationsEnabled && hook.leaked == [];
    hook.OnSnapshot([Aspirin], 7, 59, Granted);
    assert hook.log == [] && hook.intervalArmed && hook.treatments == [Aspirin] && hook.leaked == [];
    hook.Tick(8, 0, Granted);
    assert hook.log == [AspirinReminder] && hook.intervalArmed && hook.treatments == [Aspirin] && hook.leaked == [];
    at0800 := hook.log;
    hook.Tick(8, 1, Granted);
    assert hook.log == [AspirinReminder] + [];
    at0801 := hook.log[1..];
  }

  /** With the stored preference off, or missing, nothing is sent, whatever
      the minute of the read, the snapshot and the tick. */
  method ScenarioDisabled(stored: Option<bool>, hour: nat, minute: nat) returns (sent: seq<Dispatch>)
    requires stored != Some(true)
    requires hour < 24 && minute < 60
    ensures sent == []
  {
    var hook := new ReminderHook();
    hook.Mount(Some("u1"));
    hook.OnPreferenceLoaded(stored, hour, minute, Granted);
    assert hook.log == [] && hook.subscribed && !hook.notificationsEnabled && hook.leaked == [];
    hook.OnSnapshot([Aspirin], hour, minute, Granted);
    assert hook.log == [] && !hook.notificationsEnabled && hook.leaked == [];
    hook.Tick(hour, minute, Granted);
    sent := hook.log;
  }

  /** With permission denied the 08:00 tick still matches and calls
      `sendNotification`, which shows nothing. */
  method ScenarioDenied() returns (sent: seq<Dispatch>)
    ensures |sent| == 1 && !sent[0].shown
  {
    AspirinHasTimes();
    assert Evaluate([Aspirin], Clock.FormatHHMM(7, 0), Denied) == [] by {
      Clock.Format0700();
      AspirinAt("07:00", Denied);
    }
    assert Evaluate([Aspirin], Clock.FormatHHMM(8, 0), Denied) == [Remind(Aspirin, Denied)] by {
      Clock.Format0800();
      AspirinAt("08:00", Denied);
    }
    var hook := new ReminderHook();
    hook.Mount(Some("u1"));
    hook.OnPreferenceLoaded(Some(true), 7, 0, Denied);
    assert hook.log == [] && hook.subscribed && hook.notificationsEnabled;
    hook.OnSnapshot([Aspirin], 7, 0, Denied);
    assert hook.log == [] && hook.intervalArmed && hook.treatments == [Aspirin] && hook.leaked == [];
    hook.Tick(8, 0, Denied);
    assert hook.log == [Remind(Aspirin, Denied)];
    sent := hook.log;
  }

  /** A snapshot that no longer holds the treatment silences it: whatever it
      sent while listed, no later tick sends anything, in any minute. */
  method ScenarioRemoved(hour: nat, minute: nat, later: nat) returns (after: seq<Dispatch>)
    requires hour < 24 && minute < 60 && later < 24
    ensures after == []
  {
    AspirinHasTimes();
    var hook := new ReminderHook();
    hook.Mount(Some("u1"));
    hook.OnPreferenceLoaded(Some(true), hour, minute, Granted);
    assert hook.log == [] && hook.subscribed && hook.notificationsEnabled && hook.leaked == [];
    hook.OnSnapshot([Aspirin], hour, minute, Granted);
    assert hook.subscribed && hook.leaked == [];
    var before := hook.log;
    hook.OnSnapshot([], hour, minute, Granted);
    assert hook.log == before && hook.treatments == [] && hook.leaked == [];
    hook.Tick(hour, minute, Granted);
    assert hook.log == before && hook.treatments == [] && hook.leaked == [];
    hook.Tick(later, minute, Granted);
    assert hook.log == before;
    after := hook.log[|before|..];
  }

  /** Every snapshot re-runs the reminder effect, whose first check is
      immediate: the same list delivered twice within the 08:00 minute sends
      the Aspirin reminder twice. */
  method ScenarioRepeatedSnapshot() returns (sent: seq<Dispatch>)
    ensures sent == [AspirinReminder, AspirinReminder]
  {
    AspirinHasTimes();
    assert Evaluate([Aspirin], Clock.FormatHHMM(8, 0), Granted) == [AspirinReminder] by {
      AspirinMinutes();
    }
    var hook := new ReminderHook();
    hook.Mount(Some("u1"));
    hook.OnPreferenceLoaded(Some(true), 7, 0, Granted);
    assert hook.log == [] && hook.subscribed && hook.notificationsEnabled;
    hook.OnSnapshot([Aspirin], 8, 0, Granted);
    assert hook.log == [AspirinReminder] && hook.subscribed && hook.notificationsEnabled;
    hook.OnSnapshot([Aspirin], 8, 0, Granted);
    assert hook.log == [AspirinReminder] + [AspirinReminder];
    sent := hook.log;
  }

  /** After teardown nothing is sent, whether the preference read answered
      before it or only after it: a late answer is ignored, no snapshot is
      taken in and no tick sends, in any minute. */
  method ScenarioTeardown(readBeforeTeardown: bool, hour: nat, minute: nat) returns (sent: seq<Dispatch>)
    requires hour < 24 && minute < 60
    ensures sent == []
  {
    var hook := new ReminderHook();
    hook.Mount(Some("u1"));
    if readBeforeTeardown {
      hook.OnPreferenceLoaded(Some(true), hour, minute, Granted);
    }
    assert hook.log == [] && hook.leaked == [];
    hook.Unmount();
    hook.OnPreferenceLoaded(Some(true), hour, minute, Granted);
    assert hook.log == [] && hook.leaked == [] && !hook.subscribed && !hook.intervalArmed;
    hook.OnSnapshot([Aspirin], hour, minute, Granted);
    assert hook.log == [] && hook.leaked == [] && !hook.intervalArmed;
    hook.Tick(hour, minute, Granted);
    sent := hook.log;
  }

  /** A treatment without `times` (as the pharmacist's page writes it) arrives
      listed after Aspirin: the immediate check throws, the interval leaks, and
      it goes on reminding of Aspirin at 08:00 after the hook is torn down. */
  method ScenarioLeakedInterval() returns (atSnapshot: seq<Dispatch>, at0800: seq<Dispatch>)
    ensures atSnapshot == []
    ensures at0800 == [AspirinReminder]
  {
    var bad := Treatment("t2", "undefined", None);
    assert !AllHaveTimes([Aspirin, bad]) by { assert [Aspirin, bad][1] == bad; }
    LeakedAspirin(bad);
    var hook := new ReminderHook();
    hook.Mount(Some("u1"));
    hook.OnPreferenceLoaded(Some(true), 7, 0, Granted);
    assert hook.log == [] && hook.subscribed && hook.notificationsEnabled && hook.leaked == [];
    hook.OnSnapshot([Aspirin, bad], 7, 0, Granted);
    assert hook.log == [] && hook.leaked == [[Aspirin, bad]] && !hook.subscribed;
    atSnapshot := hook.log;
    hook.Unmount();
    hook.OnSnapshot([Aspirin], 7, 30, Granted);
    assert hook.log == [] && hook.leaked == [[Aspirin, bad]] && !hook.intervalArmed;
    hook.Tick(8, 0, Granted);
    assert hook.log == [] + [] + EvaluateAll([[Aspirin, bad]], Clock.FormatHHMM(8, 0), Granted);
    at0800 := hook.log;
  }

  /** With no signed-in user nothing is subscribed, the preference stays off
      and no tick sends, in any minute. */
  method ScenarioNoUser(hour: nat, minute: nat) returns (sent: seq<Dispatch>)
    requires hour < 24 && minute < 60
    ensures sent == []
  {
    var hook := new ReminderHook();
    hook.Mount(None);
    hook.OnPreferenceLoaded(Some(true), hour, minute, Granted);
    assert hook.log == [] && !hook.notificationsEnabled && !hook.subscribed && hook.leaked == [];
    hook.OnSnapshot([Aspirin], hour, minute, Granted);
    assert hook.log == [] && !hook.notificationsEnabled && hook.leaked == [];
    hook.Tick(hour, minute, Granted);
    sent := hook.log;
  }
}
