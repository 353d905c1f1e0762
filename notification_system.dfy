/** The second reminder loop (`NotificationSystem`): the same per-minute match
    over a live treatment list, but read through the fields `medicationName`
    and `administrationTimes`, with no preference gate, no immediate first
    check, and a three-way permission policy that asks for permission at
    dispatch time. */
module NotificationSystem {
  import opened Common
  import Clock
  import UseNotifications

  /** A treatment as this component reads it. `administrationTimes` is absent on
      documents written by the treatment forms, which store `times`. */
  datatype Treatment = Treatment(id: string, medicationName: string, administrationTimes: Option<seq<string>>)

  /** The browser: without the Notification API, or with it at some permission. */
  datatype Platform = NoNotificationApi | NotificationApi(permission: Permission)

  /** What `showNotification` does to the platform. */
  datatype Effect = Shown(notice: Notice) | PermissionRequested

  const ReminderTitle := "MediGuard Reminder"

  function ReminderNotice(medicationName: string): Notice {
    Notice(ReminderTitle, UseNotifications.ReminderPrefix + medicationName)
  }

  /** `showNotification(medicationName)`; `requested` is the value the permission
      request resolves to when one is made. */
  function ShowNotification(medicationName: string, platform: Platform, requested: Permission): (es: seq<Effect>)
    ensures Shown(ReminderNotice(medicationName)) in es <==>
              platform.NotificationApi? &&
              (platform.permission == Granted || (platform.permission == Default && requested == Granted))
    ensures PermissionRequested in es <==> platform == NotificationApi(Default)
    ensures forall e :: e in es ==> e == Shown(ReminderNotice(medicationName)) || e == PermissionRequested
    ensures platform.NotificationApi? && platform.permission == Denied ==> es == []
    ensures platform == NotificationApi(Granted) ==> es == [Shown(ReminderNotice(medicationName))]
    ensures |es| <= 2 && (PermissionRequested in es ==> es[0] == PermissionRequested)
  {
    match platform
    case NoNotificationApi => []
    case NotificationApi(permission) =>
      if permission == Granted then [Shown(ReminderNotice(medicationName))]
      else if permission != Denied then
        [PermissionRequested] + if requested == Granted then [Shown(ReminderNotice(medicationName))] else []
      else []
  }

  /** What one run of `checkNotifications` does: `showNotification` for each
      treatment whose `administrationTimes` includes `now`. On a treatment
      without `administrationTimes`, `.includes` throws and the rest of the
      list is not looked at. */
  function Evaluate(ts: seq<Treatment>, now: string, platform: Platform, requested: Permission): (es: seq<Effect>)
    ensures platform == NoNotificationApi ==> es == []
    decreases |ts|
  {
    if ts == [] then []
    else
      match ts[0].administrationTimes
      case None => []
      case Some(times) =>
        (if UseNotifications.Matches(times, now) then ShowNotification(ts[0].medicationName, platform, requested) else [])
        + Evaluate(ts[1..], now, platform, requested)
  }

  /** A single treatment: the permission policy runs once when `now` is among
      its times, and not at all otherwise. */
  lemma EvaluateOne(t: Treatment, now: string, platform: Platform, requested: Permission)
    ensures Evaluate([t], now, platform, requested) ==
              if t.administrationTimes.Some? && now in t.administrationTimes.value
              then ShowNotification(t.medicationName, platform, requested) else []
  {
    assert [t][1..] == [];
  }

  predicate AllHaveTimes(ts: seq<Treatment>) {
    forall i :: 0 <= i < |ts| ==> ts[i].administrationTimes.Some?
  }

  lemma AllHaveTimesCons(ts: seq<Treatment>)
    requires ts != []
    ensures AllHaveTimes(ts) <==> ts[0].administrationTimes.Some? && AllHaveTimes(ts[1..])
  {
    assert forall i :: 1 <= i < |ts| ==> ts[i] == ts[1..][i - 1];
  }

  /** One step of the check: a treatment with `administrationTimes` has its
      own effects, if due, ahead of the rest of the list. */
  lemma EvaluateCons(ts: seq<Treatment>, now: string, platform: Platform, requested: Permission)
    requires ts != [] && ts[0].administrationTimes.Some?
    ensures Evaluate(ts, now, platform, requested) ==
              Evaluate([ts[0]], now, platform, requested) + Evaluate(ts[1..], now, platform, requested)
  {
    EvaluateOne(ts[0], now, platform, requested);
  }

  /** Treatments are handled one after another, in order, until one without
      `administrationTimes` ends the run. */
  lemma {:induction false} EvaluateAppend(a: seq<Treatment>, b: seq<Treatment>, now: string, platform: Platform, requested: Permission)
    ensures Evaluate(a + b, now, platform, requested) ==
              if AllHaveTimes(a) then Evaluate(a, now, platform, requested) + Evaluate(b, now, platform, requested)
              else Evaluate(a, now, platform, requested)
    decreases |a|
  {
    if a == [] {
      assert a + b == b;
    } else {
      var ab := a + b;
      assert ab[0] == a[0] && ab[1..] == a[1..] + b;
      AllHaveTimesCons(a);
      if a[0].administrationTimes.Some? {
        EvaluateCons(ab, now, platform, requested);
        EvaluateCons(a, now, platform, requested);
        EvaluateAppend(a[1..], b, now, platform, requested);
        ConcatAssoc(Evaluate([a[0]], now, platform, requested), Evaluate(a[1..], now, platform, requested),
                    Evaluate(b, now, platform, requested));
      }
    }
  }

  /** Without the Notification API, or with permission denied, a tick shows
      nothing and requests nothing, whatever matches. */
  lemma {:induction false} SilentWhenBlocked(ts: seq<Treatment>, now: string, platform: Platform, requested: Permission)
    requires platform == NoNotificationApi || platform == NotificationApi(Denied)
    ensures Evaluate(ts, now, platform, requested) == []
    decreases |ts|
  {
    if ts != [] && ts[0].administrationTimes.Some? {
      SilentWhenBlocked(ts[1..], now, platform, requested);
    }
  }

  /** Each effect of a tick is a "MediGuard Reminder" for some treatment whose
      times include `now`, or a permission request; requests happen only while
      the permission is undecided. */
  lemma {:induction false} EvaluateSound(ts: seq<Treatment>, now: string, platform: Platform, requested: Permission, e: Effect)
    requires e in Evaluate(ts, now, platform, requested)
    ensures e == PermissionRequested ==> platform == NotificationApi(Default)
    ensures e.Shown? ==> exists k :: 0 <= k < |ts| && ts[k].administrationTimes.Some? &&
                                     now in ts[k].administrationTimes.value &&
                                     e == Shown(ReminderNotice(ts[k].medicationName))
    decreases |ts|
  {
    var times := ts[0].administrationTimes.value;
    var head := if UseNotifications.Matches(times, now) then ShowNotification(ts[0].medicationName, platform, requested) else [];
    if e in head {
    } else {
      assert e in Evaluate(ts[1..], now, platform, requested);
      EvaluateSound(ts[1..], now, platform, requested, e);
      if e.Shown? {
        var k :| 0 <= k < |ts[1..]| && ts[1..][k].administrationTimes.Some? &&
                 now in ts[1..][k].administrationTimes.value &&
                 e == Shown(ReminderNotice(ts[1..][k].medicationName));
        assert ts[k + 1] == ts[1..][k];
      }
    }
  }

  /** The state of one mounted `NotificationSystem`. */
  class ReminderSystem {
    var treatments: seq<Treatment>
    /** The `onSnapshot` listener is live. */
    var subscribed: bool
    /** The interval is live; it is set on mount whether or not a user is signed in. */
    var intervalArmed: bool
    /** Everything `showNotification` did so far. */
    var effects: seq<Effect>

    /** First render: the reminder effect sets its interval; there is no
        immediate check. */
    constructor ()
      ensures treatments == [] && !subscribed && intervalArmed && effects == []
    {
      treatments := [];
      subscribed := false;
      intervalArmed := true;
      effects := [];
    }

    /** The mount effect subscribes only when a user is signed in. */
    method Mount(currentUser: Option<string>)
      modifies this`subscribed
      ensures subscribed == currentUser.Some?
    {
      subscribed := currentUser.Some?;
    }

    /** A snapshot replaces the list and re-arms the interval; nothing is
        checked until the next interval fires. */
    method OnSnapshot(snapshot: seq<Treatment>)
      modifies this`treatments
      ensures treatments == if subscribed then snapshot else old(treatments)
    {
      if subscribed {
        treatments := snapshot;
      }
    }

    /** The interval fires at `hour:minute`. No preference is consulted. */
    method Tick(hour: nat, minute: nat, platform: Platform, requested: Permission)
      requires hour < 24 && minute < 60
      modifies this`effects
      ensures effects == old(effects) + if intervalArmed then Evaluate(treatments, Clock.FormatHHMM(hour, minute), platform, requested) else []
    {
      if !intervalArmed {
        return;
      }
      var now := Clock.FormatHHMM(hour, minute);
      var i := 0;
      while i < |treatments|
        invariant 0 <= i <= |treatments|
        invariant effects + Evaluate(treatments[i..], now, platform, requested) ==
                  old(effects) + Evaluate(treatments, now, platform, requested)
      {
        var t := treatments[i];
        assert treatments[i..][0] == t && treatments[i..][1..] == treatments[i + 1..];
        if t.administrationTimes.None? {
          break;
        }
        var due := if UseNotifications.Matches(t.administrationTimes.value, now)
                   then ShowNotification(t.medicationName, platform, requested) else [];
        ConcatAssoc(effects, due, Evaluate(treatments[i + 1..], now, platform, requested));
        effects := effects + due;
        i := i + 1;
      }
    }

    /** Teardown clears the interval and unsubscribes. */
    method Unmount()
      modifies this`subscribed, this`intervalArmed
      ensures !subscribed && !intervalArmed
    {
      subscribed := false;
      intervalArmed := false;
    }
  }

  /** A snapshot delivered in the 08:00 minute is not checked until the
      interval fires: nothing happens at delivery, the next tick shows. */
  method ScenarioFirstCheckWaits() returns (atSnapshot: seq<Effect>, atTick: seq<Effect>)
    ensures atSnapshot == []
    ensures atTick == [Shown(Notice(ReminderTitle, UseNotifications.ReminderPrefix + "Aspirin"))]
  {
    var aspirin := Treatment("t1", "Aspirin", Some(["08:00"]));
    assert Evaluate([aspirin], Clock.FormatHHMM(8, 0), NotificationApi(Granted), Granted) ==
           [Shown(Notice(ReminderTitle, UseNotifications.ReminderPrefix + "Aspirin"))] by {
      Clock.Format0800();
      EvaluateOne(aspirin, "08:00", NotificationApi(Granted), Granted);
    }
    var system := new ReminderSystem();
    system.Mount(Some("u1"));
    system.OnSnapshot([aspirin]);
    assert system.effects == [] && system.intervalArmed && system.treatments == [aspirin];
    atSnapshot := system.effects;
    system.Tick(8, 0, NotificationApi(Granted), Granted);
    atTick := system.effects;
  }
}
