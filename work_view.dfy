/** The wall-clock work timer: the session's end instant is stored when work
    starts, and every tick derives the mm:ss display from the time left until
    that instant, or performs the expiry transition that opens the break
    screen. Starting a session also plans its reminders: one at the end of the
    session and, for sessions over an hour, a silent one on every whole hour
    inside the session, within the platform's 24-hour horizon.

    Time is counted in whole seconds; each firing of the one-second repeating
    timer is an explicit call of Tick with the current instant. */
module WorkTimer {
  import opened Notifications
  import opened Countdown
  import opened Decimal

  datatype Option<T> = None | Some(value: T)

  /** Bounds of the minute picker. */
  const MinMinutes := 1
  const MaxMinutes := 120

  /** Length of an hour, and the platform's 24-hour horizon, in seconds. */
  const Hour := 3600
  const Horizon := 24 * 60 * 60

  function Min(a: int, b: int): int
  {
    if a <= b then a else b
  }

  /** How many whole hours lie strictly inside a session of `totalSeconds`
      seconds, capped at the horizon; none unless the session is longer than
      an hour. */
  function HourCount(totalSeconds: int): nat
  {
    if totalSeconds > Hour then (Min(totalSeconds, Horizon) - 1) / Hour else 0
  }

  /** The offsets, in seconds after the start, of the silent reminders. */
  function HourMarks(totalSeconds: int): seq<int>
  {
    seq(HourCount(totalSeconds), i => Hour * (i + 1))
  }

  /** The reminder offsets are exactly the whole hours strictly below both
      the session length and the horizon, and only for sessions longer than
      an hour. */
  lemma HourMarksExact(totalSeconds: int, t: int)
    ensures t in HourMarks(totalSeconds) <==>
              totalSeconds > Hour && 0 < t < Min(totalSeconds, Horizon) && t % Hour == 0
  {
    var marks := HourMarks(totalSeconds);
    var limit := Min(totalSeconds, Horizon);
    if t in marks {
      var i :| 0 <= i < |marks| && marks[i] == t;
      assert totalSeconds > Hour;
      var q := (limit - 1) / Hour;
      assert Hour * q <= limit - 1;
      assert i + 1 <= q;
      assert Hour * (i + 1) <= Hour * q;
      assert t % Hour == 0 by { DivModHour(t, i + 1, 0); }
    }
    if totalSeconds > Hour && 0 < t < limit && t % Hour == 0 {
      var k := t / Hour;
      DivModHour(t, k, 0);
      var q := (limit - 1) / Hour;
      DivModHour(limit - 1, q, (limit - 1) % Hour);
      assert Hour * k <= limit - 1;
      assert k <= q;
      assert k >= 1;
      assert marks[k - 1] == t;
    }
  }

  lemma DivModHour(n: int, q: int, r: int)
    requires 0 <= r < Hour && n == Hour * q + r
    ensures n / Hour == q && n % Hour == r
  {
  }

  /** The reminder offsets start one hour in and are one hour apart. */
  lemma HourMarksSpacing(totalSeconds: int)
    ensures |HourMarks(totalSeconds)| > 0 ==> HourMarks(totalSeconds)[0] == Hour
    ensures forall i :: 0 < i < |HourMarks(totalSeconds)| ==>
              HourMarks(totalSeconds)[i] == HourMarks(totalSeconds)[i - 1] + Hour
  {
  }

  /** At most 23 silent reminders are ever planned, and a session the picker
      allows (1 to 120 minutes) gets at most one, at the one-hour mark. */
  lemma HourMarksBound(totalSeconds: int)
    ensures |HourMarks(totalSeconds)| <= 23
    ensures totalSeconds <= MaxMinutes * 60 ==>
              |HourMarks(totalSeconds)| <= 1 && HourMarks(totalSeconds) <= [Hour]
  {
  }

  /** The first half of scheduleNotificationsUpTo24Hours: the loop that
      collects the reminder offsets, one hour apart from the first hour on,
      while they stay below the session length capped at 24 hours. */
  method NotificationTimes(totalSeconds: int) returns (times: seq<int>)
    ensures times == HourMarks(totalSeconds)
  {
    var maxNotificationTime := Min(totalSeconds, Horizon);
    times := [];
    if totalSeconds > Hour {
      var currentTime := Hour;
      while currentTime < maxNotificationTime
        invariant currentTime == Hour * (|times| + 1)
        invariant Hour * |times| < maxNotificationTime
        invariant forall i :: 0 <= i < |times| ==> times[i] == Hour * (i + 1)
        decreases maxNotificationTime - currentTime
      {
        times := times + [currentTime];
        currentTime := currentTime + Hour;
      }
      DivModHour(maxNotificationTime - 1, |times|, maxNotificationTime - 1 - Hour * |times|);
    }
  }

  /** The sounding reminder that the session is over. */
  function BreakReminder(totalSeconds: int): Request
  {
    Request("LightPomo", "Time for a break!", Named("up.wav"), totalSeconds, false)
  }

  /** The silent reminder that the session is still running. */
  function StillRunning(time: int): Request
  {
    Request("LightPomo", "Timer still running...", Silent, time, false)
  }

  /** The notification centre holds exactly the plan for a session of
      `totalSeconds` seconds: the end-of-session reminder under "notif" and,
      under "intermediate-i", the silent reminder at the i-th hour mark.
      Nothing has been delivered yet. */
  ghost predicate HoldsPlan(center: NotificationCenter, totalSeconds: int)
    reads center
  {
    var marks := HourMarks(totalSeconds);
    && center.delivered == map[]
    && center.pending.Keys == {"notif"} + IdsBelow(|marks|)
    && center.pending["notif"] == BreakReminder(totalSeconds)
    && forall i :: 0 <= i < |marks| ==> center.pending[IntermediateId(i)] == StillRunning(marks[i])
  }

  /** The pending requests once the end-of-session reminder and the first
      `n` silent reminders at `times` have been submitted, in that order. */
  function Submitted(totalSeconds: int, times: seq<int>, n: nat): map<string, Request>
    requires n <= |times|
  {
    if n == 0 then map["notif" := BreakReminder(totalSeconds)]
    else Submitted(totalSeconds, times, n - 1)[IntermediateId(n - 1) := StillRunning(times[n - 1])]
  }

  /** Submitting the silent reminders one by one loses none of them and
      never overwrites the end-of-session reminder, because their
      identifiers are pairwise distinct and differ from "notif". */
  lemma {:induction false} SubmittedContents(totalSeconds: int, times: seq<int>, n: nat)
    requires n <= |times|
    ensures Submitted(totalSeconds, times, n).Keys == {"notif"} + IdsBelow(n)
    ensures Submitted(totalSeconds, times, n)["notif"] == BreakReminder(totalSeconds)
    ensures forall i :: 0 <= i < n ==> Submitted(totalSeconds, times, n)[IntermediateId(i)] == StillRunning(times[i])
  {
    if n > 0 {
      var prev, cur := Submitted(totalSeconds, times, n - 1), Submitted(totalSeconds, times, n);
      SubmittedContents(totalSeconds, times, n - 1);
      SubmittedStep(totalSeconds, times, n - 1);
      forall i | 0 <= i < n
        ensures cur[IntermediateId(i)] == StillRunning(times[i])
      {
        if i < n - 1 {
          assert IntermediateId(i) in IdsBelow(n - 1);
          assert cur[IntermediateId(i)] == prev[IntermediateId(i)];
        }
      }
    }
  }

  /** One more submission adds its own identifier and keeps every earlier
      entry, since its identifier is new. */
  lemma SubmittedStep(totalSeconds: int, times: seq<int>, n: nat)
    requires n < |times|
    requires Submitted(totalSeconds, times, n).Keys == {"notif"} + IdsBelow(n)
    ensures Submitted(totalSeconds, times, n + 1).Keys == {"notif"} + IdsBelow(n + 1)
    ensures Submitted(totalSeconds, times, n + 1)[IntermediateId(n)] == StillRunning(times[n])
    ensures forall id :: id in Submitted(totalSeconds, times, n) ==>
              Submitted(totalSeconds, times, n + 1)[id] == Submitted(totalSeconds, times, n)[id]
  {
    IdsBelowStep(n);
    IntermediateIdDistinct(n, n);
    forall i | 0 <= i < n
      ensures IntermediateId(i) != IntermediateId(n)
    {
      IntermediateIdDistinct(i, n);
    }
    assert IntermediateId(n) !in Submitted(totalSeconds, times, n);
  }

  /** The identifiers of the first `n` silent reminders. */
  function IdsBelow(n: nat): set<string>
  {
    set i | 0 <= i < n :: IntermediateId(i)
  }

  lemma IdsBelowStep(n: nat)
    ensures IdsBelow(n + 1) == IdsBelow(n) + {IntermediateId(n)}
  {
    assert IntermediateId(n) in IdsBelow(n + 1);
  }

  /** Replaces every notification with the plan for a session of
      `totalSeconds` seconds: clears the centre, schedules the end-of-session
      reminder (which clears it again), then adds the silent reminders. */
  method ScheduleNotificationsUpTo24Hours(center: NotificationCenter, totalSeconds: int)
    requires totalSeconds > 0
    modifies center
    ensures HoldsPlan(center, totalSeconds)
  {
    center.RemoveAllDeliveredNotifications();
    center.RemoveAllPendingNotificationRequests();
    ScheduleNotification(center, totalSeconds, "LightPomo", "Time for a break!");
    assert center.pending == Submitted(totalSeconds, [], 0);
    var notificationTimes := NotificationTimes(totalSeconds);
    for index := 0 to |notificationTimes|
      invariant center.delivered == map[]
      invariant center.pending == Submitted(totalSeconds, notificationTimes, index)
    {
      var time := notificationTimes[index];
      var content := Request("LightPomo", "Timer still running...", Silent, time, false);
      center.Add(IntermediateId(index), content);
    }
    SubmittedContents(totalSeconds, notificationTimes, |notificationTimes|);
  }

  /** The work screen's state. `timer` records whether the repeating
      one-second timer is scheduled; `played` records the sound cues played,
      in order. */
  class WorkView {
    var timerMinutes: int
    var timerSeconds: int
    var isRunning: bool
    var timer: bool
    var endDate: Option<int>
    var initialSetMinutes: int
    var showBreakView: bool
    var played: seq<Cue>
    const center: NotificationCenter

    /** The picker stays in range, a session is running exactly when an end
        instant is stored, and the display is in normal form. */
    ghost predicate Valid()
      reads this
    {
      && MinMinutes <= initialSetMinutes <= MaxMinutes
      && (isRunning <==> endDate.Some?)
      && WellFormed(Display(timerMinutes, timerSeconds))
    }

    constructor (center: NotificationCenter)
      ensures Valid() && this.center == center
      ensures timerMinutes == 25 && timerSeconds == 0 && initialSetMinutes == 25
      ensures !isRunning && !timer && endDate == None && !showBreakView && played == []
    {
      timerMinutes := 25;
      timerSeconds := 0;
      isRunning := false;
      timer := false;
      endDate := None;
      initialSetMinutes := 25;
      showBreakView := false;
      played := [];
      this.center := center;
    }

    /** The picker's minus button. It is disabled while a session runs or at
        one minute; an enabled press lowers the minutes by one. */
    method DecrementMinutes()
      requires Valid()
      modifies this`initialSetMinutes
      ensures Valid()
      ensures initialSetMinutes ==
                if !isRunning && old(initialSetMinutes) > MinMinutes then old(initialSetMinutes) - 1
                else old(initialSetMinutes)
    {
      if !(isRunning || initialSetMinutes == MinMinutes) {
        if initialSetMinutes > MinMinutes {
          initialSetMinutes := initialSetMinutes - 1;
        }
      }
    }

    /** The picker's plus button. It is disabled while a session runs or at
        120 minutes; an enabled press raises the minutes by one. */
    method IncrementMinutes()
      requires Valid()
      modifies this`initialSetMinutes
      ensures Valid()
      ensures initialSetMinutes ==
                if !isRunning && old(initialSetMinutes) < MaxMinutes then old(initialSetMinutes) + 1
                else old(initialSetMinutes)
    {
      if !(isRunning || initialSetMinutes == MaxMinutes) {
        if initialSetMinutes < MaxMinutes {
          initialSetMinutes := initialSetMinutes + 1;
        }
      }
    }

    /** Starts a session at instant `now`, unless one is already running:
        the display shows the chosen minutes, the end instant lies that many
        minutes ahead, the reminder plan replaces every notification, and the
        repeating timer is scheduled. */
    method StartWorkTimer(now: int)
      requires Valid()
      modifies this, center
      ensures Valid()
      ensures old(isRunning) ==> unchanged(this) && unchanged(center)
      ensures !old(isRunning) ==>
                && isRunning && timer
                && timerMinutes == initialSetMinutes && timerSeconds == 0
                && endDate == Some(now + initialSetMinutes * 60)
                && HoldsPlan(center, initialSetMinutes * 60)
      ensures initialSetMinutes == old(initialSetMinutes) && showBreakView == old(showBreakView)
      ensures played == old(played)
    {
      if !isRunning {
        isRunning := true;
        timerMinutes := initialSetMinutes;
        timerSeconds := 0;
        var totalSeconds := timerMinutes * 60 + timerSeconds;
        endDate := Some(now + totalSeconds);
        ScheduleNotificationsUpTo24Hours(center, totalSeconds);
        timer := true;
      }
    }

    /** One firing of the repeating timer at instant `now`. Without an end
        instant the timer is cancelled. Once the end instant is reached the
        session expires: the timer is cancelled, the display shows 00:00, the
        up sound plays and the break screen is requested. Before that the
        display shows the time left. */
    method Tick(now: int)
      requires Valid() && timer
      modifies this
      ensures Valid()
      ensures initialSetMinutes == old(initialSetMinutes)
      ensures old(endDate) == None ==>
                && !timer && !isRunning && endDate == None
                && timerMinutes == old(timerMinutes) && timerSeconds == old(timerSeconds)
                && showBreakView == old(showBreakView) && played == old(played)
      ensures old(endDate).Some? && old(endDate).value - now <= 0 ==>
                && !timer && !isRunning && endDate == None
                && timerMinutes == 0 && timerSeconds == 0
                && played == old(played) + [UpSound] && showBreakView
      ensures old(endDate).Some? && old(endDate).value - now > 0 ==>
                && timer && isRunning && endDate == old(endDate)
                && Display(timerMinutes, timerSeconds) == FromSeconds(old(endDate).value - now)
                && Total(Display(timerMinutes, timerSeconds)) == old(endDate).value - now
                && showBreakView == old(showBreakView) && played == old(played)
    {
      if endDate.None? {
        timer := false;
        isRunning := false;
        return;
      }
      var targetDate := endDate.value;
      var remaining := targetDate - now;
      if remaining <= 0 {
        timer := false;
        isRunning := false;
        endDate := None;
        timerMinutes := 0;
        timerSeconds := 0;
        played := played + [UpSound];
        showBreakView := true;
      } else {
        var display := FromSeconds(remaining);
        timerMinutes := display.minutes;
        timerSeconds := display.seconds;
      }
    }

    /** The Stop button: cancels the timer and the session, shows the chosen
        minutes again and removes every notification. */
    method Stop()
      requires Valid()
      modifies this, center
      ensures Valid()
      ensures !timer && !isRunning && endDate == None
      ensures timerMinutes == initialSetMinutes && timerSeconds == 0
      ensures center.pending == map[] && center.delivered == map[]
      ensures initialSetMinutes == old(initialSetMinutes) && showBreakView == old(showBreakView)
      ensures played == old(played)
    {
      timer := false;
      isRunning := false;
      endDate := None;
      timerMinutes := initialSetMinutes;
      timerSeconds := 0;
      center.RemoveAllDeliveredNotifications();
      center.RemoveAllPendingNotificationRequests();
    }

    /** The break screen's onDismiss callback, reached after the break screen
        dismissed itself (which clears the binding that presents it): work
        starts again at instant `now`. */
    method OnBreakDismiss(now: int)
      requires Valid()
      modifies this, center
      ensures Valid()
      ensures !showBreakView
      ensures old(isRunning) ==>
                && isRunning && endDate == old(endDate) && unchanged(center)
                && timer == old(timer)
                && timerMinutes == old(timerMinutes) && timerSeconds == old(timerSeconds)
      ensures !old(isRunning) ==>
                && isRunning && timer
                && timerMinutes == initialSetMinutes && timerSeconds == 0
                && endDate == Some(now + initialSetMinutes * 60)
                && HoldsPlan(center, initialSetMinutes * 60)
      ensures initialSetMinutes == old(initialSetMinutes) && played == old(played)
    {
      showBreakView := false;
      StartWorkTimer(now);
    }
  }
}
