/** The first revision of the work timer: the mm:ss display itself is the
    countdown, and every firing of the one-second repeating timer takes one
    second off it. The firing that finds 00:00 ends the session and puts the
    chosen minutes back on the display. Each firing is an explicit call of
    Tick. */
module InitialWorkTimer {
  import opened Notifications
  import opened Countdown

  /** Bounds of the minute picker. */
  const MinMinutes := 1
  const MaxMinutes := 120

  /** The first work screen's state. `timer` records whether the repeating
      one-second timer is scheduled; `played` records the sound cues played,
      in order. */
  class InitialWorkView {
    var timerMinutes: int
    var timerSeconds: int
    var isRunning: bool
    var timer: bool
    var initialSetMinutes: int
    var played: seq<Cue>
    const center: NotificationCenter

    /** The picker stays in range and the display is in normal form. */
    ghost predicate Valid()
      reads this
    {
      && MinMinutes <= initialSetMinutes <= MaxMinutes
      && WellFormed(Display(timerMinutes, timerSeconds))
    }

    constructor (center: NotificationCenter)
      ensures Valid() && this.center == center
      ensures timerMinutes == 25 && timerSeconds == 0 && initialSetMinutes == 25
      ensures !isRunning && !timer && played == []
    {
      timerMinutes := 25;
      timerSeconds := 0;
      isRunning := false;
      timer := false;
      initialSetMinutes := 25;
      played := [];
      this.center := center;
    }

    /** The picker's minus button. It is disabled while the timer runs or at
        one minute; an enabled press lowers the minutes by one. */
    method DecrementMinutes()
      requires Valid()
      modifies this`initialSetMinutes
      ensures Valid()
      ensures initialSetMinutes ==
                if !isRunning && old(initialSetMinutes) > MinMinutes then old(initialSetMinutes) - 1
                else old(initialSetMinutes)
    {
      if !(isRunning || initialSetMinutes == MinMinutes) {
        if initialSetMinutes > MinMinutes {
          initialSetMinutes := initialSetMinutes - 1;
        }
      }
    }

    /** The picker's plus button. It is disabled while the timer runs or at
        120 minutes; an enabled press raises the minutes by one. */
    method IncrementMinutes()
      requires Valid()
      modifies this`initialSetMinutes
      ensures Valid()
      ensures initialSetMinutes ==
                if !isRunning && old(initialSetMinutes) < MaxMinutes then old(initialSetMinutes) + 1
                else old(initialSetMinutes)
    {
      if !(isRunning || initialSetMinutes == MaxMinutes) {
        if initialSetMinutes < MaxMinutes {
          initialSetMinutes := initialSetMinutes + 1;
        }
      }
    }

    /** The Start button, ignored while the timer runs: the display shows
        the chosen minutes, a single reminder replaces every notification,
        and the repeating timer is scheduled. */
    method Start()
      requires Valid()
      modifies this, center
      ensures Valid()
      ensures old(isRunning) ==> unchanged(this) && unchanged(center)
      ensures !old(isRunning) ==>
                && isRunning && timer
                && timerMinutes == initialSetMinutes && timerSeconds == 0
                && center.delivered == map[] && center.pending.Keys == {"notif"}
                && center.pending["notif"] == Request("LightPomo", "Time for a break!", Named("up.wav"), initialSetMinutes * 60, false)
      ensures initialSetMinutes == old(initialSetMinutes) && played == old(played)
    {
      if !isRunning {
        isRunning := true;
        timerMinutes := initialSetMinutes;
        timerSeconds := 0;
        ScheduleNotification(center, timerMinutes * 60 + timerSeconds, "LightPomo", "Time for a break!");
        timer := true;
      }
    }

    /** One firing of the repeating timer. Before 00:00 it takes exactly one
        second off the display; at 00:00 it cancels the timer, plays the up
        sound and shows the chosen minutes again. */
    method Tick()
      requires Valid() && timer
      modifies this
      ensures Valid()
      ensures initialSetMinutes == old(initialSetMinutes)
      ensures old(Display(timerMinutes, timerSeconds)) != Display(0, 0) ==>
                && Total(old(Display(timerMinutes, timerSeconds))) > 0
                && Display(timerMinutes, timerSeconds) == Decrement(old(Display(timerMinutes, timerSeconds)))
                && timer && isRunning == old(isRunning) && played == old(played)
      ensures old(Display(timerMinutes, timerSeconds)) == Display(0, 0) ==>
                && !timer && !isRunning && played == old(played) + [UpSound]
                && timerMinutes == initialSetMinutes && timerSeconds == 0
    {
      if timerSeconds == 0 {
        if timerMinutes == 0 {
          timer := false;
          isRunning := false;
          played := played + [UpSound];
          timerMinutes := initialSetMinutes;
          timerSeconds := 0;
        } else {
          timerMinutes := timerMinutes - 1;
          timerSeconds := 59;
        }
      } else {
        timerSeconds := timerSeconds - 1;
      }
      // LightPomo's clamps against a negative display, which never fire.
      timerMinutes := if timerMinutes < 0 then 0 else timerMinutes;
      timerSeconds := if timerSeconds < 0 then 0 else timerSeconds;
    }

    /** The Stop button: cancels the timer, shows the chosen minutes again
        and removes every notification. */
    method Stop()
      requires Valid()
      modifies this, center
      ensures Valid()
      ensures !timer && !isRunning
      ensures timerMinutes == initialSetMinutes && timerSeconds == 0
      ensures center.pending == map[] && center.delivered == map[]
      ensures initialSetMinutes == old(initialSetMinutes) && played == old(played)
    {
      timer := false;
      isRunning := false;
      timerMinutes := initialSetMinutes;
      timerSeconds := 0;
      center.RemoveAllDeliveredNotifications();
      center.RemoveAllPendingNotificationRequests();
    }
  }
}
