/** The break screen: a five-minute mm:ss countdown that takes one second off
    the display on every firing of its one-second repeating timer. The firing
    that finds 00:00, or the "Continue Work" button, dismisses the screen and
    calls the owner's onDismiss callback. Each firing is an explicit call of
    Tick. */
module BreakTimer {
  import opened Notifications
  import opened Countdown

  /** The display a break starts from: 05:00. */
  const BreakStart := Display(5, 0)

  /** The break screen's state. `breakTimer` records whether the repeating
      one-second timer is scheduled; `presented` whether the screen is still
      shown; `onDismissCalls` how many times the owner's callback has run
      (a screen built without a callback never counts one); `played` the
      sound cues played, in order. The four animation flags drive the
      staggered fade-in of icon, title, timer and button. */
  class BreakView {
    var timerMinutes: int
    var timerSeconds: int
    var breakTimer: bool
    var showIcon: bool
    var showTitle: bool
    var showTimer: bool
    var showButton: bool
    var presented: bool
    var onDismissCalls: nat
    var played: seq<Cue>
    const hasOnDismiss: bool

    /** The display stays in normal form. */
    ghost predicate Valid()
      reads this
    {
      WellFormed(Display(timerMinutes, timerSeconds))
    }

    /** A freshly presented break screen shows 05:00 with no timer yet. */
    constructor (hasOnDismiss: bool)
      ensures Valid() && this.hasOnDismiss == hasOnDismiss
      ensures Display(timerMinutes, timerSeconds) == BreakStart && Total(BreakStart) == 300
      ensures !breakTimer && presented && onDismissCalls == 0 && played == []
      ensures !showIcon && !showTitle && !showTimer && !showButton
    {
      timerMinutes := 5;
      timerSeconds := 0;
      breakTimer := false;
      showIcon := false;
      showTitle := false;
      showTimer := false;
      showButton := false;
      presented := true;
      onDismissCalls := 0;
      played := [];
      this.hasOnDismiss := hasOnDismiss;
    }

    /** Schedules the repeating one-second timer. */
    method StartBreakTimer()
      requires Valid()
      modifies this`breakTimer
      ensures Valid() && breakTimer
    {
      breakTimer := true;
    }

    /** The screen appears: the break timer starts and the four elements are
        set to fade in. */
    method OnAppear()
      requires Valid()
      modifies this`breakTimer, this`showIcon, this`showTitle, this`showTimer, this`showButton
      ensures Valid() && breakTimer
      ensures showIcon && showTitle && showTimer && showButton
    {
      StartBreakTimer();
      showIcon := true;
      showTitle := true;
      showTimer := true;
      showButton := true;
    }

    /** Leaves the screen and runs the owner's callback, if there is one. */
    method DismissAndNotify()
      modifies this`presented, this`onDismissCalls
      ensures !presented
      ensures onDismissCalls == old(onDismissCalls) + if hasOnDismiss then 1 else 0
    {
      presented := false;
      if hasOnDismiss {
        onDismissCalls := onDismissCalls + 1;
      }
    }

    /** One firing of the repeating timer. Before 00:00 it takes exactly one
        second off the display; at 00:00 it cancels the timer, plays the up
        sound, dismisses the screen and calls the owner back once. */
    method Tick()
      requires Valid() && breakTimer
      modifies this
      ensures Valid()
      ensures showIcon == old(showIcon) && showTitle == old(showTitle)
      ensures showTimer == old(showTimer) && showButton == old(showButton)
      ensures old(Display(timerMinutes, timerSeconds)) != Display(0, 0) ==>
                && Total(old(Display(timerMinutes, timerSeconds))) > 0
                && Display(timerMinutes, timerSeconds) == Decrement(old(Display(timerMinutes, timerSeconds)))
                && breakTimer && presented == old(presented)
                && onDismissCalls == old(onDismissCalls) && played == old(played)
      ensures old(Display(timerMinutes, timerSeconds)) == Display(0, 0) ==>
                && Display(timerMinutes, timerSeconds) == Display(0, 0)
                && !breakTimer && !presented && played == old(played) + [UpSound]
                && onDismissCalls == old(onDismissCalls) + (if hasOnDismiss then 1 else 0)
    {
      if timerSeconds == 0 {
        if timerMinutes == 0 {
          breakTimer := false;
          played := played + [UpSound];
          DismissAndNotify();
        } else {
          timerMinutes := timerMinutes - 1;
          timerSeconds := 59;
        }
      } else {
        timerSeconds := timerSeconds - 1;
      }
      // LightPomo's clamps against a negative display, which never fire.
      timerMinutes := if timerMinutes < 0 then 0 else timerMinutes;
      timerSeconds := if timerSeconds < 0 then 0 else timerSeconds;
    }

    /** The "Continue Work" button: plays the up sound, cancels the break
        timer (so no further tick follows), dismisses the screen and calls the
        owner back once. The display is left as it was. */
    method ContinueWork()
      requires Valid()
      modifies this
      ensures Valid()
      ensures !breakTimer && !presented && played == old(played) + [UpSound]
      ensures onDismissCalls == old(onDismissCalls) + (if hasOnDismiss then 1 else 0)
      ensures timerMinutes == old(timerMinutes) && timerSeconds == old(timerSeconds)
      ensures showIcon == old(showIcon) && showTitle == old(showTitle)
      ensures showTimer == old(showTimer) && showButton == old(showButton)
    {
      played := played + [UpSound];
      breakTimer := false;
      DismissAndNotify();
    }

    /** The screen disappears: the break timer is cancelled and the four
        animation flags are reset for the next appearance. */
    method OnDisappear()
      requires Valid()
      modifies this`breakTimer, this`showIcon, this`showTitle, this`showTimer, this`showButton
      ensures Valid() && !breakTimer
      ensures !showIcon && !showTitle && !showTimer && !showButton
    {
      breakTimer := false;
      showIcon := false;
      showTitle := false;
      showTimer := false;
      showButton := false;
    }
  }

  /** A break shows 00:00 after exactly 300 ticks and not before, so the
      tick that ends it, dismissing the screen, is the 301st. */
  lemma BreakEndsOnTick301(k: nat)
    requires k <= Total(BreakStart)
    ensures Total(BreakStart) == 300
    ensures After(BreakStart, k) == Display(0, 0) <==> k == 300
  {
    ZeroAfterExactly(BreakStart, k);
  }
}
