# LightPomo timer logic in Dafny

LightPomo is a work/break interval timer for iOS. Its timing logic lives inside
three SwiftUI screens and one notification helper. This project lifts that logic
out as small sequential state machines and proves their properties:

- **Wall-clock work timer** (`WorkView`, module `WorkTimer`). Starting a session
  stores an end instant. Each one-second tick either derives the mm:ss display
  from the time left, or performs the expiry transition: the timer stops, the
  display shows 00:00, the up sound plays and the break screen opens. Stop
  cancels everything. The break screen's dismissal callback starts work again.
  Starting also plans the reminders: a sounding "notif" at the end of the
  session and, for sessions over an hour, a silent "intermediate-i" at every
  whole hour inside the session, capped at 24 hours.
- **First work timer** (`InitialWorkView`, module `InitialWorkTimer`). This is
  the earlier revision of the work screen. Every tick takes one second off the
  mm:ss display, and the tick that finds 00:00 puts the chosen minutes back.
- **Break timer** (`BreakView`, module `BreakTimer`). A 05:00 countdown that
  decrements the same way. Its last tick, or the "Continue Work" button,
  dismisses the screen and calls the owner back.
- **Notifications** (module `Notifications`). `checkAuth` maps the
  authorization status to a bool. `scheduleNotification` clears the centre and
  then adds "notif". `addNotification` upserts by identifier and clears
  nothing. The platform's notification centre is a class holding two maps from
  identifier to request, one for pending requests and one for delivered
  notifications.
- Module `Countdown` holds the mm:ss arithmetic that the two decrementing
  timers share. Module `Decimal` renders the index in "intermediate-i".

Modelling conventions:

- Time is whole seconds (`int`). The current instant is a parameter.
- Each firing of a repeating `Timer` is an explicit `Tick` call. `Tick` requires
  that the timer is scheduled, because the run loop never fires a cancelled
  timer.
- A cancelled or absent `Timer?` is a `bool` field that is false.
- Sounds that play are appended to a `played: seq<Cue>` field.
- The break screen's optional `onDismiss` closure is counted in `onDismissCalls`.
  What the closure does in the work screen is `WorkView.OnBreakDismiss`.
- A disabled SwiftUI button does not fire. So a press on a disabled picker
  button is modelled as a call that changes nothing. The Stop button is shown
  only while running, but its action does not depend on that, so `Stop`
  requires only the class invariant `Valid()`, not a running timer.

Facts about the code that the model keeps as they are:

- The app has no phase variable, persists nothing and does not resynchronise
  when it returns to the foreground.
- The break always lasts 5 minutes and starts at 05:00 on its own one-second
  timer, not at an instant derived from the end of the work session.
- Reminder identifiers are "notif" and "intermediate-i".
- Reminder intervals are seconds after submission.
- No reminder is planned for the end of the break.

## Model

| member | source | states |
|---|---|---|
| `Notifications.CheckAuth` | LightPomo/Model/PomodoroNotification.swift:13-26 | the completion gets true exactly for an authorized or a not-yet-determined status; the user's answer and any error from the prompt are ignored |
| `Notifications.NotificationCenter.RemoveAllDeliveredNotifications` | LightPomo/Model/PomodoroNotification.swift:33 | delivered notifications are emptied; pending requests are untouched |
| `Notifications.NotificationCenter.RemoveAllPendingNotificationRequests` | LightPomo/Model/PomodoroNotification.swift:34 | pending requests are emptied; delivered notifications are untouched |
| `Notifications.NotificationCenter.Add` | LightPomo/Model/PomodoroNotification.swift:71 | adding a request inserts it under its identifier, replacing any pending request with the same identifier |
| `Notifications.ScheduleNotification` | LightPomo/Model/PomodoroNotification.swift:29-52 | afterwards nothing is delivered and exactly one request is pending, "notif", with the given title and body, the "up.wav" sound (overriding the default), firing `seconds` after submission, non-repeating |
| `Notifications.AddNotification` | LightPomo/Model/PomodoroNotification.swift:55-72 | nothing is cleared: the keys grow by `identifier` only, the entry under `identifier` holds the title, body, "up.wav", the interval and no repeat, and every other pending entry and all delivered ones are unchanged |
| `Notifications.Resource` | LightPomo/Model/PomodoroAudio.swift:15-22 | UpSound is "up.wav" and DownSound is "down.wav": each cue has its own ".wav" file |
| `Countdown.FromSeconds` | LightPomo/VIew/WorkView.swift:169-172 | the display derived from a remaining time has seconds in 0..59 and stands for exactly that many seconds |
| `Countdown.FromSecondsRoundTrip` | LightPomo/VIew/WorkView.swift:169-172 | deriving the display from a normal-form display's total gives the same display, so the minutes/seconds split is unique |
| `Countdown.Decrement` | LightPomo/VIew/WorkViewIntital.swift:98-113 | a tick on a display other than 00:00 keeps seconds in 0..59 and minutes non-negative and takes exactly one second off the total |
| `Countdown.After` | LightPomo/VIew/BreakView.swift:98-117 | after k ticks that find no 00:00 the display is in normal form and its total is exactly k seconds lower |
| `Countdown.ZeroAfterExactly` | LightPomo/VIew/BreakView.swift:99-106 | counting down, the display reads 00:00 after k ticks if and only if k is its starting total |
| `Countdown.SessionTicks` | LightPomo/VIew/WorkViewIntital.swift:97-110 | a countdown started at M:00 reads 00:00 after exactly M*60 ticks and at no earlier tick |
| `Decimal.NatToString` | LightPomo/VIew/WorkView.swift:216 | the decimal rendering has one character below ten and at least two from ten on |
| `Decimal.NatToStringInjective` | LightPomo/VIew/WorkView.swift:216 | different indices render as different strings |
| `Decimal.IntermediateId` | LightPomo/VIew/WorkView.swift:216 | every reminder identifier starts with "intermediate-" followed by at least one character |
| `Decimal.IntermediateIdDistinct` | LightPomo/VIew/WorkView.swift:208-221 | identifiers of different indices differ, and none equals "notif" |
| `WorkTimer.HourMarksExact` | LightPomo/VIew/WorkView.swift:195-205 | a time is a silent-reminder offset if and only if the session is longer than an hour and the time is a positive whole hour strictly below both the session length and 24 hours |
| `WorkTimer.HourMarksSpacing` | LightPomo/VIew/WorkView.swift:200-204 | the offsets start at one hour and are exactly one hour apart, so they strictly increase |
| `WorkTimer.HourMarksBound` | LightPomo/VIew/WorkView.swift:195-205 | at most 23 silent reminders are planned, and a session of at most 120 minutes gets at most one, at the one-hour mark |
| `WorkTimer.NotificationTimes` | LightPomo/VIew/WorkView.swift:195-205 | the loop collects exactly the hour-mark offsets, in increasing order |
| `WorkTimer.SubmittedContents` | LightPomo/VIew/WorkView.swift:207-222 | submitting the silent reminders one by one leaves "notif" plus exactly the first n identifiers, each holding its own offset, and "notif" is never overwritten |
| `WorkTimer.SubmittedStep` | LightPomo/VIew/WorkView.swift:215-221 | one more submission adds its own new identifier, holding its offset, and leaves every earlier entry as it was |
| `WorkTimer.IdsBelowStep` | LightPomo/VIew/WorkView.swift:208 | the identifiers of the first n+1 reminders are those of the first n plus "intermediate-n" |
| `WorkTimer.ScheduleNotificationsUpTo24Hours` | LightPomo/VIew/WorkView.swift:179-223 | afterwards nothing is delivered, and the pending requests are exactly "notif" at the session length plus the silent "intermediate-i" at each hour-mark offset |
| `WorkTimer.WorkView.constructor` | LightPomo/VIew/WorkView.swift:12-22 | a new work screen shows 25:00 with 25 minutes chosen, is not running, stores no end instant and shows no break |
| `WorkTimer.WorkView.DecrementMinutes` | LightPomo/VIew/WorkView.swift:46-55 | an enabled press lowers the minutes by one, but never below 1; a press while running or at 1 changes nothing |
| `WorkTimer.WorkView.IncrementMinutes` | LightPomo/VIew/WorkView.swift:65-74 | an enabled press raises the minutes by one, but never above 120; a press while running or at 120 changes nothing |
| `WorkTimer.WorkView.StartWorkTimer` | LightPomo/VIew/WorkView.swift:127-146 | while running nothing changes; otherwise the session runs with display M:00, end instant now + M*60 and the full reminder plan for M*60 seconds; running holds exactly when an end instant is stored |
| `WorkTimer.WorkView.Tick` | LightPomo/VIew/WorkView.swift:147-174 | with no end instant the timer is cancelled and the display kept; at or past the end instant the session expires (timer and end instant cleared, 00:00, up sound, break screen requested); before it the display is `FromSeconds` of the time left, so it has seconds in 0..59 and stands for exactly the time left |
| `WorkTimer.WorkView.Stop` | LightPomo/VIew/WorkView.swift:94-104 | the timer, running flag and end instant are cleared, the display shows the chosen minutes at :00, and all pending and delivered notifications are removed |
| `WorkTimer.WorkView.OnBreakDismiss` | LightPomo/VIew/WorkView.swift:118-122 | the break screen is no longer requested; if a session was already running, its timer, end instant, display and notifications are kept, otherwise a session starts as StartWorkTimer states |
| `InitialWorkTimer.InitialWorkView.constructor` | LightPomo/VIew/WorkViewIntital.swift:12-18 | a new first work screen shows 25:00 with 25 minutes chosen and is not running |
| `InitialWorkTimer.InitialWorkView.DecrementMinutes` | LightPomo/VIew/WorkViewIntital.swift:42-53 | an enabled press lowers the minutes by one, but never below 1; a press while running or at 1 changes nothing |
| `InitialWorkTimer.InitialWorkView.IncrementMinutes` | LightPomo/VIew/WorkViewIntital.swift:63-73 | an enabled press raises the minutes by one, but never above 120; a press while running or at 120 changes nothing |
| `InitialWorkTimer.InitialWorkView.Start` | LightPomo/VIew/WorkViewIntital.swift:83-97 | while running nothing changes; otherwise the timer runs with display M:00, and the only notification is "notif" at M*60 seconds |
| `InitialWorkTimer.InitialWorkView.Tick` | LightPomo/VIew/WorkViewIntital.swift:97-120 | a tick on a display other than 00:00 is exactly one Decrement; the tick at 00:00 cancels the timer, clears running, plays the up sound and shows the chosen minutes at :00 |
| `InitialWorkTimer.InitialWorkView.Stop` | LightPomo/VIew/WorkViewIntital.swift:129-138 | the timer and running flag are cleared, the display shows the chosen minutes at :00, and all notifications are removed |
| `BreakTimer.BreakView.constructor` | LightPomo/VIew/BreakView.swift:11-24 | a break screen starts at 05:00 (300 seconds), presented, with no timer, no callback run and all animation flags off |
| `BreakTimer.BreakView.StartBreakTimer` | LightPomo/VIew/BreakView.swift:97-98 | the repeating break timer is scheduled |
| `BreakTimer.BreakView.OnAppear` | LightPomo/VIew/BreakView.swift:69-85 | the break timer is scheduled and all four animation flags are on |
| `BreakTimer.BreakView.DismissAndNotify` | LightPomo/VIew/BreakView.swift:105-106 | the screen is dismissed and the owner's callback, if there is one, runs exactly once |
| `BreakTimer.BreakView.Tick` | LightPomo/VIew/BreakView.swift:98-117 | a tick on a display other than 00:00 is exactly one Decrement; the tick at 00:00 cancels the timer, plays the up sound, dismisses the screen and calls the owner back once |
| `BreakTimer.BreakView.ContinueWork` | LightPomo/VIew/BreakView.swift:55-61 | the up sound plays, the break timer is cancelled so no tick can follow, the screen is dismissed and the owner is called back once |
| `BreakTimer.BreakView.OnDisappear` | LightPomo/VIew/BreakView.swift:86-94 | the break timer is cancelled and all four animation flags are reset |
| `BreakTimer.BreakEndsOnTick301` | LightPomo/VIew/BreakView.swift:14-15 | starting from 05:00 the display reads 00:00 after 300 ticks and after no fewer, so by `Tick`'s contract the tick that ends the break is the 301st |

## Left out

- Layout, colours, fonts and the animation delays of every `body` are
  presentation only. The four animation flags of the break screen are kept.
- `Timer.scheduledTimer` and the run loop are not modelled. Ticks are explicit,
  serialised calls, so there is no concurrency.
- `Date` and `TimeInterval` are doubles in the source; here they are whole
  seconds. `Int(remaining)` truncation is therefore not modelled. With
  fractional time, a remaining time below one second shows 00:00 before the
  session expires. With whole seconds that cannot happen.
- The `#if DEBUG` split and the preview-environment check around scheduling
  are not modelled. Both branches are identical, and the model always
  schedules.
- The real asynchronous notification centre is not modelled. Neither is
  delivery itself, the moving of a request from pending to delivered.
- The asynchronous callback shape of `checkAuth` is not modelled.
  `CheckAuth` returns the value passed to the completion.
- Audio playback (`PomodoroAudio.play` in LightPomo/Model/PomodoroAudio.swift)
  is recorded as cues in `played`. The mapping from cue to file is modelled as
  `Resource`. Loading the file and `AVAudioPlayer` are not modelled.
- The demo screen LightPomo/VIew/Demos/TestView.swift and the placeholder
  screens under "New Group" are not part of this model.
- The `onDisappear` handler of both work screens is not modelled. It cancels
  the timer but leaves `isRunning` set.
- `ScheduleNotification`, `AddNotification`, `WorkTimer.ScheduleNotificationsUpTo24Hours`:
  each requires a positive interval, because the platform's interval trigger
  rejects non-positive intervals. The third inherits this from the first.
  Every caller passes a positive interval: 5 seconds from the demo screen and
  M*60, at least 60 seconds, from the work screens. `addNotification` is never called.
- WorkView's `Valid()` does not include "a scheduled timer implies running".
  That holds in every reachable state, so `Tick`'s no-end-instant branch never
  runs in practice. It is modelled as written and its effect is stated.
