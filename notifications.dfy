/** Local notifications as LightPomo uses them: the authorization check, the
    two ways a reminder is submitted (clearing everything first, or upserting
    by identifier), and the bundled sound files a reminder may name.

    The platform's notification centre is modelled as an object holding two
    maps from request identifier to request: the pending requests and the
    notifications already delivered. Delivery itself (moving a request from
    pending to delivered when its trigger fires) happens outside the app and
    is not modelled. */
module Notifications {

  /** The sound cues the app plays and names in notifications. */
  datatype Cue = UpSound | DownSound

  /** The bundled file that holds a cue. */
  function Resource(cue: Cue): (file: string)
    ensures |file| > 4 && file[|file| - 4..] == ".wav"
    ensures file == "up.wav" <==> cue == UpSound
    ensures file == "down.wav" <==> cue == DownSound
  {
    match cue
    case UpSound => "up.wav"
    case DownSound => "down.wav"
  }

  /** What a delivered notification plays: nothing, the system default sound,
      or a sound file from the app bundle. */
  datatype NotificationSound = Silent | DefaultSound | Named(file: string)

  /** A notification request: its content and a time-interval trigger that
      fires `timeInterval` seconds after the request is added. */
  datatype Request = Request(
    title: string,
    body: string,
    sound: NotificationSound,
    timeInterval: int,
    repeats: bool)

  /** The authorization states the platform reports. */
  datatype AuthorizationStatus = NotDetermined | Denied | Authorized | Provisional | Ephemeral

  /** The boolean that `checkAuth` hands to its completion, given the current
      status and, for an undetermined status, the user's answer to the
      authorization prompt (`allowed`) and whether the request failed.
      The answer is ignored: an undetermined status always reports true. */
  function CheckAuth(status: AuthorizationStatus, allowed: bool, failed: bool): (granted: bool)
    ensures granted <==> status == Authorized || status == NotDetermined
  {
    match status
    case Authorized => true
    case NotDetermined => true
    case _ => false
  }

  /** The shared notification centre. */
  class NotificationCenter {
    /** Requests waiting for their trigger, by identifier. */
    var pending: map<string, Request>
    /** Notifications already shown to the user, by identifier. */
    var delivered: map<string, Request>

    constructor ()
      ensures pending == map[] && delivered == map[]
    {
      pending := map[];
      delivered := map[];
    }

    method RemoveAllDeliveredNotifications()
      modifies this
      ensures delivered == map[] && pending == old(pending)
    {
      delivered := map[];
    }

    method RemoveAllPendingNotificationRequests()
      modifies this
      ensures pending == map[] && delivered == old(delivered)
    {
      pending := map[];
    }

    /** Adds a request; a pending request with the same identifier is replaced. */
    method Add(identifier: string, request: Request)
      modifies this
      ensures pending == old(pending)[identifier := request]
      ensures delivered == old(delivered)
    {
      pending := pending[identifier := request];
    }
  }

  /** Clears every delivered and pending notification, then adds one
      non-repeating request "notif" that plays the up sound `seconds` after
      submission. The platform's interval trigger rejects a non-positive
      interval, hence the precondition. */
  method ScheduleNotification(center: NotificationCenter, seconds: int, title: string, body: string)
    requires seconds > 0
    modifies center
    ensures center.delivered == map[]
    ensures center.pending.Keys == {"notif"}
    ensures center.pending["notif"].title == title && center.pending["notif"].body == body
    ensures center.pending["notif"].sound == Named("up.wav")
    ensures center.pending["notif"].timeInterval == seconds && !center.pending["notif"].repeats
  {
    center.RemoveAllDeliveredNotifications();
    center.RemoveAllPendingNotificationRequests();
    // The content starts with the default sound, which the up sound's file
    // then replaces.
    var sound := DefaultSound;
    sound := Named(Resource(UpSound));
    var request := Request(title, body, sound, seconds, false);
    center.Add("notif", request);
  }

  /** Adds a non-repeating request under `identifier` that plays the up sound
      `seconds` after submission, without clearing anything: only the entry
      under `identifier` is inserted or replaced. */
  method AddNotification(center: NotificationCenter, seconds: int, title: string, body: string, identifier: string)
    requires seconds > 0
    modifies center
    ensures center.delivered == old(center.delivered)
    ensures center.pending.Keys == old(center.pending.Keys) + {identifier}
    ensures center.pending[identifier] == Request(title, body, Named("up.wav"), seconds, false)
    ensures forall id :: id in old(center.pending) && id != identifier ==>
              center.pending[id] == old(center.pending[id])
  {
    var request := Request(title, body, Named(Resource(UpSound)), seconds, false);
    center.Add(identifier, request);
  }
}
