/**
 * `ATTrackingStatusManager`: the App Tracking Transparency status, the IDFA
 * it unlocks, and the callbacks `requestATTracking` makes into the
 * configuration state manager.
 */
module Tracking {
  import opened Wrappers

  /** `ATTrackingManager.AuthorizationStatus` */
  datatype TrackingStatus = NotDetermined | Restricted | Denied | Authorized

  /** `ATTrackingStatusManager.idfa`: the advertising identifier's
      `uuidString`, only while tracking is authorized. */
  function Idfa(status: TrackingStatus, advertisingId: string): (r: Option<string>)
    ensures r.Some? <==> status == Authorized
    ensures r.Some? ==> r.value == advertisingId
  {
    if status == Authorized then Some(advertisingId) else None
  }

  /** The two `ConfigurationStateManager` methods `requestATTracking` calls. */
  datatype TrackingCallback = DidApprove | DidAsk

  /** What `requestATTracking` does for the status it reads: whether it shows
      the system prompt, and which callbacks it makes, in order; `answer` is
      the status the prompt returns when it is shown. */
  datatype TrackingRequest = TrackingRequest(prompted: bool, callbacks: seq<TrackingCallback>)

  /** `requestATTracking()` */
  function RequestATTracking(status: TrackingStatus, answer: TrackingStatus): (r: TrackingRequest)
    ensures r.prompted <==> status == NotDetermined
    ensures DidAsk in r.callbacks <==> status == NotDetermined || status == Authorized
    ensures DidApprove in r.callbacks <==>
      status == Authorized || (status == NotDetermined && answer == Authorized)
    ensures DidAsk in r.callbacks ==> r.callbacks[|r.callbacks| - 1] == DidAsk
    ensures |r.callbacks| <= 2 && (|r.callbacks| == 2 ==> r.callbacks[0] == DidApprove)
  {
    match status
    case NotDetermined =>
      TrackingRequest(true, (if answer == Authorized then [DidApprove] else []) + [DidAsk])
    case Authorized => TrackingRequest(false, [DidApprove, DidAsk])
    case _ => TrackingRequest(false, [])
  }

  /** `requestATTracking()` as its callers need it: the `default` branch
      (denied or restricted) also reaches `trackingDidAsked()`, so every
      status completes the tracking step. */
  function RequestATTrackingCompleting(status: TrackingStatus, answer: TrackingStatus): (r: TrackingRequest)
    ensures r.prompted <==> status == NotDetermined
    ensures DidAsk in r.callbacks && r.callbacks[|r.callbacks| - 1] == DidAsk
    ensures DidApprove in r.callbacks <==>
      status == Authorized || (status == NotDetermined && answer == Authorized)
  {
    match status
    case NotDetermined =>
      TrackingRequest(true, (if answer == Authorized then [DidApprove] else []) + [DidAsk])
    case Authorized => TrackingRequest(false, [DidApprove, DidAsk])
    case _ => TrackingRequest(false, [DidAsk])
  }

  /** The two requests differ only where the code returns early: for a
      denied or restricted status the code makes no callback at all. */
  lemma CompletingDiffersOnlyWhenRefused(status: TrackingStatus, answer: TrackingStatus)
    ensures status == NotDetermined || status == Authorized ==>
      RequestATTrackingCompleting(status, answer) == RequestATTracking(status, answer)
    ensures status == Denied || status == Restricted ==>
      RequestATTracking(status, answer).callbacks == []
      && RequestATTrackingCompleting(status, answer).callbacks == [DidAsk]
  {
  }
}
