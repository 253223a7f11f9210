/**
 * What the launch state machine guarantees, over all inputs.
 */
module LaunchFacts {
  import opened Wrappers
  import opened Urls
  import opened Metrics
  import opened TrackingUrl
  import opened AttributionUrl
  import opened Tracking
  import opened Storage
  import opened Remote
  import opened Launch

  /** Once the state has left loading it never returns to it, whatever
      events follow. */
  lemma {:induction false} RunNeverReturnsToLoading(w: World, platform: Platform, events: seq<Event>)
    requires w.appState != Loading
    ensures Run(w, platform, events).appState != Loading
    decreases |events|
  {
    if events != [] {
      var w1 := Step(w, platform, events[0]);
      assert Settles(w, w1);
      RunNeverReturnsToLoading(w1, platform, events[1..]);
    }
  }

  /** With remote mode off, `performFetchedData` sets original exactly when
      both prompts have completed, and otherwise changes nothing. */
  lemma PerformFetchedDataDisabled(w: World, platform: Platform)
    requires !w.hasConfigEnabled
    ensures w.hasTrackingCompleted && w.hasNotificationCompleted ==>
      PerformFetchedData(w, platform) == w.(appState := Original)
    ensures !(w.hasTrackingCompleted && w.hasNotificationCompleted) ==>
      PerformFetchedData(w, platform) == w
  {
  }

  /** With remote mode on and a stored URL string that parses, the state
      becomes magic at that URL with no SDK call and no request; otherwise
      the attribution SDK is started and the watchdog armed. */
  lemma PerformFetchedDataEnabled(w: World, platform: Platform)
    requires w.hasConfigEnabled
    ensures SavedURL(w, platform).Some? ==>
      var r := PerformFetchedData(w, platform);
      && r.appState == Magic && r.fetchedURL == SavedURL(w, platform)
      && r.log == w.log && r.defaults == w.defaults
    ensures SavedURL(w, platform).None? ==>
      PerformFetchedData(w, platform) == w.(log := w.log + [StartAppsFlyer, ScheduleWatchdog])
  {
  }

  /** The watchdog turns loading into original and leaves a decided state alone. */
  lemma CheckIfProblemStateCases(w: World)
    ensures w.appState == Loading ==> CheckIfProblemState(w) == w.(appState := Original)
    ensures w.appState != Loading ==> CheckIfProblemState(w) == w
  {
  }

  /** `fetchData` without bundle id, salt or base URL does nothing. */
  lemma FetchDataNeedsInputs(w: World, platform: Platform, inputs: Inputs)
    requires platform.bundleIdentifier.None? || w.remote.salt.None? || w.remote.savedBaseURLString.None?
    ensures FetchData(w, platform, inputs) == w
  {
  }

  /** After `fetchMetrics`: a thrown error leaves state, URL and database as
      they were; a response with no tracking URL gives original; a tracking
      URL is linked, which gives magic whatever the state was before,
      original included. */
  lemma HandleMetricsOutcomes(w: World, platform: Platform, inputs: Inputs, bundle: string, call: MetricsCall)
    ensures var r := HandleMetrics(w, platform, inputs, bundle, call);
      var link := if call.result.Success? then
        BuildTrackingURL(platform.syntax, call.result.value, bundle, Idfa(inputs.trackingStatus, inputs.advertisingId), inputs.oneSignalId)
        else None;
      && (call.result.Failure? ==>
            r.appState == w.appState && r.fetchedURL == w.fetchedURL && r.defaults == w.defaults)
      && (call.result.Success? && link.None? ==>
            r.appState == Original && r.fetchedURL == w.fetchedURL && r.defaults == w.defaults)
      && (link.Some? ==>
            r.appState == Magic && r.fetchedURL == link && StringAt(r.defaults, UrlString) == Some(link.value.absoluteString))
  {
    match call.result
    case Failure(_) =>
    case Success(response) =>
      HandleResponseOutcome(w, platform, inputs, bundle, call, response);
  }

  /** A response: original without a tracking URL, linked with one. */
  lemma HandleResponseOutcome(w: World, platform: Platform, inputs: Inputs, bundle: string, call: MetricsCall,
                              response: MetricsResponse)
    requires call.result == Success(response)
    ensures var r := HandleMetrics(w, platform, inputs, bundle, call);
      var link := BuildTrackingURL(platform.syntax, response, bundle, Idfa(inputs.trackingStatus, inputs.advertisingId), inputs.oneSignalId);
      && (link.None? ==> r.appState == Original && r.fetchedURL == w.fetchedURL && r.defaults == w.defaults)
      && (link.Some? ==>
            r.appState == Magic && r.fetchedURL == link && StringAt(r.defaults, UrlString) == Some(link.value.absoluteString))
  {
    var w1 := w.(log := w.log + (if call.request.Some? then [SendMetricsRequest(call.request.value)] else []));
    match BuildTrackingURL(platform.syntax, response, bundle, Idfa(inputs.trackingStatus, inputs.advertisingId), inputs.oneSignalId)
    case None =>
    case Some(url) =>
      assert HandleMetrics(w, platform, inputs, bundle, call) == PerformLink(w1, url);
  }

  /** The request, when one was built, is logged, whatever came back. */
  lemma HandleMetricsLog(w: World, platform: Platform, inputs: Inputs, bundle: string, call: MetricsCall)
    ensures var r := HandleMetrics(w, platform, inputs, bundle, call);
      && (call.request.None? ==> r.log == w.log)
      && (call.request.Some? ==> r.log == w.log + [SendMetricsRequest(call.request.value)])
  {
    var w1 := w.(log := w.log + (if call.request.Some? then [SendMetricsRequest(call.request.value)] else []));
    var r := HandleMetrics(w, platform, inputs, bundle, call);
    match call.result
    case Failure(_) =>
      assert r == w1;
    case Success(response) =>
      match BuildTrackingURL(platform.syntax, response, bundle, Idfa(inputs.trackingStatus, inputs.advertisingId), inputs.oneSignalId)
      case None =>
        assert r == w1.(appState := Original);
      case Some(url) =>
        assert r == PerformLink(w1, url);
  }

  /** `fetchData` sends no request when the base URL does not make one, and
      reports that as an error that leaves the state alone. */
  lemma FetchDataInvalidURL(w: World, platform: Platform, inputs: Inputs)
    requires platform.bundleIdentifier.Some? && w.remote.salt.Some? && w.remote.savedBaseURLString.Some?
    requires MetricsRequest(platform.syntax, platform.md5, w.remote.savedBaseURLString.value, platform.bundleIdentifier.value,
                            w.remote.salt.value, Idfa(inputs.trackingStatus, inputs.advertisingId)).Failure?
    ensures var r := FetchData(w, platform, inputs);
      r.log == w.log && r.appState == w.appState && r.fetchedURL == w.fetchedURL
  {
    HandleMetricsOutcomes(w, platform, inputs, platform.bundleIdentifier.value, MetricsCallOf(w, platform, inputs));
    HandleMetricsLog(w, platform, inputs, platform.bundleIdentifier.value, MetricsCallOf(w, platform, inputs));
  }

  /** The attribution path: it links the AppsFlyer URL only when the SDK
      configured successfully, the install is not organic, there are
      attribution parameters and the URL builds; in every other case it
      falls back to `fetchData`. */
  lemma AttributionFallsBack(w: World, platform: Platform, inputs: Inputs, isSuccess: bool)
    ensures var w1 := w.(hasAppsFlyerConfigured := isSuccess);
      && (!isSuccess || inputs.isOrganic || inputs.attributionParameters == map[] || AttributionLink(w1, platform, inputs).None? ==>
            AppsFlyerDidConfigured(w, platform, inputs, isSuccess) == FetchData(w1, platform, inputs))
      && (isSuccess && !inputs.isOrganic && inputs.attributionParameters != map[] && AttributionLink(w1, platform, inputs).Some? ==>
            AppsFlyerDidConfigured(w, platform, inputs, isSuccess) == PerformLink(w1, AttributionLink(w1, platform, inputs).value))
  {
  }

  /** `requestPermissions` does nothing once remote mode is on or tracking
      has been asked; otherwise it marks tracking asked exactly for a status
      that is undetermined or authorized, and always ends by requesting
      notifications. */
  lemma RequestPermissionsCases(w: World, inputs: Inputs)
    ensures w.hasConfigEnabled || w.hasTrackingCompleted ==> RequestPermissions(w, inputs) == w
    ensures !w.hasConfigEnabled && !w.hasTrackingCompleted ==>
      var r := RequestPermissions(w, inputs);
      && (r.hasTrackingCompleted <==> inputs.trackingStatus == NotDetermined || inputs.trackingStatus == Authorized)
      && (r.hasTrackingApproved <==>
            (w.hasTrackingApproved || inputs.trackingStatus == Authorized
             || (inputs.trackingStatus == NotDetermined && inputs.promptAnswer == Authorized)))
      && |r.log| > |w.log| && r.log[|r.log| - 1] == RequestNotifications
  {
  }

  /** The events that occur while tracking is denied or restricted and
      remote config neither activates nor was stored. */
  predicate DeniedEvent(e: Event) {
    match e
    case Setup(inputs) =>
      (inputs.trackingStatus == Denied || inputs.trackingStatus == Restricted) && !inputs.remoteOutcome.Activated?
    case FollowUp(inputs) => inputs.trackingStatus == Denied || inputs.trackingStatus == Restricted
    case NotificationAsked => true
    case NotificationApproved => true
    case Watchdog => true
    case _ => false
  }

  /** Loading, remote mode off, tracking not asked, and no watchdog armed. */
  predicate StuckLoading(w: World) {
    && w.appState == Loading && !w.hasConfigEnabled && !w.hasTrackingCompleted && !w.remote.isRemoteEnable
    && ScheduleWatchdog !in w.log
  }

  /** For a refused status `requestPermissions` makes no tracking callback
      and only requests notifications. */
  lemma RefusedRequestOnlyAsksNotifications(w: World, inputs: Inputs)
    requires !w.hasConfigEnabled && !w.hasTrackingCompleted
    requires inputs.trackingStatus == Denied || inputs.trackingStatus == Restricted
    ensures RequestPermissions(w, inputs) == w.(log := w.log + [RequestNotifications])
  {
    assert RequestATTracking(inputs.trackingStatus, inputs.promptAnswer) == TrackingRequest(false, []);
    assert w.log + [] == w.log;
  }

  lemma DeniedStepStaysLoading(w: World, platform: Platform, e: Event)
    requires StuckLoading(w) && DeniedEvent(e)
    ensures StuckLoading(Step(w, platform, e))
  {
    match e
    case Setup(inputs) =>
      var w0 := WithFetchedConfig(w, inputs);
      assert w0.remote == w.remote;
      RefusedRequestOnlyAsksNotifications(w0, inputs);
      var w1 := RequestPermissions(w0, inputs);
      assert ScheduleWatchdog !in w1.log;
      var w2 := AdoptRemoteFlags(w1);
      assert ScheduleWatchdog !in w2.log by {
        match w1.remote.appsFlyerDevKey
        case Some(devKey) => assert w2.log == w1.log + [ConfigureAppsFlyer(devKey)];
        case None =>
      }
      assert Step(w, platform, e) == w2;
    case FollowUp(inputs) =>
      RefusedRequestOnlyAsksNotifications(w, inputs);
    case NotificationAsked =>
    case NotificationApproved =>
    case Watchdog =>
  }

  /** With tracking denied or restricted and remote mode off, tracking is
      never marked asked, so `performFetchedData` never sets original, and no
      watchdog is ever armed to end the wait: the app stays loading through
      any number of such events, the notification answer and the timer included. */
  lemma {:induction false} DeniedTrackingStaysLoading(w: World, platform: Platform, events: seq<Event>)
    requires StuckLoading(w)
    requires forall k :: 0 <= k < |events| ==> DeniedEvent(events[k])
    ensures Run(w, platform, events).appState == Loading
    ensures StuckLoading(Run(w, platform, events))
    decreases |events|
  {
    if events != [] {
      DeniedStepStaysLoading(w, platform, events[0]);
      DeniedTrackingStaysLoading(Step(w, platform, events[0]), platform, events[1..]);
    }
  }

  /** On a first launch (no stored remote status) the app starts in that situation. */
  lemma FirstLaunchIsStuckWhenDenied(defaults: Defaults)
    requires BoolAt(defaults, RemoteStatus).None?
    ensures StuckLoading(Start(defaults))
  {
  }

  /** No event ever stores `false` as the remote status. */
  lemma StepKeepsStatus(w: World, platform: Platform, e: Event)
    requires NoFalseStatus(w.defaults)
    ensures NoFalseStatus(Step(w, platform, e).defaults)
  {
    match e
    case Setup(inputs) =>
      FetchConfigKeepsStatus(w.remote, w.defaults, inputs.remoteOutcome);
    case _ =>
  }

  /** With the completing tracking request, remote mode off and tracking not
      yet asked, one round of `requestPermissions` marks tracking asked for
      every status, so once notifications are answered the follow-up shows
      the journal. */
  lemma CompletingRequestShowsJournal(w: World, platform: Platform, status: TrackingStatus, answer: TrackingStatus)
    requires !w.hasConfigEnabled && !w.hasTrackingCompleted
    ensures var w1 := PermissionsRequested(w, RequestATTrackingCompleting(status, answer));
      && w1.hasTrackingCompleted
      && PerformFetchedData(NotificationDidAsked(w1), platform).appState == Original
  {
  }

  /** The same round as the code runs it, for a refused status: tracking
      stays unasked, so answering notifications leaves the state as it was. */
  lemma RefusedRequestKeepsWaiting(w: World, platform: Platform, inputs: Inputs)
    requires !w.hasConfigEnabled && !w.hasTrackingCompleted
    requires inputs.trackingStatus == Denied || inputs.trackingStatus == Restricted
    ensures var w1 := RequestPermissions(w, inputs);
      && !w1.hasTrackingCompleted
      && PerformFetchedData(NotificationDidAsked(w1), platform).appState == w.appState
  {
    RefusedRequestOnlyAsksNotifications(w, inputs);
  }
}
