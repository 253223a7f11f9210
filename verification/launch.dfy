/**
 * The launch-time mode switch of `ConfigurationStateManager`, as pure
 * transitions over a snapshot of everything it reads and writes: its own
 * fields, the fields of `RemoteManager`, the `UserDefaults` database and a
 * log of the calls it makes into SDKs, the system and the network.
 *
 * Every `Task` body runs to completion inside the event that starts it,
 * except the one spawned by `trackingDidAsked`/`notificationDidAsked`,
 * which is the separate event `PromptFollowUp`; the 15-second timer is the
 * separate event `CheckIfProblemState`.
 */
module Launch {
  import opened Wrappers
  import opened Urls
  import opened Crypto
  import opened Metrics
  import opened TrackingUrl
  import opened AttributionUrl
  import opened Tracking
  import opened Storage
  import opened Remote

  /** `AppStateType` */
  datatype AppState = Loading | Original | Magic

  /** What the process offers: `Bundle.main.bundleIdentifier`, Foundation's
      URL parsing and the MD5 digest. */
  datatype Platform = Platform(bundleIdentifier: Option<string>, syntax: UrlSyntax, md5: string -> Digest)

  /** Calls out of the state machine whose effects are outside the model. */
  datatype Effect =
    | ConfigureAppsFlyer(devKey: string)   // AppsFlyerService.shared.configure(with:)
    | StartAppsFlyer                       // AppsFlyerLib.shared().start()
    | ShowTrackingPrompt                   // ATTrackingManager.requestTrackingAuthorization()
    | RequestNotifications                 // NotificationStatusManager().requestNotification()
    | ScheduleFollowUp                     // the `Task` of trackingDidAsked / notificationDidAsked
    | ScheduleWatchdog                     // asyncAfter(.now() + 15) { checkIfProblemState() }
    | SendMetricsRequest(url: Url)         // the GET of fetchMetrics

  /** A server reply whose JSON objects have distinct keys. */
  type MetricsReply = r: Reply | WellFormedReply(r) witness TransportFailure

  /** What the SDKs, the system and the server answer during one event. */
  datatype Inputs = Inputs(
    remoteOutcome: FetchOutcome,
    trackingStatus: TrackingStatus,
    promptAnswer: TrackingStatus,
    advertisingId: string,
    oneSignalId: Option<string>,
    isOrganic: bool,
    attributionParameters: map<string, string>,
    metricsReply: MetricsReply)

  datatype World = World(
    appState: AppState,
    fetchedURL: Option<Url>,
    hasConfigEnabled: bool,
    hasAppsFlyerConfigured: bool,
    hasNotificationCompleted: bool,
    hasNotificationApproved: bool,
    hasTrackingCompleted: bool,
    hasTrackingApproved: bool,
    remote: RemoteFields,
    defaults: Defaults,
    log: seq<Effect>)

  /** The world when the app starts: the manager's initial fields and a
      `RemoteManager` that has loaded the database. */
  function Start(defaults: Defaults): (w: World)
    ensures w.appState == Loading && w.log == []
  {
    World(Loading, None, false, false, false, false, false, false,
          StorageConfigLoaded(InitialFields, defaults), defaults, [])
  }

  /** The state either stays or becomes original or magic. */
  predicate Settles(w: World, w': World) {
    w'.appState == w.appState || w'.appState != Loading
  }

  /** `trackingDidApproved()` */
  function TrackingDidApproved(w: World): (r: World)
    ensures r.hasTrackingApproved && r.log == w.log + [StartAppsFlyer]
    ensures r == w.(hasTrackingApproved := true, log := r.log)
  {
    w.(hasTrackingApproved := true, log := w.log + [StartAppsFlyer])
  }

  /** `trackingDidAsked()`: marks tracking asked and starts the follow-up `Task`. */
  function TrackingDidAsked(w: World): (r: World)
    ensures r.hasTrackingCompleted && r.log == w.log + [ScheduleFollowUp]
    ensures r == w.(hasTrackingCompleted := true, log := r.log)
  {
    w.(hasTrackingCompleted := true, log := w.log + [ScheduleFollowUp])
  }

  /** `notificationDidAsked()`: marks notifications asked and starts the follow-up `Task`. */
  function NotificationDidAsked(w: World): (r: World)
    ensures r.hasNotificationCompleted && r.log == w.log + [ScheduleFollowUp]
    ensures r == w.(hasNotificationCompleted := true, log := r.log)
  {
    w.(hasNotificationCompleted := true, log := w.log + [ScheduleFollowUp])
  }

  /** `notificationDidApproved()` */
  function NotificationDidApproved(w: World): (r: World)
    ensures r.hasNotificationApproved && r == w.(hasNotificationApproved := true)
  {
    w.(hasNotificationApproved := true)
  }

  /** The callbacks `requestATTracking` makes, applied in order. */
  function ApplyTrackingCallbacks(w: World, callbacks: seq<TrackingCallback>): (r: World)
    ensures r.appState == w.appState && r.fetchedURL == w.fetchedURL && r.defaults == w.defaults
    ensures r.hasConfigEnabled == w.hasConfigEnabled && r.remote == w.remote
    ensures r.hasNotificationCompleted == w.hasNotificationCompleted
    ensures r.hasTrackingCompleted <==> w.hasTrackingCompleted || DidAsk in callbacks
    ensures r.hasTrackingApproved <==> w.hasTrackingApproved || DidApprove in callbacks
    ensures |r.log| >= |w.log|
    decreases |callbacks|
  {
    if callbacks == [] then w
    else
      var w1 := match callbacks[0]
        case DidApprove => TrackingDidApproved(w)
        case DidAsk => TrackingDidAsked(w);
      ApplyTrackingCallbacks(w1, callbacks[1..])
  }

  /** The callback lists `requestATTracking` can deliver, applied in order. */
  lemma ApplyTrackingCallbackLists(w: World)
    ensures ApplyTrackingCallbacks(w, []) == w
    ensures ApplyTrackingCallbacks(w, [DidAsk]) == TrackingDidAsked(w)
    ensures ApplyTrackingCallbacks(w, [DidApprove, DidAsk]) == TrackingDidAsked(TrackingDidApproved(w))
  {
    assert [DidAsk][1..] == [];
    assert [DidApprove, DidAsk][1..] == [DidAsk];
  }

  /** What the tracking request does to the state, status by status: the
      prompt, then the callbacks it delivers. */
  lemma TrackingRequestOutcome(w: World, status: TrackingStatus, answer: TrackingStatus)
    ensures var request := RequestATTracking(status, answer);
      var prompted := w.(log := w.log + (if request.prompted then [ShowTrackingPrompt] else []));
      ApplyTrackingCallbacks(prompted, request.callbacks)
        == match status
           case NotDetermined =>
             if answer == Authorized then TrackingDidAsked(TrackingDidApproved(w.(log := w.log + [ShowTrackingPrompt])))
             else TrackingDidAsked(w.(log := w.log + [ShowTrackingPrompt]))
           case Authorized => TrackingDidAsked(TrackingDidApproved(w))
           case _ => w
  {
    var request := RequestATTracking(status, answer);
    var prompted := w.(log := w.log + (if request.prompted then [ShowTrackingPrompt] else []));
    ApplyTrackingCallbackLists(prompted);
    if !request.prompted {
      assert w.log + [] == w.log;
    }
  }

  /** `requestPermissions()` for a given outcome of the tracking request:
      only with remote mode off and tracking not yet asked, show the prompt
      if the request does, make its callbacks, then request notifications. */
  function PermissionsRequested(w: World, request: TrackingRequest): (r: World)
    ensures r.appState == w.appState && r.fetchedURL == w.fetchedURL && r.defaults == w.defaults
    ensures r.hasConfigEnabled == w.hasConfigEnabled && r.remote == w.remote
    ensures r.hasNotificationCompleted == w.hasNotificationCompleted
    ensures !w.hasConfigEnabled && !w.hasTrackingCompleted ==>
      (r.hasTrackingCompleted <==> DidAsk in request.callbacks)
  {
    if w.hasConfigEnabled || w.hasTrackingCompleted then w
    else
      var w1 := w.(log := w.log + (if request.prompted then [ShowTrackingPrompt] else []));
      var w2 := ApplyTrackingCallbacks(w1, request.callbacks);
      w2.(log := w2.log + [RequestNotifications])
  }

  /** `requestPermissions()` */
  function RequestPermissions(w: World, inputs: Inputs): (r: World)
    ensures r.appState == w.appState && r.fetchedURL == w.fetchedURL && r.defaults == w.defaults
    ensures r.hasConfigEnabled == w.hasConfigEnabled && r.remote == w.remote
    ensures r.hasNotificationCompleted == w.hasNotificationCompleted
  {
    PermissionsRequested(w, RequestATTracking(inputs.trackingStatus, inputs.promptAnswer))
  }

  /** `performLink(_:)` */
  function PerformLink(w: World, url: Url): (r: World)
    ensures r.appState == Magic && r.fetchedURL == Some(url)
    ensures StringAt(r.defaults, UrlString) == Some(url.absoluteString)
    ensures r == w.(appState := Magic, fetchedURL := Some(url), defaults := r.defaults)
    ensures SameExcept(w.defaults, r.defaults, UrlString)
  {
    PutSameExcept(w.defaults, UrlString, StringValue(url.absoluteString));
    w.(fetchedURL := Some(url), defaults := Put(w.defaults, UrlString, StringValue(url.absoluteString)), appState := Magic)
  }

  /** `tryAppsFlyerConfig()`: start the SDK and arm the watchdog. */
  function TryAppsFlyerConfig(w: World): (r: World)
    ensures r == w.(log := w.log + [StartAppsFlyer, ScheduleWatchdog])
  {
    w.(log := w.log + [StartAppsFlyer, ScheduleWatchdog])
  }

  /** The URL `performFetchedData` restores: the stored `urlString`, if it parses. */
  function SavedURL(w: World, platform: Platform): Option<Url> {
    match StringAt(w.defaults, UrlString)
    case None => None
    case Some(s) => platform.syntax.parse(s)
  }

  /** `performFetchedData()` */
  function PerformFetchedData(w: World, platform: Platform): (r: World)
    ensures Settles(w, r) && r.defaults == w.defaults
  {
    if !w.hasConfigEnabled then
      if w.hasTrackingCompleted && w.hasNotificationCompleted then w.(appState := Original) else w
    else match SavedURL(w, platform)
      case Some(url) => w.(fetchedURL := Some(url), appState := Magic)
      case None => TryAppsFlyerConfig(w)
  }

  /** `checkIfProblemState()`: the watchdog. */
  function CheckIfProblemState(w: World): (r: World)
    ensures Settles(w, r)
  {
    if w.appState == Magic || w.appState == Original then w else w.(appState := Original)
  }

  /** The metrics call `fetchData` makes once bundle id, salt and base URL are present. */
  function MetricsCallOf(w: World, platform: Platform, inputs: Inputs): MetricsCall
    requires platform.bundleIdentifier.Some? && w.remote.salt.Some? && w.remote.savedBaseURLString.Some?
  {
    FetchMetrics(platform.syntax, platform.md5, w.remote.savedBaseURLString.value, platform.bundleIdentifier.value,
                 w.remote.salt.value, Idfa(inputs.trackingStatus, inputs.advertisingId), inputs.metricsReply)
  }

  /** The rest of `fetchData` after `fetchMetrics` returned or threw: a
      thrown error ends the `Task`, no tracking URL gives original, a
      tracking URL is linked. */
  function HandleMetrics(w: World, platform: Platform, inputs: Inputs, bundle: string, call: MetricsCall): (r: World)
    ensures Settles(w, r) && SameExcept(w.defaults, r.defaults, UrlString)
  {
    var w1 := w.(log := w.log + (if call.request.Some? then [SendMetricsRequest(call.request.value)] else []));
    match call.result
    case Failure(_) => w1
    case Success(response) =>
      match BuildTrackingURL(platform.syntax, response, bundle, Idfa(inputs.trackingStatus, inputs.advertisingId), inputs.oneSignalId)
      case None => w1.(appState := Original)
      case Some(url) => PerformLink(w1, url)
  }

  /** `fetchData()` */
  function FetchData(w: World, platform: Platform, inputs: Inputs): (r: World)
    ensures Settles(w, r) && SameExcept(w.defaults, r.defaults, UrlString)
  {
    if platform.bundleIdentifier.None? || w.remote.salt.None? || w.remote.savedBaseURLString.None? then w
    else HandleMetrics(w, platform, inputs, platform.bundleIdentifier.value, MetricsCallOf(w, platform, inputs))
  }

  /** The URL `buildAppsFlyerURL` builds from the current state and inputs. */
  function AttributionLink(w: World, platform: Platform, inputs: Inputs): Option<Url> {
    AppsFlyerURL(platform.syntax, inputs.attributionParameters, w.remote.appsFlyerCampaignURL,
                 platform.bundleIdentifier, inputs.oneSignalId, Idfa(inputs.trackingStatus, inputs.advertisingId))
  }

  /** `fetchAppsFlyerData()` */
  function FetchAppsFlyerData(w: World, platform: Platform, inputs: Inputs): (r: World)
    ensures Settles(w, r) && SameExcept(w.defaults, r.defaults, UrlString)
  {
    if inputs.attributionParameters == map[] then FetchData(w, platform, inputs)
    else match AttributionLink(w, platform, inputs)
      case None => FetchData(w, platform, inputs)
      case Some(url) => PerformLink(w, url)
  }

  /** `fetchAppsFlyerConfig()` */
  function FetchAppsFlyerConfig(w: World, platform: Platform, inputs: Inputs): (r: World)
    ensures Settles(w, r) && SameExcept(w.defaults, r.defaults, UrlString)
  {
    if !w.hasAppsFlyerConfigured || inputs.isOrganic then FetchData(w, platform, inputs)
    else FetchAppsFlyerData(w, platform, inputs)
  }

  /** `apssFlyerDidConfigured(isSuccess:)` */
  function AppsFlyerDidConfigured(w: World, platform: Platform, inputs: Inputs, isSuccess: bool): (r: World)
    ensures Settles(w, r) && SameExcept(w.defaults, r.defaults, UrlString)
  {
    FetchAppsFlyerConfig(w.(hasAppsFlyerConfigured := isSuccess), platform, inputs)
  }

  /** The first step of `setupConfiguration`: `RemoteManager.fetchConfig()`. */
  function WithFetchedConfig(w: World, inputs: Inputs): (r: World)
    ensures r.appState == w.appState && r.log == w.log
  {
    var (remote, defaults) := ConfigFetched(w.remote, w.defaults, inputs.remoteOutcome);
    w.(remote := remote, defaults := defaults)
  }

  /** The middle of `setupConfiguration`: copy the remote flag and, with a
      dev key, configure the attribution SDK. */
  function AdoptRemoteFlags(w: World): (r: World)
    ensures r.appState == w.appState && r.defaults == w.defaults
    ensures r.hasConfigEnabled == w.remote.isRemoteEnable
  {
    var w1 := w.(hasConfigEnabled := w.remote.isRemoteEnable);
    match w1.remote.appsFlyerDevKey
    case Some(devKey) => w1.(log := w1.log + [ConfigureAppsFlyer(devKey)])
    case None => w1
  }

  /** `setupConfiguration()` */
  function SetupConfiguration(w: World, platform: Platform, inputs: Inputs): (r: World)
    ensures Settles(w, r)
  {
    PerformFetchedData(AdoptRemoteFlags(RequestPermissions(WithFetchedConfig(w, inputs), inputs)), platform)
  }

  /** The `Task` started by `trackingDidAsked`/`notificationDidAsked`. */
  function PromptFollowUp(w: World, platform: Platform, inputs: Inputs): (r: World)
    ensures Settles(w, r)
  {
    PerformFetchedData(RequestPermissions(w, inputs), platform)
  }

  /** The entry points of the state machine: the public methods, the
      prompt follow-up `Task` and the watchdog timer, which can fire only
      once `tryAppsFlyerConfig` has armed it. */
  datatype Event =
    | Setup(inputs: Inputs)
    | NotificationAsked
    | NotificationApproved
    | TrackingAsked
    | TrackingApproved
    | AppsFlyerConfigured(isSuccess: bool, inputs: Inputs)
    | FollowUp(inputs: Inputs)
    | Watchdog

  function Step(w: World, platform: Platform, e: Event): (r: World)
    ensures Settles(w, r)
  {
    match e
    case Setup(inputs) => SetupConfiguration(w, platform, inputs)
    case NotificationAsked => NotificationDidAsked(w)
    case NotificationApproved => NotificationDidApproved(w)
    case TrackingAsked => TrackingDidAsked(w)
    case TrackingApproved => TrackingDidApproved(w)
    case AppsFlyerConfigured(isSuccess, inputs) => AppsFlyerDidConfigured(w, platform, inputs, isSuccess)
    case FollowUp(inputs) => PromptFollowUp(w, platform, inputs)
    case Watchdog => if ScheduleWatchdog in w.log then CheckIfProblemState(w) else w
  }

  /** The world after a sequence of events, in order: it is still the
      starting state, or original or magic. */
  function Run(w: World, platform: Platform, events: seq<Event>): (r: World)
    ensures Settles(w, r)
    decreases |events|
  {
    if events == [] then w
    else
      var w1 := Step(w, platform, events[0]);
      assert Settles(w, w1);
      Run(w1, platform, events[1..])
  }
}
