/**
 * `ConfigurationStateManager`: the object the app consults at launch. Each
 * method changes its fields (and, through `RemoteManager` and
 * `StorageManager`, theirs) exactly as the matching transition of `Launch`
 * says, so every property proved there holds of the object.
 */
module StateManager {
  import opened Wrappers
  import opened Urls
  import opened Metrics
  import opened TrackingUrl
  import AttributionUrl
  import opened Tracking
  import opened Storage
  import opened Remote
  import opened Launch

  class ConfigurationStateManager {
    const remote: RemoteManager
    const storage: StorageManager
    const platform: Platform
    var appState: AppState
    var fetchedURL: Option<Url>
    var hasConfigEnabled: bool
    var hasAppsFlyerConfigured: bool
    var hasNotificationCompleted: bool
    var hasNotificationApproved: bool
    var hasTrackingCompleted: bool
    var hasTrackingApproved: bool
    /** The calls made to SDKs, the system and the network, oldest first. */
    var log: seq<Effect>

    predicate Valid()
      reads this, remote, storage
    {
      remote.storage == storage && storage.Valid()
    }

    function Snapshot(): World
      reads this, remote, storage
    {
      World(appState, fetchedURL, hasConfigEnabled, hasAppsFlyerConfigured, hasNotificationCompleted,
            hasNotificationApproved, hasTrackingCompleted, hasTrackingApproved, remote.Fields(), storage.defaults, log)
    }

    /** `ConfigurationStateManager()`: loading, nothing asked, nothing fetched. */
    constructor (remote: RemoteManager, platform: Platform)
      requires remote.storage.Valid()
      ensures this.remote == remote && storage == remote.storage && this.platform == platform
      ensures Valid()
      ensures Snapshot() == World(Loading, None, false, false, false, false, false, false, remote.Fields(), storage.defaults, [])
    {
      this.remote := remote;
      this.storage := remote.storage;
      this.platform := platform;
      appState := Loading;
      fetchedURL := None;
      hasConfigEnabled := false;
      hasAppsFlyerConfigured := false;
      hasNotificationCompleted := false;
      hasNotificationApproved := false;
      hasTrackingCompleted := false;
      hasTrackingApproved := false;
      log := [];
    }

    /** `setupConfiguration()` */
    method SetupConfiguration(inputs: Inputs)
      requires Valid()
      modifies this, remote, storage
      ensures Valid() && Snapshot() == Launch.SetupConfiguration(old(Snapshot()), platform, inputs)
    {
      ghost var w0 := Snapshot();
      remote.FetchConfig(inputs.remoteOutcome);
      ghost var w1 := Snapshot();
      assert w1 == WithFetchedConfig(w0, inputs) && Valid();
      RequestPermissions(inputs);
      AdoptRemoteFlags();
      ghost var w3 := Snapshot();
      assert w3 == Launch.AdoptRemoteFlags(Launch.RequestPermissions(w1, inputs));
      PerformFetchedData();
    }

    /** The lines of `setupConfiguration()` between the permission requests
        and `performFetchedData()`. */
    method AdoptRemoteFlags()
      modifies this
      ensures Snapshot() == Launch.AdoptRemoteFlags(old(Snapshot()))
    {
      hasConfigEnabled := remote.isRemoteEnable;
      if remote.appsFlyerDevKey.Some? {
        log := log + [ConfigureAppsFlyer(remote.appsFlyerDevKey.value)];
      }
    }

    /** `notificationDidAsked()` */
    method NotificationDidAsked()
      modifies this
      ensures Snapshot() == Launch.NotificationDidAsked(old(Snapshot()))
    {
      hasNotificationCompleted := true;
      log := log + [ScheduleFollowUp];
    }

    /** `trackingDidAsked()` */
    method TrackingDidAsked()
      modifies this
      ensures Snapshot() == Launch.TrackingDidAsked(old(Snapshot()))
    {
      hasTrackingCompleted := true;
      log := log + [ScheduleFollowUp];
    }

    /** `trackingDidApproved()` */
    method TrackingDidApproved()
      modifies this
      ensures Snapshot() == Launch.TrackingDidApproved(old(Snapshot()))
    {
      log := log + [StartAppsFlyer];
      hasTrackingApproved := true;
    }

    /** `notificationDidApproved()` */
    method NotificationDidApproved()
      modifies this
      ensures Snapshot() == Launch.NotificationDidApproved(old(Snapshot()))
    {
      hasNotificationApproved := true;
    }

    /** `apssFlyerDidConfigured(isSuccess:)` */
    method ApssFlyerDidConfigured(isSuccess: bool, inputs: Inputs)
      requires Valid()
      modifies this, storage
      ensures Valid() && Snapshot() == Launch.AppsFlyerDidConfigured(old(Snapshot()), platform, inputs, isSuccess)
    {
      hasAppsFlyerConfigured := isSuccess;
      FetchAppsFlyerConfig(inputs);
    }

    /** The `Task` body of `trackingDidAsked`/`notificationDidAsked`. */
    method PromptFollowUp(inputs: Inputs)
      requires Valid()
      modifies this
      ensures Valid() && Snapshot() == Launch.PromptFollowUp(old(Snapshot()), platform, inputs)
    {
      RequestPermissions(inputs);
      PerformFetchedData();
    }

    /** `performFetchedData()` */
    method PerformFetchedData()
      modifies this
      ensures Snapshot() == Launch.PerformFetchedData(old(Snapshot()), platform)
    {
      if !hasConfigEnabled {
        if hasTrackingCompleted && hasNotificationCompleted {
          appState := Original;
        }
        return;
      }
      var savedURLString := storage.GetSavedURLString();
      var url := if savedURLString.Some? then platform.syntax.parse(savedURLString.value) else None;
      if url.None? {
        TryAppsFlyerConfig();
        return;
      }
      fetchedURL := url;
      appState := Magic;
    }

    /** `tryAppsFlyerConfig()` */
    method TryAppsFlyerConfig()
      modifies this
      ensures Snapshot() == Launch.TryAppsFlyerConfig(old(Snapshot()))
    {
      log := log + [StartAppsFlyer];
      log := log + [ScheduleWatchdog];
    }

    /** `fetchAppsFlyerConfig()` */
    method FetchAppsFlyerConfig(inputs: Inputs)
      requires Valid()
      modifies this, storage
      ensures Valid() && Snapshot() == Launch.FetchAppsFlyerConfig(old(Snapshot()), platform, inputs)
    {
      if !hasAppsFlyerConfigured {
        FetchData(inputs);
        return;
      }
      if inputs.isOrganic {
        FetchData(inputs);
        return;
      }
      FetchAppsFlyerData(inputs);
    }

    /** `fetchAppsFlyerData()` */
    method FetchAppsFlyerData(inputs: Inputs)
      requires Valid()
      modifies this, storage
      ensures Valid() && Snapshot() == Launch.FetchAppsFlyerData(old(Snapshot()), platform, inputs)
    {
      var parameters := inputs.attributionParameters;
      if parameters == map[] {
        FetchData(inputs);
        return;
      }
      var apssflyerURL := AttributionUrl.BuildAppsFlyerURL(platform.syntax, parameters, remote.appsFlyerCampaignURL,
        platform.bundleIdentifier, inputs.oneSignalId, Idfa(inputs.trackingStatus, inputs.advertisingId));
      if apssflyerURL.None? {
        FetchData(inputs);
        return;
      }
      PerformLink(apssflyerURL.value);
    }

    /** `checkIfProblemState()` */
    method CheckIfProblemState()
      modifies this
      ensures Snapshot() == Launch.CheckIfProblemState(old(Snapshot()))
    {
      if !(appState == Magic || appState == Original) {
        appState := Original;
        return;
      }
    }

    /** `fetchData()`: the server's reply is an input; a thrown error ends the `Task`. */
    method FetchData(inputs: Inputs)
      requires Valid()
      modifies this, storage
      ensures Valid() && Snapshot() == Launch.FetchData(old(Snapshot()), platform, inputs)
    {
      if platform.bundleIdentifier.None? || remote.salt.None? || remote.savedBaseURLString.None? {
        return;
      }
      var bundle := platform.bundleIdentifier.value;
      var call := FetchMetrics(platform.syntax, platform.md5, remote.savedBaseURLString.value, bundle,
                               remote.salt.value, Idfa(inputs.trackingStatus, inputs.advertisingId), inputs.metricsReply);
      HandleMetrics(inputs, bundle, call);
    }

    /** The rest of `fetchData()` once `fetchMetrics` has returned or thrown. */
    method HandleMetrics(inputs: Inputs, bundle: string, call: MetricsCall)
      requires Valid()
      modifies this, storage
      ensures Valid() && Snapshot() == Launch.HandleMetrics(old(Snapshot()), platform, inputs, bundle, call)
    {
      if call.request.Some? {
        log := log + [SendMetricsRequest(call.request.value)];
      }
      if call.result.Failure? {
        return;
      }
      var idfa := Idfa(inputs.trackingStatus, inputs.advertisingId);
      var url := BuildTrackingURL(platform.syntax, call.result.value, bundle, idfa, inputs.oneSignalId);
      if url.None? {
        appState := Original;
        return;
      }
      PerformLink(url.value);
    }

    /** `performLink(_:)` */
    method PerformLink(url: Url)
      requires Valid()
      modifies this, storage
      ensures Valid() && Snapshot() == Launch.PerformLink(old(Snapshot()), url)
    {
      fetchedURL := Some(url);
      storage.SaveURL(url);
      appState := Magic;
    }

    /** `requestPermissions()` */
    method RequestPermissions(inputs: Inputs)
      modifies this
      ensures Snapshot() == Launch.RequestPermissions(old(Snapshot()), inputs)
    {
      if hasConfigEnabled || hasTrackingCompleted {
        return;
      }
      RequestATTracking(inputs.trackingStatus, inputs.promptAnswer);
      log := log + [RequestNotifications];
    }

    /** `ATTrackingStatusManager.requestATTracking()`, whose callbacks land
        on this object; `answer` is what the system prompt returns. */
    method RequestATTracking(status: TrackingStatus, answer: TrackingStatus)
      modifies this
      ensures var request := Tracking.RequestATTracking(status, answer);
        var w := old(Snapshot()).(log := old(log) + (if request.prompted then [ShowTrackingPrompt] else []));
        Snapshot() == ApplyTrackingCallbacks(w, request.callbacks)
    {
      TrackingRequestOutcome(old(Snapshot()), status, answer);
      match status {
        case NotDetermined =>
          log := log + [ShowTrackingPrompt];
          if answer == Authorized {
            TrackingDidApproved();
            TrackingDidAsked();
          } else {
            TrackingDidAsked();
          }
        case Authorized =>
          TrackingDidApproved();
          TrackingDidAsked();
        case _ =>
          return;
      }
    }
  }
}
