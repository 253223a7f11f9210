/**
 * `RemoteManager`: the remote flags and strings from Firebase Remote
 * Config, persisted through `StorageManager` and reloaded from it at start.
 * The Firebase SDK is an input: the outcome of `fetch`/`activate` and the
 * activated key/value store.
 */
module Remote {
  import opened Wrappers
  import opened Storage

  /** The Remote Config keys in `MagicConstants`. */
  const RemoteConfigKey: string := "isForestBerryEnable"
  const EndpointName: string := "linka"
  const SaltName: string := "solya"
  const DeveloperKey: string := "developerKey"
  const CompanyURL: string := "campaignURL"

  /** The fetch interval `setupConfig` sets, in seconds. */
  const MinimumFetchInterval: int := 500

  /** `RemoteConfigValue`: the two readings this code takes of a value. */
  datatype ConfigValue = ConfigValue(boolValue: bool, stringValue: Option<string>)

  /** `configValue(forKey:)` after activation. */
  type RemoteConfig = string -> ConfigValue

  /** How `config.fetch()` and `config.activate()` turned out. */
  datatype FetchOutcome =
    | FetchThrew
    | FetchNotSuccess
    | ActivateThrew
    | Activated(config: RemoteConfig)

  /** The fields of `RemoteManager`. */
  datatype RemoteFields = RemoteFields(
    isRemoteEnable: bool,
    savedBaseURLString: Option<string>,
    savedURLString: Option<string>,
    salt: Option<string>,
    appsFlyerDevKey: Option<string>,
    appsFlyerCampaignURL: Option<string>,
    hasServiceLoaded: bool)

  /** The property initialisers: `false` and `nil`. */
  const InitialFields := RemoteFields(false, None, None, None, None, None, false)

  /** `loadStorageConfig()`: with a stored remote status, copy all six stored
      values and mark the service loaded; without one, change nothing. */
  function StorageConfigLoaded(fields: RemoteFields, defaults: Defaults): (r: RemoteFields)
    ensures BoolAt(defaults, RemoteStatus).None? ==> r == fields
    ensures BoolAt(defaults, RemoteStatus).Some? ==>
      && r.hasServiceLoaded
      && r.isRemoteEnable == BoolAt(defaults, RemoteStatus).value
      && r.salt == StringAt(defaults, Salt)
      && r.savedBaseURLString == StringAt(defaults, BaseUrlString)
      && r.savedURLString == StringAt(defaults, UrlString)
      && r.appsFlyerDevKey == StringAt(defaults, DevKey)
      && r.appsFlyerCampaignURL == StringAt(defaults, CampaignURL)
  {
    match BoolAt(defaults, RemoteStatus)
    case None => fields
    case Some(status) =>
      RemoteFields(status, StringAt(defaults, BaseUrlString), StringAt(defaults, UrlString),
                   StringAt(defaults, Salt), StringAt(defaults, DevKey), StringAt(defaults, CampaignURL), true)
  }

  /** The persist guard of `updateLocalValues`: the flag is on and the four
      strings are present (an empty string passes). */
  predicate PersistGuard(fields: RemoteFields) {
    && fields.isRemoteEnable
    && fields.savedBaseURLString.Some?
    && fields.salt.Some?
    && fields.appsFlyerDevKey.Some?
    && fields.appsFlyerCampaignURL.Some?
  }

  /** The five writes of `updateLocalValues`, in order. */
  function PersistAll(defaults: Defaults, fields: RemoteFields): Defaults
    requires PersistGuard(fields)
  {
    var d1 := Put(defaults, RemoteStatus, BoolValue(true));
    var d2 := Put(d1, BaseUrlString, StringValue(fields.savedBaseURLString.value));
    var d3 := Put(d2, Salt, StringValue(fields.salt.value));
    var d4 := Put(d3, DevKey, StringValue(fields.appsFlyerDevKey.value));
    Put(d4, CampaignURL, StringValue(fields.appsFlyerCampaignURL.value))
  }

  /** The five in-memory fields as the activated config gives them. */
  function FromConfig(fields: RemoteFields, config: RemoteConfig): (r: RemoteFields)
    ensures r.savedURLString == fields.savedURLString && r.hasServiceLoaded == fields.hasServiceLoaded
  {
    fields.(isRemoteEnable := config(RemoteConfigKey).boolValue,
            savedBaseURLString := config(EndpointName).stringValue,
            salt := config(SaltName).stringValue,
            appsFlyerDevKey := config(DeveloperKey).stringValue,
            appsFlyerCampaignURL := config(CompanyURL).stringValue)
  }

  /** `updateLocalValues()`: overwrite the five fields from the config, then
      persist them only when the guard passes. */
  function LocalValuesUpdated(fields: RemoteFields, defaults: Defaults, config: RemoteConfig): (r: (RemoteFields, Defaults))
    ensures r.0 == FromConfig(fields, config)
    ensures PersistGuard(r.0) ==> r.1 == PersistAll(defaults, r.0)
    ensures !PersistGuard(r.0) ==> r.1 == defaults
  {
    var updated := FromConfig(fields, config);
    if PersistGuard(updated) then (updated, PersistAll(defaults, updated)) else (updated, defaults)
  }

  /** `fetchConfig()` */
  function ConfigFetched(fields: RemoteFields, defaults: Defaults, outcome: FetchOutcome): (r: (RemoteFields, Defaults))
    ensures StringAt(r.1, UrlString) == StringAt(defaults, UrlString)
    ensures r.0.hasServiceLoaded == fields.hasServiceLoaded
  {
    if fields.hasServiceLoaded then (fields, defaults)
    else match outcome
      case Activated(config) => LocalValuesUpdated(fields, defaults, config)
      case _ => (fields, defaults)
  }

  /** A loaded service, a failed fetch, a non-success status and a failed
      activation all leave the fields and the database as they were. */
  lemma FetchConfigUnchanged(fields: RemoteFields, defaults: Defaults, outcome: FetchOutcome)
    requires fields.hasServiceLoaded || !outcome.Activated?
    ensures ConfigFetched(fields, defaults, outcome) == (fields, defaults)
  {
  }

  /** After an activated fetch the fields hold the config values whatever the
      guard says; the database gets exactly the five values when the guard
      passes and is untouched otherwise; `urlString` is never written. */
  lemma FetchConfigActivated(fields: RemoteFields, defaults: Defaults, config: RemoteConfig)
    requires !fields.hasServiceLoaded
    ensures var (f, d) := ConfigFetched(fields, defaults, Activated(config));
      && f.isRemoteEnable == config(RemoteConfigKey).boolValue
      && f.savedBaseURLString == config(EndpointName).stringValue
      && f.salt == config(SaltName).stringValue
      && f.appsFlyerDevKey == config(DeveloperKey).stringValue
      && f.appsFlyerCampaignURL == config(CompanyURL).stringValue
      && !f.hasServiceLoaded
      && (!PersistGuard(f) ==> d == defaults)
      && (PersistGuard(f) ==>
            && BoolAt(d, RemoteStatus) == Some(true)
            && StringAt(d, BaseUrlString) == f.savedBaseURLString
            && StringAt(d, Salt) == f.salt
            && StringAt(d, DevKey) == f.appsFlyerDevKey
            && StringAt(d, CampaignURL) == f.appsFlyerCampaignURL)
      && StringAt(d, UrlString) == StringAt(defaults, UrlString)
  {
    var f := FromConfig(fields, config);
    if PersistGuard(f) {
      var d1 := Put(defaults, RemoteStatus, BoolValue(true));
      var d2 := Put(d1, BaseUrlString, StringValue(f.savedBaseURLString.value));
      var d3 := Put(d2, Salt, StringValue(f.salt.value));
      var d4 := Put(d3, DevKey, StringValue(f.appsFlyerDevKey.value));
      var d5 := Put(d4, CampaignURL, StringValue(f.appsFlyerCampaignURL.value));
      PutLeavesOtherKeys(d1, BaseUrlString, StringValue(f.savedBaseURLString.value), RemoteStatus);
      PutLeavesOtherKeys(d2, Salt, StringValue(f.salt.value), RemoteStatus);
      PutLeavesOtherKeys(d3, DevKey, StringValue(f.appsFlyerDevKey.value), RemoteStatus);
      PutLeavesOtherKeys(d4, CampaignURL, StringValue(f.appsFlyerCampaignURL.value), RemoteStatus);
      PutLeavesOtherKeys(d2, Salt, StringValue(f.salt.value), BaseUrlString);
      PutLeavesOtherKeys(d3, DevKey, StringValue(f.appsFlyerDevKey.value), BaseUrlString);
      PutLeavesOtherKeys(d4, CampaignURL, StringValue(f.appsFlyerCampaignURL.value), BaseUrlString);
      PutLeavesOtherKeys(d3, DevKey, StringValue(f.appsFlyerDevKey.value), Salt);
      PutLeavesOtherKeys(d4, CampaignURL, StringValue(f.appsFlyerCampaignURL.value), Salt);
      PutLeavesOtherKeys(d4, CampaignURL, StringValue(f.appsFlyerCampaignURL.value), DevKey);
      PutLeavesOtherKeys(defaults, RemoteStatus, BoolValue(true), UrlString);
      PutLeavesOtherKeys(d1, BaseUrlString, StringValue(f.savedBaseURLString.value), UrlString);
      PutLeavesOtherKeys(d2, Salt, StringValue(f.salt.value), UrlString);
      PutLeavesOtherKeys(d3, DevKey, StringValue(f.appsFlyerDevKey.value), UrlString);
      PutLeavesOtherKeys(d4, CampaignURL, StringValue(f.appsFlyerCampaignURL.value), UrlString);
    }
  }

  /** `fetchConfig` never stores `false` as the remote status. */
  lemma FetchConfigKeepsStatus(fields: RemoteFields, defaults: Defaults, outcome: FetchOutcome)
    requires NoFalseStatus(defaults)
    ensures NoFalseStatus(ConfigFetched(fields, defaults, outcome).1)
  {
    if !fields.hasServiceLoaded && outcome.Activated? {
      FetchConfigActivated(fields, defaults, outcome.config);
    }
  }

  /** A manager that loaded its values from the database sees remote mode
      enabled, because only `true` is ever stored as the status. */
  lemma LoadedMeansEnabled(defaults: Defaults)
    requires NoFalseStatus(defaults)
    requires StorageConfigLoaded(InitialFields, defaults).hasServiceLoaded
    ensures StorageConfigLoaded(InitialFields, defaults).isRemoteEnable
  {
  }

  class RemoteManager {
    const storage: StorageManager
    var isRemoteEnable: bool
    var savedBaseURLString: Option<string>
    var savedURLString: Option<string>
    var salt: Option<string>
    var appsFlyerDevKey: Option<string>
    var appsFlyerCampaignURL: Option<string>
    var hasServiceLoaded: bool
    /** `config.configSettings.minimumFetchInterval` */
    var minimumFetchInterval: int

    function Fields(): RemoteFields
      reads this
    {
      RemoteFields(isRemoteEnable, savedBaseURLString, savedURLString, salt,
                   appsFlyerDevKey, appsFlyerCampaignURL, hasServiceLoaded)
    }

    /** `init()`: `setupConfig()` then `loadStorageConfig()`. */
    constructor (storage: StorageManager)
      ensures this.storage == storage
      ensures minimumFetchInterval == MinimumFetchInterval
      ensures Fields() == StorageConfigLoaded(InitialFields, storage.defaults)
    {
      this.storage := storage;
      isRemoteEnable := false;
      savedBaseURLString := None;
      savedURLString := None;
      salt := None;
      appsFlyerDevKey := None;
      appsFlyerCampaignURL := None;
      hasServiceLoaded := false;
      minimumFetchInterval := MinimumFetchInterval;
      new;
      LoadStorageConfig();
    }

    /** `loadStorageConfig()` */
    method LoadStorageConfig()
      modifies this
      ensures Fields() == StorageConfigLoaded(old(Fields()), storage.defaults)
      ensures minimumFetchInterval == old(minimumFetchInterval)
    {
      var remoteStatus := storage.GetRemoteStatus();
      var savedSalt := storage.GetSavedSalt();
      var savedBasedURLString := storage.GetSavedBaseURLString();
      var savedURL := storage.GetSavedURLString();
      var devKey := storage.GetSavedDevKey();
      var campaignURLString := storage.GetSavedCampaignURLString();
      if remoteStatus.Some? {
        isRemoteEnable := remoteStatus.value;
        salt := savedSalt;
        savedBaseURLString := savedBasedURLString;
        savedURLString := savedURL;
        appsFlyerDevKey := devKey;
        appsFlyerCampaignURL := campaignURLString;
        hasServiceLoaded := true;
      }
    }

    /** `fetchConfig()` */
    method FetchConfig(outcome: FetchOutcome)
      requires storage.Valid()
      modifies this, storage
      ensures (Fields(), storage.defaults) == ConfigFetched(old(Fields()), old(storage.defaults), outcome)
      ensures storage.Valid() && minimumFetchInterval == old(minimumFetchInterval)
    {
      if hasServiceLoaded {
        return;
      }
      match outcome
      case Activated(config) => UpdateLocalValues(config);
      case _ => return;
    }

    /** `updateLocalValues()` */
    method UpdateLocalValues(config: RemoteConfig)
      requires storage.Valid()
      modifies this, storage
      ensures (Fields(), storage.defaults) == LocalValuesUpdated(old(Fields()), old(storage.defaults), config)
      ensures storage.Valid() && minimumFetchInterval == old(minimumFetchInterval)
    {
      isRemoteEnable := config(RemoteConfigKey).boolValue;
      savedBaseURLString := config(EndpointName).stringValue;
      salt := config(SaltName).stringValue;
      appsFlyerDevKey := config(DeveloperKey).stringValue;
      appsFlyerCampaignURL := config(CompanyURL).stringValue;
      if !(isRemoteEnable && savedBaseURLString.Some? && salt.Some? && appsFlyerDevKey.Some? && appsFlyerCampaignURL.Some?) {
        return;
      }
      storage.EnableRemote();
      storage.SaveBase(savedBaseURLString.value);
      storage.SaveSalt(salt.value);
      storage.SaveDevKey(appsFlyerDevKey.value);
      storage.SaveCampaignURL(appsFlyerCampaignURL.value);
    }
  }
}
