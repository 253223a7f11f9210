/**
 * `StorageManager`: six values kept in `UserDefaults` under fixed keys.
 * The defaults database is a map from key to stored value; other keys in it
 * belong to other parts of the app and are never touched here.
 */
module Storage {
  import opened Wrappers
  import opened Urls

  /** `StorageManager.Keys` */
  datatype Key = RemoteStatus | BaseUrlString | UrlString | Salt | CampaignURL | DevKey

  /** The enum's raw values, which are the defaults keys. */
  function KeyName(key: Key): string {
    match key
    case RemoteStatus => "remoteStatus"
    case BaseUrlString => "baseUrlString"
    case UrlString => "urlString"
    case Salt => "salt"
    case CampaignURL => "campaignURL"
    case DevKey => "devKey"
  }

  /** Different keys have different raw values. */
  lemma KeyNamesDistinct(a: Key, b: Key)
    requires a != b
    ensures KeyName(a) != KeyName(b)
  {
    assert "baseUrlString"[0] != "urlString"[0] && "baseUrlString"[0] != "salt"[0];
    assert "campaignURL"[0] != "remoteStatus"[0] && "campaignURL"[0] != "urlString"[0];
  }

  /** A property-list value as these accessors see it. */
  datatype Stored = BoolValue(b: bool) | StringValue(s: string)

  /** The `UserDefaults.standard` database. */
  type Defaults = map<string, Stored>

  /** `object(forKey:) as? Bool` */
  function BoolAt(defaults: Defaults, key: Key): (r: Option<bool>)
    ensures r.Some? <==> KeyName(key) in defaults && defaults[KeyName(key)].BoolValue?
  {
    var name := KeyName(key);
    if name in defaults && defaults[name].BoolValue? then Some(defaults[name].b) else None
  }

  /** `string(forKey:)` */
  function StringAt(defaults: Defaults, key: Key): (r: Option<string>)
    ensures r.Some? <==> KeyName(key) in defaults && defaults[KeyName(key)].StringValue?
  {
    var name := KeyName(key);
    if name in defaults && defaults[name].StringValue? then Some(defaults[name].s) else None
  }

  /** `set(_:forKey:)` */
  function Put(defaults: Defaults, key: Key, value: Stored): (r: Defaults)
    ensures KeyName(key) in r && r[KeyName(key)] == value
    ensures forall name :: name != KeyName(key) ==> (name in r <==> name in defaults)
    ensures forall name :: name != KeyName(key) && name in defaults ==> r[name] == defaults[name]
  {
    defaults[KeyName(key) := value]
  }

  /** Writing one key leaves what every other key reads unchanged. */
  lemma PutLeavesOtherKeys(defaults: Defaults, key: Key, value: Stored, other: Key)
    requires other != key
    ensures BoolAt(Put(defaults, key, value), other) == BoolAt(defaults, other)
    ensures StringAt(Put(defaults, key, value), other) == StringAt(defaults, other)
  {
    KeyNamesDistinct(key, other);
  }

  /** Every key other than `key` reads the same in both databases. */
  predicate SameExcept(defaults: Defaults, defaults': Defaults, key: Key) {
    forall other :: other != key ==>
      BoolAt(defaults', other) == BoolAt(defaults, other) && StringAt(defaults', other) == StringAt(defaults, other)
  }

  lemma PutSameExcept(defaults: Defaults, key: Key, value: Stored)
    ensures SameExcept(defaults, Put(defaults, key, value), key)
  {
    forall other | other != key
      ensures BoolAt(Put(defaults, key, value), other) == BoolAt(defaults, other)
      ensures StringAt(Put(defaults, key, value), other) == StringAt(defaults, other)
    {
      PutLeavesOtherKeys(defaults, key, value, other);
    }
  }

  /** No accessor of this class stores `false` under `remoteStatus`. */
  predicate NoFalseStatus(defaults: Defaults) {
    BoolAt(defaults, RemoteStatus) != Some(false)
  }

  class StorageManager {
    var defaults: Defaults

    /** The remote-status invariant: only `enableRemote` writes that key, and it writes `true`. */
    predicate Valid()
      reads this
    {
      NoFalseStatus(defaults)
    }

    /** The database of a fresh install. */
    constructor ()
      ensures defaults == map[] && Valid()
    {
      defaults := map[];
    }

    /** `getRemoteStatus()` */
    function GetRemoteStatus(): (r: Option<bool>)
      reads this
      ensures r.Some? <==> "remoteStatus" in defaults && defaults["remoteStatus"].BoolValue?
      ensures Valid() && r.Some? ==> r.value
    {
      BoolAt(defaults, RemoteStatus)
    }

    /** `getSavedURLString()` */
    function GetSavedURLString(): (r: Option<string>)
      reads this
      ensures r.Some? <==> "urlString" in defaults && defaults["urlString"].StringValue?
      ensures r.Some? ==> defaults["urlString"] == StringValue(r.value)
    {
      StringAt(defaults, UrlString)
    }

    /** `getSavedBaseURLString()` */
    function GetSavedBaseURLString(): (r: Option<string>)
      reads this
      ensures r.Some? <==> "baseUrlString" in defaults && defaults["baseUrlString"].StringValue?
      ensures r.Some? ==> defaults["baseUrlString"] == StringValue(r.value)
    {
      StringAt(defaults, BaseUrlString)
    }

    /** `getSavedSalt()` */
    function GetSavedSalt(): (r: Option<string>)
      reads this
      ensures r.Some? <==> "salt" in defaults && defaults["salt"].StringValue?
      ensures r.Some? ==> defaults["salt"] == StringValue(r.value)
    {
      StringAt(defaults, Salt)
    }

    /** `getSavedCampaignURLString()` */
    function GetSavedCampaignURLString(): (r: Option<string>)
      reads this
      ensures r.Some? <==> "campaignURL" in defaults && defaults["campaignURL"].StringValue?
      ensures r.Some? ==> defaults["campaignURL"] == StringValue(r.value)
    {
      StringAt(defaults, CampaignURL)
    }

    /** `getSavedDevKey()` */
    function GetSavedDevKey(): (r: Option<string>)
      reads this
      ensures r.Some? <==> "devKey" in defaults && defaults["devKey"].StringValue?
      ensures r.Some? ==> defaults["devKey"] == StringValue(r.value)
    {
      StringAt(defaults, DevKey)
    }

    /** `enableRemote()` */
    method EnableRemote()
      requires Valid()
      modifies this
      ensures defaults == Put(old(defaults), RemoteStatus, BoolValue(true))
      ensures Valid() && GetRemoteStatus() == Some(true)
    {
      defaults := Put(defaults, RemoteStatus, BoolValue(true));
    }

    /** `save(_ salt: String)` */
    method SaveSalt(salt: string)
      requires Valid()
      modifies this
      ensures defaults == Put(old(defaults), Salt, StringValue(salt))
      ensures Valid() && GetSavedSalt() == Some(salt)
    {
      defaults := Put(defaults, Salt, StringValue(salt));
      PutLeavesOtherKeys(old(defaults), Salt, StringValue(salt), RemoteStatus);
    }

    /** `saveBase(_:)` */
    method SaveBase(urlString: string)
      requires Valid()
      modifies this
      ensures defaults == Put(old(defaults), BaseUrlString, StringValue(urlString))
      ensures Valid() && GetSavedBaseURLString() == Some(urlString)
    {
      defaults := Put(defaults, BaseUrlString, StringValue(urlString));
      PutLeavesOtherKeys(old(defaults), BaseUrlString, StringValue(urlString), RemoteStatus);
    }

    /** `save(_ url: URL)`: stores the URL's `absoluteString`. */
    method SaveURL(url: Url)
      requires Valid()
      modifies this
      ensures defaults == Put(old(defaults), UrlString, StringValue(url.absoluteString))
      ensures Valid() && GetSavedURLString() == Some(url.absoluteString)
    {
      defaults := Put(defaults, UrlString, StringValue(url.absoluteString));
      PutLeavesOtherKeys(old(defaults), UrlString, StringValue(url.absoluteString), RemoteStatus);
    }

    /** `saveCampaignURL(string:)` */
    method SaveCampaignURL(s: string)
      requires Valid()
      modifies this
      ensures defaults == Put(old(defaults), CampaignURL, StringValue(s))
      ensures Valid() && GetSavedCampaignURLString() == Some(s)
    {
      defaults := Put(defaults, CampaignURL, StringValue(s));
      PutLeavesOtherKeys(old(defaults), CampaignURL, StringValue(s), RemoteStatus);
    }

    /** `saveDevKey(_:)` */
    method SaveDevKey(devKey: string)
      requires Valid()
      modifies this
      ensures defaults == Put(old(defaults), DevKey, StringValue(devKey))
      ensures Valid() && GetSavedDevKey() == Some(devKey)
    {
      defaults := Put(defaults, DevKey, StringValue(devKey));
      PutLeavesOtherKeys(old(defaults), DevKey, StringValue(devKey), RemoteStatus);
    }
  }
}
