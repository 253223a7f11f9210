# ForestBerry launch logic and harvest journal, in Dafny

ForestBerry is an iOS app that keeps a harvest journal of berries and a list
of favourite picking spots. At launch a second component decides which of two
things the app shows:

- its own tab interface ("original");
- a web page at a URL resolved remotely ("magic").

This project models both halves of the app and proves what their code
promises.

**The launch-time mode switch.**

- `ConfigurationStateManager` is a state machine over `loading`, `original` and `magic`.
  - It is modelled twice: as pure transitions over a snapshot `World` (module `Launch`), and as a class whose event methods are proved against them (module `StateManager`).
  - SDK answers, system answers and the server's reply arrive as per-event `Inputs`.
  - Bundle identifier, URL parsing and MD5 are a `Platform` value.
  - Calls that leave the state machine (starting the AppsFlyer SDK, showing the tracking prompt, arming the 15-second watchdog, sending the metrics request) are appended to a `log`.
- `RemoteManager` loads the remote-config flags and persists them (`Remote`).
- `StorageManager` is the six-key `UserDefaults` store (`Storage`).
- `ATTrackingStatusManager` is in `Tracking`.
- `NewNetworkManager.fetchMetrics`, with its signed query and reply extraction, is in `Metrics`; `CryptoUtils.md5Hex` is in `Crypto`.
- `URLBuilder` is in `TrackingUrl`; `buildAppsFlyerURL` is in `AttributionUrl`.

**The journal app.**

- `HarvestJournalManager` and `FavoriteSpotsManager` are in `JournalStore`.
  - Each is a class over the data stored under its key.
  - Stored lists go through a JSON model of `Codable` (`Codable`); only encodable data is ever stored.
- The add-entry form `FBAddFeeView` is in `FeeForm`.
- The add-spot form `FBAddSpotView` is in `SpotForm`.
- The journal list and detail screen are in `JournalScreen`.
- The statistics screen's aggregates are in `Statistics`.
- `Lists` holds the shared sequence operations:
  - `firstIndex(where:)`;
  - replace-first-by-id;
  - `removeAll(where:)`;
  - `sorted` by a key, descending;
  - `reduce`.
- `Text` holds whitespace trimming and the string helpers.

A Swift dictionary that the code enumerates is a list of pairs with distinct
keys. The order of the list stands for the unspecified enumeration order.
Examples are the JSON object of the metrics reply and `MetricsResponse.parameters`.
A dictionary the code only looks up is a `map`, such as the AppsFlyer
attribution parameters.

## Model

| member | source | states |
|---|---|---|
| Records.TruncateToInt | ForestBerry/ForestBerry/Views/Statistics/FBStatisticsView.swift:202 | `Int(d)` rounds a finite double toward zero: 0 <= r <= d < r+1 for d >= 0, and r-1 < d <= r <= 0 for d < 0 |
| Text.TrimLeading | ForestBerry/ForestBerryMain/Views/Journal/Details/FBJournalDetailView.swift:169 | the result is a suffix of s; every dropped character is whitespace; it does not start with whitespace |
| Text.TrimTrailing | ForestBerry/ForestBerryMain/Views/Journal/Details/FBJournalDetailView.swift:169 | the result is a prefix of s; every dropped character is whitespace; it does not end with whitespace |
| Text.TrimIsInfix | ForestBerry/ForestBerryMain/Views/Journal/Details/FBJournalDetailView.swift:169 | `trimmingCharacters(in: .whitespacesAndNewlines)` is the infix s[i..j]: all whitespace outside it, non-whitespace at both of its ends |
| Text.TrimEmptyIff | ForestBerry/ForestBerryMain/Views/Journal/Details/FBJournalDetailView.swift:169-170 | trimming gives "" exactly when the string is all whitespace |
| Text.TrimIdempotent | ForestBerry/ForestBerry/Views/Journal/Add/FBAddFeeView.swift:423-426 | trimming a trimmed string changes nothing |
| Text.ReplaceCommas | ForestBerry/ForestBerry/Views/Journal/Add/FBAddFeeView.swift:401 | same length; every "," becomes ".", every other character is kept |
| Text.Contains | ForestBerry/ForestBerryMain/Views/Loading/LoadingView.swift:162 | `contains` holds exactly when the substring occurs at some position |
| Text.Decimal | ForestBerry/ForestBerryMain/Models/HarvestEntry.swift:219 | the decimal rendering of `i` is non-empty, one digit exactly for i < 10 |
| Text.DecimalInjective | ForestBerry/ForestBerryMain/Models/HarvestEntry.swift:219 | different numbers render to different strings |
| Crypto.HexString | ForestBerry/ForestBerryMain/Views/MainTab/MainTabView.swift:175 | the output has twice as many characters as there are bytes; byte i is rendered by characters 2i and 2i+1 |
| Crypto.Md5Hex | ForestBerry/ForestBerryMain/Views/MainTab/MainTabView.swift:173-176 | `md5Hex` is 32 characters, all lowercase hex digits |
| Crypto.HexStringIsLowerHex | ForestBerry/ForestBerryMain/Views/MainTab/MainTabView.swift:175 | every character of the rendering is in 0-9a-f |
| Crypto.NibbleOfSpec | ForestBerry/ForestBerryMain/Views/MainTab/MainTabView.swift:175 | a character has a digit value exactly when it is a lowercase hex digit, and that value names it |
| Crypto.ByteHexDecodes | ForestBerry/ForestBerryMain/Views/MainTab/MainTabView.swift:175 | the two `%02hhx` digits of a byte read back as that byte |
| Crypto.HexRoundTrip | ForestBerry/ForestBerryMain/Views/MainTab/MainTabView.swift:175 | the hex rendering is decodable: decoding it gives back the bytes, in order |
| Metrics.Lookup | ForestBerry/ForestBerryMain/Views/Loading/LoadingView.swift:153 | `dictionary[key]`: a found value is listed under the key; nil means no member has the key |
| Metrics.SignatureInput | ForestBerry/ForestBerryMain/Views/Loading/LoadingView.swift:87 | the signed string ends with "salt:bundleID"; without an idfa it is exactly that, with one it starts with "idfa:" |
| Metrics.AsBool | ForestBerry/ForestBerryMain/Views/Loading/LoadingView.swift:159 | `as? Bool` on a parsed value: true exactly for `true` or the number 1, false exactly for `false` or 0, nil for anything else |
| Metrics.LookupFindsMember | ForestBerry/ForestBerryMain/Views/Loading/LoadingView.swift:153 | with distinct keys, a listed member is what the lookup finds |
| Metrics.SignatureInputWithIdfa | ForestBerry/ForestBerryMain/Views/Loading/LoadingView.swift:87 | with an idfa the signed string is "idfa:" followed by the "salt:bundleID" string, so the two forms differ |
| Metrics.Signature | ForestBerry/ForestBerryMain/Views/Loading/LoadingView.swift:87-88 | `t` is 32 characters |
| Metrics.MetricsQuery | ForestBerry/ForestBerryMain/Views/Loading/LoadingView.swift:95-104 | the query is exactly b=bundleID, t=hash, then i=idfa only when idfa is non-nil |
| Metrics.MetricsRequest | ForestBerry/ForestBerryMain/Views/Loading/LoadingView.swift:90-109 | fails only with `invalidURL`; succeeds exactly when the base parses and the components with the query replaced render; the URL is that rendering |
| Metrics.ExtractParameters | ForestBerry/ForestBerryMain/Views/Loading/LoadingView.swift:161-164 | (k, v) is kept exactly when the reply has k bound to the string v, k contains no "x_" and k is neither "is_organic" nor "URL"; distinct keys stay distinct |
| Metrics.ExtractResponse | ForestBerry/ForestBerryMain/Views/Loading/LoadingView.swift:147-170 | success exactly for an object with a non-empty "URL" string; an array, or an object without one, is `invalidResponse`; a top-level scalar is the JSON error; on success url is that string, isOrganic holds exactly when "is_organic" is `true` or the number 1 (what `as? Bool` accepts), parameters as above |
| Metrics.FetchMetrics | ForestBerry/ForestBerryMain/Views/Loading/LoadingView.swift:85-180 | no request is sent exactly when the request URL fails, and then the result is `invalidURL`; otherwise the request is that URL, and: a 2xx reply with a parsed body gives ExtractResponse of it; no response or a status outside 200..<300 gives the request error; a 2xx body that is not JSON gives the JSON error |
| Metrics.FetchMetricsReadsDestination | ForestBerry/ForestBerryMain/Views/Loading/LoadingView.swift:147-170 | a built request answered 2xx with an object succeeds exactly when it has a non-empty "URL" string, and the response carries that URL; otherwise `invalidResponse` |
| TrackingUrl.NonOrganicBase | ForestBerry/ForestBerryMain/Views/MainTab/MainTabView.swift:140-147 | the base always starts with the response url |
| TrackingUrl.BaseString | ForestBerry/ForestBerryMain/Views/MainTab/MainTabView.swift:126-147 | the base string always starts with the response url, and is that url for an organic install |
| TrackingUrl.BaseComponents | ForestBerry/ForestBerryMain/Views/MainTab/MainTabView.swift:126-138 | an organic install parses the response url as it came |
| TrackingUrl.BaseStringCases | ForestBerry/ForestBerryMain/Views/MainTab/MainTabView.swift:126-147 | organic: url verbatim; non-organic with non-empty sub_id_2: url + "/" + sub_id_2; otherwise url unchanged |
| TrackingUrl.SlashAlwaysInserted | ForestBerry/ForestBerryMain/Views/MainTab/MainTabView.swift:146 | a url that already ends in "/" gets a second one: the base contains "//" at that point |
| TrackingUrl.ParameterItems | ForestBerry/ForestBerryMain/Views/MainTab/MainTabView.swift:153-156 | an item (k, v) is present exactly when the parameters map k to v and k is not sub_id_2; every item has a value; distinct keys give distinct names |
| TrackingUrl.QueryItems | ForestBerry/ForestBerryMain/Views/MainTab/MainTabView.swift:149-169 | the parameters, then bundle, then idfa when non-nil, then onesignal_id when present; the length counts exactly these |
| TrackingUrl.TrackingComponents | ForestBerry/ForestBerryMain/Views/MainTab/MainTabView.swift:107-121 | nil exactly when the base does not parse; otherwise the base's own items followed by the new items, never reset to nil |
| TrackingUrl.BuildTrackingURL | ForestBerry/ForestBerryMain/Views/MainTab/MainTabView.swift:107-124 | nil exactly when the base does not parse or the merged components do not render; when the base parses, the result is the rendering of the base with its own items followed by the new items |
| TrackingUrl.ParametersInQuery | ForestBerry/ForestBerryMain/Views/MainTab/MainTabView.swift:153-156 | each parameter other than sub_id_2 appears with its value among the parameter items, and no other parameter item has its name; the base URL's own items and the bundle, idfa and onesignal_id items are not excluded from repeating it |
| TrackingUrl.OrganicAndNonOrganicExamples | ForestBerry/ForestBerryMain/Views/MainTab/MainTabView.swift:107-169 | an organic and a non-organic response, each with its concrete resulting query |
| AttributionUrl.SubIdKeyInjective | ForestBerry/ForestBerryMain/Models/HarvestEntry.swift:219 | different indices give different "sub_id_i" keys |
| AttributionUrl.SubIdItems | ForestBerry/ForestBerryMain/Models/HarvestEntry.swift:218-223 | at most one item per index |
| AttributionUrl.SubIdItemSource | ForestBerry/ForestBerryMain/Models/HarvestEntry.swift:218-223 | every sub_id item is sub_id_m=value for a present key with 1 <= m <= n |
| AttributionUrl.PresentSubIdListed | ForestBerry/ForestBerryMain/Models/HarvestEntry.swift:218-223 | every present sub_id_m with 1 <= m <= n is listed with its value |
| AttributionUrl.SubIdItemsMembership | ForestBerry/ForestBerryMain/Models/HarvestEntry.swift:218-223 | an item is a sub_id item exactly when it is sub_id_m=value for a present key, 1 <= m <= n |
| AttributionUrl.SubIdItemsPrefixed | ForestBerry/ForestBerryMain/Models/HarvestEntry.swift:219 | every sub_id item's name starts with "sub_id_" |
| AttributionUrl.SubIdItemsDistinct | ForestBerry/ForestBerryMain/Models/HarvestEntry.swift:218-223 | no sub_id key appears twice |
| AttributionUrl.SubIdItemsAscending | ForestBerry/ForestBerryMain/Models/HarvestEntry.swift:218-223 | present keys sub_id_a and sub_id_b with a < b appear in that order |
| AttributionUrl.LeadingItemsNames | ForestBerry/ForestBerryMain/Models/HarvestEntry.swift:211-217 | the leading items are named app_name or tm_id, without repetition |
| AttributionUrl.TrailingItemsNames | ForestBerry/ForestBerryMain/Models/HarvestEntry.swift:224-233 | the trailing items start with bundle, use only bundle/onesignal_id/appsflyer_id/idfa, without repetition |
| AttributionUrl.AttributionPath | ForestBerry/ForestBerryMain/Models/HarvestEntry.swift:201-205 | campaign URL + cm_id, with "/" between them only when the URL does not already end in "/" |
| AttributionUrl.AppsFlyerURLCases | ForestBerry/ForestBerryMain/Models/HarvestEntry.swift:195-236 | nil without cm_id, with an empty cm_id, or without campaign URL or bundle id; a URL is the rendering of the parsed path with the attribution query |
| AttributionUrl.AppsFlyerURL | ForestBerry/ForestBerryMain/Models/HarvestEntry.swift:195-236 | a URL is built only with a non-empty cm_id, a campaign URL and a bundle id |
| AttributionUrl.LeadingAndSubIdItemsDistinct | ForestBerry/ForestBerryMain/Models/HarvestEntry.swift:211-223 | the items before bundle have distinct names, none of them a trailing name |
| AttributionUrl.AttributionQueryDistinct | ForestBerry/ForestBerryMain/Models/HarvestEntry.swift:209-234 | no key appears twice in the attribution query |
| AttributionUrl.AppendLeading | ForestBerry/ForestBerryMain/Models/HarvestEntry.swift:209-217 | the two `if let` appends give app_name then tm_id, each when present |
| AttributionUrl.AppendSubIds | ForestBerry/ForestBerryMain/Models/HarvestEntry.swift:218-223 | the `for i in 1...15` loop appends exactly the present sub_id_1..sub_id_15 items, ascending |
| AttributionUrl.AppendTrailing | ForestBerry/ForestBerryMain/Models/HarvestEntry.swift:224-233 | appends bundle, a non-empty onesignal_id, appsflyer_id when present, a non-empty idfa |
| AttributionUrl.AssembleAttributionQuery | ForestBerry/ForestBerryMain/Models/HarvestEntry.swift:209-233 | the appended list is the attribution query, in source order |
| AttributionUrl.BuildAppsFlyerURL | ForestBerry/ForestBerryMain/Models/HarvestEntry.swift:195-236 | the method returns exactly the URL described by AppsFlyerURLCases |
| Codable.DecodeUuid | ForestBerry/ForestBerry/Models/HarvestEntry.swift:4 | what decodes is the encoding of the decoded id |
| Codable.DecodeDate | ForestBerry/ForestBerry/Models/HarvestEntry.swift:5 | what decodes is the encoding of the decoded date |
| Codable.DecodeString | ForestBerry/ForestBerry/Models/HarvestEntry.swift:6 | only a JSON string decodes, to itself |
| Codable.EncodeDouble | ForestBerry/ForestBerry/Models/HarvestEntry.swift:7 | a Double encodes exactly when it is finite |
| Codable.DecodeDouble | ForestBerry/ForestBerry/Models/HarvestEntry.swift:7 | a decoded number is finite and re-encodes to its source |
| Codable.DecodeUnit | ForestBerry/ForestBerry/Models/HarvestEntry.swift:23-27 | only a unit's raw value decodes, to that unit |
| Codable.UnitRoundTrip | ForestBerry/ForestBerry/Models/HarvestEntry.swift:23-27 | every unit's raw value decodes back to it |
| Codable.DecodeSpotType | ForestBerry/ForestBerry/Models/FavoriteSpot.swift:21-23 | only a spot type's raw value decodes, to that type |
| Codable.SpotTypeRoundTrip | ForestBerry/ForestBerry/Models/FavoriteSpot.swift:21-23 | every spot type's raw value decodes back to it |
| Codable.BytesRoundTrip | ForestBerry/ForestBerry/Models/HarvestEntry.swift:10 | encoded bytes decode back to themselves |
| Codable.ImageKeyIsNew | ForestBerry/ForestBerry/Models/HarvestEntry.swift:3-10 | the required members do not use the image key |
| Codable.EncodeEntry | ForestBerry/ForestBerry/Models/HarvestEntry.swift:3-10 | an entry encodes exactly when its quantity is finite, to an object with distinct keys |
| Codable.DecodeEntry | ForestBerry/ForestBerry/Models/HarvestEntry.swift:3-10 | a decoded entry has a finite quantity |
| Codable.DecodeOptionalBytes | ForestBerry/ForestBerry/Models/HarvestEntry.swift:10 | an absent image key or a JSON null reads as nil; a present image is the decoded bytes |
| Codable.EntryHeadRoundTrip | ForestBerry/ForestBerry/Models/HarvestEntry.swift:4-6 | id, date and berryType read back from the encoded object |
| Codable.EntryBodyRoundTrip | ForestBerry/ForestBerry/Models/HarvestEntry.swift:7-9 | quantity, unit and notes read back |
| Codable.EntryImageRoundTrip | ForestBerry/ForestBerry/Models/HarvestEntry.swift:10 | the optional image reads back, an absent key as nil |
| Codable.EntryRoundTrip | ForestBerry/ForestBerry/Models/HarvestEntry.swift:3-10 | an entry with a finite quantity decodes back to itself |
| Codable.EncodeSpot | ForestBerry/ForestBerry/Models/FavoriteSpot.swift:3-9 | a spot encodes to an object with distinct keys |
| Codable.SpotHeadRoundTrip | ForestBerry/ForestBerry/Models/FavoriteSpot.swift:4-6 | id, createdAt and name read back |
| Codable.SpotBodyRoundTrip | ForestBerry/ForestBerry/Models/FavoriteSpot.swift:7-9 | directions, type and imageData read back |
| Codable.SpotRoundTrip | ForestBerry/ForestBerry/Models/FavoriteSpot.swift:3-9 | every spot decodes back to itself |
| Codable.DecodeAll | ForestBerry/ForestBerry/Managers/HarvestJournalManager.swift:12 | an array decodes exactly when every element does, element by element in order; a failure names an element that fails |
| Codable.DecodeAllEach | ForestBerry/ForestBerry/Managers/HarvestJournalManager.swift:12 | an array whose every element decodes to the value at the same position decodes to that list |
| Codable.EncodeEntries | ForestBerry/ForestBerry/Managers/HarvestJournalManager.swift:44 | the list encodes exactly when every quantity is finite, to an array of the same length |
| Codable.DecodeEntries | ForestBerry/ForestBerry/Managers/HarvestJournalManager.swift:12 | decoded entries all have finite quantities |
| Codable.EntriesRoundTrip | ForestBerry/ForestBerry/Managers/HarvestJournalManager.swift:9-46 | a list with finite quantities decodes back to itself |
| Codable.EncodeSpots | ForestBerry/ForestBerry/Managers/FavoriteSpotsManager.swift:44 | an array with one element per spot |
| Codable.SpotsRoundTrip | ForestBerry/ForestBerry/Managers/FavoriteSpotsManager.swift:9-46 | every spot list decodes back to itself |
| Lists.FirstIndexWithId | ForestBerry/ForestBerry/Managers/HarvestJournalManager.swift:27 | `firstIndex(where:)`: the first position with that id, or nil exactly when no element has it |
| Lists.ReplaceFirstWithId | ForestBerry/ForestBerry/Managers/HarvestJournalManager.swift:27-28 | the length is unchanged |
| Lists.ReplaceFirstWithIdSpec | ForestBerry/ForestBerry/Managers/HarvestJournalManager.swift:27-28 | when some element has x's id: the first one becomes x and every other position is unchanged |
| Lists.ReplaceFirstWithIdIdempotent | ForestBerry/ForestBerryMain/Views/Journal/FBJournalView.swift:24-26 | replacing twice is replacing once |
| Lists.RemoveWithId | ForestBerry/ForestBerry/Managers/HarvestJournalManager.swift:35 | `removeAll(where:)`: what is left has no element with that id, and every element without it survives |
| Lists.RemoveWithIdDistributes | ForestBerry/ForestBerry/Managers/HarvestJournalManager.swift:35 | removal works on each part of a concatenation, so the survivors keep their order |
| Lists.RemoveWithIdAbsent | ForestBerry/ForestBerry/Managers/HarvestJournalManager.swift:35 | without that id nothing is removed |
| Lists.InsertDesc | ForestBerry/ForestBerryMain/Views/Journal/FBJournalView.swift:82 | inserting into a descending list keeps it descending and adds exactly that element |
| Lists.SortDesc | ForestBerry/ForestBerryMain/Views/Journal/FBJournalView.swift:82 | `sorted { key($0) > key($1) }`: descending and a permutation |
| Lists.SumOfAppend | ForestBerry/ForestBerry/Views/Statistics/FBStatisticsView.swift:202 | the sum over a concatenation is the sum of the sums |
| Lists.SumOfInsertDesc | ForestBerry/ForestBerry/Views/Statistics/FBStatisticsView.swift:202 | inserting adds exactly the element's value to the sum |
| Lists.SumOfSortDesc | ForestBerry/ForestBerry/Views/Statistics/FBStatisticsView.swift:32-203 | sorting does not change a sum |
| Storage.KeyNamesDistinct | ForestBerry/ForestBerryMain/Views/Journal/Details/FBJournalDetailView.swift:193-200 | the six storage keys are pairwise distinct |
| Storage.BoolAt | ForestBerry/ForestBerryMain/Views/Journal/Details/FBJournalDetailView.swift:204-206 | a Bool is read exactly when the key holds a Bool |
| Storage.StringAt | ForestBerry/ForestBerryMain/Views/Journal/Details/FBJournalDetailView.swift:208-226 | a String is read exactly when the key holds a String |
| Storage.Put | ForestBerry/ForestBerryMain/Views/Journal/Details/FBJournalDetailView.swift:228-250 | `set(_:forKey:)` writes its key and leaves every other entry of the database as it was |
| Storage.PutLeavesOtherKeys | ForestBerry/ForestBerryMain/Views/Journal/Details/FBJournalDetailView.swift:228-250 | writing one key changes what no other key reads |
| Storage.PutSameExcept | ForestBerry/ForestBerryMain/Views/Journal/Details/FBJournalDetailView.swift:228-250 | a write leaves every other key reading the same |
| Storage.StorageManager.constructor | ForestBerry/ForestBerryMain/Views/Journal/Details/FBJournalDetailView.swift:202 | a fresh database, which satisfies the no-false-status invariant |
| Storage.StorageManager.GetRemoteStatus | ForestBerry/ForestBerryMain/Views/Journal/Details/FBJournalDetailView.swift:204-206 | non-nil exactly when a Boolean is stored under "remoteStatus"; under the class invariant a stored status is true: nothing ever stores false |
| Storage.StorageManager.GetSavedURLString | ForestBerry/ForestBerryMain/Views/Journal/Details/FBJournalDetailView.swift:208-210 | non-nil exactly when a string is stored under "urlString", and then that string |
| Storage.StorageManager.GetSavedBaseURLString | ForestBerry/ForestBerryMain/Views/Journal/Details/FBJournalDetailView.swift:212-214 | non-nil exactly when a string is stored under "baseUrlString", and then that string |
| Storage.StorageManager.GetSavedSalt | ForestBerry/ForestBerryMain/Views/Journal/Details/FBJournalDetailView.swift:216-218 | non-nil exactly when a string is stored under "salt", and then that string |
| Storage.StorageManager.GetSavedCampaignURLString | ForestBerry/ForestBerryMain/Views/Journal/Details/FBJournalDetailView.swift:220-222 | non-nil exactly when a string is stored under "campaignURL", and then that string |
| Storage.StorageManager.GetSavedDevKey | ForestBerry/ForestBerryMain/Views/Journal/Details/FBJournalDetailView.swift:224-226 | non-nil exactly when a string is stored under "devKey", and then that string |
| Storage.StorageManager.EnableRemote | ForestBerry/ForestBerryMain/Views/Journal/Details/FBJournalDetailView.swift:228-230 | writes true under remoteStatus only; the status then reads true |
| Storage.StorageManager.SaveSalt | ForestBerry/ForestBerryMain/Views/Journal/Details/FBJournalDetailView.swift:232-234 | writes only the salt key; reading the salt gives the value written |
| Storage.StorageManager.SaveBase | ForestBerry/ForestBerryMain/Views/Journal/Details/FBJournalDetailView.swift:236-238 | writes only baseUrlString; it reads back |
| Storage.StorageManager.SaveURL | ForestBerry/ForestBerryMain/Views/Journal/Details/FBJournalDetailView.swift:240-242 | stores the URL's absoluteString under urlString only; `getSavedURLString` returns it |
| Storage.StorageManager.SaveCampaignURL | ForestBerry/ForestBerryMain/Views/Journal/Details/FBJournalDetailView.swift:244-246 | writes only campaignURL; it reads back |
| Storage.StorageManager.SaveDevKey | ForestBerry/ForestBerryMain/Views/Journal/Details/FBJournalDetailView.swift:248-250 | writes only devKey; it reads back |
| Remote.StorageConfigLoaded | ForestBerry/ForestBerryMain/Views/Journal/FBJournalView.swift:251-268 | with a stored status, all six stored values are copied and the service is marked loaded; without one, the fields are unchanged |
| Remote.FromConfig | ForestBerry/ForestBerryMain/Views/Journal/FBJournalView.swift:226-230 | the five config fields are overwritten; savedURLString and hasServiceLoaded are kept |
| Remote.LocalValuesUpdated | ForestBerry/ForestBerryMain/Views/Journal/FBJournalView.swift:225-243 | fields are overwritten first; the five writes happen exactly when the flag is on and all four strings are non-nil, otherwise the store is untouched |
| Remote.ConfigFetched | ForestBerry/ForestBerryMain/Views/Journal/FBJournalView.swift:205-223 | a fetch never writes urlString and never changes whether the service counts as loaded |
| Remote.FetchConfigUnchanged | ForestBerry/ForestBerryMain/Views/Journal/FBJournalView.swift:205-222 | a loaded service, a thrown error, a non-success status or a failed activation changes no field and no key |
| Remote.FetchConfigActivated | ForestBerry/ForestBerryMain/Views/Journal/FBJournalView.swift:213-243 | after activation the fields hold the config values; the store holds true and the four strings exactly when the guard passes; urlString is never written |
| Remote.FetchConfigKeepsStatus | ForestBerry/ForestBerryMain/Views/Journal/FBJournalView.swift:238 | fetching never stores false as the remote status |
| Remote.LoadedMeansEnabled | ForestBerry/ForestBerryMain/Views/Journal/FBJournalView.swift:259-266 | a manager that loaded from the store sees remote mode enabled |
| Remote.RemoteManager.constructor | ForestBerry/ForestBerryMain/Views/Journal/FBJournalView.swift:200-203 | `setupConfig` sets the 500 s fetch interval, then `loadStorageConfig` runs on the default fields |
| Remote.RemoteManager.LoadStorageConfig | ForestBerry/ForestBerryMain/Views/Journal/FBJournalView.swift:251-268 | the fields become StorageConfigLoaded of the old fields and the store |
| Remote.RemoteManager.FetchConfig | ForestBerry/ForestBerryMain/Views/Journal/FBJournalView.swift:205-223 | fields and store follow the fetch outcome as above; the store invariant is kept |
| Remote.RemoteManager.UpdateLocalValues | ForestBerry/ForestBerryMain/Views/Journal/FBJournalView.swift:225-243 | fields and store become LocalValuesUpdated; the store invariant is kept |
| Tracking.Idfa | ForestBerry/ForestBerryMain/Views/Journal/FBJournalView.swift:161-163 | non-nil exactly when the status is authorized, and then the advertising identifier |
| Tracking.RequestATTracking | ForestBerry/ForestBerryMain/Views/Journal/FBJournalView.swift:165-182 | prompts only for notDetermined; marks asked exactly for notDetermined or authorized, last; approves for authorized, or for notDetermined answered authorized, first |
| Tracking.RequestATTrackingCompleting | ForestBerry/ForestBerryMain/Views/Journal/FBJournalView.swift:165-182 | the corrected request: prompts only for notDetermined; always ends with trackingDidAsked; approves exactly as the code does |
| Tracking.CompletingDiffersOnlyWhenRefused | ForestBerry/ForestBerryMain/Views/Journal/FBJournalView.swift:168-181 | the corrected request is the code's own for notDetermined and authorized; for denied or restricted the code makes no callback and the corrected one calls trackingDidAsked |
| Launch.Start | ForestBerry/ForestBerryMain/Models/HarvestEntry.swift:64-75 | the app starts loading, with nothing logged |
| Launch.TrackingDidApproved | ForestBerry/ForestBerryMain/Models/HarvestEntry.swift:110-113 | starts the SDK and sets hasTrackingApproved; nothing else changes |
| Launch.TrackingDidAsked | ForestBerry/ForestBerryMain/Models/HarvestEntry.swift:101-108 | sets hasTrackingCompleted and schedules the follow-up `Task`; nothing else changes |
| Launch.NotificationDidAsked | ForestBerry/ForestBerryMain/Models/HarvestEntry.swift:92-99 | sets hasNotificationCompleted and schedules the follow-up `Task`; nothing else changes |
| Launch.NotificationDidApproved | ForestBerry/ForestBerryMain/Models/HarvestEntry.swift:115-117 | sets hasNotificationApproved only |
| Launch.ApplyTrackingCallbacks | ForestBerry/ForestBerryMain/Views/Journal/FBJournalView.swift:173-181 | state, URL, store and config flags are untouched; tracking is asked/approved exactly when it was before or the callbacks say so |
| Launch.ApplyTrackingCallbackLists | ForestBerry/ForestBerryMain/Views/Journal/FBJournalView.swift:173-181 | no callback, ask only, and approve-then-ask are the callbacks applied one after the other |
| Launch.TrackingRequestOutcome | ForestBerry/ForestBerryMain/Views/Journal/FBJournalView.swift:165-182 | per status: notDetermined prompts, approves only when authorized, then asks; authorized approves then asks; any other status changes nothing |
| Launch.RequestPermissions | ForestBerry/ForestBerryMain/Models/HarvestEntry.swift:268-272 | never touches state, URL, store, config flags or the notification flag |
| Launch.PermissionsRequested | ForestBerry/ForestBerryMain/Models/HarvestEntry.swift:268-272 | for any tracking outcome: never touches state, URL, store, config flags or the notification flag; from an unasked state, tracking ends asked exactly when the outcome calls trackingDidAsked |
| Launch.PerformLink | ForestBerry/ForestBerryMain/Models/HarvestEntry.swift:259-266 | sets fetchedURL and magic and stores the URL's absoluteString under urlString only; nothing else changes |
| Launch.TryAppsFlyerConfig | ForestBerry/ForestBerryMain/Models/HarvestEntry.swift:148-154 | only logs starting the SDK and arming the watchdog |
| Launch.PerformFetchedData | ForestBerry/ForestBerryMain/Models/HarvestEntry.swift:124-146 | the state stays or becomes original/magic; the store is untouched |
| Launch.CheckIfProblemState | ForestBerry/ForestBerryMain/Models/HarvestEntry.swift:188-193 | the state stays or becomes original/magic |
| Launch.HandleMetrics | ForestBerry/ForestBerryMain/Models/HarvestEntry.swift:245-255 | the state stays or becomes original/magic; only urlString may change in the store |
| Launch.FetchData | ForestBerry/ForestBerryMain/Models/HarvestEntry.swift:238-257 | the state stays or becomes original/magic; only urlString may change in the store |
| Launch.FetchAppsFlyerData | ForestBerry/ForestBerryMain/Models/HarvestEntry.swift:170-186 | the state stays or becomes original/magic; only urlString may change |
| Launch.FetchAppsFlyerConfig | ForestBerry/ForestBerryMain/Models/HarvestEntry.swift:156-168 | the state stays or becomes original/magic; only urlString may change |
| Launch.AppsFlyerDidConfigured | ForestBerry/ForestBerryMain/Models/HarvestEntry.swift:119-122 | the state stays or becomes original/magic; only urlString may change |
| Launch.WithFetchedConfig | ForestBerry/ForestBerryMain/Models/HarvestEntry.swift:79 | fetching the config leaves the state and the log alone |
| Launch.AdoptRemoteFlags | ForestBerry/ForestBerryMain/Models/HarvestEntry.swift:82-86 | hasConfigEnabled becomes the remote flag; state and store untouched |
| Launch.SetupConfiguration | ForestBerry/ForestBerryMain/Models/HarvestEntry.swift:77-90 | the state stays or becomes original/magic |
| Launch.PromptFollowUp | ForestBerry/ForestBerryMain/Models/HarvestEntry.swift:92-108 | the state stays or becomes original/magic |
| Launch.Step | ForestBerry/ForestBerryMain/Models/HarvestEntry.swift:77-193 | no event takes the state back to loading; the watchdog event acts only once `tryAppsFlyerConfig` has armed the timer |
| Launch.Run | ForestBerry/ForestBerryMain/Models/HarvestEntry.swift:77-193 | any sequence of events leaves the state where it was or at original or magic |
| LaunchFacts.RunNeverReturnsToLoading | ForestBerry/ForestBerryMain/Models/HarvestEntry.swift:64-266 | once the state has left loading, no sequence of events brings it back |
| LaunchFacts.PerformFetchedDataDisabled | ForestBerry/ForestBerryMain/Models/HarvestEntry.swift:125-133 | config disabled: original exactly when both prompts completed, otherwise nothing changes |
| LaunchFacts.PerformFetchedDataEnabled | ForestBerry/ForestBerryMain/Models/HarvestEntry.swift:135-146 | config enabled with a stored URL that parses: magic at that URL, no SDK call or request; otherwise the SDK starts and the watchdog is armed |
| LaunchFacts.CheckIfProblemStateCases | ForestBerry/ForestBerryMain/Models/HarvestEntry.swift:188-193 | loading becomes original; original and magic are left untouched |
| LaunchFacts.FetchDataNeedsInputs | ForestBerry/ForestBerryMain/Models/HarvestEntry.swift:240-242 | without bundle id, salt or base URL nothing changes |
| LaunchFacts.HandleMetricsOutcomes | ForestBerry/ForestBerryMain/Models/HarvestEntry.swift:245-255 | a thrown error leaves state, URL and store; no tracking URL gives original; a tracking URL gives magic at it, stored, from any state |
| LaunchFacts.HandleResponseOutcome | ForestBerry/ForestBerryMain/Models/HarvestEntry.swift:247-255 | a response: original without a tracking URL, linked with one |
| LaunchFacts.HandleMetricsLog | ForestBerry/ForestBerryMain/Views/Loading/LoadingView.swift:106-115 | the request is logged exactly when one was built |
| LaunchFacts.FetchDataInvalidURL | ForestBerry/ForestBerryMain/Views/Loading/LoadingView.swift:90-109 | an unusable base URL sends no request and leaves state and URL alone |
| LaunchFacts.AttributionFallsBack | ForestBerry/ForestBerryMain/Models/HarvestEntry.swift:156-186 | links the AppsFlyer URL exactly when configured, not organic, with parameters and a URL; otherwise falls back to fetchData |
| LaunchFacts.RequestPermissionsCases | ForestBerry/ForestBerryMain/Models/HarvestEntry.swift:268-272 | nothing once config is enabled or tracking completed; otherwise tracking is marked asked exactly for notDetermined or authorized, and notifications are requested |
| LaunchFacts.DeniedStepStaysLoading | ForestBerry/ForestBerryMain/Views/Journal/FBJournalView.swift:177-178 | with tracking denied or restricted and remote mode off, each such event, the notification answer and the watchdog event included, keeps the app loading, tracking unasked and no watchdog armed |
| LaunchFacts.RefusedRequestOnlyAsksNotifications | ForestBerry/ForestBerryMain/Views/Journal/FBJournalView.swift:165-182 | for denied or restricted, requestPermissions adds only the notification request to the log |
| LaunchFacts.DeniedTrackingStaysLoading | ForestBerry/ForestBerryMain/Views/Journal/FBJournalView.swift:177-178 | any run of such events stays loading: the app never leaves the loading screen |
| LaunchFacts.FirstLaunchIsStuckWhenDenied | ForestBerry/ForestBerryMain/Views/Journal/FBJournalView.swift:259 | a first launch with nothing stored starts in that situation |
| LaunchFacts.RefusedRequestKeepsWaiting | ForestBerry/ForestBerryMain/Models/HarvestEntry.swift:124-133 | as written, for a refused status tracking stays unasked, so answering notifications leaves the state as it was |
| LaunchFacts.CompletingRequestShowsJournal | ForestBerry/ForestBerryMain/Models/HarvestEntry.swift:124-133 | with the corrected request, tracking ends asked for every status, and once notifications are answered the follow-up shows the journal |
| LaunchFacts.StepKeepsStatus | ForestBerry/ForestBerryMain/Views/Journal/Details/FBJournalDetailView.swift:228-230 | no event stores false as the remote status |
| StateManager.ConfigurationStateManager.constructor | ForestBerry/ForestBerryMain/Models/HarvestEntry.swift:62-75 | loading, every flag false, no URL, nothing logged |
| StateManager.ConfigurationStateManager.SetupConfiguration | ForestBerry/ForestBerryMain/Models/HarvestEntry.swift:77-90 | the new state is Launch.SetupConfiguration of the old |
| StateManager.ConfigurationStateManager.AdoptRemoteFlags | ForestBerry/ForestBerryMain/Models/HarvestEntry.swift:82-86 | the new state is Launch.AdoptRemoteFlags of the old |
| StateManager.ConfigurationStateManager.NotificationDidAsked | ForestBerry/ForestBerryMain/Models/HarvestEntry.swift:92-99 | the new state is Launch.NotificationDidAsked of the old |
| StateManager.ConfigurationStateManager.TrackingDidAsked | ForestBerry/ForestBerryMain/Models/HarvestEntry.swift:101-108 | the new state is Launch.TrackingDidAsked of the old |
| StateManager.ConfigurationStateManager.TrackingDidApproved | ForestBerry/ForestBerryMain/Models/HarvestEntry.swift:110-113 | the new state is Launch.TrackingDidApproved of the old |
| StateManager.ConfigurationStateManager.NotificationDidApproved | ForestBerry/ForestBerryMain/Models/HarvestEntry.swift:115-117 | the new state is Launch.NotificationDidApproved of the old |
| StateManager.ConfigurationStateManager.ApssFlyerDidConfigured | ForestBerry/ForestBerryMain/Models/HarvestEntry.swift:119-122 | the new state is Launch.AppsFlyerDidConfigured of the old |
| StateManager.ConfigurationStateManager.PromptFollowUp | ForestBerry/ForestBerryMain/Models/HarvestEntry.swift:92-108 | the new state is Launch.PromptFollowUp of the old |
| StateManager.ConfigurationStateManager.PerformFetchedData | ForestBerry/ForestBerryMain/Models/HarvestEntry.swift:124-146 | the new state is Launch.PerformFetchedData of the old |
| StateManager.ConfigurationStateManager.TryAppsFlyerConfig | ForestBerry/ForestBerryMain/Models/HarvestEntry.swift:148-154 | the new state is Launch.TryAppsFlyerConfig of the old |
| StateManager.ConfigurationStateManager.FetchAppsFlyerConfig | ForestBerry/ForestBerryMain/Models/HarvestEntry.swift:156-168 | the new state is Launch.FetchAppsFlyerConfig of the old |
| StateManager.ConfigurationStateManager.FetchAppsFlyerData | ForestBerry/ForestBerryMain/Models/HarvestEntry.swift:170-186 | the new state is Launch.FetchAppsFlyerData of the old |
| StateManager.ConfigurationStateManager.CheckIfProblemState | ForestBerry/ForestBerryMain/Models/HarvestEntry.swift:188-193 | the new state is Launch.CheckIfProblemState of the old |
| StateManager.ConfigurationStateManager.FetchData | ForestBerry/ForestBerryMain/Models/HarvestEntry.swift:238-257 | the new state is Launch.FetchData of the old |
| StateManager.ConfigurationStateManager.HandleMetrics | ForestBerry/ForestBerryMain/Models/HarvestEntry.swift:245-255 | the new state is Launch.HandleMetrics of the old |
| StateManager.ConfigurationStateManager.PerformLink | ForestBerry/ForestBerryMain/Models/HarvestEntry.swift:259-266 | the new state is Launch.PerformLink of the old |
| StateManager.ConfigurationStateManager.RequestPermissions | ForestBerry/ForestBerryMain/Models/HarvestEntry.swift:268-272 | the new state is Launch.RequestPermissions of the old |
| StateManager.ConfigurationStateManager.RequestATTracking | ForestBerry/ForestBerryMain/Views/Journal/FBJournalView.swift:165-182 | the new state is the prompt, if any, followed by the callbacks of Tracking.RequestATTracking |
| JournalStore.EntriesIn | ForestBerry/ForestBerry/Managers/HarvestJournalManager.swift:9-17 | loaded entries all have finite quantities; nothing stored or undecodable data load as [] |
| JournalStore.SpotsIn | ForestBerry/ForestBerry/Managers/FavoriteSpotsManager.swift:9-17 | nothing stored, or data that is not JSON, loads as [] |
| JournalStore.SaveThenLoad | ForestBerry/ForestBerry/Managers/HarvestJournalManager.swift:9-46 | saving an encodable list and loading gives it back; a failed encode leaves the stored data unchanged |
| JournalStore.AddEntryLoads | ForestBerry/ForestBerry/Managers/HarvestJournalManager.swift:19-23 | a finite entry is appended to the loaded list; a non-finite one is not stored at all |
| JournalStore.UpdateEntryLoads | ForestBerry/ForestBerry/Managers/HarvestJournalManager.swift:25-31 | a finite update replaces the first entry with that id; an unknown id writes nothing |
| JournalStore.DeleteEntryLoads | ForestBerry/ForestBerry/Managers/HarvestJournalManager.swift:33-37 | the entries with that id are gone, the rest load in order |
| JournalStore.NewestFirst | ForestBerry/ForestBerryMain/Views/Journal/FBJournalView.swift:82 | a permutation of the entries, newest date first |
| JournalStore.HarvestJournalManager.constructor | ForestBerry/ForestBerry/Managers/HarvestJournalManager.swift:3-7 | the manager over whatever is stored |
| JournalStore.HarvestJournalManager.LoadEntries | ForestBerry/ForestBerry/Managers/HarvestJournalManager.swift:9-17 | nothing stored, data that is not JSON, or JSON that does not decode as entries loads as []; every loaded quantity is finite |
| JournalStore.HarvestJournalManager.AddEntry | ForestBerry/ForestBerry/Managers/HarvestJournalManager.swift:19-23 | the stored data become AddedEntry of the old |
| JournalStore.HarvestJournalManager.UpdateEntry | ForestBerry/ForestBerry/Managers/HarvestJournalManager.swift:25-31 | the stored data become UpdatedEntry of the old |
| JournalStore.HarvestJournalManager.DeleteEntry | ForestBerry/ForestBerry/Managers/HarvestJournalManager.swift:33-37 | the stored data become DeletedEntry of the old |
| JournalStore.HarvestJournalManager.ClearAll | ForestBerry/ForestBerry/Managers/HarvestJournalManager.swift:39-41 | the key is removed and the next load is empty |
| JournalStore.HarvestJournalManager.Save | ForestBerry/ForestBerry/Managers/HarvestJournalManager.swift:43-46 | the encoding is stored when it succeeds; otherwise the data are unchanged |
| JournalStore.SavedSpots | ForestBerry/ForestBerry/Managers/FavoriteSpotsManager.swift:9-46 | saving spots and loading gives them back |
| JournalStore.AddedSpot | ForestBerry/ForestBerry/Managers/FavoriteSpotsManager.swift:19-23 | the loaded list is the old one followed by the new spot |
| JournalStore.UpdatedSpot | ForestBerry/ForestBerry/Managers/FavoriteSpotsManager.swift:25-31 | the first spot with that id is replaced; an unknown id writes nothing |
| JournalStore.DeletedSpot | ForestBerry/ForestBerry/Managers/FavoriteSpotsManager.swift:33-37 | every spot with that id is removed, the rest keep their order |
| JournalStore.FavoriteSpotsManager.constructor | ForestBerry/ForestBerry/Managers/FavoriteSpotsManager.swift:3-7 | the manager over whatever is stored |
| JournalStore.FavoriteSpotsManager.LoadSpots | ForestBerry/ForestBerry/Managers/FavoriteSpotsManager.swift:9-17 | nothing stored, data that is not JSON, or JSON that does not decode as spots loads as [] |
| JournalStore.FavoriteSpotsManager.AddSpot | ForestBerry/ForestBerry/Managers/FavoriteSpotsManager.swift:19-23 | the stored data become AddedSpot of the old |
| JournalStore.FavoriteSpotsManager.UpdateSpot | ForestBerry/ForestBerry/Managers/FavoriteSpotsManager.swift:25-31 | the stored data become UpdatedSpot of the old |
| JournalStore.FavoriteSpotsManager.DeleteSpot | ForestBerry/ForestBerry/Managers/FavoriteSpotsManager.swift:33-37 | the stored data become DeletedSpot of the old |
| JournalStore.FavoriteSpotsManager.ClearAll | ForestBerry/ForestBerry/Managers/FavoriteSpotsManager.swift:39-41 | the key is removed and the next load is empty |
| JournalStore.FavoriteSpotsManager.Save | ForestBerry/ForestBerry/Managers/FavoriteSpotsManager.swift:43-46 | the encoding is stored |
| JournalScreen.NotesContent | ForestBerry/ForestBerryMain/Views/Journal/Details/FBJournalDetailView.swift:168-171 | the trimmed notes when they are not empty, the placeholder when the notes are all whitespace; never empty |
| JournalScreen.JournalList.constructor | ForestBerry/ForestBerryMain/Views/Journal/FBJournalView.swift:5-7 | an empty list, nothing selected |
| JournalScreen.JournalList.LoadEntries | ForestBerry/ForestBerryMain/Views/Journal/FBJournalView.swift:81-83 | the list becomes the stored entries, newest first |
| JournalScreen.JournalList.OnDelete | ForestBerry/ForestBerryMain/Views/Journal/FBJournalView.swift:20-22 | every entry with the deleted id is removed; the detail closes |
| JournalScreen.JournalList.OnUpdate | ForestBerry/ForestBerryMain/Views/Journal/FBJournalView.swift:23-27 | the first entry with that id is replaced, or the list is unchanged; the updated entry is shown |
| JournalScreen.JournalList.DeleteFromDetail | ForestBerry/ForestBerryMain/Views/Journal/Details/FBJournalDetailView.swift:162-166 | the store deletes the entry, then the same entry goes to onDelete |
| JournalScreen.DeleteAgreesWithStore | ForestBerry/ForestBerryMain/Views/Journal/Details/FBJournalDetailView.swift:162-166 | after a delete, reloading gives the list the callback left, up to the order of equal dates |
| JournalScreen.RemoveWithIdSortDesc | ForestBerry/ForestBerryMain/Views/Journal/FBJournalView.swift:21-82 | removing by id and sorting by date commute up to order |
| JournalScreen.RemoveWithIdMultiset | ForestBerry/ForestBerryMain/Views/Journal/FBJournalView.swift:21 | removal keeps each element as often as before when its id differs, never when it matches |
| FeeForm.Init | ForestBerry/ForestBerry/Views/Journal/Add/FBAddFeeView.swift:27-46 | without an entry: empty text, now, kilograms, no image; with one: every field prefilled from it |
| FeeForm.IsFormValid | ForestBerry/ForestBerry/Views/Journal/Add/FBAddFeeView.swift:398-407 | valid exactly with a berry type that is not all blanks, a positive parsed quantity and a new or stored image |
| FeeForm.EditingStartsValid | ForestBerry/ForestBerry/Views/Journal/Add/FBAddFeeView.swift:398-407 | editing an entry with a type, an image and a quantity that reads back starts valid |
| FeeForm.SubmittedEntry | ForestBerry/ForestBerry/Views/Journal/Add/FBAddFeeView.swift:412-428 | keeps the edited entry's id or takes the fresh one; date and unit from the form; a picked image wins over the stored one |
| FeeForm.SubmittedEntryIsClean | ForestBerry/ForestBerry/Views/Journal/Add/FBAddFeeView.swift:420-428 | from a valid form: type and notes trimmed, type non-empty, quantity the positive number typed |
| FeeForm.InfiniteQuantityIsNotStored | ForestBerry/ForestBerry/Views/Journal/Add/FBAddFeeView.swift:398-436 | an infinite quantity passes validation but adding it leaves the store unchanged |
| FeeForm.Submit | ForestBerry/ForestBerry/Views/Journal/Add/FBAddFeeView.swift:409-439 | an invalid form does nothing; a valid one adds a new entry or updates the edited one and hands the same entry to onSave |
| SpotForm.OnAppear | ForestBerry/ForestBerry/Views/Spots/FBAddSpotView.swift:110-118 | editing copies name, directions, type and image from the spot; otherwise nothing changes |
| SpotForm.Init | ForestBerry/ForestBerry/Views/Spots/FBAddSpotView.swift:10-15 | the form starts with the bound spot and invalid, so save is disabled until it is filled |
| SpotForm.IsFormValid | ForestBerry/ForestBerry/Views/Spots/FBAddSpotView.swift:258-267 | valid exactly with a type, a new or stored image, and a name and directions that are not all blanks |
| SpotForm.EditingStartsValid | ForestBerry/ForestBerry/Views/Spots/FBAddSpotView.swift:258-267 | opening a spot with a name and directions gives a valid form |
| SpotForm.EditedSpot | ForestBerry/ForestBerry/Views/Spots/FBAddSpotView.swift:281-285 | same id and createdAt; trimmed name and directions; the selected type and final image |
| SpotForm.NewSpot | ForestBerry/ForestBerry/Views/Spots/FBAddSpotView.swift:290-295 | fresh id, created now; trimmed name and directions; type and image |
| SpotForm.SavedSpotIsClean | ForestBerry/ForestBerry/Views/Spots/FBAddSpotView.swift:258-295 | from any form with a type, an image to store and a name and directions that are not only blanks (so from every valid form), the saved spot has non-empty, trimmed name and directions |
| SpotForm.Submit | ForestBerry/ForestBerry/Views/Spots/FBAddSpotView.swift:269-303 | no type or no image: nothing happens; editing updates the store and the binding; a new spot is added and handed to onSave |
| Statistics.TotalSeasonQuantity | ForestBerry/ForestBerry/Views/Statistics/FBStatisticsView.swift:201-203 | with no negative quantity the total is non-negative |
| Statistics.NonNegativeSum | ForestBerry/ForestBerry/Views/Statistics/FBStatisticsView.swift:202 | truncated non-negative quantities add up to a non-negative sum |
| Statistics.SeasonTotalOfLoaded | ForestBerry/ForestBerry/Views/Statistics/FBStatisticsView.swift:32-203 | the season total of the loaded, sorted entries is the sum over the stored ones |
| Statistics.InMonth | ForestBerry/ForestBerry/Views/Statistics/FBStatisticsView.swift:192-197 | keeps exactly the entries of that month and year, in order |
| Statistics.InMonthMultiset | ForestBerry/ForestBerry/Views/Statistics/FBStatisticsView.swift:192-197 | each entry of that month is kept as many times as it occurs, every other entry never |
| Statistics.InMonthSum | ForestBerry/ForestBerry/Views/Statistics/FBStatisticsView.swift:192-198 | adding up the filtered entries is adding up all entries with the other months counted zero |
| Statistics.TotalMonthQuantity | ForestBerry/ForestBerry/Views/Statistics/FBStatisticsView.swift:187-199 | the month total is the sum over all entries of the truncated quantity of those dated in the current month and year |
| Statistics.MonthWithinSeason | ForestBerry/ForestBerry/Views/Statistics/FBStatisticsView.swift:187-203 | the month total never exceeds the season total, and equals it when every entry is this month |
| Statistics.CountOfAppend | ForestBerry/ForestBerry/Views/Statistics/FBStatisticsView.swift:206-207 | one more entry adds one to its type's count only |
| Statistics.CountOfPresent | ForestBerry/ForestBerry/Views/Statistics/FBStatisticsView.swift:206-207 | every type that occurs has count at least one |
| Statistics.BumpLookup | ForestBerry/ForestBerry/Views/Statistics/FBStatisticsView.swift:206-207 | grouping one more entry adds one to its type's count and leaves the other counts |
| Statistics.BumpKeySet | ForestBerry/ForestBerry/Views/Statistics/FBStatisticsView.swift:206-207 | the keys grow by exactly that type |
| Statistics.BumpKeepsKeysDistinct | ForestBerry/ForestBerry/Views/Statistics/FBStatisticsView.swift:206-207 | keys stay distinct |
| Statistics.BumpKeepsCountsPositive | ForestBerry/ForestBerry/Views/Statistics/FBStatisticsView.swift:206-207 | counts stay at least one |
| Statistics.BumpAddsOne | ForestBerry/ForestBerry/Views/Statistics/FBStatisticsView.swift:206-207 | the total grows by one |
| Statistics.BumpKeepsShape | ForestBerry/ForestBerry/Views/Statistics/FBStatisticsView.swift:206-207 | the three facts together |
| Statistics.Grouped | ForestBerry/ForestBerry/Views/Statistics/FBStatisticsView.swift:206-207 | the grouping is empty exactly when there are no entries |
| Statistics.GroupedSpec | ForestBerry/ForestBerry/Views/Statistics/FBStatisticsView.swift:206-207 | the grouping maps each type to its number of entries, distinct keys, counts >= 1, summing to the entry count |
| Statistics.MostCommonBerries | ForestBerry/ForestBerry/Views/Statistics/FBStatisticsView.swift:205-209 | counts non-increasing, and a permutation of the grouping |
| Statistics.SortKeepsDistinctKeys | ForestBerry/ForestBerry/Views/Statistics/FBStatisticsView.swift:208 | sorting by count keeps keys distinct |
| Statistics.MostCommonBerriesCounts | ForestBerry/ForestBerry/Views/Statistics/FBStatisticsView.swift:205-209 | each listed type carries its number of entries, at least one |
| Statistics.MostCommonBerriesListsEachTypeOnce | ForestBerry/ForestBerry/Views/Statistics/FBStatisticsView.swift:206-207 | every type of the entries is listed, and only once |
| Statistics.MostCommonBerriesTotal | ForestBerry/ForestBerry/Views/Statistics/FBStatisticsView.swift:206-207 | the counts sum to the number of entries |
| Statistics.ShownBerries | ForestBerry/ForestBerry/Views/Statistics/FBStatisticsView.swift:99 | the first min(3, n) rows of the list |

## Left out

- HTTP I/O: the Alamofire request, its headers, 10 s timeout, status validation and failure logging are not modelled. The server's reply is an input: no response, or a status and a body that is or is not JSON. Any other error Alamofire or `JSONSerialization` throws is one `FetchError` value.
- SDKs and system APIs are inputs, fixed per event:
  - Firebase Remote Config;
  - AppsFlyer start/configure/`isOrganic`/`extractParameters`;
  - the OneSignal id;
  - ATT and `ASIdentifierManager`.
  SDK calls with outside effects are entries in the log.
- The notification prompt code is not part of this model. `requestPermissions` logs the request and the completion arrives as a separate event.
- MD5 itself is a parameter returning 16 bytes; only its hex rendering is modelled.
- Concurrency and timing are not modelled: `Task`, `MainActor.run`, and the 15 s `asyncAfter` timer.
  - Each `Task` body runs to completion inside its event.
  - The prompt follow-up `Task` and the watchdog are separate events, so interleavings within one `Task` are not modelled.
- URL parsing and rendering (`URLComponents(string:)`, `components.url`, `URL(string:)`, `absoluteString`) are parameters. A URL is identified by its `absoluteString`; percent-encoding is not modelled.
- Floating point: `Double` is a real or one of NaN/±infinity. `Double(_:)` text parsing and `NumberFormatter` are parameters.
- Records.TruncateToInt: does not model the trap `Int(_:)` raises beyond the 64-bit range, because `Int` is unbounded here; the statistics sums are unbounded integers for the same reason.
- Dates are whole seconds, and `Calendar`'s month/year is a parameter. `dateFormatted` and `quantityFormatted` are not modelled.
- Sort ties: Swift's `sorted` gives equal keys no fixed order. `SortDesc` is one particular stable order, and every property stated about it holds for any order that is descending and a permutation.
- JSON `Codable` is modelled at the level of JSON values, not bytes.
  - A `UUID` is one number.
  - `Data` is written as a hex string rather than base64.
  - Both forms read back exactly, which is what the managers rely on.
- `UserDefaults` type coercion is not modelled. `string(forKey:)` reads only strings and `object(forKey:) as? Bool` reads only Booleans; numbers and other bridged kinds are not converted.
- The UI and WebKit parts of every file are not modelled, and neither are photo loading, keyboard handling and JPEG compression. A picked image is known only by the bytes `jpegData` returns, or `nil`.
- The ForestBerryMain copies of the managers and record types repeat the ForestBerry-target code and are modelled once.
- Behaviour of the code worth noting:
  - `URLBuilder` inserts "/" before `sub_id_2` unconditionally, while `buildAppsFlyerURL` adds it only when it is missing;
  - the persist guard tests for non-nil, not non-empty;
  - the in-memory fields are overwritten before that guard;
  - only the watchdog looks at the current state, so original can later become magic.
- With remote mode off and tracking already denied or restricted, tracking is never marked asked. The watchdog is armed only by `tryAppsFlyerConfig`, which runs only with remote mode on, so no timer ends the wait: the app stays loading for good. `LaunchFacts.DeniedTrackingStaysLoading` states this; see "## Findings".

## Findings

| source | as written | input that shows it | evidently intended | confidence | as-written member | corrected member |
|---|---|---|---|---|---|---|
| ForestBerry/ForestBerryMain/Views/Journal/FBJournalView.swift:177-178 | `requestATTracking` returns from its `default` branch without calling `trackingDidAsked`, so with remote mode off `performFetchedData` never sets original and no watchdog is armed | a launch after the user has denied tracking (status `.denied`), with nothing stored and remote config not activated | every status completes the tracking step, so the journal shows once notifications are answered | not executed; medium | LaunchFacts.RefusedRequestKeepsWaiting | LaunchFacts.CompletingRequestShowsJournal |

The corrected request is `Tracking.RequestATTrackingCompleting`. `Launch.PermissionsRequested` takes either request. The `Launch` state machine and its facts keep the request as written, so they describe the app as it ships. `LaunchFacts.DeniedTrackingStaysLoading` extends the as-written half to any run of events.
