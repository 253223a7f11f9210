/**
 * `ConfigurationStateManager.buildAppsFlyerURL`: the campaign URL for a
 * non-organic install, built from the attribution parameters the AppsFlyer
 * SDK delivers (a dictionary, so a map here: it is only looked up).
 */
module AttributionUrl {
  import opened Wrappers
  import opened Text
  import opened Urls

  /** The `sub_id` keys run from 1 to this bound. */
  const LastSubId: nat := 15

  /** The key `"sub_id_\(i)"`. */
  function SubIdKey(i: nat): string {
    "sub_id_" + Decimal(i)
  }

  lemma SubIdKeyInjective(a: nat, b: nat)
    requires SubIdKey(a) == SubIdKey(b)
    ensures a == b
  {
    assert Decimal(a) == SubIdKey(a)[7..];
    assert Decimal(b) == SubIdKey(b)[7..];
    DecimalInjective(a, b);
  }

  /** The item `key=value` when the key is present, nothing otherwise. */
  function Present(parameters: map<string, string>, key: string): seq<QueryItem> {
    if key in parameters then [Item(key, parameters[key])] else []
  }

  /** The item `key=value` when the value exists and is non-empty. */
  function NonEmpty(key: string, value: Option<string>): seq<QueryItem> {
    if value.Some? && value.value != "" then [Item(key, value.value)] else []
  }

  /** The items for `sub_id_1` .. `sub_id_n` that are present, in ascending order. */
  function SubIdItems(parameters: map<string, string>, n: nat): (r: seq<QueryItem>)
    ensures |r| <= n
  {
    if n == 0 then [] else SubIdItems(parameters, n - 1) + Present(parameters, SubIdKey(n))
  }

  /** Every `sub_id` item is `sub_id_m=value` for a present key with 1 <= m <= n. */
  lemma {:induction false} SubIdItemSource(parameters: map<string, string>, n: nat, q: QueryItem) returns (m: nat)
    requires q in SubIdItems(parameters, n)
    ensures 1 <= m <= n && SubIdKey(m) in parameters && q == Item(SubIdKey(m), parameters[SubIdKey(m)])
  {
    var prev := SubIdItems(parameters, n - 1);
    assert SubIdItems(parameters, n) == prev + Present(parameters, SubIdKey(n));
    if q in prev {
      m := SubIdItemSource(parameters, n - 1, q);
    } else {
      m := n;
    }
  }

  /** Every present key `sub_id_m` with 1 <= m <= n is listed with its value. */
  lemma {:induction false} PresentSubIdListed(parameters: map<string, string>, n: nat, m: nat)
    requires 1 <= m <= n && SubIdKey(m) in parameters
    ensures Item(SubIdKey(m), parameters[SubIdKey(m)]) in SubIdItems(parameters, n)
  {
    var prev := SubIdItems(parameters, n - 1);
    assert SubIdItems(parameters, n) == prev + Present(parameters, SubIdKey(n));
    if m < n {
      PresentSubIdListed(parameters, n - 1, m);
    }
  }

  /** An item is among the `sub_id` items exactly when it is `sub_id_m=value`
      for a present key with 1 <= m <= n. */
  lemma SubIdItemsMembership(parameters: map<string, string>, n: nat, q: QueryItem)
    ensures q in SubIdItems(parameters, n) <==>
      exists m :: 1 <= m <= n && SubIdKey(m) in parameters && q == Item(SubIdKey(m), parameters[SubIdKey(m)])
  {
    if q in SubIdItems(parameters, n) {
      var m := SubIdItemSource(parameters, n, q);
    } else {
      forall m | 1 <= m <= n && SubIdKey(m) in parameters
        ensures q != Item(SubIdKey(m), parameters[SubIdKey(m)])
      {
        PresentSubIdListed(parameters, n, m);
      }
    }
  }

  /** Every `sub_id` item is named with the `sub_id_` prefix. */
  lemma SubIdItemsPrefixed(parameters: map<string, string>, n: nat)
    ensures forall k :: 0 <= k < |SubIdItems(parameters, n)| ==> StartsWith(SubIdItems(parameters, n)[k].name, "sub_id_")
  {
    forall k | 0 <= k < |SubIdItems(parameters, n)|
      ensures StartsWith(SubIdItems(parameters, n)[k].name, "sub_id_")
    {
      var m := SubIdItemSource(parameters, n, SubIdItems(parameters, n)[k]);
    }
  }

  /** No query key appears twice. */
  predicate DistinctNames(q: seq<QueryItem>) {
    forall i, j :: 0 <= i < j < |q| ==> q[i].name != q[j].name
  }

  /** No `sub_id` key appears twice. */
  lemma {:induction false} SubIdItemsDistinct(parameters: map<string, string>, n: nat)
    ensures DistinctNames(SubIdItems(parameters, n))
  {
    if n > 0 {
      SubIdItemsDistinct(parameters, n - 1);
      var prev := SubIdItems(parameters, n - 1);
      var r := SubIdItems(parameters, n);
      forall i, j | 0 <= i < j < |r|
        ensures r[i].name != r[j].name
      {
        if j >= |prev| {
          assert r[j] == Item(SubIdKey(n), parameters[SubIdKey(n)]);
          assert r[i] in prev;
          var m := SubIdItemSource(parameters, n - 1, r[i]);
          if r[i].name == r[j].name {
            SubIdKeyInjective(m, n);
          }
        } else {
          assert r[i] == prev[i] && r[j] == prev[j];
        }
      }
    }
  }

  /** Present keys `sub_id_a` and `sub_id_b` with a < b appear in that order:
      `sub_id_a` at index `i`, `sub_id_b` at index `j`, and `i < j`. */
  lemma {:induction false} SubIdItemsAscending(parameters: map<string, string>, n: nat, a: nat, b: nat)
    returns (i: nat, j: nat)
    requires 1 <= a < b <= n
    requires SubIdKey(a) in parameters && SubIdKey(b) in parameters
    ensures i < j < |SubIdItems(parameters, n)|
    ensures SubIdItems(parameters, n)[i].name == SubIdKey(a) && SubIdItems(parameters, n)[j].name == SubIdKey(b)
  {
    var prev := SubIdItems(parameters, n - 1);
    var r := prev + Present(parameters, SubIdKey(n));
    assert r == SubIdItems(parameters, n);
    if b == n {
      var qa := Item(SubIdKey(a), parameters[SubIdKey(a)]);
      PresentSubIdListed(parameters, n - 1, a);
      i :| 0 <= i < |prev| && prev[i] == qa;
      j := |prev|;
      assert r[i] == prev[i];
    } else {
      i, j := SubIdItemsAscending(parameters, n - 1, a, b);
      assert r[i] == prev[i] && r[j] == prev[j];
    }
  }

  /** The items before the `sub_id` block: `app_name`, then `tm_id`, each when present. */
  function LeadingItems(parameters: map<string, string>): seq<QueryItem> {
    Present(parameters, "app_name") + Present(parameters, "tm_id")
  }

  lemma LeadingItemsNames(parameters: map<string, string>)
    ensures var r := LeadingItems(parameters);
      && (forall k :: 0 <= k < |r| ==> r[k].name == "app_name" || r[k].name == "tm_id")
      && DistinctNames(r)
  {
  }

  /** The items after the `sub_id` block: `bundle`, then a non-empty
      `onesignal_id`, `appsflyer_id` when present and a non-empty `idfa`. */
  function TrailingItems(parameters: map<string, string>, bundle: string,
                         oneSignalId: Option<string>, idfa: Option<string>): seq<QueryItem>
  {
    [Item("bundle", bundle)]
      + NonEmpty("onesignal_id", oneSignalId)
      + Present(parameters, "appsflyer_id")
      + NonEmpty("idfa", idfa)
  }

  /** A name of the trailing items. */
  predicate TrailingName(name: string) {
    name == "bundle" || name == "onesignal_id" || name == "appsflyer_id" || name == "idfa"
  }

  /** Every name of `q` is one of `names`. */
  predicate NamesIn(q: seq<QueryItem>, names: set<string>) {
    forall k :: 0 <= k < |q| ==> q[k].name in names
  }

  /** Appending at most one item under a name not yet used keeps the names distinct. */
  lemma AppendFreshName(q: seq<QueryItem>, extra: seq<QueryItem>, name: string, names: set<string>)
    requires DistinctNames(q) && NamesIn(q, names) && name !in names
    requires |extra| <= 1 && forall k :: 0 <= k < |extra| ==> extra[k].name == name
    ensures DistinctNames(q + extra) && NamesIn(q + extra, names + {name})
  {
    ConcatDistinct(q, extra);
    forall k | 0 <= k < |q + extra|
      ensures (q + extra)[k].name in names + {name}
    {
      if k < |q| {
        assert (q + extra)[k] == q[k];
      } else {
        assert (q + extra)[k] == extra[k - |q|];
      }
    }
  }

  lemma TrailingItemsNames(parameters: map<string, string>, bundle: string,
                           oneSignalId: Option<string>, idfa: Option<string>)
    ensures var r := TrailingItems(parameters, bundle, oneSignalId, idfa);
      && (forall k :: 0 <= k < |r| ==> TrailingName(r[k].name))
      && |r| >= 1 && r[0] == Item("bundle", bundle)
      && DistinctNames(r)
  {
    var t0 := [Item("bundle", bundle)];
    var t1 := t0 + NonEmpty("onesignal_id", oneSignalId);
    var t2 := t1 + Present(parameters, "appsflyer_id");
    var t3 := t2 + NonEmpty("idfa", idfa);
    assert "bundle"[0] == 'b' && "onesignal_id"[0] == 'o' && "appsflyer_id"[0] == 'a' && "idfa"[0] == 'i';
    assert NamesIn(t0, {"bundle"});
    AppendFreshName(t0, NonEmpty("onesignal_id", oneSignalId), "onesignal_id", {"bundle"});
    AppendFreshName(t1, Present(parameters, "appsflyer_id"), "appsflyer_id", {"bundle", "onesignal_id"});
    AppendFreshName(t2, NonEmpty("idfa", idfa), "idfa", {"bundle", "onesignal_id", "appsflyer_id"});
    assert t3 == TrailingItems(parameters, bundle, oneSignalId, idfa);
    assert forall k :: 0 <= k < |t3| ==> t3[k].name in {"bundle", "onesignal_id", "appsflyer_id", "idfa"};
  }

  /** The query `buildAppsFlyerURL` sets: `app_name`, `tm_id`, `sub_id_1` ..
      `sub_id_15`, `bundle`, `onesignal_id`, `appsflyer_id`, `idfa`. */
  function AttributionQuery(parameters: map<string, string>, bundle: string,
                            oneSignalId: Option<string>, idfa: Option<string>): seq<QueryItem>
  {
    LeadingItems(parameters) + SubIdItems(parameters, LastSubId) + TrailingItems(parameters, bundle, oneSignalId, idfa)
  }

  /** The path: the campaign URL, a "/" unless it already ends with one, then `cm_id`. */
  function AttributionPath(campaignURL: string, cmId: string): (r: string)
    ensures StartsWith(r, campaignURL) && HasSuffix(r, cmId)
    ensures HasSuffix(campaignURL, "/") ==> |r| == |campaignURL| + |cmId|
    ensures !HasSuffix(campaignURL, "/") ==> r == campaignURL + "/" + cmId
  {
    (if HasSuffix(campaignURL, "/") then campaignURL else campaignURL + "/") + cmId
  }

  /** What `buildAppsFlyerURL` returns, given the campaign URL from remote
      config, the bundle identifier, the OneSignal id and the IDFA. */
  function AppsFlyerURL(syntax: UrlSyntax, parameters: map<string, string>, campaignURL: Option<string>,
                        bundle: Option<string>, oneSignalId: Option<string>, idfa: Option<string>): (r: Option<Url>)
    ensures r.Some? ==> "cm_id" in parameters && parameters["cm_id"] != "" && campaignURL.Some? && bundle.Some?
  {
    if "cm_id" !in parameters || parameters["cm_id"] == "" || campaignURL.None? || bundle.None? then None
    else
      match syntax.components(AttributionPath(campaignURL.value, parameters["cm_id"]))
      case None => None
      case Some(components) =>
        syntax.render(components.(queryItems := Some(AttributionQuery(parameters, bundle.value, oneSignalId, idfa))))
  }

  /** The URL is nil without a non-empty `cm_id`, a campaign URL or a bundle
      identifier, or when the path does not parse; otherwise it is the
      rendering of the parsed path with the attribution query. */
  lemma AppsFlyerURLCases(syntax: UrlSyntax, parameters: map<string, string>, campaignURL: Option<string>,
                          bundle: Option<string>, oneSignalId: Option<string>, idfa: Option<string>)
    ensures "cm_id" !in parameters ==> AppsFlyerURL(syntax, parameters, campaignURL, bundle, oneSignalId, idfa).None?
    ensures "cm_id" in parameters && parameters["cm_id"] == "" ==> AppsFlyerURL(syntax, parameters, campaignURL, bundle, oneSignalId, idfa).None?
    ensures campaignURL.None? || bundle.None? ==> AppsFlyerURL(syntax, parameters, campaignURL, bundle, oneSignalId, idfa).None?
    ensures AppsFlyerURL(syntax, parameters, campaignURL, bundle, oneSignalId, idfa).Some? ==>
      && "cm_id" in parameters && parameters["cm_id"] != "" && campaignURL.Some? && bundle.Some?
      && var c := syntax.components(AttributionPath(campaignURL.value, parameters["cm_id"]));
      && c.Some?
      && AppsFlyerURL(syntax, parameters, campaignURL, bundle, oneSignalId, idfa)
         == syntax.render(Components(c.value.base, Some(AttributionQuery(parameters, bundle.value, oneSignalId, idfa))))
  {
  }

  /** Two lists with distinct names and no name in common concatenate to one with distinct names. */
  lemma ConcatDistinct(a: seq<QueryItem>, b: seq<QueryItem>)
    requires DistinctNames(a) && DistinctNames(b)
    requires forall i, j :: 0 <= i < |a| && 0 <= j < |b| ==> a[i].name != b[j].name
    ensures DistinctNames(a + b)
  {
    forall i, j | 0 <= i < j < |a + b|
      ensures (a + b)[i].name != (a + b)[j].name
    {
      if j < |a| {
        assert (a + b)[i] == a[i] && (a + b)[j] == a[j];
      } else if i < |a| {
        assert (a + b)[i] == a[i] && (a + b)[j] == b[j - |a|];
      } else {
        assert (a + b)[i] == b[i - |a|] && (a + b)[j] == b[j - |a|];
      }
    }
  }

  /** A name of the leading or `sub_id` items. */
  predicate LeadOrSubIdName(name: string) {
    name == "app_name" || name == "tm_id" || StartsWith(name, "sub_id_")
  }

  lemma LeadNamesAreNotTrailing(name: string)
    requires LeadOrSubIdName(name)
    ensures !TrailingName(name)
  {
    if StartsWith(name, "sub_id_") {
      assert name[0] == 's';
    } else {
      assert "app_name"[3] != "appsflyer_id"[3];
    }
  }

  /** The items before `bundle` have distinct names, all leading or `sub_id` names. */
  lemma LeadingAndSubIdItemsDistinct(parameters: map<string, string>)
    ensures var q := LeadingItems(parameters) + SubIdItems(parameters, LastSubId);
      DistinctNames(q) && forall k :: 0 <= k < |q| ==> LeadOrSubIdName(q[k].name)
  {
    var lead := LeadingItems(parameters);
    var subs := SubIdItems(parameters, LastSubId);
    LeadingItemsNames(parameters);
    SubIdItemsDistinct(parameters, LastSubId);
    SubIdItemsPrefixed(parameters, LastSubId);
    assert "app_name"[0] != "sub_id_"[0] && "tm_id"[0] != "sub_id_"[0];
    ConcatDistinct(lead, subs);
    forall k | 0 <= k < |lead + subs|
      ensures LeadOrSubIdName((lead + subs)[k].name)
    {
      if k >= |lead| {
        assert (lead + subs)[k] == subs[k - |lead|];
      }
    }
  }

  /** No query key appears twice. */
  lemma AttributionQueryDistinct(parameters: map<string, string>, bundle: string,
                                 oneSignalId: Option<string>, idfa: Option<string>)
    ensures DistinctNames(AttributionQuery(parameters, bundle, oneSignalId, idfa))
  {
    var front := LeadingItems(parameters) + SubIdItems(parameters, LastSubId);
    var trail := TrailingItems(parameters, bundle, oneSignalId, idfa);
    LeadingAndSubIdItemsDistinct(parameters);
    TrailingItemsNames(parameters, bundle, oneSignalId, idfa);
    forall i, j | 0 <= i < |front| && 0 <= j < |trail|
      ensures front[i].name != trail[j].name
    {
      LeadNamesAreNotTrailing(front[i].name);
    }
    ConcatDistinct(front, trail);
  }

  /** The `for i in 1...15` loop of `buildAppsFlyerURL`: appends each
      present `sub_id_i` in ascending order. */
  method AppendSubIds(parameters: map<string, string>, items: seq<QueryItem>) returns (queryItems: seq<QueryItem>)
    ensures queryItems == items + SubIdItems(parameters, LastSubId)
  {
    queryItems := items;
    for i := 1 to LastSubId + 1
      invariant queryItems == items + SubIdItems(parameters, i - 1)
    {
      var key := SubIdKey(i);
      if key in parameters {
        queryItems := queryItems + [Item(key, parameters[key])];
      }
    }
  }

  /** The first two `if let`s of `buildAppsFlyerURL`: `app_name`, then `tm_id`. */
  method AppendLeading(parameters: map<string, string>) returns (queryItems: seq<QueryItem>)
    ensures queryItems == LeadingItems(parameters)
  {
    queryItems := [];
    if "app_name" in parameters {
      queryItems := queryItems + [Item("app_name", parameters["app_name"])];
    }
    if "tm_id" in parameters {
      queryItems := queryItems + [Item("tm_id", parameters["tm_id"])];
    }
  }

  /** The appends after the `sub_id` loop: `bundle`, a non-empty
      `onesignal_id`, `appsflyer_id` when present, a non-empty `idfa`. */
  method AppendTrailing(parameters: map<string, string>, bundle: string, oneSignalId: Option<string>,
                        idfa: Option<string>, items: seq<QueryItem>)
    returns (queryItems: seq<QueryItem>)
    ensures queryItems == items + TrailingItems(parameters, bundle, oneSignalId, idfa)
  {
    queryItems := items + [Item("bundle", bundle)];
    ghost var tail := [Item("bundle", bundle)];
    if oneSignalId.Some? && oneSignalId.value != "" {
      queryItems := queryItems + [Item("onesignal_id", oneSignalId.value)];
    }
    tail := tail + NonEmpty("onesignal_id", oneSignalId);
    assert queryItems == items + tail;
    if "appsflyer_id" in parameters {
      queryItems := queryItems + [Item("appsflyer_id", parameters["appsflyer_id"])];
    }
    tail := tail + Present(parameters, "appsflyer_id");
    assert queryItems == items + tail;
    if idfa.Some? && idfa.value != "" {
      queryItems := queryItems + [Item("idfa", idfa.value)];
    }
    tail := tail + NonEmpty("idfa", idfa);
    assert queryItems == items + tail;
  }

  /** The query items `buildAppsFlyerURL` assembles, appended one by one. */
  method AssembleAttributionQuery(parameters: map<string, string>, bundle: string,
                                  oneSignalId: Option<string>, idfa: Option<string>)
    returns (queryItems: seq<QueryItem>)
    ensures queryItems == AttributionQuery(parameters, bundle, oneSignalId, idfa)
  {
    queryItems := AppendLeading(parameters);
    queryItems := AppendSubIds(parameters, queryItems);
    queryItems := AppendTrailing(parameters, bundle, oneSignalId, idfa, queryItems);
  }

  /** `buildAppsFlyerURL(with:)`. */
  method BuildAppsFlyerURL(syntax: UrlSyntax, parameters: map<string, string>, campaignURL: Option<string>,
                           bundle: Option<string>, oneSignalId: Option<string>, idfa: Option<string>)
    returns (r: Option<Url>)
    ensures r == AppsFlyerURL(syntax, parameters, campaignURL, bundle, oneSignalId, idfa)
  {
    if "cm_id" !in parameters || parameters["cm_id"] == "" || campaignURL.None? || bundle.None? {
      return None;
    }
    var cmId := parameters["cm_id"];
    var urlString := campaignURL.value;
    if !HasSuffix(urlString, "/") {
      urlString := urlString + "/";
    }
    urlString := urlString + cmId;
    assert urlString == AttributionPath(campaignURL.value, cmId);
    var components := syntax.components(urlString);
    if components.None? {
      return None;
    }
    var queryItems := AssembleAttributionQuery(parameters, bundle.value, oneSignalId, idfa);
    r := syntax.render(components.value.(queryItems := Some(queryItems)));
  }
}
