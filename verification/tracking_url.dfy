/**
 * `URLBuilder.buildTrackingURL`: the destination URL built from a
 * `MetricsResponse`. The base is the response URL, with `sub_id_2` appended
 * as a path segment for a non-organic install; the query is the base's own
 * items followed by the response parameters, `bundle`, `idfa` and
 * `onesignal_id`.
 */
module TrackingUrl {
  import opened Wrappers
  import opened Text
  import opened Urls
  import opened Metrics

  /** `makeNonOrganicBaseURL`: `"\(url)/\(subId2)"` when `sub_id_2` is
      present and non-empty, `url` otherwise. */
  function NonOrganicBase(url: string, parameters: seq<(string, string)>): (r: string)
    ensures StartsWith(r, url)
  {
    match Lookup(parameters, "sub_id_2")
    case Some(subId2) =>
      if subId2 == "" then url else url + "/" + subId2
    case None => url
  }

  /** The string `makeBaseComponents` parses: the response URL verbatim for an
      organic install, `makeNonOrganicBaseURL` otherwise. */
  function BaseString(response: MetricsResponse): (r: string)
    ensures StartsWith(r, response.url)
    ensures response.isOrganic ==> r == response.url
  {
    if response.isOrganic then response.url
    else NonOrganicBase(response.url, response.parameters)
  }

  /** The three cases of the base: organic keeps the URL as it is, a usable
      `sub_id_2` becomes one more path segment after a "/", and a missing or
      empty one leaves the URL alone. */
  lemma BaseStringCases(response: MetricsResponse)
    ensures response.isOrganic ==> BaseString(response) == response.url
    ensures !response.isOrganic ==>
      var sub := Lookup(response.parameters, "sub_id_2");
      && (sub.Some? && sub.value != "" ==> BaseString(response) == response.url + "/" + sub.value)
      && (sub.None? || sub.value == "" ==> BaseString(response) == response.url)
  {
  }

  /** The "/" goes in even when the response URL already ends with one, so
      such a URL gets a doubled slash before `sub_id_2`. */
  lemma SlashAlwaysInserted(response: MetricsResponse)
    requires !response.isOrganic && HasSuffix(response.url, "/")
    requires Lookup(response.parameters, "sub_id_2").Some? && Lookup(response.parameters, "sub_id_2").value != ""
    ensures var b := BaseString(response); |b| > |response.url| && b[|response.url| - 1..|response.url| + 1] == "//"
  {
    var b := BaseString(response);
    var u := response.url;
    assert b[|u| - 1] == u[|u| - 1] == '/';
    assert b[|u|] == '/';
  }

  /** `makeBaseComponents`: an organic install parses the response URL as it came. */
  function BaseComponents(syntax: UrlSyntax, response: MetricsResponse): (r: Option<Components>)
    ensures response.isOrganic ==> r == syntax.components(response.url)
  {
    syntax.components(BaseString(response))
  }

  /** The response parameters as query items, without `sub_id_2`, in enumeration order. */
  function ParameterItems(parameters: seq<(string, string)>): (r: seq<QueryItem>)
    ensures forall k, v :: Item(k, v) in r <==> (k, v) in parameters && k != "sub_id_2"
    ensures forall i :: 0 <= i < |r| ==> r[i].value.Some? && r[i].name != "sub_id_2"
    ensures DistinctKeys(parameters) ==> forall i, j :: 0 <= i < j < |r| ==> r[i].name != r[j].name
  {
    if parameters == [] then []
    else
      var rest := ParameterItems(parameters[1..]);
      var (k, v) := parameters[0];
      if k == "sub_id_2" then rest
      else
        var r := [Item(k, v)] + rest;
        assert DistinctKeys(parameters) ==> forall i :: 0 <= i < |rest| ==> rest[i].name != k by {
          if DistinctKeys(parameters) {
            forall i | 0 <= i < |rest|
              ensures rest[i].name != k
            {
              var v' := rest[i].value.value;
              assert Item(rest[i].name, v') in rest;
              assert (rest[i].name, v') in parameters[1..];
              var j :| 0 <= j < |parameters[1..]| && parameters[1..][j] == (rest[i].name, v');
              assert parameters[j + 1].0 == rest[i].name;
            }
          }
        }
        r
  }

  /** `makeQueryItems`: the parameters, then `bundle`, then `idfa` when there
      is one, then `onesignal_id` when the SDK has one. */
  function QueryItems(parameters: seq<(string, string)>, idfa: Option<string>, bundleID: string,
                      oneSignalId: Option<string>): (r: seq<QueryItem>)
    ensures var p := |ParameterItems(parameters)|;
      && |r| == p + 1 + (if idfa.Some? then 1 else 0) + (if oneSignalId.Some? then 1 else 0)
      && r[..p] == ParameterItems(parameters)
      && r[p] == Item("bundle", bundleID)
      && (idfa.Some? ==> r[p + 1] == Item("idfa", idfa.value))
      && (oneSignalId.Some? ==> r[|r| - 1] == Item("onesignal_id", oneSignalId.value))
  {
    ParameterItems(parameters)
      + [Item("bundle", bundleID)]
      + (if idfa.Some? then [Item("idfa", idfa.value)] else [])
      + (if oneSignalId.Some? then [Item("onesignal_id", oneSignalId.value)] else [])
  }

  /** The components `buildTrackingURL` renders: the base components with
      their own query items followed by `makeQueryItems`. */
  function TrackingComponents(syntax: UrlSyntax, response: MetricsResponse, bundleID: string,
                              idfa: Option<string>, oneSignalId: Option<string>): (r: Option<Components>)
    ensures r.None? <==> BaseComponents(syntax, response).None?
    ensures r.Some? ==>
      var base := BaseComponents(syntax, response).value;
      && r.value.base == base.base
      && r.value.queryItems == Some(base.queryItems.GetOr([]) + QueryItems(response.parameters, idfa, bundleID, oneSignalId))
  {
    match BaseComponents(syntax, response)
    case None => None
    case Some(components) =>
      var merged := components.queryItems.GetOr([]) + QueryItems(response.parameters, idfa, bundleID, oneSignalId);
      Some(components.(queryItems := if merged == [] then None else Some(merged)))
  }

  /** `URLBuilder.buildTrackingURL(from:bundleID:idfa:)`; `oneSignalId` is
      `OneSignal.User.onesignalId` at the time of the call. */
  function BuildTrackingURL(syntax: UrlSyntax, response: MetricsResponse, bundleID: string,
                            idfa: Option<string>, oneSignalId: Option<string>): (r: Option<Url>)
    ensures BaseComponents(syntax, response).None? ==> r.None?
    ensures BaseComponents(syntax, response).Some? ==>
      var base := BaseComponents(syntax, response).value;
      r == syntax.render(Components(base.base,
             Some(base.queryItems.GetOr([]) + QueryItems(response.parameters, idfa, bundleID, oneSignalId))))
  {
    match TrackingComponents(syntax, response, bundleID, idfa, oneSignalId)
    case None => None
    case Some(c) => syntax.render(c)
  }

  /** Every parameter other than `sub_id_2` reaches the query once, with its
      value, and `sub_id_2` never does. */
  lemma ParametersInQuery(syntax: UrlSyntax, response: MetricsResponse, bundleID: string,
                          idfa: Option<string>, oneSignalId: Option<string>, k: string, v: string)
    requires DistinctKeys(response.parameters)
    requires (k, v) in response.parameters && k != "sub_id_2"
    ensures var q := QueryItems(response.parameters, idfa, bundleID, oneSignalId);
      exists i :: 0 <= i < |q| && q[i] == Item(k, v) && forall j :: 0 <= j < |ParameterItems(response.parameters)| && j != i ==> q[j].name != k
  {
    var p := ParameterItems(response.parameters);
    var q := QueryItems(response.parameters, idfa, bundleID, oneSignalId);
    assert Item(k, v) in p;
    var i :| 0 <= i < |p| && p[i] == Item(k, v);
    assert q[i] == p[i];
  }

  /** The two response shapes side by side: an organic response without
      parameters gets only `bundle`; a non-organic one moves `sub_id_2` into
      the path and keeps `foo` in the query. The URL syntax is any that
      parses these strings without a query. */
  lemma OrganicAndNonOrganicExamples(syntax: UrlSyntax)
    requires syntax.components("https://x.test/land") == Some(Components("https://x.test/land", None))
    requires syntax.components("https://x.test/land/42") == Some(Components("https://x.test/land/42", None))
    ensures TrackingComponents(syntax, MetricsResponse(true, "https://x.test/land", []), "com.app.id", None, None)
         == Some(Components("https://x.test/land", Some([Item("bundle", "com.app.id")])))
    ensures TrackingComponents(syntax, MetricsResponse(false, "https://x.test/land", [("sub_id_2", "42"), ("foo", "bar")]), "com.app.id", None, None)
         == Some(Components("https://x.test/land/42", Some([Item("foo", "bar"), Item("bundle", "com.app.id")])))
  {
    assert ParameterItems([]) == [];
    assert QueryItems([], None, "com.app.id", None) == [Item("bundle", "com.app.id")];
    var params := [("sub_id_2", "42"), ("foo", "bar")];
    assert Lookup(params, "sub_id_2") == Some("42");
    assert NonOrganicBase("https://x.test/land", params) == "https://x.test/land/42";
    assert params[1..] == [("foo", "bar")] && params[1..][1..] == [];
    assert "foo" != "sub_id_2";
    assert ParameterItems(params[1..]) == [Item("foo", "bar")];
    assert ParameterItems(params) == [Item("foo", "bar")];
    assert QueryItems(params, None, "com.app.id", None) == [Item("foo", "bar"), Item("bundle", "com.app.id")];
    var organic := MetricsResponse(true, "https://x.test/land", []);
    assert BaseComponents(syntax, organic) == Some(Components("https://x.test/land", None));
    var nonOrganic := MetricsResponse(false, "https://x.test/land", params);
    assert BaseComponents(syntax, nonOrganic) == Some(Components("https://x.test/land/42", None));
    var none: Option<seq<QueryItem>> := None;
    assert none.GetOr([]) == [];
    var merged := none.GetOr([]) + [Item("bundle", "com.app.id")];
    assert merged == [Item("bundle", "com.app.id")];
    assert TrackingComponents(syntax, organic, "com.app.id", None, None) == Some(Components("https://x.test/land", None).(queryItems := Some(merged)));
    var merged2 := none.GetOr([]) + [Item("foo", "bar"), Item("bundle", "com.app.id")];
    assert merged2 == [Item("foo", "bar"), Item("bundle", "com.app.id")];
    assert TrackingComponents(syntax, nonOrganic, "com.app.id", None, None) == Some(Components("https://x.test/land/42", None).(queryItems := Some(merged2)));
  }
}
