/**
 * `NewNetworkManager.fetchMetrics`: the signed metrics request and the
 * reading of its JSON reply into a `MetricsResponse`. The HTTP exchange is an
 * input: the model receives the reply the server gave.
 */
module Metrics {
  import opened Wrappers
  import opened Text
  import opened Urls
  import opened Crypto

  /** A value as `JSONSerialization.jsonObject` returns it. An object is the
      list of its members; the list order stands for the dictionary's
      (unspecified) enumeration order. */
  datatype Json =
    | JNull
    | JBool(b: bool)
    | JNumber(n: real)
    | JString(s: string)
    | JArray(items: seq<Json>)
    | JObject(members: seq<(string, Json)>)

  /** No key occurs twice, as in any Swift dictionary. */
  predicate DistinctKeys<V>(members: seq<(string, V)>) {
    forall i, j :: 0 <= i < j < |members| ==> members[i].0 != members[j].0
  }

  /** `dictionary[key]` */
  function Lookup<V>(members: seq<(string, V)>, key: string): (r: Option<V>)
    ensures r.Some? ==> (key, r.value) in members
    ensures r.None? ==> forall i :: 0 <= i < |members| ==> members[i].0 != key
  {
    if members == [] then None
    else if members[0].0 == key then Some(members[0].1)
    else Lookup(members[1..], key)
  }

  /** Under distinct keys a listed member is what the lookup finds. */
  lemma {:induction false} LookupFindsMember<V>(members: seq<(string, V)>, key: string, v: V)
    requires DistinctKeys(members)
    requires (key, v) in members
    ensures Lookup(members, key) == Some(v)
  {
    if members[0] != (key, v) {
      assert members[0].0 != key by {
        var j :| 0 <= j < |members| && members[j] == (key, v);
        assert j != 0;
      }
      assert (key, v) in members[1..];
      LookupFindsMember(members[1..], key, v);
    }
  }

  /** The body of a reply: bytes that are JSON text, or bytes that are not. */
  datatype Body = Unparsable | Parsed(json: Json)

  /** What came back for the request: no response at all, or a status code and a body. */
  datatype Reply = TransportFailure | Response(status: int, body: Body)

  /** A JSON object in a reply never repeats a key. */
  predicate WellFormedReply(reply: Reply) {
    reply.Response? && reply.body.Parsed? && reply.body.json.JObject? ==> DistinctKeys(reply.body.json.members)
  }

  /** `MetricsResponse`; `parameters` is a dictionary, listed in its enumeration order. */
  datatype MetricsResponse = MetricsResponse(isOrganic: bool, url: string, parameters: seq<(string, string)>)

  /** `NetworkError` */
  datatype NetworkError = InvalidURL | NoData | InvalidResponse | BadStatusCode(code: int)

  /** What `fetchMetrics` throws: a `NetworkError`, the Alamofire error for a
      failed request or a status outside 200..<300, or the
      `JSONSerialization` error for a body that is not JSON. */
  datatype FetchError = Network(error: NetworkError) | RequestError | JsonError

  /** The string that is signed: `"idfa:salt:bundleID"`, or `"salt:bundleID"`
      without an advertising identifier. */
  function SignatureInput(salt: string, bundleID: string, idfa: Option<string>): (r: string)
    ensures HasSuffix(r, salt + ":" + bundleID)
    ensures idfa.None? ==> r == salt + ":" + bundleID
    ensures idfa.Some? ==> StartsWith(r, idfa.value + ":")
  {
    match idfa
    case None => salt + ":" + bundleID
    case Some(i) => i + ":" + salt + ":" + bundleID
  }

  /** With an identifier the signed string is the identifier and a colon in
      front of the string signed without one, so the two never coincide. */
  lemma SignatureInputWithIdfa(salt: string, bundleID: string, idfa: string)
    ensures SignatureInput(salt, bundleID, Some(idfa)) == idfa + ":" + SignatureInput(salt, bundleID, None)
    ensures SignatureInput(salt, bundleID, Some(idfa)) != SignatureInput(salt, bundleID, None)
  {
    assert |SignatureInput(salt, bundleID, Some(idfa))| > |SignatureInput(salt, bundleID, None)|;
  }

  /** The request's `t` value: the 32 hex digits of the MD5 of the signed string. */
  function Signature(md5: string -> Digest, salt: string, bundleID: string, idfa: Option<string>): (t: string)
    ensures |t| == 32
  {
    Md5Hex(md5, SignatureInput(salt, bundleID, idfa))
  }

  /** The query: `b`, `t`, then `i` only with an advertising identifier. */
  function MetricsQuery(bundleID: string, t: string, idfa: Option<string>): (q: seq<QueryItem>)
    ensures |q| == if idfa.Some? then 3 else 2
    ensures q[0] == Item("b", bundleID) && q[1] == Item("t", t)
    ensures idfa.Some? ==> q[2] == Item("i", idfa.value)
  {
    [Item("b", bundleID), Item("t", t)] + (if idfa.Some? then [Item("i", idfa.value)] else [])
  }

  /** The request URL: the base URL's components with their query replaced by
      `MetricsQuery`; `invalidURL` when the base does not parse or the
      components yield no URL. */
  function MetricsRequest(syntax: UrlSyntax, md5: string -> Digest, baseURL: string, bundleID: string, salt: string, idfa: Option<string>): (r: Result<Url, FetchError>)
    ensures r.Failure? ==> r.error == Network(InvalidURL)
    ensures r.Success? <==>
      && syntax.components(baseURL).Some?
      && syntax.render(syntax.components(baseURL).value.(queryItems :=
           Some(MetricsQuery(bundleID, Signature(md5, salt, bundleID, idfa), idfa)))).Some?
    ensures r.Success? ==>
      syntax.render(syntax.components(baseURL).value.(queryItems :=
        Some(MetricsQuery(bundleID, Signature(md5, salt, bundleID, idfa), idfa)))) == Some(r.value)
  {
    match syntax.components(baseURL)
    case None => Failure(Network(InvalidURL))
    case Some(c) =>
      var query := MetricsQuery(bundleID, Signature(md5, salt, bundleID, idfa), idfa);
      match syntax.render(c.(queryItems := Some(query)))
      case None => Failure(Network(InvalidURL))
      case Some(url) => Success(url)
  }

  /** A key `parameters` keeps: no `x_` in it, and neither `is_organic` nor `URL`. */
  predicate KeptKey(key: string) {
    !Contains(key, "x_") && key != "is_organic" && key != "URL"
  }

  /** `json.filter { !$0.key.contains("x_") }.filter { $0.key != "is_organic" && $0.key != "URL" }
      .compactMapValues { $0 as? String }`, in enumeration order. */
  function ExtractParameters(members: seq<(string, Json)>): (r: seq<(string, string)>)
    ensures forall k, v :: (k, v) in r <==> (k, JString(v)) in members && KeptKey(k)
    ensures DistinctKeys(members) ==> DistinctKeys(r)
  {
    if members == [] then []
    else
      var rest := ExtractParameters(members[1..]);
      var (k, v) := members[0];
      if KeptKey(k) && v.JString? then
        var r := [(k, v.s)] + rest;
        assert DistinctKeys(members) ==> DistinctKeys(r) by {
          if DistinctKeys(members) {
            assert DistinctKeys(members[1..]);
            forall i | 0 <= i < |rest|
              ensures rest[i].0 != k
            {
              assert rest[i] in rest;
              var j :| 0 <= j < |members[1..]| && members[1..][j] == (rest[i].0, JString(rest[i].1));
              assert members[j + 1].0 == rest[i].0;
            }
          }
        }
        r
      else
        assert DistinctKeys(members) ==> DistinctKeys(members[1..]);
        rest
  }

  /** The URL string the reply carries, when it is a non-empty string. */
  predicate HasDestination(members: seq<(string, Json)>) {
    var u := Lookup(members, "URL");
    u.Some? && u.value.JString? && u.value.s != ""
  }

  /** `value as? Bool` on what `JSONSerialization` returns: a JSON Boolean,
      or an `NSNumber` whose value is exactly `0` or `1`; anything else is `nil`. */
  function AsBool(j: Json): (r: Option<bool>)
    ensures r == Some(true) <==> j == JBool(true) || j == JNumber(1.0)
    ensures r == Some(false) <==> j == JBool(false) || j == JNumber(0.0)
  {
    match j
    case JBool(b) => Some(b)
    case JNumber(n) => if n == 1.0 then Some(true) else if n == 0.0 then Some(false) else None
    case _ => None
  }

  /** The reading of a parsed 2xx body: anything but an object, or an object
      without a non-empty `URL` string, is `invalidResponse`; a top-level
      scalar is already rejected by `JSONSerialization`. */
  function ExtractResponse(json: Json): (r: Result<MetricsResponse, FetchError>)
    requires json.JObject? ==> DistinctKeys(json.members)
    ensures r.Success? <==> json.JObject? && HasDestination(json.members)
    ensures json.JArray? ==> r == Failure(Network(InvalidResponse))
    ensures json.JObject? && !HasDestination(json.members) ==> r == Failure(Network(InvalidResponse))
    ensures r.Success? ==>
      && Lookup(json.members, "URL") == Some(JString(r.value.url)) && r.value.url != ""
      && (r.value.isOrganic <==>
            Lookup(json.members, "is_organic") == Some(JBool(true)) || Lookup(json.members, "is_organic") == Some(JNumber(1.0)))
      && (forall k, v :: (k, v) in r.value.parameters <==> (k, JString(v)) in json.members && KeptKey(k))
      && DistinctKeys(r.value.parameters)
  {
    match json
    case JObject(members) =>
      if !HasDestination(members) then Failure(Network(InvalidResponse))
      else
        var organic := Lookup(members, "is_organic");
        var isOrganic := organic.Some? && AsBool(organic.value) == Some(true);
        Success(MetricsResponse(isOrganic, Lookup(members, "URL").value.s, ExtractParameters(members)))
    case JArray(_) => Failure(Network(InvalidResponse))
    case _ => Failure(JsonError)
  }

  /** One call of `fetchMetrics`: the request it sent, if any, and what it returned or threw. */
  datatype MetricsCall = MetricsCall(request: Option<Url>, result: Result<MetricsResponse, FetchError>)

  /** `fetchMetrics(baseURL:bundleID:salt:idfa:)` given the server's reply. */
  function FetchMetrics(syntax: UrlSyntax, md5: string -> Digest, baseURL: string, bundleID: string, salt: string,
                        idfa: Option<string>, reply: Reply): (call: MetricsCall)
    requires WellFormedReply(reply)
    ensures call.request.None? <==> call.result == Failure(Network(InvalidURL))
    ensures call.request.None? <==> MetricsRequest(syntax, md5, baseURL, bundleID, salt, idfa).Failure?
    ensures call.request.Some? ==> call.request == Some(MetricsRequest(syntax, md5, baseURL, bundleID, salt, idfa).value)
    ensures call.result.Success? ==>
      && reply.Response? && 200 <= reply.status < 300 && reply.body.Parsed?
      && ExtractResponse(reply.body.json) == call.result
    ensures call.request.Some? && reply.Response? && 200 <= reply.status < 300 && reply.body.Parsed? ==>
      call.result == ExtractResponse(reply.body.json)
    ensures call.request.Some? && (reply.TransportFailure? || !(200 <= reply.status < 300)) ==>
      call.result == Failure(RequestError)
    ensures call.request.Some? && reply.Response? && 200 <= reply.status < 300 && reply.body.Unparsable? ==>
      call.result == Failure(JsonError)
  {
    match MetricsRequest(syntax, md5, baseURL, bundleID, salt, idfa)
    case Failure(e) => MetricsCall(None, Failure(e))
    case Success(url) =>
      var result :=
        match reply
        case TransportFailure => Failure(RequestError)
        case Response(status, body) =>
          if !(200 <= status < 300) then Failure(RequestError)
          else match body
            case Unparsable => Failure(JsonError)
            case Parsed(json) => ExtractResponse(json);
      MetricsCall(Some(url), result)
  }

  /** A built request answered with a 2xx object that carries a non-empty
      `URL` string yields a response for that URL, whatever else the object
      holds; without such a `URL` it yields `invalidResponse`. */
  lemma FetchMetricsReadsDestination(syntax: UrlSyntax, md5: string -> Digest, baseURL: string, bundleID: string,
                                     salt: string, idfa: Option<string>, status: int, members: seq<(string, Json)>)
    requires MetricsRequest(syntax, md5, baseURL, bundleID, salt, idfa).Success?
    requires 200 <= status < 300 && DistinctKeys(members)
    ensures var call := FetchMetrics(syntax, md5, baseURL, bundleID, salt, idfa, Response(status, Parsed(JObject(members))));
      && (HasDestination(members) ==>
            call.result.Success? && Lookup(members, "URL") == Some(JString(call.result.value.url)))
      && (!HasDestination(members) ==> call.result == Failure(Network(InvalidResponse)))
  {
  }
}
