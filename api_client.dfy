/**
 * The request/response boundary to the remote scoring service: the response records,
 * the request URLs (built from the configuration) and the status classification of
 * a Pro-module download. Transport and JSON decoding are outside the model; replies
 * arrive here already decoded.
 */
module ApiClient {
  import opened Base
  import opened Text
  import opened ConfigStore

  datatype SandboxFlag = SandboxFlag(flag: Option<string>, detail: Option<string>, score: Option<int>)

  /** The decoded reply of the `scan` endpoint; every field may be missing. */
  datatype ScanResponse = ScanResponse(
    package: Option<string>,
    version: Option<string>,
    riskLevel: Option<string>,
    message: Option<string>,
    scanned: Option<bool>,
    sandboxCached: Option<bool>,
    sandboxScore: Option<int>,
    sandboxRiskLevel: Option<string>,
    sandboxFlags: Option<seq<SandboxFlag>>,
    previousVersion: Option<string>,
    anomalyReasons: Option<seq<string>>)

  datatype ProStatusResponse = ProStatusResponse(isPro: bool, plan: Option<string>)

  datatype NetworkConnection = NetworkConnection(host: Option<string>, ip: Option<string>, port: int)

  datatype ProcessSpawned = ProcessSpawned(executable: string, args: seq<string>)

  datatype SensitiveAccess = SensitiveAccess(accessType: string, path: string)

  /** What a sandbox run observed; every list starts empty. */
  datatype SandboxBehavior = SandboxBehavior(
    filesRead: seq<string>,
    filesWritten: seq<string>,
    networkConnections: seq<NetworkConnection>,
    processesSpawned: seq<ProcessSpawned>,
    envVarsAccessed: seq<string>,
    sensitiveAccess: seq<SensitiveAccess>,
    exitCode: int)

  /** `SandboxBehavior { exit_code, ..Default::default() }`. */
  function EmptyBehavior(exitCode: int): SandboxBehavior {
    SandboxBehavior([], [], [], [], [], [], exitCode)
  }

  datatype SandboxAnalyzeRequest = SandboxAnalyzeRequest(
    package: string, version: string, behavior: SandboxBehavior, source: string, deviceId: string)

  datatype SandboxAnalyzeResponse = SandboxAnalyzeResponse(
    score: Option<int>, riskLevel: Option<string>, flags: Option<seq<SandboxFlag>>, cached: Option<bool>)

  /** The `detail` of each flag that has one, in order. */
  function FlagDetails(flags: seq<SandboxFlag>): (r: seq<string>)
    ensures |r| <= |flags|
    ensures forall i :: 0 <= i < |flags| && flags[i].detail.Some? ==> flags[i].detail.value in r
    ensures forall i :: 0 <= i < |r| ==> exists j :: 0 <= j < |flags| && flags[j].detail == Some(r[i])
  {
    if flags == [] then []
    else
      var rest := FlagDetails(flags[1..]);
      assert forall i :: 1 <= i < |flags| ==> flags[i] == flags[1..][i - 1];
      match flags[0].detail
      case Some(d) => [d] + rest
      case None => rest
  }

  /** One flag contributes its own detail, or nothing when it has none. */
  lemma FlagDetailsOne(flag: SandboxFlag)
    ensures flag.detail.Some? ==> FlagDetails([flag]) == [flag.detail.value]
    ensures flag.detail.None? ==> FlagDetails([flag]) == []
  {
    assert [flag][1..] == [];
  }

  /** The details of two runs of flags are those of the first run followed by those of the second. */
  lemma {:induction false} FlagDetailsConcat(xs: seq<SandboxFlag>, ys: seq<SandboxFlag>)
    ensures FlagDetails(xs + ys) == FlagDetails(xs) + FlagDetails(ys)
  {
    if xs == [] {
      assert xs + ys == ys;
    } else {
      assert (xs + ys)[1..] == xs[1..] + ys;
      assert (xs + ys)[0] == xs[0];
      FlagDetailsConcat(xs[1..], ys);
    }
  }

  // ---------------------------------------------------------------------------
  // Request URLs

  /** The query of a URL as a server reads it: the text after the first `?`, if any. */
  function Query(url: string): Option<string> {
    match IndexOf(url, '?')
    case None => None
    case Some(i) => Some(url[i + 1..])
  }

  /** One query piece, split at its first `=`; a piece without one is a name with an empty value. */
  function Param(piece: string): (string, string) {
    match IndexOf(piece, '=')
    case None => (piece, "")
    case Some(i) => (piece[..i], piece[i + 1..])
  }

  function Params(pieces: seq<string>): seq<(string, string)> {
    if pieces == [] then [] else [Param(pieces[0])] + Params(pieces[1..])
  }

  /** The query parameters of a URL, in order: its query split at `&`, each piece at its first `=`. */
  function QueryParams(url: string): seq<(string, string)> {
    match Query(url)
    case None => []
    case Some(q) => Params(Split(q, '&'))
  }

  /** The parameter a stored API key adds, as it is read back. */
  function KeyParams(config: map<string, string>): seq<(string, string)> {
    if ApiKey(config).Some? then [("key", ApiKey(config).value)] else []
  }

  /** A stored key that reads back whole: it holds no `&`. */
  predicate KeyReadable(config: map<string, string>) {
    ApiKey(config).Some? ==> '&' !in ApiKey(config).value
  }

  /** A URL with no `?` has no parameters. */
  lemma NoQuery(url: string)
    requires '?' !in url
    ensures QueryParams(url) == []
  {
  }

  /** The query of `prefix?q` is `q` when the prefix holds no `?`. */
  lemma QueryOf(prefix: string, q: string)
    requires '?' !in prefix
    ensures Query(prefix + "?" + q) == Some(q)
  {
    IndexOfConcat(prefix, '?', q);
    assert (prefix + "?" + q)[|prefix| + 1..] == q;
  }

  /** `name=value` reads as that parameter when the name holds no `=`. */
  lemma ParamOf(name: string, value: string)
    requires '=' !in name
    ensures Param(name + "=" + value) == (name, value)
  {
    IndexOfConcat(name, '=', value);
    var piece := name + "=" + value;
    assert piece[..|name|] == name;
    assert piece[|name| + 1..] == value;
  }

  /** A piece holding no `&` is the whole query. */
  lemma SplitNone(q: string)
    requires '&' !in q
    ensures Split(q, '&') == [q]
  {
  }

  /** `prefix?name=value` has the one parameter `name`, when only the value may hold `?` or `=`. */
  lemma OneParam(prefix: string, name: string, value: string)
    requires '?' !in prefix && '=' !in name && '&' !in name && '&' !in value
    ensures QueryParams(prefix + "?" + (name + "=" + value)) == [(name, value)]
  {
    var piece := name + "=" + value;
    QueryOf(prefix, piece);
    assert '&' !in piece;
    SplitNone(piece);
    ParamOf(name, value);
    assert Params([piece]) == [Param(piece)] + Params([]);
  }

  /** `prefix?name=value&name2=value2` has the two parameters, in that order. */
  lemma TwoParams(prefix: string, name: string, value: string, name2: string, value2: string)
    requires '?' !in prefix && '=' !in name && '&' !in name && '&' !in value
    requires '=' !in name2 && '&' !in name2 && '&' !in value2
    ensures QueryParams(prefix + "?" + ((name + "=" + value) + "&" + (name2 + "=" + value2))) ==
      [(name, value), (name2, value2)]
  {
    var first, second := name + "=" + value, name2 + "=" + value2;
    var q := first + "&" + second;
    QueryOf(prefix, q);
    assert QueryParams(prefix + "?" + q) == Params(Split(q, '&'));
    assert '&' !in first && '&' !in second;
    SplitCons(first, '&', second);
    SplitNone(second);
    assert Split(q, '&') == [first, second];
    ParamOf(name, value);
    ParamOf(name2, value2);
    ParamsPair(first, second);
    assert Params([first, second]) == [(name, value), (name2, value2)];
  }

  lemma ParamsPair(a: string, b: string)
    ensures Params([a, b]) == [Param(a), Param(b)]
  {
    assert [a, b][1..] == [b];
    assert Params([b]) == [Param(b)] + Params([]);
  }

  /** The `key` query parameter, led by `sep`, when a non-empty API key is stored. */
  function KeyParam(config: map<string, string>, sep: string): (r: string)
    ensures ApiKey(config).None? <==> r == ""
    ensures ApiKey(config).Some? ==> r == sep + "key=" + ApiKey(config).value
  {
    match ApiKey(config)
    case Some(key) => sep + "key=" + key
    case None => ""
  }

  /** A query of `name=value` and then the key parameter reads back as that parameter and the key. */
  lemma ReadsWithKey(prefix: string, name: string, value: string, config: map<string, string>)
    requires '?' !in prefix && '=' !in name && '&' !in name && '&' !in value && KeyReadable(config)
    ensures QueryParams(prefix + "?" + (name + "=" + value + KeyParam(config, "&"))) ==
      [(name, value)] + KeyParams(config)
  {
    match ApiKey(config) {
      case None =>
        assert name + "=" + value + KeyParam(config, "&") == name + "=" + value;
        OneParam(prefix, name, value);
      case Some(key) =>
        assert KeyParam(config, "&") == "&" + ("key" + "=" + key);
        assert name + "=" + value + KeyParam(config, "&") == (name + "=" + value) + "&" + ("key" + "=" + key);
        TwoParams(prefix, name, value, "key", key);
    }
  }

  /** Regrouping a URL whose query starts with `?name=`: the prefix, the mark, then the query. */
  lemma Regroup(prefix: string, name: string, value: string, tail: string)
    ensures prefix + ("?" + name + "=") + value + tail == prefix + "?" + (name + "=" + value + tail)
  {
  }

  /**
   * `build_url`: `<api_url>/<endpoint>?device=<id>`, then `&key=<key>` when a key is stored.
   * The server reads the device and then the key, when neither holds `&` and the path holds no `?`.
   */
  method BuildUrl(config: map<string, string>, deviceId: string, endpoint: string) returns (url: string)
    ensures StartsWith(url, ApiUrl(config) + "/" + endpoint + "?device=" + deviceId)
    ensures url == ApiUrl(config) + "/" + endpoint + "?device=" + deviceId + KeyParam(config, "&")
    ensures '?' !in ApiUrl(config) + "/" + endpoint && '&' !in deviceId && KeyReadable(config) ==>
      QueryParams(url) == [("device", deviceId)] + KeyParams(config)
  {
    var base := ApiUrl(config) + "/" + endpoint + "?device=" + deviceId;
    url := base + KeyParam(config, "&");
    assert url[..|base|] == base;
    if '?' !in ApiUrl(config) + "/" + endpoint && '&' !in deviceId && KeyReadable(config) {
      assert "?device=" == "?" + "device" + "=";
      Regroup(ApiUrl(config) + "/" + endpoint, "device", deviceId, KeyParam(config, "&"));
      ReadsWithKey(ApiUrl(config) + "/" + endpoint, "device", deviceId, config);
    }
  }

  /**
   * The URL of `scan_package`: the endpoint carries its own `?`, so the server reads one
   * `package` parameter whose value runs on through `?device=<id>`, and no `device` parameter.
   */
  method ScanUrl(config: map<string, string>, deviceId: string, package: string) returns (url: string)
    ensures url == ApiUrl(config) + "/" + ("scan?package=" + package) + "?device=" + deviceId + KeyParam(config, "&")
    ensures CountChar(url, '?') >= 2
    ensures '?' !in ApiUrl(config) && '&' !in package && '&' !in deviceId && KeyReadable(config) ==>
      QueryParams(url) == [("package", package + "?device=" + deviceId)] + KeyParams(config)
  {
    url := BuildUrl(config, deviceId, "scan?package=" + package);
    ScanUrlMarks(ApiUrl(config), package, deviceId, KeyParam(config, "&"));
    if '?' !in ApiUrl(config) && '&' !in package && '&' !in deviceId && KeyReadable(config) {
      ScanUrlReads(config, deviceId, package);
    }
  }

  /** The scan URL read back: one `package` parameter running on through `?device=`, then the key. */
  lemma ScanUrlReads(config: map<string, string>, deviceId: string, package: string)
    requires '?' !in ApiUrl(config) && '&' !in package && '&' !in deviceId && KeyReadable(config)
    ensures QueryParams(ApiUrl(config) + "/" + ("scan?package=" + package) + "?device=" + deviceId + KeyParam(config, "&")) ==
      [("package", package + "?device=" + deviceId)] + KeyParams(config)
  {
    var value := package + "?device=" + deviceId;
    ScanUrlShape(ApiUrl(config), package, deviceId, KeyParam(config, "&"));
    assert '&' !in "?device=";
    assert '&' !in value;
    ReadsWithKey(ApiUrl(config) + "/" + "scan", "package", value, config);
  }

  /** The scan URL regrouped as a path, the first `?`, and a query that starts with `package=`. */
  lemma ScanUrlShape(api: string, package: string, deviceId: string, tail: string)
    ensures api + "/" + ("scan?package=" + package) + "?device=" + deviceId + tail ==
      (api + "/" + "scan") + "?" + ("package" + "=" + (package + "?device=" + deviceId) + tail)
  {
    var value := package + "?device=" + deviceId;
    assert "scan?package=" == "scan" + ("?" + "package" + "=");
    assert api + "/" + ("scan?package=" + package) + "?device=" + deviceId + tail ==
      (api + "/" + "scan") + ("?" + "package" + "=") + value + tail;
    Regroup(api + "/" + "scan", "package", value, tail);
  }

  /** The scan URL reaches the server with no `device` parameter at all. */
  lemma ScanUrlLosesDevice(config: map<string, string>, deviceId: string, package: string)
    requires '?' !in ApiUrl(config) && '&' !in package && '&' !in deviceId && KeyReadable(config)
    ensures var url := ApiUrl(config) + "/" + ("scan?package=" + package) + "?device=" + deviceId + KeyParam(config, "&");
      forall p :: p in QueryParams(url) ==> p.0 != "device"
  {
    ScanUrlReads(config, deviceId, package);
  }

  lemma ScanUrlMarks(api: string, package: string, deviceId: string, key: string)
    ensures CountChar(api + "/" + ("scan?package=" + package) + "?device=" + deviceId + key, '?') >= 2
  {
    var s := api + "/" + ("scan?package=" + package) + "?device=" + deviceId + key;
    assert "scan?package=" == "scan" + ['?'] + "package=";
    assert "?device=" == ['?'] + "device=";
    assert s == (api + "/" + "scan") + ['?'] + ("package=" + package) + ['?'] + ("device=" + deviceId + key);
    TwoMarks(api + "/" + "scan", "package=" + package, "device=" + deviceId + key, '?');
  }

  lemma TwoMarks(a: string, b: string, c: string, m: char)
    ensures CountChar(a + [m] + b + [m] + c, m) >= 2
  {
    CountCharConcat(a + [m] + b + [m], c, m);
    CountCharConcat(a + [m] + b, [m], m);
    CountCharConcat(a + [m], b, m);
    CountCharConcat(a, [m], m);
    assert CountChar([m], m) == 1;
  }

  /** The URL of `check_pro_status`: the device, then the key. */
  method ProStatusUrl(config: map<string, string>, deviceId: string) returns (url: string)
    ensures url == ApiUrl(config) + "/" + "pro/status" + "?device=" + deviceId + KeyParam(config, "&")
    ensures '?' !in ApiUrl(config) && '&' !in deviceId && KeyReadable(config) ==>
      QueryParams(url) == [("device", deviceId)] + KeyParams(config)
  {
    url := BuildUrl(config, deviceId, "pro/status");
    assert '?' !in "pro/status";
    if '?' !in ApiUrl(config) {
      PathWithoutMark(ApiUrl(config), "pro/status");
    }
  }

  /** A path built from a base and an endpoint, neither holding `?`, holds no `?`. */
  lemma PathWithoutMark(api: string, endpoint: string)
    requires '?' !in api && '?' !in endpoint
    ensures '?' !in api + "/" + endpoint
  {
  }

  /** The URL of `download_pro_module`: the device, then the key, for a module name without `?`. */
  method ModuleUrl(config: map<string, string>, deviceId: string, moduleName: string) returns (url: string)
    ensures url == ApiUrl(config) + "/" + ("pro/module/" + moduleName) + "?device=" + deviceId + KeyParam(config, "&")
    ensures '?' !in ApiUrl(config) && '?' !in moduleName && '&' !in deviceId && KeyReadable(config) ==>
      QueryParams(url) == [("device", deviceId)] + KeyParams(config)
  {
    url := BuildUrl(config, deviceId, "pro/module/" + moduleName);
    if '?' !in ApiUrl(config) && '?' !in moduleName {
      assert '?' !in "pro/module/";
      assert '?' !in "pro/module/" + moduleName;
      PathWithoutMark(ApiUrl(config), "pro/module/" + moduleName);
    }
  }

  /** The URL of `analyze_sandbox`: no device parameter, and the key joined with `?`. */
  method AnalyzeUrl(config: map<string, string>) returns (url: string)
    ensures StartsWith(url, ApiUrl(config) + "/sandbox/analyze")
    ensures ApiKey(config).None? ==> url == ApiUrl(config) + "/sandbox/analyze"
    ensures ApiKey(config).Some? ==> url == ApiUrl(config) + "/sandbox/analyze?key=" + ApiKey(config).value
    ensures '?' !in ApiUrl(config) && KeyReadable(config) ==> QueryParams(url) == KeyParams(config)
  {
    var path := ApiUrl(config) + "/sandbox/analyze";
    url := path;
    if ApiKey(config).Some? {
      url := ApiUrl(config) + "/sandbox/analyze?key=" + ApiKey(config).value;
      KeyedPath(ApiUrl(config), ApiKey(config).value);
    }
    if '?' !in ApiUrl(config) && KeyReadable(config) {
      AnalyzeUrlReads(config);
    }
  }

  lemma KeyedPath(api: string, key: string)
    ensures StartsWith(api + "/sandbox/analyze?key=" + key, api + "/sandbox/analyze")
  {
    var url := api + "/sandbox/analyze?key=" + key;
    assert url == (api + "/sandbox/analyze") + ("?key=" + key);
    assert url[..|api + "/sandbox/analyze"|] == api + "/sandbox/analyze";
  }

  /** The analysis URL read back: the key alone, or no parameter at all. */
  lemma AnalyzeUrlReads(config: map<string, string>)
    requires '?' !in ApiUrl(config) && KeyReadable(config)
    ensures ApiKey(config).None? ==> QueryParams(ApiUrl(config) + "/sandbox/analyze") == []
    ensures ApiKey(config).Some? ==>
      QueryParams(ApiUrl(config) + "/sandbox/analyze?key=" + ApiKey(config).value) == KeyParams(config)
  {
    var path := ApiUrl(config) + "/sandbox/analyze";
    assert '?' !in "/sandbox/analyze";
    assert '?' !in path;
    match ApiKey(config) {
      case Some(key) =>
        assert "/sandbox/analyze?key=" == "/sandbox/analyze" + "?" + ("key" + "=");
        assert ApiUrl(config) + "/sandbox/analyze?key=" + key == path + "?" + ("key" + "=" + key);
        OneParam(path, "key", key);
      case None =>
        NoQuery(path);
    }
  }

  // ---------------------------------------------------------------------------
  // Module download

  /** What the HTTP layer delivered: nothing, or a status with a (possibly unreadable) body. */
  datatype HttpReply = Unreachable(message: string) | Reply(status: int, body: Result<string, string>)

  datatype DownloadError =
    | ProRequired          // "Pro subscription required"
    | ModuleNotFound       // "Module not found"
    | DownloadFailed(status: int)
    | Transport(message: string)

  predicate IsSuccess(status: int) {
    200 <= status <= 299
  }

  /** `download_pro_module`: 403, then 404, then any other non-2xx, checked in that order. */
  function ClassifyDownload(reply: HttpReply): (r: Result<string, DownloadError>)
    ensures r.Ok? <==> reply.Reply? && IsSuccess(reply.status) && reply.body.Ok?
    ensures r.Ok? ==> r.value == reply.body.value
    ensures reply.Reply? && reply.status == 403 ==> r == Err(ProRequired)
    ensures reply.Reply? && reply.status == 404 ==> r == Err(ModuleNotFound)
    ensures reply.Reply? && reply.status != 403 && reply.status != 404 && !IsSuccess(reply.status) ==>
      r == Err(DownloadFailed(reply.status))
  {
    match reply
    case Unreachable(m) => Err(Transport(m))
    case Reply(status, body) =>
      if status == 403 then Err(ProRequired)
      else if status == 404 then Err(ModuleNotFound)
      else if !IsSuccess(status) then Err(DownloadFailed(status))
      else match body
        case Ok(text) => Ok(text)
        case Err(m) => Err(Transport(m))
  }
}
