/** Start-up configuration: defaults, the type check of the options, and the
    base URL every script is fetched from. */
module Config {
  import opened Wrappers
  import opened JsValue
  import Text

  /** The options object as a JavaScript record. */
  type Options = map<string, Value>

  /** The defaults `startApp` supplies before the caller's options. */
  const Defaults: Options := map[
    "googBasePath" := Str("goog/"),
    "serverPort" := Num(8081),
    "devHost" := Str("localhost"),
    "renderFn" := Str("figwheel_rn_root")]

  /** `Object.assign({...defaults}, options)`: every key the caller gives wins,
      even when its value is `undefined`. */
  function Merge(options: Options): (config: Options)
    ensures config.Keys == Defaults.Keys + options.Keys
    ensures forall k :: k in options ==> config[k] == options[k]
    ensures forall k :: k in Defaults && k !in options ==> config[k] == Defaults[k]
  {
    Defaults + options
  }

  /** One entry of the type check: the key and the `typeof` it must have. */
  datatype Check = Check(key: string, kind: string)

  /** The checks of `validateOptions`, in the order they run. */
  const Checks: seq<Check> := [
    Check("googBasePath", "string"),
    Check("serverPort", "number"),
    Check("appName", "string"),
    Check("outputTo", "string"),
    Check("cljsNs", "string"),
    Check("devHost", "string"),
    Check("renderFn", "string")]

  predicate Passes(config: Options, c: Check) {
    TypeOf(Get(config, c.key)) == c.kind
  }

  /** The message `assertKeyType` throws. */
  function Message(c: Check): string {
    c.key + " must be a " + c.kind
  }

  /** Runs the checks in order and stops at the first that fails. */
  function FirstFailure(config: Options, checks: seq<Check>): (r: Outcome<string>)
    ensures r == Pass <==> forall i :: 0 <= i < |checks| ==> Passes(config, checks[i])
    ensures r.Fail? ==> exists i :: 0 <= i < |checks| && !Passes(config, checks[i])
                                    && r.error == Message(checks[i])
                                    && forall j :: 0 <= j < i ==> Passes(config, checks[j])
  {
    if |checks| == 0 then Pass
    else if !Passes(config, checks[0]) then Fail(Message(checks[0]))
    else
      var r := FirstFailure(config, checks[1..]);
      assert forall i :: 1 <= i < |checks| ==> checks[i] == checks[1..][i - 1];
      if r.Fail? then
        var i :| 0 <= i < |checks[1..]| && !Passes(config, checks[1..][i])
                 && r.error == Message(checks[1..][i])
                 && forall j :: 0 <= j < i ==> Passes(config, checks[1..][j]);
        assert forall j :: 0 <= j < i + 1 ==> Passes(config, checks[j]);
        r
      else r
  }

  /** `validateOptions`. */
  function Validate(config: Options): Outcome<string> {
    FirstFailure(config, Checks)
  }

  /** The validated configuration `loadApp` works with. */
  datatype LoadConfig = LoadConfig(
    googBasePath: string,
    serverPort: int,
    appName: string,
    outputTo: string,
    cljsNs: string,
    devHost: string,
    renderFn: string)

  predicate WellTyped(config: Options) {
    forall i :: 0 <= i < |Checks| ==> Passes(config, Checks[i])
  }

  /** Reads the typed fields of a configuration that passed validation. */
  function Typed(config: Options): (c: LoadConfig)
    requires WellTyped(config)
    ensures Get(config, "googBasePath") == Str(c.googBasePath)
    ensures Get(config, "serverPort") == Num(c.serverPort)
    ensures Get(config, "appName") == Str(c.appName)
    ensures Get(config, "outputTo") == Str(c.outputTo)
    ensures Get(config, "cljsNs") == Str(c.cljsNs)
    ensures Get(config, "devHost") == Str(c.devHost)
    ensures Get(config, "renderFn") == Str(c.renderFn)
  {
    assert Passes(config, Checks[0]) && Passes(config, Checks[1]) && Passes(config, Checks[2]);
    assert Passes(config, Checks[3]) && Passes(config, Checks[4]) && Passes(config, Checks[5]);
    assert Passes(config, Checks[6]);
    LoadConfig(
      Get(config, "googBasePath").s,
      Get(config, "serverPort").n,
      Get(config, "appName").s,
      Get(config, "outputTo").s,
      Get(config, "cljsNs").s,
      Get(config, "devHost").s,
      Get(config, "renderFn").s)
  }

  /** `startApp` up to the registration with the host: merge the defaults,
      validate, and either throw the first type error or yield the config. */
  function Start(options: Options): (r: Result<LoadConfig, string>)
    ensures r.Ok? <==> WellTyped(Merge(options))
  {
    var config := Merge(options);
    match Validate(config)
    case Fail(m) => Err(m)
    case Pass => Ok(Typed(config))
  }

  /** A started configuration takes each of the caller's well-typed values and
      falls back on the defaults for the four keys that have one. */
  lemma StartUsesDefaults(options: Options)
    requires Start(options).Ok?
    ensures var c := Start(options).value;
      && Get(options, "appName") == Str(c.appName)
      && Get(options, "outputTo") == Str(c.outputTo)
      && Get(options, "cljsNs") == Str(c.cljsNs)
      && ("googBasePath" in options ==> options["googBasePath"] == Str(c.googBasePath))
      && ("googBasePath" !in options ==> c.googBasePath == "goog/")
      && ("serverPort" in options ==> options["serverPort"] == Num(c.serverPort))
      && ("serverPort" !in options ==> c.serverPort == 8081)
      && ("devHost" in options ==> options["devHost"] == Str(c.devHost))
      && ("devHost" !in options ==> c.devHost == "localhost")
      && ("renderFn" in options ==> options["renderFn"] == Str(c.renderFn))
      && ("renderFn" !in options ==> c.renderFn == "figwheel_rn_root")
  {
  }

  /** A start that fails reports the first key, in check order, whose type is
      wrong after the merge. */
  lemma StartReportsFirstMistyped(options: Options)
    ensures Start(options).Err? ==>
              exists i :: 0 <= i < |Checks| && !Passes(Merge(options), Checks[i])
                          && Start(options).error == Checks[i].key + " must be a " + Checks[i].kind
                          && forall j :: 0 <= j < i ==> Passes(Merge(options), Checks[j])
  {
  }

  /** The checks stop at the first failing one: its message is the result. */
  lemma {:induction false} FirstFailureAt(config: Options, checks: seq<Check>, i: nat)
    requires i < |checks|
    requires forall j :: 0 <= j < i ==> Passes(config, checks[j])
    requires !Passes(config, checks[i])
    ensures FirstFailure(config, checks) == Fail(Message(checks[i]))
  {
    if i > 0 {
      assert Passes(config, checks[0]);
      assert forall j :: 0 <= j < i - 1 ==> checks[1..][j] == checks[j + 1];
      FirstFailureAt(config, checks[1..], i - 1);
    }
  }

  /** Options that leave out `appName` and do not override the first two keys
      with a wrong type are refused with "appName must be a string". */
  lemma MissingAppNameRefused(options: Options)
    requires "appName" !in options
    requires "googBasePath" in options ==> TypeOf(options["googBasePath"]) == "string"
    requires "serverPort" in options ==> TypeOf(options["serverPort"]) == "number"
    ensures Start(options) == Err("appName must be a string")
  {
    var config := Merge(options);
    MergedTypes(options);
    RefusedAtAppName(config);
  }

  lemma MergedTypes(options: Options)
    requires "appName" !in options
    requires "googBasePath" in options ==> TypeOf(options["googBasePath"]) == "string"
    requires "serverPort" in options ==> TypeOf(options["serverPort"]) == "number"
    ensures TypeOf(Get(Merge(options), "googBasePath")) == "string"
    ensures TypeOf(Get(Merge(options), "serverPort")) == "number"
    ensures Get(Merge(options), "appName") == Undefined
  {
    assert "appName" !in Defaults;
  }

  lemma RefusedAtAppName(config: Options)
    requires TypeOf(Get(config, "googBasePath")) == "string"
    requires TypeOf(Get(config, "serverPort")) == "number"
    requires Get(config, "appName") == Undefined
    ensures Validate(config) == Fail("appName must be a string")
  {
    assert forall j :: 0 <= j < 2 ==> Passes(config, Checks[j]);
    FirstFailureAt(config, Checks, 2);
    assert Checks[2] == Check("appName", "string");
    AppNameMessage();
  }

  lemma AppNameMessage()
    ensures Message(Check("appName", "string")) == "appName must be a string"
  {
    var m := Message(Check("appName", "string"));
    assert |m| == 24;
    assert forall i :: 0 <= i < 24 ==> m[i] == "appName must be a string"[i];
  }

  /** The scheme and host part of `serverBaseUrl`: under `importScripts` the
      host is always `localhost`. */
  function Host(c: LoadConfig, importScripts: bool): string {
    if importScripts then "localhost" else c.devHost
  }

  /** `serverBaseUrl`. */
  function ServerBaseUrl(c: LoadConfig, importScripts: bool): string {
    "http://" + Host(c, importScripts) + ":" + Text.IntToString(c.serverPort) + "/" + c.outputTo
  }

  /** What a base URL is built from. */
  datatype Endpoint = Endpoint(host: string, port: int, outputTo: string)

  /** Reads a base URL back into host, port and output directory. */
  function ParseBaseUrl(url: string): Option<Endpoint> {
    if |url| < 7 || url[..7] != "http://" then None else ParseAuthority(url[7..])
  }

  /** The host runs up to the first `:`. */
  function ParseAuthority(rest: string): Option<Endpoint> {
    var colon := Text.IndexOf(rest, ":");
    if colon < 0 then None else ParsePort(rest[..colon], rest[colon + 1..])
  }

  /** The port runs up to the first `/`; the output directory is the rest. */
  function ParsePort(host: string, after: string): Option<Endpoint> {
    var slash := Text.IndexOf(after, "/");
    if slash < 0 then None
    else match Text.ParseInt(after[..slash])
      case None => None
      case Some(port) => Some(Endpoint(host, port, after[slash + 1..]))
  }

  lemma ParsePortAssembled(host: string, port: string, dir: string, n: int)
    requires '/' !in port
    requires Text.ParseInt(port) == Some(n)
    ensures ParsePort(host, port + "/" + dir) == Some(Endpoint(host, n, dir))
  {
    var after := port + "/" + dir;
    Text.IndexOfAfterFree(port, '/', dir);
    assert after[..|port|] == port;
    assert after[|port| + 1..] == dir;
  }

  lemma ParseAuthorityAssembled(host: string, after: string)
    requires ':' !in host
    ensures ParseAuthority(host + ":" + after) == ParsePort(host, after)
  {
    var rest := host + ":" + after;
    Text.IndexOfAfterFree(host, ':', after);
    assert rest[|host| + 1..] == after && rest[..|host|] == host;
  }

  /** Reading back `"http://" + host + ":" + port + "/" + dir`. */
  lemma ParseAssembled(host: string, port: string, dir: string, n: int)
    requires ':' !in host && '/' !in port
    requires Text.ParseInt(port) == Some(n)
    ensures ParseBaseUrl("http://" + host + ":" + port + "/" + dir) == Some(Endpoint(host, n, dir))
  {
    var after := port + "/" + dir;
    var rest := host + ":" + after;
    var url := "http://" + host + ":" + port + "/" + dir;
    assert url == "http://" + rest;
    assert url[..7] == "http://" && url[7..] == rest;
    ParseAuthorityAssembled(host, after);
    ParsePortAssembled(host, port, dir, n);
  }

  /** The base URL determines host, port and output directory when the host
      holds no `:`; the host is `devHost` exactly when `importScripts` is absent. */
  lemma BaseUrlRoundTrip(c: LoadConfig, importScripts: bool)
    requires ':' !in Host(c, importScripts)
    ensures ParseBaseUrl(ServerBaseUrl(c, importScripts))
         == Some(Endpoint(if importScripts then "localhost" else c.devHost, c.serverPort, c.outputTo))
  {
    var port := Text.IntToString(c.serverPort);
    assert '/' !in port by {
      forall k | 0 <= k < |port| ensures port[k] != '/' {
      }
    }
    Text.IntToStringRoundTrip(c.serverPort);
    ParseAssembled(Host(c, importScripts), port, c.outputTo, c.serverPort);
  }
}
