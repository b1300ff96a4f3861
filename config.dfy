/** The exporter's configuration record, its defaults and its validator
    (internal/config/config.go). */
module Config {
  import opened Wrappers

  datatype ServerConfig = ServerConfig(
    listenAddress: string,
    metricsPath: string,
    logLevel: string,
    logFormat: string)

  datatype RateLimitConfig = RateLimitConfig(requestsPerSecond: int, burst: int)

  datatype AlicloudConfig = AlicloudConfig(
    accessKeyId: string,
    accessKeySecret: string,
    region: string,
    regions: seq<string>,
    rateLimit: RateLimitConfig)

  /** One monitored service: whether it is collected, its CMS namespace and
      the metric names to fetch. `scrapeInterval` is a Go time.Duration. */
  datatype ServiceConfig = ServiceConfig(
    enabled: bool,
    namespace: string,
    scrapeInterval: int,
    metrics: seq<string>)

  datatype ServicesConfig = ServicesConfig(slb: ServiceConfig, redis: ServiceConfig, rds: ServiceConfig)

  datatype PrometheusConfig = PrometheusConfig(
    globalLabels: map<string, string>,
    metricPrefix: string,
    includeGoMetrics: bool,
    includeProcessMetrics: bool)

  datatype Config = Config(
    server: ServerConfig,
    alicloud: AlicloudConfig,
    services: ServicesConfig,
    prometheus: PrometheusConfig)

  /** The zero value of a service section: nothing sets a default for it. */
  const UnsetService: ServiceConfig := ServiceConfig(false, "", 0, [])

  /** The values `setDefaults` installs before the file and the environment
      are read; every other field keeps Go's zero value. */
  const Defaults: Config := Config(
    ServerConfig(":9100", "/metrics", "info", "json"),
    AlicloudConfig("", "", "cn-hangzhou", [], RateLimitConfig(10, 20)),
    ServicesConfig(UnsetService, UnsetService, UnsetService),
    PrometheusConfig(map[], "alicloud", false, false))

  /** The reasons `Validate` rejects a configuration, one per check. */
  datatype ValidationError =
    | MissingAccessKeyId
    | MissingAccessKeySecret
    | MissingRegion
    | InvalidLogLevel(level: string)
    | InvalidLogFormat(format: string)

  const ValidLogLevels: seq<string> := ["debug", "info", "warn", "error"]
  const ValidLogFormats: seq<string> := ["json", "text"]

  /** One check of the validator: whether it passed, and the error it reports if not. */
  datatype Check = Check(passed: bool, failure: ValidationError)

  /** The validator stated as data: the list of its checks, in order ... */
  function Checks(c: Config): seq<Check>
  {
    [ Check(c.alicloud.accessKeyId != "", MissingAccessKeyId),
      Check(c.alicloud.accessKeySecret != "", MissingAccessKeySecret),
      Check(c.alicloud.region != "", MissingRegion),
      Check(c.server.logLevel in ValidLogLevels, InvalidLogLevel(c.server.logLevel)),
      Check(c.server.logFormat in ValidLogFormats, InvalidLogFormat(c.server.logFormat)) ]
  }

  /** ... of which the first that fails decides the outcome. */
  function FirstFailure(checks: seq<Check>): Option<ValidationError>
  {
    if |checks| == 0 then None
    else if !checks[0].passed then Some(checks[0].failure)
    else FirstFailure(checks[1..])
  }

  /** No failure is reported exactly when every check passes, and a reported
      failure is that of a failing check all of whose predecessors passed. */
  lemma {:induction false} FirstFailureIsFirst(checks: seq<Check>)
    ensures FirstFailure(checks).None? <==> forall i :: 0 <= i < |checks| ==> checks[i].passed
    ensures FirstFailure(checks).Some? ==>
      exists k :: 0 <= k < |checks| && !checks[k].passed
        && FirstFailure(checks).value == checks[k].failure
        && forall i :: 0 <= i < k ==> checks[i].passed
  {
    if |checks| > 0 {
      FirstFailureIsFirst(checks[1..]);
      if checks[0].passed && FirstFailure(checks).Some? {
        var k :| 0 <= k < |checks[1..]| && !checks[1..][k].passed
          && FirstFailure(checks[1..]).value == checks[1..][k].failure
          && forall i :: 0 <= i < k ==> checks[1..][i].passed;
        assert forall i :: 0 <= i < k + 1 ==> checks[i].passed by {
          forall i | 0 <= i < k + 1 ensures checks[i].passed {
            if i > 0 { assert checks[i] == checks[1..][i - 1]; }
          }
        }
      }
      if checks[0].passed && FirstFailure(checks).None? {
        forall i | 0 <= i < |checks| ensures checks[i].passed {
          if i > 0 { assert checks[i] == checks[1..][i - 1]; }
        }
      }
    }
  }

  /** Linear search: true iff some element of `s` equals `item`. */
  method Contains(s: seq<string>, item: string) returns (found: bool)
    ensures found <==> item in s
  {
    var i := 0;
    while i < |s|
      invariant 0 <= i <= |s|
      invariant item !in s[..i]
    {
      if s[i] == item {
        return true;
      }
      assert s[..i + 1] == s[..i] + [s[i]];
      i := i + 1;
    }
    assert s[..i] == s;
    return false;
  }

  /** The validator: the credentials and the region must be set, and the
      log level and format must be among the accepted ones; the first check
      that fails is the one reported. */
  method Validate(c: Config) returns (r: Option<ValidationError>)
    ensures r == FirstFailure(Checks(c))
    ensures r.None? <==>
      && c.alicloud.accessKeyId != ""
      && c.alicloud.accessKeySecret != ""
      && c.alicloud.region != ""
      && c.server.logLevel in ValidLogLevels
      && c.server.logFormat in ValidLogFormats
  {
    var cs := Checks(c);
    FirstFailureIsFirst(cs);
    assert FirstFailure(cs) == if cs[0].passed then FirstFailure(cs[1..]) else Some(cs[0].failure);
    assert FirstFailure(cs[1..]) == if cs[1].passed then FirstFailure(cs[2..]) else Some(cs[1].failure);
    assert FirstFailure(cs[2..]) == if cs[2].passed then FirstFailure(cs[3..]) else Some(cs[2].failure);
    assert FirstFailure(cs[3..]) == if cs[3].passed then FirstFailure(cs[4..]) else Some(cs[3].failure);
    assert FirstFailure(cs[4..]) == if cs[4].passed then None else Some(cs[4].failure);
    if c.alicloud.accessKeyId == "" {
      return Some(MissingAccessKeyId);
    }
    if c.alicloud.accessKeySecret == "" {
      return Some(MissingAccessKeySecret);
    }
    if c.alicloud.region == "" {
      return Some(MissingRegion);
    }
    var levelOk := Contains(ValidLogLevels, c.server.logLevel);
    if !levelOk {
      return Some(InvalidLogLevel(c.server.logLevel));
    }
    var formatOk := Contains(ValidLogFormats, c.server.logFormat);
    if !formatOk {
      return Some(InvalidLogFormat(c.server.logFormat));
    }
    return None;
  }

  /** The defaults alone never validate: they carry no credentials, so the
      first check, on the access key id, rejects them. */
  lemma DefaultsLackCredentials()
    ensures FirstFailure(Checks(Defaults)) == Some(MissingAccessKeyId)
  {
  }

  /** Supplying both credentials is all the defaults need to validate. */
  lemma DefaultsWithCredentialsValidate(id: string, secret: string)
    requires id != "" && secret != ""
    ensures FirstFailure(Checks(Defaults.(alicloud := Defaults.alicloud.(accessKeyId := id, accessKeySecret := secret)))).None?
  {
    var cs := Checks(Defaults.(alicloud := Defaults.alicloud.(accessKeyId := id, accessKeySecret := secret)));
    FirstFailureIsFirst(cs);
  }
}
