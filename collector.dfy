/** What every service collector shares (internal/collector/collector.go):
    the CMS data point, Prometheus descriptors and samples, the value
    precedence, the per-service label vectors, the base collector and the
    "try every metric, count failures" loop both service collectors run. */
module Collector {
  import opened Wrappers
  import opened Config
  import opened Client

  /** One CMS data point as decoded from a response's `Datapoints` JSON. */
  datatype MetricData = MetricData(
    timestamp: int,
    userId: string,
    instanceId: string,
    device: string,
    port: string,
    protocol: string,
    vip: string,
    state: string,
    diskname: string,
    sum: real,
    maximum: real,
    average: real,
    minimum: real)

  /** The JSON decoder of `Datapoints`: the data points, or None when the text does not decode. */
  type Decode = string -> Option<seq<MetricData>>

  const SlbService: string := "slb"
  const RedisService: string := "redis"
  const RdsService: string := "rds"

  /** A Prometheus descriptor: fully-qualified name, help text, variable
      label names and constant labels. */
  datatype Desc = Desc(fqName: string, help: string, variableLabels: seq<string>, constLabels: map<string, string>)

  /** A gauge sample: its descriptor, value and one value per variable label. */
  datatype Sample = Sample(desc: Desc, value: real, labelValues: seq<string>)

  /** What a collector sends on the metrics channel: one of its internal
      metrics (scrape errors counter, scrape duration histogram), or a gauge. */
  datatype Metric = Internal(desc: Desc) | Gauge(sample: Sample)

  /** Prometheus's name builder: the non-empty parts joined by underscores,
      and the empty name when `name` is empty. */
  function BuildFQName(namespace: string, subsystem: string, name: string): string
  {
    if name == "" then ""
    else if namespace != "" && subsystem != "" then namespace + "_" + subsystem + "_" + name
    else if namespace != "" then namespace + "_" + name
    else if subsystem != "" then subsystem + "_" + name
    else name
  }

  /** Prometheus's constant-metric constructor, which refuses a label-value
      vector whose length differs from the descriptor's label list. */
  function NewConstMetric(desc: Desc, value: real, labelValues: seq<string>): (r: Result<Sample, string>)
    ensures r.Ok? <==> |labelValues| == |desc.variableLabels|
    ensures r.Ok? ==> r.value == Sample(desc, value, labelValues)
  {
    if |labelValues| != |desc.variableLabels| then Err("inconsistent label cardinality")
    else Ok(Sample(desc, value, labelValues))
  }

  // ---------------------------------------------------------------------
  // Value precedence

  /** The first non-zero number of `xs`, or zero when there is none. */
  function FirstNonZero(xs: seq<real>): real
  {
    if |xs| == 0 then 0.0
    else if xs[0] != 0.0 then xs[0]
    else FirstNonZero(xs[1..])
  }

  /** FirstNonZero picks an element preceded only by zeros, and is zero
      exactly when every element is. */
  lemma {:induction false} FirstNonZeroIsFirst(xs: seq<real>)
    ensures FirstNonZero(xs) == 0.0 <==> forall i :: 0 <= i < |xs| ==> xs[i] == 0.0
    ensures FirstNonZero(xs) != 0.0 ==>
      exists k :: 0 <= k < |xs| && xs[k] == FirstNonZero(xs) && forall i :: 0 <= i < k ==> xs[i] == 0.0
  {
    if |xs| > 0 {
      FirstNonZeroIsFirst(xs[1..]);
      if xs[0] == 0.0 {
        forall i | 0 <= i < |xs| && (forall j :: 0 <= j < |xs[1..]| ==> xs[1..][j] == 0.0) ensures xs[i] == 0.0 {
          if i > 0 { assert xs[i] == xs[1..][i - 1]; }
        }
        if FirstNonZero(xs) != 0.0 {
          var k :| 0 <= k < |xs[1..]| && xs[1..][k] == FirstNonZero(xs[1..]) && forall i :: 0 <= i < k ==> xs[1..][i] == 0.0;
          forall i | 0 <= i < k + 1 ensures xs[i] == 0.0 {
            if i > 0 { assert xs[i] == xs[1..][i - 1]; }
          }
        }
      }
    }
  }

  /** The value a data point is reported with: Average, unless it is zero,
      then Maximum, unless that is zero too, then Sum. */
  function SampleValue(d: MetricData): (v: real)
    ensures v == d.average || v == d.maximum || v == d.sum
    ensures v != 0.0 <==> (d.average != 0.0 || d.maximum != 0.0 || d.sum != 0.0)
  {
    if d.average != 0.0 then d.average
    else if d.maximum != 0.0 then d.maximum
    else d.sum
  }

  /** The precedence is "first non-zero of Average, Maximum, Sum". */
  lemma SampleValueIsFirstNonZero(d: MetricData)
    ensures SampleValue(d) == FirstNonZero([d.average, d.maximum, d.sum])
  {
    var xs := [d.average, d.maximum, d.sum];
    assert xs[1..] == [d.maximum, d.sum] && xs[1..][1..] == [d.sum] && xs[1..][1..][1..] == [];
    assert FirstNonZero([d.sum]) == d.sum;
    assert FirstNonZero([d.maximum, d.sum]) == if d.maximum != 0.0 then d.maximum else d.sum;
  }

  // ---------------------------------------------------------------------
  // Descriptor labels and label values

  /** The variable labels of a configured metric's descriptor. */
  function DescriptorLabels(serviceName: string): seq<string>
  {
    if serviceName == SlbService then ["instance_id", "protocol", "port", "vip"] else ["instance_id"]
  }

  /** The label values of a data point, for the descriptor of its service. */
  function BuildLabelValues(serviceName: string, d: MetricData): seq<string>
  {
    if serviceName == SlbService then [d.instanceId, d.protocol, d.port, d.vip]
    else [d.instanceId]
  }

  /** The data-point field a label name stands for. */
  function LabelField(d: MetricData, labelName: string): string
  {
    match labelName
    case "instance_id" => d.instanceId
    case "protocol" => d.protocol
    case "port" => d.port
    case "vip" => d.vip
    case _ => ""
  }

  /** For every service, the label values line up with the descriptor's
      labels: as many, and each the field its label names. */
  lemma LabelValuesMatchDescriptor(serviceName: string, d: MetricData)
    ensures |BuildLabelValues(serviceName, d)| == |DescriptorLabels(serviceName)|
    ensures forall i :: 0 <= i < |DescriptorLabels(serviceName)| ==>
      BuildLabelValues(serviceName, d)[i] == LabelField(d, DescriptorLabels(serviceName)[i])
  {
  }

  /** The descriptor of a configured metric. */
  function MetricDesc(metricPrefix: string, serviceName: string, metricName: string, globalLabels: map<string, string>): (r: Desc)
    ensures r.variableLabels == DescriptorLabels(serviceName) && r.constLabels == globalLabels
  {
    Desc(BuildFQName(metricPrefix, serviceName, metricName), metricName + " metric from Alicloud CMS",
         DescriptorLabels(serviceName), globalLabels)
  }

  /** The descriptors of `descs` listed in `order`. */
  function DescriptorsInOrder(descs: map<string, Desc>, order: seq<string>): (r: seq<Desc>)
    requires forall k :: k in order ==> k in descs
    ensures |r| == |order| && forall i :: 0 <= i < |order| ==> r[i] == descs[order[i]]
  {
    seq(|order|, i requires 0 <= i < |order| => descs[order[i]])
  }

  // ---------------------------------------------------------------------
  // Emitting one gauge per data point

  /** Why collecting one metric failed. */
  datatype CollectError =
    | FetchFailed(metricName: string, cause: FetchError)
    | DecodeFailed(metricName: string)
    | MissingDescriptor(metricName: string)
    | SampleFailed(metricName: string, reason: string)

  /** The result of collecting one metric: the error, if any, and the
      samples sent before it. */
  datatype Outcome = Outcome(err: Option<CollectError>, samples: seq<Sample>)

  /** The label values a collector attaches to a data point. */
  type Labeler = MetricData -> seq<string>

  function BaseLabeler(serviceName: string): Labeler
  {
    d => BuildLabelValues(serviceName, d)
  }

  /** The emission loop: one sample per data point, in order; the first
      sample Prometheus refuses ends the loop with an error, and the samples
      already sent stay sent. */
  function EmitGauges(metricName: string, desc: Desc, data: seq<MetricData>, labelsOf: Labeler): Outcome
  {
    if |data| == 0 then Outcome(None, [])
    else
      var prev := EmitGauges(metricName, desc, data[..|data| - 1], labelsOf);
      var d := data[|data| - 1];
      if prev.err.Some? then prev
      else match NewConstMetric(desc, SampleValue(d), labelsOf(d))
        case Err(reason) => Outcome(Some(SampleFailed(metricName, reason)), prev.samples)
        case Ok(s) => Outcome(None, prev.samples + [s])
  }

  /** Once emission has failed on a prefix, the data points after it change nothing. */
  lemma {:induction false} EmitGaugesStops(metricName: string, desc: Desc, data: seq<MetricData>, labelsOf: Labeler, k: nat)
    requires k <= |data| && EmitGauges(metricName, desc, data[..k], labelsOf).err.Some?
    ensures EmitGauges(metricName, desc, data, labelsOf) == EmitGauges(metricName, desc, data[..k], labelsOf)
  {
    if k < |data| {
      var init := data[..|data| - 1];
      assert init[..k] == data[..k];
      EmitGaugesStops(metricName, desc, init, labelsOf, k);
    } else {
      assert data[..k] == data;
    }
  }

  /** The samples of `data` under `desc`, one per data point. */
  function GaugesFor(desc: Desc, data: seq<MetricData>, labelsOf: Labeler): (r: seq<Sample>)
    ensures |r| == |data|
  {
    seq(|data|, i requires 0 <= i < |data| => Sample(desc, SampleValue(data[i]), labelsOf(data[i])))
  }

  /** When every data point's label vector fits the descriptor, emission
      succeeds with exactly one sample per data point, in order. */
  lemma {:induction false} EmitGaugesAligned(metricName: string, desc: Desc, data: seq<MetricData>, labelsOf: Labeler)
    requires forall i :: 0 <= i < |data| ==> |labelsOf(data[i])| == |desc.variableLabels|
    ensures EmitGauges(metricName, desc, data, labelsOf) == Outcome(None, GaugesFor(desc, data, labelsOf))
  {
    if |data| > 0 {
      var init := data[..|data| - 1];
      EmitGaugesAligned(metricName, desc, init, labelsOf);
      assert GaugesFor(desc, data, labelsOf)
          == GaugesFor(desc, init, labelsOf) + [Sample(desc, SampleValue(data[|data| - 1]), labelsOf(data[|data| - 1]))];
    }
  }

  /** When some data point's label vector does not fit, emission fails and
      sends at most the samples of the data points before it. */
  lemma {:induction false} EmitGaugesMisfit(metricName: string, desc: Desc, data: seq<MetricData>, labelsOf: Labeler, k: nat)
    requires k < |data| && |labelsOf(data[k])| != |desc.variableLabels|
    ensures EmitGauges(metricName, desc, data, labelsOf).err.Some?
    ensures |EmitGauges(metricName, desc, data, labelsOf).samples| <= k
  {
    var init := data[..|data| - 1];
    if k < |data| - 1 {
      assert init[k] == data[k];
      EmitGaugesMisfit(metricName, desc, init, labelsOf, k);
    } else {
      EmitGaugesLength(metricName, desc, init, labelsOf);
    }
  }

  /** Emission never sends more samples than there are data points. */
  lemma {:induction false} EmitGaugesLength(metricName: string, desc: Desc, data: seq<MetricData>, labelsOf: Labeler)
    ensures |EmitGauges(metricName, desc, data, labelsOf).samples| <= |data|
  {
    if |data| > 0 {
      EmitGaugesLength(metricName, desc, data[..|data| - 1], labelsOf);
    }
  }

  /** The loop of `CollectMetric` (and of `CollectSLBMetric`) over the decoded
      data points: compute the value, build the labels, make the sample. */
  method EmitGaugesLoop(metricName: string, desc: Desc, data: seq<MetricData>, labelsOf: Labeler)
    returns (err: Option<CollectError>, samples: seq<Sample>)
    ensures Outcome(err, samples) == EmitGauges(metricName, desc, data, labelsOf)
  {
    samples := [];
    var i := 0;
    while i < |data|
      invariant 0 <= i <= |data|
      invariant Outcome(None, samples) == EmitGauges(metricName, desc, data[..i], labelsOf)
    {
      var d := data[i];
      var value := d.average;
      if value == 0.0 {
        value := d.maximum;
      }
      if value == 0.0 {
        value := d.sum;
      }
      var labelValues := labelsOf(d);
      var metric := NewConstMetric(desc, value, labelValues);
      assert data[..i + 1][..i] == data[..i];
      if metric.Err? {
        EmitGaugesStops(metricName, desc, data, labelsOf, i + 1);
        return Some(SampleFailed(metricName, metric.error)), samples;
      }
      samples := samples + [metric.value];
      i := i + 1;
    }
    assert data[..i] == data;
    err := None;
  }

  // ---------------------------------------------------------------------
  // Collecting one metric

  /** What `CollectMetric` does with the client's answer for `metricName`. */
  function MetricOutcome(r: Result<Response, FetchError>, metricName: string, descs: map<string, Desc>,
                         serviceName: string, decode: Decode): Outcome
  {
    match r
    case Err(cause) => Outcome(Some(FetchFailed(metricName, cause)), [])
    case Ok(resp) =>
      if resp.datapoints == "" then Outcome(None, [])
      else match decode(resp.datapoints)
        case None => Outcome(Some(DecodeFailed(metricName)), [])
        case Some(data) =>
          if metricName !in descs then Outcome(Some(MissingDescriptor(metricName)), [])
          else EmitGauges(metricName, descs[metricName], data, BaseLabeler(serviceName))
  }

  /** One step of a collector's loop: what collecting a metric yields, and
      the client state it leaves. */
  type Step = (ClientState, string) -> (Outcome, ClientState)

  /** `CollectMetric` as a step: fetch through the client, then handle the answer. */
  function MetricStep(descs: map<string, Desc>, serviceName: string, namespace: string, ttl: int,
                      now: int, ctx: Ctx, describe: Describe, decode: Decode): Step
  {
    (st: ClientState, metricName: string) =>
      var (r, st') := Fetch(st, ttl, namespace, metricName, now, ctx, describe);
      (MetricOutcome(r, metricName, descs, serviceName, decode), st')
  }

  /** The five ways `CollectMetric` ends: a fetch error is an error with no
      sample; an empty `Datapoints` string is success with no sample;
      `Datapoints` that do not decode are an error with no sample, like a
      fetch error; a metric with no descriptor is an error; otherwise, with
      the service's own descriptor, exactly one sample per data point. */
  lemma CollectMetricOutcomes(r: Result<Response, FetchError>, metricName: string, descs: map<string, Desc>,
                              serviceName: string, decode: Decode)
    requires forall m :: m in descs ==> descs[m].variableLabels == DescriptorLabels(serviceName)
    ensures var o := MetricOutcome(r, metricName, descs, serviceName, decode);
      && (r.Err? ==> o == Outcome(Some(FetchFailed(metricName, r.error)), []))
      && (r.Ok? && r.value.datapoints == "" ==> o == Outcome(None, []))
      && (r.Ok? && r.value.datapoints != "" && decode(r.value.datapoints).None? ==>
            o == Outcome(Some(DecodeFailed(metricName)), []))
      && (r.Ok? && r.value.datapoints != "" && decode(r.value.datapoints).Some? ==>
            if metricName !in descs then o == Outcome(Some(MissingDescriptor(metricName)), [])
            else o == Outcome(None, GaugesFor(descs[metricName], decode(r.value.datapoints).value, BaseLabeler(serviceName))))
  {
    if r.Ok? && r.value.datapoints != "" && decode(r.value.datapoints).Some? && metricName in descs {
      var data := decode(r.value.datapoints).value;
      forall i | 0 <= i < |data|
        ensures |BaseLabeler(serviceName)(data[i])| == |descs[metricName].variableLabels|
      {
        LabelValuesMatchDescriptor(serviceName, data[i]);
      }
      EmitGaugesAligned(metricName, descs[metricName], data, BaseLabeler(serviceName));
    }
  }

  // ---------------------------------------------------------------------
  // The collector loop over configured metrics

  /** Where the loop over configured metrics ends: each metric's error (or
      None), in order, the samples sent and the client state left. */
  datatype Run = Run(errors: seq<Option<CollectError>>, samples: seq<Sample>, state: ClientState)

  /** Every configured metric is attempted, in order, whatever happened to
      the ones before it. */
  function RunMetrics(st: ClientState, metrics: seq<string>, step: Step): (r: Run)
    ensures |r.errors| == |metrics|
  {
    if |metrics| == 0 then Run([], [], st)
    else
      var prev := RunMetrics(st, metrics[..|metrics| - 1], step);
      var (o, st') := step(prev.state, metrics[|metrics| - 1]);
      Run(prev.errors + [o.err], prev.samples + o.samples, st')
  }

  /** Running one more metric extends the run by that metric's step. */
  lemma RunMetricsSnoc(st: ClientState, metrics: seq<string>, step: Step, i: nat)
    requires i < |metrics|
    ensures var prev := RunMetrics(st, metrics[..i], step);
            var r := step(prev.state, metrics[i]);
            RunMetrics(st, metrics[..i + 1], step) == Run(prev.errors + [r.0.err], prev.samples + r.0.samples, r.1)
  {
    assert metrics[..i + 1][..i] == metrics[..i];
  }

  /** One iteration of a collector's metric loop: the step for metric i,
      from where the run over the first i metrics left the client, extends
      the run, the failure count and the gauges sent. */
  lemma RunMetricsExtend(st: ClientState, metrics: seq<string>, step: Step, i: nat,
                         errors: seq<Option<CollectError>>, samples: seq<Sample>, before: ClientState,
                         e: Option<CollectError>, s: seq<Sample>, after: ClientState)
    requires i < |metrics|
    requires RunMetrics(st, metrics[..i], step) == Run(errors, samples, before)
    requires step(before, metrics[i]) == (Outcome(e, s), after)
    ensures RunMetrics(st, metrics[..i + 1], step) == Run(errors + [e], samples + s, after)
    ensures CountFailures(errors + [e]) == CountFailures(errors) + (if e.Some? then 1 else 0)
    ensures AsGauges(samples + s) == AsGauges(samples) + AsGauges(s)
  {
    RunMetricsSnoc(st, metrics, step, i);
    CountFailuresSnoc(errors, e);
    AsGaugesAppend(samples, s);
  }

  /** The i-th recorded error is exactly what the step gives for the i-th
      metric from the state the earlier metrics left: a failure does not
      stop, skip or alter the attempts that follow. */
  lemma {:induction false} RunMetricsAttemptsEach(st: ClientState, metrics: seq<string>, step: Step, i: nat)
    requires i < |metrics|
    ensures RunMetrics(st, metrics, step).errors[i] == step(RunMetrics(st, metrics[..i], step).state, metrics[i]).0.err
  {
    var init := metrics[..|metrics| - 1];
    if i < |metrics| - 1 {
      RunMetricsAttemptsEach(st, init, step, i);
      assert init[..i] == metrics[..i] && init[i] == metrics[i];
    } else {
      assert metrics[..i] == init;
    }
  }

  /** The number of failed metrics. */
  function CountFailures(errors: seq<Option<CollectError>>): (n: nat)
    ensures n <= |errors|
  {
    if |errors| == 0 then 0
    else CountFailures(errors[..|errors| - 1]) + (if errors[|errors| - 1].Some? then 1 else 0)
  }

  lemma CountFailuresSnoc(errors: seq<Option<CollectError>>, e: Option<CollectError>)
    ensures CountFailures(errors + [e]) == CountFailures(errors) + (if e.Some? then 1 else 0)
  {
    assert (errors + [e])[..|errors|] == errors;
  }

  /** Some metric failed exactly when the failure count is positive. */
  lemma {:induction false} CountFailuresPositive(errors: seq<Option<CollectError>>)
    ensures CountFailures(errors) > 0 <==> exists i :: 0 <= i < |errors| && errors[i].Some?
  {
    if |errors| > 0 {
      var init := errors[..|errors| - 1];
      CountFailuresPositive(init);
      if CountFailures(init) > 0 {
        var i :| 0 <= i < |init| && init[i].Some?;
        assert errors[i] == init[i];
      }
      if exists i :: 0 <= i < |errors| && errors[i].Some? {
        var i :| 0 <= i < |errors| && errors[i].Some?;
        if i < |init| { assert init[i] == errors[i]; }
      }
    }
  }

  /** A collector's loop reports an error exactly when attempting some
      metric, from the state the metrics before it left, fails. */
  lemma RunFailsIffSomeAttemptFails(st: ClientState, metrics: seq<string>, step: Step)
    ensures AggregateError(RunMetrics(st, metrics, step).errors).Some?
        <==> exists i :: 0 <= i < |metrics| && step(RunMetrics(st, metrics[..i], step).state, metrics[i]).0.err.Some?
  {
    var errors := RunMetrics(st, metrics, step).errors;
    forall i | 0 <= i < |metrics|
      ensures errors[i] == step(RunMetrics(st, metrics[..i], step).state, metrics[i]).0.err
    {
      RunMetricsAttemptsEach(st, metrics, step, i);
    }
  }

  /** The samples as gauges on the metrics channel. */
  function AsGauges(samples: seq<Sample>): (r: seq<Metric>)
    ensures |r| == |samples| && forall i :: 0 <= i < |samples| ==> r[i] == Gauge(samples[i])
  {
    seq(|samples|, i requires 0 <= i < |samples| => Gauge(samples[i]))
  }

  lemma AsGaugesAppend(a: seq<Sample>, b: seq<Sample>)
    ensures AsGauges(a + b) == AsGauges(a) + AsGauges(b)
  {
  }

  /** The error a collector's `Collect` returns: the failure count, if positive. */
  function AggregateError(errors: seq<Option<CollectError>>): (r: Option<nat>)
    ensures r.Some? <==> exists i :: 0 <= i < |errors| && errors[i].Some?
    ensures r.Some? ==> r.value == CountFailures(errors) && 0 < r.value <= |errors|
  {
    CountFailuresPositive(errors);
    if CountFailures(errors) > 0 then Some(CountFailures(errors)) else None
  }

  // ---------------------------------------------------------------------
  // The base collector

  /** The state every service collector shares: its client, its service
      section, its descriptors, its scrape-error counter and the time of its
      last scrape. */
  class BaseCollector {
    const client: Client
    const config: ServiceConfig
    const serviceName: string
    const globalLabels: map<string, string>
    const metricPrefix: string
    const scrapeErrorsDesc: Desc
    const scrapeDurationDesc: Desc
    var metricDescs: map<string, Desc>
    var lastScrape: int
    var scrapeErrors: nat

    /** Every descriptor carries the service's label list. */
    ghost predicate Valid()
      reads this
    {
      forall m :: m in metricDescs ==> metricDescs[m].variableLabels == DescriptorLabels(serviceName)
    }

    /** NewBaseCollector: one descriptor per configured metric name, no
        scrape error yet, and the zero time as the last scrape. */
    constructor (client: Client, config: ServiceConfig, serviceName: string,
                 globalLabels: map<string, string>, metricPrefix: string)
      ensures Valid()
      ensures this.client == client && this.config == config && this.globalLabels == globalLabels
      ensures Name() == serviceName && Enabled() == config.enabled && this.metricPrefix == metricPrefix
      ensures metricDescs.Keys == set m | m in config.metrics
      ensures forall m :: m in config.metrics ==> metricDescs[m] == MetricDesc(metricPrefix, serviceName, m, globalLabels)
      ensures scrapeErrors == 0 && lastScrape == 0
      ensures scrapeErrorsDesc.fqName == BuildFQName(metricPrefix, serviceName, "scrape_errors_total")
      ensures scrapeDurationDesc.fqName == BuildFQName(metricPrefix, serviceName, "scrape_duration_seconds")
    {
      this.client := client;
      this.config := config;
      this.serviceName := serviceName;
      this.globalLabels := globalLabels;
      this.metricPrefix := metricPrefix;
      scrapeErrorsDesc := Desc(BuildFQName(metricPrefix, serviceName, "scrape_errors_total"),
                               "Total number of scrape errors for " + serviceName + " service", [], globalLabels);
      scrapeDurationDesc := Desc(BuildFQName(metricPrefix, serviceName, "scrape_duration_seconds"),
                                 "Duration of scrape for " + serviceName + " service", [], globalLabels);
      metricDescs := map[];
      lastScrape := 0;
      scrapeErrors := 0;
      new;
      InitMetricDescriptors();
    }

    /** Adds one descriptor per configured metric name. */
    method InitMetricDescriptors()
      requires Valid()
      modifies this
      ensures Valid()
      ensures metricDescs.Keys == old(metricDescs.Keys) + set m | m in config.metrics
      ensures forall m :: m in config.metrics ==> metricDescs[m] == MetricDesc(metricPrefix, serviceName, m, globalLabels)
      ensures forall m :: m in old(metricDescs) && m !in config.metrics ==> metricDescs[m] == old(metricDescs[m])
      ensures lastScrape == old(lastScrape) && scrapeErrors == old(scrapeErrors)
    {
      var i := 0;
      while i < |config.metrics|
        invariant 0 <= i <= |config.metrics|
        invariant Valid()
        invariant metricDescs.Keys == old(metricDescs.Keys) + set m | m in config.metrics[..i]
        invariant forall m :: m in config.metrics[..i] ==> metricDescs[m] == MetricDesc(metricPrefix, serviceName, m, globalLabels)
        invariant forall m :: m in old(metricDescs) && m !in config.metrics[..i] ==> metricDescs[m] == old(metricDescs[m])
        invariant lastScrape == old(lastScrape) && scrapeErrors == old(scrapeErrors)
      {
        var metricName := config.metrics[i];
        assert config.metrics[..i + 1] == config.metrics[..i] + [metricName];
        metricDescs := metricDescs[metricName := MetricDesc(metricPrefix, serviceName, metricName, globalLabels)];
        i := i + 1;
      }
      assert config.metrics[..i] == config.metrics;
    }

    function Name(): string
    {
      serviceName
    }

    function Enabled(): bool
    {
      config.enabled
    }

    /** Sends every descriptor of `metricDescs`, in Go's map order `order`,
        then the two internal descriptors. */
    method Describe(order: seq<string>) returns (descs: seq<Desc>)
      requires IsEnumeration(order, metricDescs.Keys)
      ensures descs == DescriptorsInOrder(metricDescs, order) + [scrapeErrorsDesc, scrapeDurationDesc]
      ensures forall m :: m in metricDescs ==> metricDescs[m] in descs[..|descs| - 2]
      ensures forall i :: 0 <= i < |descs| - 2 ==> descs[i] in metricDescs.Values
    {
      descs := [];
      var i := 0;
      while i < |order|
        invariant 0 <= i <= |order|
        invariant descs == DescriptorsInOrder(metricDescs, order[..i])
      {
        descs := descs + [metricDescs[order[i]]];
        i := i + 1;
      }
      assert order[..i] == order;
      descs := descs + [scrapeErrorsDesc, scrapeDurationDesc];
      forall m | m in metricDescs ensures metricDescs[m] in descs[..|descs| - 2] {
        var k :| 0 <= k < |order| && order[k] == m;
        assert descs[k] == metricDescs[m];
      }
    }

    /** Fetches one metric through the client and sends one gauge per data
        point under the metric's descriptor. */
    method CollectMetric(metricName: string, now: int, ctx: Ctx, describe: Describe, decode: Decode)
      returns (err: Option<CollectError>, samples: seq<Sample>)
      requires client.Valid()
      modifies client.cache, client.limiter
      ensures client.Valid() && client.limiter.refilling == old(client.limiter.refilling)
      ensures (Outcome(err, samples), client.State())
              == MetricStep(metricDescs, serviceName, config.namespace, client.cache.ttl, now, ctx, describe, decode)
                   (old(client.State()), metricName)
    {
      var response := client.GetMetricData(config.namespace, metricName, now, ctx, describe);
      if response.Err? {
        return Some(FetchFailed(metricName, response.error)), [];
      }
      if response.value.datapoints == "" {
        return None, [];
      }
      var metricData := decode(response.value.datapoints);
      if metricData.None? {
        return Some(DecodeFailed(metricName)), [];
      }
      if metricName !in metricDescs {
        return Some(MissingDescriptor(metricName)), [];
      }
      var desc := metricDescs[metricName];
      err, samples := EmitGaugesLoop(metricName, desc, metricData.value, BaseLabeler(serviceName));
    }

    /** The loop of a collector's `Collect` over the configured metrics:
        each is collected in turn, and a failure is counted but does not
        stop the loop. */
    method CollectMetrics(now: int, ctx: Ctx, describe: Describe, decode: Decode)
      returns (errorCount: nat, emitted: seq<Metric>)
      requires client.Valid()
      modifies client.cache, client.limiter
      ensures client.Valid() && client.limiter.refilling == old(client.limiter.refilling)
      ensures var run := RunMetrics(old(client.State()), config.metrics,
                                    MetricStep(metricDescs, serviceName, config.namespace, client.cache.ttl, now, ctx, describe, decode));
        && client.State() == run.state
        && emitted == AsGauges(run.samples)
        && errorCount == CountFailures(run.errors)
    {
      ghost var step := MetricStep(metricDescs, serviceName, config.namespace, client.cache.ttl, now, ctx, describe, decode);
      ghost var st0 := client.State();
      ghost var errors: seq<Option<CollectError>> := [];
      ghost var samples: seq<Sample> := [];
      var metrics := config.metrics;
      errorCount := 0;
      emitted := [];
      var i := 0;
      while i < |metrics|
        invariant 0 <= i <= |metrics|
        invariant client.Valid() && client.limiter.refilling == old(client.limiter.refilling)
        invariant RunMetrics(st0, metrics[..i], step) == Run(errors, samples, client.State())
        invariant errorCount == CountFailures(errors)
        invariant emitted == AsGauges(samples)
      {
        ghost var before := client.State();
        var e, s := CollectMetric(metrics[i], now, ctx, describe, decode);
        RunMetricsExtend(st0, metrics, step, i, errors, samples, before, e, s, client.State());
        errors := errors + [e];
        samples := samples + s;
        emitted := emitted + AsGauges(s);
        if e.Some? {
          errorCount := errorCount + 1;
        }
        i := i + 1;
      }
      assert metrics[..i] == metrics;
    }

    method RecordScrapeError()
      modifies this
      ensures scrapeErrors == old(scrapeErrors) + 1
      ensures metricDescs == old(metricDescs) && lastScrape == old(lastScrape)
    {
      scrapeErrors := scrapeErrors + 1;
    }

    function GetLastScrapeTime(): int
      reads this
    {
      lastScrape
    }

    method SetLastScrapeTime(t: int)
      modifies this
      ensures GetLastScrapeTime() == t
      ensures metricDescs == old(metricDescs) && scrapeErrors == old(scrapeErrors)
    {
      lastScrape := t;
    }
  }
}
