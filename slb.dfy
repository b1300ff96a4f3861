/** The SLB collector (internal/collector/slb.go): the base collector's
    metric loop, with each data point enriched by its load balancer's region
    and three of its tags. */
module Slb {
  import opened Wrappers
  import opened Config
  import opened Client
  import opened Collector

  /** The tag-and-region lookup the collector calls for a set of instance
      ids: per-id tags and per-id regions, or an error. */
  type TagsWithRegion = set<string> -> Result<(map<string, Tags>, map<string, string>), string>

  /** The tag labels of an SLB sample. */
  const TagLabels: seq<string> := ["Team", "Group", "Name"]

  /** The labels of an SLB sample's descriptor. */
  const DynamicLabels: seq<string> := ["instance_id", "protocol", "port", "vip", "region"] + TagLabels

  /** The tag keys the label values are read from, one per tag label: the
      first is the lower-case "team", unlike its label. */
  const TagKeysRead: seq<string> := ["team", "Group", "Name"]

  /** The distinct non-empty instance ids of the data points. */
  function InstanceIdSet(data: seq<MetricData>): (r: set<string>)
    ensures forall id :: id in r <==> id != "" && exists i :: 0 <= i < |data| && data[i].instanceId == id
  {
    set i | 0 <= i < |data| && data[i].instanceId != "" :: data[i].instanceId
  }

  /** The value of tag `key`, or "" when the map is absent or lacks the key. */
  function TagValue(tags: Option<Tags>, key: string): string
  {
    if tags.Some? && key in tags.value then tags.value[key] else ""
  }

  /** The label values of one data point: its own fields, its region (the
      client's primary region when none was found) and its three tags. */
  function BuildDynamicSlbLabelValues(d: MetricData, tags: Option<Tags>, region: string, primaryRegion: string)
    : (r: seq<string>)
    ensures |r| == |DynamicLabels|
  {
    var instanceRegion := if region == "" then primaryRegion else region;
    [d.instanceId, d.protocol, d.port, d.vip, instanceRegion,
     TagValue(tags, TagKeysRead[0]), TagValue(tags, TagKeysRead[1]), TagValue(tags, TagKeysRead[2])]
  }

  /** The SLB label values line up with the descriptor's labels: the first
      four are the fields the base collector's SLB labels read, the fifth
      the region, and each tag label is read from its own key. */
  lemma DynamicLabelsMatchDescriptor(d: MetricData, tags: Option<Tags>, region: string, primaryRegion: string)
    ensures var r := BuildDynamicSlbLabelValues(d, tags, region, primaryRegion);
      && r[..4] == BuildLabelValues(SlbService, d)
      && (forall i :: 0 <= i < 4 ==>
            DynamicLabels[i] == DescriptorLabels(SlbService)[i] && r[i] == LabelField(d, DynamicLabels[i]))
      && r[4] == (if region == "" then primaryRegion else region)
      && (forall j :: 0 <= j < |TagLabels| ==>
            DynamicLabels[5 + j] == TagLabels[j] && r[5 + j] == TagValue(tags, TagKeysRead[j]))
  {
  }

  /** Label values of a data point, looked up in the enrichment maps by its
      instance id, as Go's map indexing does (nil and "" when missing). */
  function SlbLabeler(tagsMap: map<string, Tags>, regionsMap: map<string, string>, primaryRegion: string): Labeler
  {
    (d: MetricData) => BuildDynamicSlbLabelValues(d,
                                    if d.instanceId in tagsMap then Some(tagsMap[d.instanceId]) else None,
                                    if d.instanceId in regionsMap then regionsMap[d.instanceId] else "",
                                    primaryRegion)
  }

  /** The descriptor of an SLB metric's samples. */
  function DynamicDesc(metricPrefix: string, metricName: string, globalLabels: map<string, string>): (r: Desc)
    ensures r.variableLabels == DynamicLabels
  {
    Desc(BuildFQName(metricPrefix, SlbService, metricName), metricName + " metric from Alicloud CMS",
         DynamicLabels, globalLabels)
  }

  /** The tag and region maps used for the data points: none when there is
      no instance id (and no lookup), the lookup's answer, or empty maps when
      the lookup fails. */
  function Enrichment(ids: set<string>, lookup: TagsWithRegion): (map<string, Tags>, map<string, string>)
  {
    if ids == {} then (map[], map[])
    else match lookup(ids)
      case Ok(maps) => maps
      case Err(_) => (map[], map[])
  }

  /** What `CollectSLBMetric` does with the client's answer for `metricName`. */
  function SlbMetricOutcome(r: Result<Response, FetchError>, metricName: string, metricPrefix: string,
                            globalLabels: map<string, string>, primaryRegion: string,
                            decode: Decode, lookup: TagsWithRegion): Outcome
  {
    match r
    case Err(cause) => Outcome(Some(FetchFailed(metricName, cause)), [])
    case Ok(resp) =>
      if resp.datapoints == "" then Outcome(None, [])
      else match decode(resp.datapoints)
        case None => Outcome(Some(DecodeFailed(metricName)), [])
        case Some(data) =>
          var (tagsMap, regionsMap) := Enrichment(InstanceIdSet(data), lookup);
          EmitGauges(metricName, DynamicDesc(metricPrefix, metricName, globalLabels), data,
                     SlbLabeler(tagsMap, regionsMap, primaryRegion))
  }

  /** `CollectSLBMetric` as a step: fetch through the client, then handle the answer. */
  function SlbStep(metricPrefix: string, globalLabels: map<string, string>, primaryRegion: string,
                   namespace: string, ttl: int, now: int, ctx: Ctx, describe: Describe, decode: Decode,
                   lookup: TagsWithRegion): Step
  {
    (st: ClientState, metricName: string) =>
      var (r, st') := Fetch(st, ttl, namespace, metricName, now, ctx, describe);
      (SlbMetricOutcome(r, metricName, metricPrefix, globalLabels, primaryRegion, decode, lookup), st')
  }

  /** Each SLB label vector fits the descriptor, so a decoded response
      yields exactly one sample per data point, with no error. */
  lemma SlbEmitsOnePerDatapoint(resp: Response, metricName: string, metricPrefix: string,
                                globalLabels: map<string, string>, primaryRegion: string,
                                decode: Decode, lookup: TagsWithRegion)
    requires resp.datapoints != "" && decode(resp.datapoints).Some?
    ensures var data := decode(resp.datapoints).value;
            var (tagsMap, regionsMap) := Enrichment(InstanceIdSet(data), lookup);
            SlbMetricOutcome(Ok(resp), metricName, metricPrefix, globalLabels, primaryRegion, decode, lookup)
            == Outcome(None, GaugesFor(DynamicDesc(metricPrefix, metricName, globalLabels), data,
                                       SlbLabeler(tagsMap, regionsMap, primaryRegion)))
  {
    var data := decode(resp.datapoints).value;
    var (tagsMap, regionsMap) := Enrichment(InstanceIdSet(data), lookup);
    EmitGaugesAligned(metricName, DynamicDesc(metricPrefix, metricName, globalLabels), data,
                      SlbLabeler(tagsMap, regionsMap, primaryRegion));
  }

  /** Before any enrichment, `CollectSLBMetric` ends as the base collector
      does: a fetch error or undecodable `Datapoints` is an error with no
      sample and no tag lookup, and an empty `Datapoints` string is success
      with no sample. */
  lemma SlbFailuresSendNothing(r: Result<Response, FetchError>, metricName: string, metricPrefix: string,
                               globalLabels: map<string, string>, primaryRegion: string,
                               decode: Decode, lookup: TagsWithRegion)
    ensures var o := SlbMetricOutcome(r, metricName, metricPrefix, globalLabels, primaryRegion, decode, lookup);
            && (r.Err? ==> o == Outcome(Some(FetchFailed(metricName, r.error)), []))
            && (r.Ok? && r.value.datapoints == "" ==> o == Outcome(None, []))
            && (r.Ok? && r.value.datapoints != "" && decode(r.value.datapoints).None? ==>
                  o == Outcome(Some(DecodeFailed(metricName)), []))
            && (r.Err? || r.value.datapoints == "" || decode(r.value.datapoints).None? ==>
                  o == MetricOutcome(r, metricName, map[], SlbService, decode))
  {
  }

  /** A failing tag-and-region lookup is not an error: the samples are
      still sent, every one labelled with the primary region and empty tags. */
  lemma LookupFailureDegrades(resp: Response, metricName: string, metricPrefix: string,
                              globalLabels: map<string, string>, primaryRegion: string,
                              decode: Decode, lookup: TagsWithRegion)
    requires resp.datapoints != "" && decode(resp.datapoints).Some?
    requires lookup(InstanceIdSet(decode(resp.datapoints).value)).Err?
    ensures var o := SlbMetricOutcome(Ok(resp), metricName, metricPrefix, globalLabels, primaryRegion, decode, lookup);
            && o.err.None?
            && |o.samples| == |decode(resp.datapoints).value|
            && forall i :: 0 <= i < |o.samples| ==>
                 |o.samples[i].labelValues| == |DynamicLabels|
                 && o.samples[i].labelValues[4] == primaryRegion && o.samples[i].labelValues[5..] == ["", "", ""]
  {
    SlbEmitsOnePerDatapoint(resp, metricName, metricPrefix, globalLabels, primaryRegion, decode, lookup);
  }

  /** When no data point carries an instance id, the lookup is never
      consulted: any two lookups give the same outcome. */
  lemma NoInstanceIdsNoLookup(r: Result<Response, FetchError>, metricName: string, metricPrefix: string,
                              globalLabels: map<string, string>, primaryRegion: string,
                              decode: Decode, lookup1: TagsWithRegion, lookup2: TagsWithRegion)
    requires r.Ok? && r.value.datapoints != "" && decode(r.value.datapoints).Some?
    requires forall i :: 0 <= i < |decode(r.value.datapoints).value| ==> decode(r.value.datapoints).value[i].instanceId == ""
    ensures SlbMetricOutcome(r, metricName, metricPrefix, globalLabels, primaryRegion, decode, lookup1)
         == SlbMetricOutcome(r, metricName, metricPrefix, globalLabels, primaryRegion, decode, lookup2)
  {
    assert InstanceIdSet(decode(r.value.datapoints).value) == {};
  }

  /** The region label is the looked-up region of the instance, or the
      client's primary region when the lookup has none or an empty one. */
  lemma RegionLabelFallsBack(d: MetricData, tagsMap: map<string, Tags>, regionsMap: map<string, string>,
                             primaryRegion: string)
    ensures SlbLabeler(tagsMap, regionsMap, primaryRegion)(d)[4]
         == if d.instanceId in regionsMap && regionsMap[d.instanceId] != "" then regionsMap[d.instanceId]
            else primaryRegion
  {
  }

  /** Only the tags "team", "Group" and "Name" reach the labels: tag maps
      that agree on those keys give the same label values. */
  lemma OnlyAllowListedTagsMatter(d: MetricData, t1: Tags, t2: Tags, region: string, primaryRegion: string)
    requires forall k :: k in TagKeysRead ==> (k in t1 <==> k in t2) && (k in t1 ==> t1[k] == t2[k])
    ensures BuildDynamicSlbLabelValues(d, Some(t1), region, primaryRegion)
         == BuildDynamicSlbLabelValues(d, Some(t2), region, primaryRegion)
  {
    assert TagKeysRead[0] in TagKeysRead && TagKeysRead[1] in TagKeysRead && TagKeysRead[2] in TagKeysRead;
  }

  /** The "Team" label is read from the lower-case key "team": a tag
      spelled "Team" leaves it empty. */
  lemma TeamLabelReadsLowercaseKey(d: MetricData, v: string, region: string, primaryRegion: string)
    ensures BuildDynamicSlbLabelValues(d, Some(map["Team" := v]), region, primaryRegion)[5] == ""
    ensures BuildDynamicSlbLabelValues(d, Some(map["team" := v]), region, primaryRegion)[5] == v
  {
  }

  class SlbCollector {
    const base: BaseCollector

    /** NewSLBCollector: a base collector for the "slb" service. */
    constructor (client: Client, config: ServiceConfig, globalLabels: map<string, string>, metricPrefix: string)
      ensures fresh(base) && base.Valid()
      ensures base.client == client && base.config == config && base.Name() == SlbService
      ensures base.metricPrefix == metricPrefix && base.globalLabels == globalLabels
      ensures base.metricDescs.Keys == set m | m in config.metrics
      ensures forall m :: m in config.metrics ==> base.metricDescs[m] == MetricDesc(metricPrefix, SlbService, m, globalLabels)
      ensures base.scrapeErrors == 0 && base.lastScrape == 0
    {
      base := new BaseCollector(client, config, SlbService, globalLabels, metricPrefix);
    }

    /** What one SLB metric yields for this collector. */
    function Step(now: int, ctx: Ctx, describe: Describe, decode: Decode, lookup: TagsWithRegion): Step
    {
      SlbStep(base.metricPrefix, base.globalLabels, base.client.config.region, base.config.namespace,
              base.client.cache.ttl, now, ctx, describe, decode, lookup)
    }

    /** The distinct non-empty instance ids, gathered in one pass. */
    method InstanceIds(data: seq<MetricData>) returns (ids: set<string>)
      ensures ids == InstanceIdSet(data)
    {
      ids := {};
      var i := 0;
      while i < |data|
        invariant 0 <= i <= |data|
        invariant ids == InstanceIdSet(data[..i])
      {
        assert data[..i + 1][..i] == data[..i] && data[..i + 1][i] == data[i];
        if data[i].instanceId != "" {
          ids := ids + {data[i].instanceId};
        }
        i := i + 1;
      }
      assert data[..i] == data;
    }

    /** CollectSLBMetric: fetch, decode, look up tags and regions of the
        instance ids (degrading to none on failure), then one sample per
        data point under the eight-label descriptor. */
    method CollectSlbMetric(metricName: string, now: int, ctx: Ctx, describe: Describe, decode: Decode,
                            lookup: TagsWithRegion)
      returns (err: Option<CollectError>, samples: seq<Sample>)
      requires base.client.Valid()
      modifies base.client.cache, base.client.limiter
      ensures base.client.Valid() && base.client.limiter.refilling == old(base.client.limiter.refilling)
      ensures (Outcome(err, samples), base.client.State()) == Step(now, ctx, describe, decode, lookup)(old(base.client.State()), metricName)
    {
      var response := base.client.GetMetricData(base.config.namespace, metricName, now, ctx, describe);
      if response.Err? {
        return Some(FetchFailed(metricName, response.error)), [];
      }
      if response.value.datapoints == "" {
        return None, [];
      }
      var metricData := decode(response.value.datapoints);
      if metricData.None? {
        return Some(DecodeFailed(metricName)), [];
      }
      var data := metricData.value;
      var ids := InstanceIds(data);
      var tagsMap: map<string, Tags> := map[];
      var regionsMap: map<string, string> := map[];
      if ids != {} {
        var found := lookup(ids);
        if found.Ok? {
          tagsMap, regionsMap := found.value.0, found.value.1;
        }
      }
      var dynamicDesc := DynamicDesc(base.metricPrefix, metricName, base.globalLabels);
      err, samples := EmitGaugesLoop(metricName, dynamicDesc, data,
                                     SlbLabeler(tagsMap, regionsMap, base.client.GetRegion()));
    }

    /** Collect: nothing when disabled; otherwise the two internal metrics,
        then every configured metric in order; a positive failure count
        records one scrape error and is returned as the error. The scrape
        ends at `finishedAt`, which becomes the last scrape time. */
    method Collect(now: int, ctx: Ctx, describe: Describe, decode: Decode, lookup: TagsWithRegion, finishedAt: int)
      returns (err: Option<nat>, emitted: seq<Metric>)
      requires base.client.Valid()
      modifies base, base.client.cache, base.client.limiter
      ensures base.client.Valid() && base.client.limiter.refilling == old(base.client.limiter.refilling)
      ensures base.metricDescs == old(base.metricDescs)
      ensures !base.Enabled() ==>
        && err == None && emitted == []
        && base.client.State() == old(base.client.State())
        && base.scrapeErrors == old(base.scrapeErrors) && base.lastScrape == old(base.lastScrape)
      ensures base.Enabled() ==>
        var run := RunMetrics(old(base.client.State()), base.config.metrics, Step(now, ctx, describe, decode, lookup));
        && base.client.State() == run.state
        && emitted == [Internal(base.scrapeErrorsDesc), Internal(base.scrapeDurationDesc)] + AsGauges(run.samples)
        && err == AggregateError(run.errors)
        && base.scrapeErrors == old(base.scrapeErrors) + (if err.Some? then 1 else 0)
        && base.GetLastScrapeTime() == finishedAt
    {
      if !base.Enabled() {
        return None, [];
      }
      emitted := [Internal(base.scrapeErrorsDesc), Internal(base.scrapeDurationDesc)];
      var errorCount, gauges := CollectMetrics(now, ctx, describe, decode, lookup);
      emitted := emitted + gauges;
      if errorCount > 0 {
        base.RecordScrapeError();
        err := Some(errorCount);
      } else {
        err := None;
      }
      base.SetLastScrapeTime(finishedAt);
    }

    /** The loop of `Collect` over the configured metrics: each is collected
        in turn, and a failure is counted but does not stop the loop. */
    method CollectMetrics(now: int, ctx: Ctx, describe: Describe, decode: Decode, lookup: TagsWithRegion)
      returns (errorCount: nat, emitted: seq<Metric>)
      requires base.client.Valid()
      modifies base.client.cache, base.client.limiter
      ensures base.client.Valid() && base.client.limiter.refilling == old(base.client.limiter.refilling)
      ensures var run := RunMetrics(old(base.client.State()), base.config.metrics, Step(now, ctx, describe, decode, lookup));
        && base.client.State() == run.state
        && emitted == AsGauges(run.samples)
        && errorCount == CountFailures(run.errors)
    {
      ghost var step := Step(now, ctx, describe, decode, lookup);
      ghost var st0 := base.client.State();
      ghost var errors: seq<Option<CollectError>> := [];
      ghost var samples: seq<Sample> := [];
      var metrics := base.config.metrics;
      errorCount := 0;
      emitted := [];
      var i := 0;
      while i < |metrics|
        invariant 0 <= i <= |metrics|
        invariant base.client.Valid() && base.client.limiter.refilling == old(base.client.limiter.refilling)
        invariant RunMetrics(st0, metrics[..i], step) == Run(errors, samples, base.client.State())
        invariant errorCount == CountFailures(errors)
        invariant emitted == AsGauges(samples)
      {
        ghost var before := base.client.State();
        var e, s := CollectSlbMetric(metrics[i], now, ctx, describe, decode, lookup);
        assert step(before, metrics[i]) == (Outcome(e, s), base.client.State());
        RunMetricsExtend(st0, metrics, step, i, errors, samples, before, e, s, base.client.State());
        errors := errors + [e];
        samples := samples + s;
        emitted := emitted + AsGauges(s);
        if e.Some? {
          errorCount := errorCount + 1;
        }
        i := i + 1;
      }
      assert metrics[..i] == metrics;
    }
  }
}
