/** The Redis (KVStore) collector (internal/collector/redis.go): the base
    collector's metric loop, with failures counted into one error. */
module Redis {
  import opened Wrappers
  import opened Config
  import opened Client
  import opened Collector

  class RedisCollector {
    const base: BaseCollector

    /** NewRedisCollector: a base collector for the "redis" service. */
    constructor (client: Client, config: ServiceConfig, globalLabels: map<string, string>, metricPrefix: string)
      ensures fresh(base) && base.Valid()
      ensures base.client == client && base.config == config && base.Name() == RedisService
      ensures base.metricPrefix == metricPrefix && base.globalLabels == globalLabels
      ensures base.metricDescs.Keys == set m | m in config.metrics
      ensures forall m :: m in config.metrics ==> base.metricDescs[m] == MetricDesc(metricPrefix, RedisService, m, globalLabels)
      ensures base.scrapeErrors == 0 && base.lastScrape == 0
    {
      base := new BaseCollector(client, config, RedisService, globalLabels, metricPrefix);
    }

    /** What one Redis metric yields, given the base collector's descriptors. */
    static function Step(descs: map<string, Desc>, config: ServiceConfig, ttl: int, now: int, ctx: Ctx,
                         describe: Describe, decode: Decode): Step
    {
      MetricStep(descs, RedisService, config.namespace, ttl, now, ctx, describe, decode)
    }

    /** Collect: nothing when disabled; otherwise the two internal metrics,
        then every configured metric in order; a positive failure count
        records one scrape error and is returned as the error. The scrape
        ends at `finishedAt`, which becomes the last scrape time. */
    method Collect(now: int, ctx: Ctx, describe: Describe, decode: Decode, finishedAt: int)
      returns (err: Option<nat>, emitted: seq<Metric>)
      requires base.client.Valid() && base.Name() == RedisService
      modifies base, base.client.cache, base.client.limiter
      ensures base.client.Valid() && base.client.limiter.refilling == old(base.client.limiter.refilling)
      ensures base.metricDescs == old(base.metricDescs)
      ensures !base.Enabled() ==>
        && err == None && emitted == []
        && base.client.State() == old(base.client.State())
        && base.scrapeErrors == old(base.scrapeErrors) && base.lastScrape == old(base.lastScrape)
      ensures base.Enabled() ==>
        var run := RunMetrics(old(base.client.State()), base.config.metrics,
                              Step(base.metricDescs, base.config, base.client.cache.ttl, now, ctx, describe, decode));
        && base.client.State() == run.state
        && emitted == [Internal(base.scrapeErrorsDesc), Internal(base.scrapeDurationDesc)] + AsGauges(run.samples)
        && err == AggregateError(run.errors)
        && base.scrapeErrors == old(base.scrapeErrors) + (if err.Some? then 1 else 0)
        && base.GetLastScrapeTime() == finishedAt
    {
      if !base.Enabled() {
        return None, [];
      }
      emitted := [Internal(base.scrapeErrorsDesc), Internal(base.scrapeDurationDesc)];
      var errorCount, gauges := base.CollectMetrics(now, ctx, describe, decode);
      emitted := emitted + gauges;
      if errorCount > 0 {
        base.RecordScrapeError();
        err := Some(errorCount);
      } else {
        err := None;
      }
      base.SetLastScrapeTime(finishedAt);
    }
  }
}
