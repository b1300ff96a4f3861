# alicloud-exporter, modelled in Dafny

alicloud-exporter is a Prometheus exporter for Alibaba Cloud. It reads metrics
from Cloud Monitor (CMS) for three services: SLB load balancers, Redis
(KVStore) and RDS. It serves them as Prometheus gauges. This project models
its core and proves what the code promises:

- **Config** (`config.dfy`): the configuration record, its defaults and
  `Validate`. `Validate` applies five checks in a fixed order and reports
  the first one that fails.
- **Client** (`client.dfy`):
  - the metric cache, with a TTL and expiry by timestamp, and the tag cache,
    which never expires;
  - the token-bucket rate limiter;
  - `GetMetricData` (cache first, then one rate-limited remote call whose
    answer is cached under `namespace:metric`);
  - the `Dimensions` JSON builder;
  - the SLB tag lookup `GetSLBInstanceTags`: cached ids, one scan per region
    until every id is found, a stop when the limiter refuses, and empty
    cached tags for ids found in no region.
- **Collector** (`collector.dfy`): the base collector. It covers:
  - descriptors built from the configured metric names;
  - `CollectMetric`: fetch, an empty answer, a decode error, a missing
    descriptor, and one gauge per data point whose value is the first
    non-zero of Average, Maximum and Sum;
  - the per-metric loop used by every service, which counts failures;
  - the scrape-error counter and the last scrape time.
- **SLB** (`slb.dfy`): the SLB collector. Each data point is enriched with
  the instance's region and its `team`, `Group` and `Name` tags. A failed
  lookup does not fail the metric.
- **Redis** (`redis.dfy`): the Redis collector.
- **Exporter** (`exporter.dfy`):
  - the exporter object, its collector list (SLB, Redis, RDS, in that
    order, enabled ones only), `Describe`, `Close` and `GetCollectors`;
  - the scrape bookkeeping of `Collect`: `up`, total scrapes, scrape
    errors, the last scrape time and the last-scrape-error gauge.

Operations that change state in the Go code are methods of Dafny classes
with the same fields: `MetricCache`, `TagCache`, `RateLimiter`, `Client`,
`BaseCollector`, `SlbCollector`, `RedisCollector` and `Exporter`. Each
method's postcondition ties its result and its new state to a pure function
of the old state, for example `Client.Fetch`, `Client.LookupTags` or
`Collector.RunMetrics`. The lemmas state the source's promises about those
functions.

How the model represents what it cannot run:

- Time is an explicit `now` parameter. For the metric cache it counts
  nanoseconds, as Go's `time.Duration` does. The `now` that
  `Exporter.Exporter.Collect` records as the last scrape time is the Unix
  time in whole seconds, as `time.Now().Unix()` gives it
  (internal/exporter/exporter.go:208).
- A context is `Ctx(done, tokenWinsRace)`. `done` says the context ends
  before a token reaches the caller. When a token is ready and the context
  is done, Go's `select` may take either branch, so the race winner is a
  parameter.
- The ticker is the `Tick` method.
- Remote calls are function-valued parameters: `DescribeMetricLast`,
  `DescribeLoadBalancers` with its tags, the JSON decoding of `Datapoints`,
  and the SLB region-and-tag lookup.
- Go map iteration order, over regions and over dimension values, is an
  explicit `order` sequence that enumerates the map's keys. Results are
  proved for every such order.

Where the source's own comments and its code differ, the model follows the
code:

- The SLB "team" label is read only from the lower-case tag key `team`.
  `Group` and `Name` are read with exactly that casing. No alternative
  spellings are tried (`Slb.TeamLabelReadsLowercaseKey`), although the
  comments at internal/collector/slb.go:212 and 217 speak of trying both
  upper and lower case.

The model also makes these behaviours of the code explicit:
- Closing the rate limiter only stops the refill. Tokens already in the
  bucket are still handed out (`Client.RateLimiter.Close`).
- The rate limiter needs `0 < requestsPerSecond <= 10^9`. Otherwise the
  ticker period `time.Second / rps` is zero or the division panics. It also
  needs `burst >= 0`: `make(chan struct{}, burst)` panics on a negative
  size (internal/client/client.go:194), and `Validate` does not check the
  burst. The constructors require both.
- After a failed health check, `last_scrape_error` ends at 0 when no
  collector failed, because the collector count overwrites it
  (`Exporter.ScrapeAccounting`).

## Model

| member | source | states |
|---|---|---|
| Config.FirstFailureIsFirst | internal/config/config.go:119-143 | validation passes iff every check passes; a reported error is the first failing check's, all earlier checks passing |
| Config.Contains | internal/config/config.go:156-163 | the linear search returns true exactly when the item occurs in the slice |
| Config.Validate | internal/config/config.go:119-143 | returns the first failing check's error; passes exactly when key id, secret and region are non-empty and log level and format are among the allowed values |
| Config.DefaultsLackCredentials | internal/config/config.go:103-116 | the defaults alone are rejected for the missing access key id |
| Config.DefaultsWithCredentialsValidate | internal/config/config.go:103-116 | the defaults plus a non-empty key id and secret pass validation |
| Client.ExpiryBoundary | internal/client/client.go:22-24 | an entry is live up to and including timestamp + ttl and expired strictly after |
| Client.CachedResponse | internal/client/client.go:73-82 | a cache read hits exactly when the key is present and unexpired, and returns the stored response |
| Client.Unexpired | internal/client/client.go:97-106 | the sweep keeps exactly the unexpired entries, unchanged |
| Client.GetAfterSet | internal/client/client.go:85-94 | a read right after a write returns the written response; other keys read as before |
| Client.SweepPreservesReads | internal/client/client.go:97-106 | sweeping at an earlier time never changes what a later read returns |
| Client.MetricCache.constructor | internal/client/client.go:65-70 | a new metric cache is empty with the given TTL |
| Client.MetricCache.Get | internal/client/client.go:73-82 | returns the cached response exactly when the key is present and unexpired |
| Client.MetricCache.Set | internal/client/client.go:85-94 | stores the response under the key with the current timestamp and the cache TTL |
| Client.MetricCache.Clear | internal/client/client.go:97-106 | removes exactly the expired entries |
| Client.TagCache.constructor | internal/client/client.go:34-39 | a new tag cache is empty |
| Client.TagCache.Get | internal/client/client.go:42-47 | found exactly when the key is present (tag entries never expire), returning its tags |
| Client.TagCache.Set | internal/client/client.go:50-54 | stores the tags under the key and changes nothing else |
| Client.RateLimiter.constructor | internal/client/client.go:191-212 | the bucket starts full (tokens == burst) and refilling |
| Client.RateLimiter.Tick | internal/client/client.go:215-228 | a tick adds one token while refilling and below burst, otherwise leaves the bucket |
| Client.RateLimiter.Wait | internal/client/client.go:231-242 | a held token is taken unless a done context wins the race; an empty bucket that is still refilling hands the next tick's token to a live caller and stays empty; after Close an empty bucket refuses |
| Client.RateLimiter.Close | internal/client/client.go:245-248 | stops the refill and keeps the tokens already in the bucket |
| Client.FullBucketAdmitsBurst | internal/client/client.go:191-242 | a fresh limiter admits each of its first burst waits from the bucket; then the bucket is empty, so a done context is refused even when its select would take a ready token, and a live caller is served by the next tick (every live caller, with burst 0) |
| Client.CacheKeyInjective | internal/client/client.go:252-253 | for namespaces without ':' the key "namespace:metric" determines namespace and metric |
| Client.FetchOutcomes | internal/client/client.go:251-283 | a hit spends no token and changes nothing; on a miss a refused wait returns the rate-limiter error with the state unchanged (260-262), and an admitted one spends one token and asks for the metric without dimensions, answering `Ok` with the remote response or the remote error; an error leaves the cache as it was; a fetched response is cached under its key and is read back while unexpired |
| Client.Client.constructor | internal/client/client.go:131-188 | SLB regions are the configured regions (or the primary one) that connect; full limiter; empty caches with 30 s and 5 min TTLs |
| Client.Client.GetRegion | internal/client/client.go:335-337 | returns the configured primary region |
| Client.Client.GetMetricData | internal/client/client.go:251-283 | result and new cache and bucket state are those of Fetch from the old state |
| Client.Client.GetMetricDataWithDimensions | internal/client/client.go:286-322 | refused without spending when the limiter refuses; otherwise one token is spent, the cache is bypassed, the request carries the dimensions JSON (absent when there are no dimensions) and the remote answer or error is returned |
| Client.JoinLength | internal/client/client.go:302-314 | joining n items puts exactly n-1 commas between them |
| Client.JoinedItemAt | internal/client/client.go:302-314 | each item appears unchanged, in order, after the earlier items and one comma per earlier item, and every item but the last is followed by a comma |
| Client.BuildDimensions | internal/client/client.go:302-314 | no dimensions field exactly when the map is empty; otherwise the JSON array of the values in iteration order |
| Client.TagMapKeys | internal/client/client.go:420-423 | the tag map has a key exactly when some tag of the load balancer carries it |
| Client.TagMapIsLastWins | internal/client/client.go:420-423 | each key maps to the value of its last occurrence among the tags |
| Client.ExtractTags | internal/client/client.go:420-423 | the loop builds exactly the tag map |
| Client.CachedTags | internal/client/client.go:366-372 | the cached part holds exactly the requested ids present in the tag cache, each with its cached tags |
| Client.UncachedIds | internal/client/client.go:380-383 | the uncached set holds exactly the requested ids absent from the tag cache |
| Client.EmptyTags | internal/client/client.go:434-439 | every still-missing id gets an empty tag map |
| Client.ScanListingPartition | internal/client/client.go:413-431 | scanning one region's listing only moves ids from outstanding to found, keeping earlier finds |
| Client.ScanRegionsPartition | internal/client/client.go:386-432 | the region loop keeps found and outstanding disjoint with an unchanged union, spends at most one token per region, and stops early only with ids outstanding |
| Client.ScanListingMisses | internal/client/client.go:413-431 | an id absent from a listing is not touched by it |
| Client.ScanRegionsMisses | internal/client/client.go:386-432 | an id listed in no region stays outstanding |
| Client.ScanListingFound | internal/client/client.go:413-431 | an id found by filtering a listing gets the tags read from a load balancer of that listing with the id |
| Client.ScanListingKeeps | internal/client/client.go:413-431 | an id still outstanding after a listing was outstanding before and no load balancer of the listing has it |
| Client.ScanRegionsFound | internal/client/client.go:386-432 | an id the region loop finds gets the tags of a load balancer with the id in some region whose listing succeeded |
| Client.ScanRegionsLeftUnlisted | internal/client/client.go:386-432 | when the loop ends without a refused wait, an id still outstanding is listed in no region whose listing succeeded |
| Client.LookupFoundGetsListedTags | internal/client/client.go:413-439 | every newly cached id was requested and is answered with what is cached: the tags of a load balancer listed with the id, or, after a lookup without refusal, empty tags for an id no successful listing carries |
| Client.LookupAllCached | internal/client/client.go:366-377 | when every id is cached the answer is the cached tags, with no limiter use and no error |
| Client.LookupSuccessCoversIds | internal/client/client.go:357-442 | on success the answer holds exactly the requested ids, each cached with the returned tags; cached ids keep their cached tags; every other id gets the tags of a load balancer listed with it, or empty tags when no successful listing carries it |
| Client.LookupNotFoundIsEmpty | internal/client/client.go:434-439 | an uncached id listed in no region is answered and cached as empty tags |
| Client.LookupRateLimited | internal/client/client.go:393-395 | a refused wait returns a partial answer missing some requested id; every newly cached id is in it, with the tags of a load balancer listed with that id, so nothing is cached as empty |
| Client.LookupBounds | internal/client/client.go:357-442 | the tag cache only grows, and at most one token is spent per region |
| Client.SecondLookupIsCached | internal/client/client.go:357-442 | a repeat of a successful lookup is answered entirely from the cache with the same tags |
| Client.Client.CollectCachedTags | internal/client/client.go:366-372 | splits the ids into cached tags and exactly the uncached ids |
| Client.Client.FilterListing | internal/client/client.go:413-431 | scanning one listing matches the ScanListing step and caches every found id |
| Client.Client.ScanRegionHandles | internal/client/client.go:386-432 | the region loop matches ScanRegions, including the limiter's tokens and the rate-limit exit |
| Client.Client.CacheMissingAsEmpty | internal/client/client.go:434-439 | every outstanding id is added with empty tags to the result and to the tag cache |
| Client.Client.GetSLBInstanceTags | internal/client/client.go:357-442 | answer, error, tag cache and tokens are exactly LookupTags of the old cache and tokens |
| Client.Client.Close | internal/client/client.go:325-332 | closing the client stops the limiter's refill |
| Collector.NewConstMetric | internal/collector/collector.go:180-188 | a sample is built exactly when the label values match the descriptor's variable labels |
| Collector.FirstNonZeroIsFirst | internal/collector/collector.go:172-178 | the value is zero only when all candidates are zero, and otherwise it is the first non-zero candidate |
| Collector.SampleValue | internal/collector/collector.go:172-178 | the value is Average, Maximum or Sum, and is non-zero exactly when one of them is |
| Collector.SampleValueIsFirstNonZero | internal/collector/collector.go:172-178 | the value is the first non-zero of Average, Maximum, Sum |
| Collector.LabelValuesMatchDescriptor | internal/collector/collector.go:199-214 | the label values have the descriptor's length, and each value is the data point's field for that label |
| Collector.MetricDesc | internal/collector/collector.go:99-124 | a metric's descriptor has the service's label names and the global labels as constant labels |
| Collector.EmitGaugesStops | internal/collector/collector.go:171-193 | once a data point fails, later data points change nothing |
| Collector.GaugesFor | internal/collector/collector.go:171-193 | one sample per data point |
| Collector.EmitGaugesAligned | internal/collector/collector.go:171-193 | when every label vector fits, the loop yields one sample per data point and no error |
| Collector.EmitGaugesMisfit | internal/collector/collector.go:171-193 | a label vector that does not fit at position k stops the loop with an error and at most k samples |
| Collector.EmitGaugesLength | internal/collector/collector.go:171-193 | never more samples than data points |
| Collector.EmitGaugesLoop | internal/collector/collector.go:171-193 | the loop's error and samples are those of EmitGauges |
| Collector.CollectMetricOutcomes | internal/collector/collector.go:151-196 | fetch error: that error, no sample; empty Datapoints: success, no sample; Datapoints that do not decode: a decode error, no sample (161-164); unknown metric: error; otherwise one sample per data point |
| Collector.RunMetrics | internal/collector/redis.go:58-65 | the metric loop records one outcome per configured metric |
| Collector.RunMetricsSnoc | internal/collector/redis.go:58-65 | one more metric extends the run by its own outcome, from the state the earlier metrics left |
| Collector.RunMetricsExtend | internal/collector/redis.go:58-65 | one loop step appends its error and samples and adds one failure exactly when it failed |
| Collector.RunMetricsAttemptsEach | internal/collector/redis.go:58-65 | every metric is attempted, whatever the earlier ones returned |
| Collector.CountFailures | internal/collector/redis.go:58-65 | at most one failure per metric |
| Collector.CountFailuresSnoc | internal/collector/redis.go:60-62 | a failing metric adds exactly one to the count |
| Collector.CountFailuresPositive | internal/collector/redis.go:58-70 | the count is positive exactly when some metric failed |
| Collector.RunFailsIffSomeAttemptFails | internal/collector/redis.go:58-70 | a collector run errs exactly when some metric, attempted from the state its predecessors left, failed |
| Collector.AsGaugesAppend | internal/collector/collector.go:180-190 | sending two batches sends their concatenation |
| Collector.AggregateError | internal/collector/redis.go:58-70 | an error is reported exactly when some metric failed, carrying the failure count, between 1 and the number of metrics |
| Collector.BaseCollector.constructor | internal/collector/collector.go:63-96 | one descriptor per configured metric with the service's labels; zero scrape errors; the two internal descriptor names |
| Collector.BaseCollector.InitMetricDescriptors | internal/collector/collector.go:99-124 | adds one descriptor per configured metric and keeps the others |
| Collector.BaseCollector.Describe | internal/collector/collector.go:137-148 | sends every metric descriptor once, in iteration order, then the two internal descriptors |
| Collector.BaseCollector.CollectMetric | internal/collector/collector.go:151-196 | outcome and client state are MetricStep from the old state |
| Collector.BaseCollector.CollectMetrics | internal/collector/redis.go:58-65 | the loop ends in the RunMetrics state, sends its samples as gauges and returns its failure count |
| Collector.BaseCollector.RecordScrapeError | internal/collector/collector.go:217-219 | the scrape-error counter grows by one |
| Collector.BaseCollector.SetLastScrapeTime | internal/collector/collector.go:234-238 | the time read back is the one set |
| Redis.RedisCollector.constructor | internal/collector/redis.go:20-39 | a base collector for the "redis" service over the given client and section, with the given prefix and global labels in every metric descriptor |
| Redis.RedisCollector.Collect | internal/collector/redis.go:42-73 | disabled: nothing; enabled: the two internal metrics then every metric's gauges, one scrape error and the failure count when any metric failed, last scrape time set |
| Slb.InstanceIdSet | internal/collector/slb.go:92-104 | exactly the non-empty instance ids of the data points |
| Slb.BuildDynamicSlbLabelValues | internal/collector/slb.go:202-233 | one value per dynamic label |
| Slb.DynamicLabelsMatchDescriptor | internal/collector/slb.go:202-233 | positions 0-3 are the instance id, protocol, port and vip, as the base SLB labels; position 4 is the region or the primary region; positions 5-7 are the tags under keys "team", "Group" and "Name" |
| Slb.DynamicDesc | internal/collector/slb.go:121-133 | the SLB descriptor carries the dynamic label names |
| Slb.SlbEmitsOnePerDatapoint | internal/collector/slb.go:135-157 | a decoded response yields one enriched sample per data point and no error |
| Slb.SlbFailuresSendNothing | internal/collector/slb.go:77-90 | a fetch error or undecodable Datapoints is an error with no sample and no tag lookup, an empty Datapoints string is success with no sample, as in the base collector |
| Slb.LookupFailureDegrades | internal/collector/slb.go:106-119 | a failed lookup is not an error: every sample is sent with the primary region and empty tag labels |
| Slb.NoInstanceIdsNoLookup | internal/collector/slb.go:106-119 | without instance ids the lookup does not affect the outcome |
| Slb.RegionLabelFallsBack | internal/collector/slb.go:202-233 | the region label is the looked-up non-empty region, else the primary region |
| Slb.OnlyAllowListedTagsMatter | internal/collector/slb.go:202-233 | tag maps that agree on "team", "Group" and "Name" give the same labels |
| Slb.TeamLabelReadsLowercaseKey | internal/collector/slb.go:202-233 | the Team label comes from the key "team"; a "Team" key leaves it empty |
| Slb.SlbCollector.constructor | internal/collector/slb.go:21-40 | a base collector for the "slb" service, with the given prefix and global labels in every metric descriptor |
| Slb.SlbCollector.InstanceIds | internal/collector/slb.go:92-104 | the loop collects exactly InstanceIdSet |
| Slb.SlbCollector.CollectSlbMetric | internal/collector/slb.go:77-160 | outcome and client state are the SLB step from the old state |
| Slb.SlbCollector.CollectMetrics | internal/collector/slb.go:58-65 | the loop ends in the RunMetrics state of the SLB step and returns its failure count and gauges |
| Slb.SlbCollector.Collect | internal/collector/slb.go:43-74 | disabled: nothing; enabled: the internal metrics then all gauges, with one scrape error and the failure count when any metric failed |
| Exporter.EnabledServicesInFixedOrder | internal/exporter/exporter.go:87-130 | a service has a collector iff its section is enabled, in the order SLB, Redis, RDS |
| Exporter.CountCollectorErrors | internal/exporter/exporter.go:171-196 | at most one error per collector |
| Exporter.CountCollectorErrorsPositive | internal/exporter/exporter.go:192-203 | the error count is positive iff some enabled collector failed |
| Exporter.DisabledCollectorsDoNotCount | internal/exporter/exporter.go:171-176 | disabled collectors never affect the count |
| Exporter.ScrapeAccounting | internal/exporter/exporter.go:152-208 | one more scrape; up iff healthy; errors grow by the failed health check plus failed enabled collectors; last error 1 iff a collector failed; last time is now |
| Exporter.InternalDescs | internal/exporter/exporter.go:34-84 | the six internal descriptors with their names under the metric prefix |
| Exporter.EnumerationsCover | internal/exporter/exporter.go:144-148 | one iteration order per collector covers its descriptor map |
| Exporter.DescribeAll | internal/exporter/exporter.go:144-148 | the descriptors of every collector, in collector order |
| Exporter.Exporter.constructor | internal/exporter/exporter.go:34-84 | zero counters, the internal descriptors, and one collector per enabled service in fixed order, sharing the client, built with the configured prefix and global labels, each of the variant written for its service |
| Exporter.Exporter.InitCollectors | internal/exporter/exporter.go:87-130 | the collector list is one collector per enabled section, SLB then Redis then RDS, each of the variant written for its service, with its section, the shared client, the metric prefix and the global labels |
| Exporter.Exporter.Describe | internal/exporter/exporter.go:133-149 | the six internal descriptors, then each collector's descriptors in collector order |
| Exporter.Exporter.Collect | internal/exporter/exporter.go:152-217 | counters move by ScrapeBookkeeping of the health result and the enabled collectors' failures |
| Exporter.Exporter.Close | internal/exporter/exporter.go:220-229 | closing stops the client's limiter refill |
| Exporter.Exporter.GetCollectors | internal/exporter/exporter.go:232-239 | a fresh copy of the collector list |

## Left out

- Remote calls (CMS `DescribeMetricLast` and SLB `DescribeLoadBalancers`) are parameters. A per-region SLB client that cannot be built is skipped in `NewClient`; the model's `canConnect` predicate says which regions those are.
- Client.Client.constructor: the two fatal errors of `NewClient`, failing to build the CMS client or the primary-region SLB client (internal/client/client.go:137-139 and 146-148), are not modelled. The SDK constructors are outside this model, so the Dafny constructor always succeeds, and so does `Exporter.Exporter.constructor`.
- `GetSLBInstanceTagsWithRegion` is not part of this model. The SLB collector takes it as a function from a set of ids to tags and regions, so the order of the id slice it receives is not modelled.
- JSON decoding of `Datapoints` is a parameter returning `None` on a decode error.
- Client.Fetch: remote calls take no time in the model. A fetched response is cached with the same `now` as the cache read before the call, while Go stamps the entry with `time.Now()` in `MetricCache.Set` after the call returns (internal/client/client.go:91), so the model's entry expires earlier by the call's latency.
- `Client.Health` is the `healthOk` argument of `Exporter.Exporter.Collect`.
- Goroutines, mutexes and the fan-out of `Exporter.Collect` are not modelled. Each collector's error is given as the `failed` sequence. The metric samples that collectors send concurrently on the channel are not part of the exporter's model.
- The six internal metric sends at the end of `Exporter.Collect` are not modelled; only their counters are.
- The 120-second scrape timeout is not modelled: a context that ends before a wait gets its token is `Ctx.done`. The limiter's 5-second wait timeout is not timed either. While the refill runs, a tick comes within one second, so an empty bucket hands the caller the next tick's token. Only after `Close` does an empty bucket time out, and the model refuses that wait at once.
- Client.RateLimiter.Wait: other goroutines waiting at the same time may take the tick's token first. Concurrent waiters are not modelled.
- Histograms (`scrape_duration_seconds` observations, `RecordScrapeDuration`) are not modelled: durations are floating-point wall-clock time.
- RDS `Collect` and `collectMetricsConcurrently` (internal/collector/rds.go) are not modelled: they run one goroutine per metric. RDS appears through its base collector in the exporter's collector list.
- `buildSLBLabelValues` is not modelled: nothing calls it.
- The metric catalogues (`GetSLBMetrics`, `GetRedisMetrics`, `GetRDSMetrics`), `config.Load`, `SaveToFile`, `GetConfig`, the logger and the command-line entry point are not modelled. They are file, YAML and environment I/O or constant lists.
- Collector.NewConstMetric: checks only that the label count matches the descriptor. Prometheus's validation of metric and label names, and its rejection of label values that are not valid UTF-8, are not modelled: strings here are sequences of characters, not bytes.
- Numbers are unbounded integers and reals. Go's `float64` rounding and `int` width are not modelled.
