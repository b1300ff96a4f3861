/** The exporter (internal/exporter/exporter.go): the list of enabled
    service collectors and the bookkeeping of a scrape (up, scrape count,
    scrape errors, last-scrape gauges). The collectors' concurrent runs are
    given as their outcomes. */
module Exporter {
  import opened Wrappers
  import opened Config
  import opened Client
  import opened Collector
  import opened Slb
  import opened Redis

  /** One entry of the exporter's collector list. The RDS collector enters
      only through its base collector (its own collection loop is not part
      of this model). */
  datatype ServiceCollector =
    | ForSlb(slb: SlbCollector)
    | ForRedis(redis: RedisCollector)
    | ForRds(rds: BaseCollector)
  {
    function Base(): BaseCollector
    {
      match this
      case ForSlb(c) => c.base
      case ForRedis(c) => c.base
      case ForRds(b) => b
    }

    function Name(): string
    {
      Base().Name()
    }

    /** The service this variant of collector is written for. */
    function Kind(): string
    {
      match this
      case ForSlb(_) => SlbService
      case ForRedis(_) => RedisService
      case ForRds(_) => RdsService
    }

    function Enabled(): bool
    {
      Base().Enabled()
    }
  }

  function Names(collectors: seq<ServiceCollector>): (r: seq<string>)
    ensures |r| == |collectors| && forall i :: 0 <= i < |collectors| ==> r[i] == collectors[i].Name()
  {
    seq(|collectors|, i requires 0 <= i < |collectors| => collectors[i].Name())
  }

  function EnabledFlags(collectors: seq<ServiceCollector>): (r: seq<bool>)
    ensures |r| == |collectors| && forall i :: 0 <= i < |collectors| ==> r[i] == collectors[i].Enabled()
  {
    seq(|collectors|, i requires 0 <= i < |collectors| => collectors[i].Enabled())
  }

  /** The services whose section is enabled, in the order they are set up. */
  function EnabledServiceNames(services: ServicesConfig): seq<string>
  {
    (if services.slb.enabled then [SlbService] else [])
    + (if services.redis.enabled then [RedisService] else [])
    + (if services.rds.enabled then [RdsService] else [])
  }

  /** The configuration section of a service. */
  function Section(services: ServicesConfig, serviceName: string): ServiceConfig
  {
    if serviceName == SlbService then services.slb
    else if serviceName == RedisService then services.redis
    else services.rds
  }

  /** The set-up order: SLB, then Redis, then RDS. */
  function Rank(serviceName: string): nat
  {
    if serviceName == SlbService then 0 else if serviceName == RedisService then 1 else 2
  }

  /** The collector list names each enabled service exactly once, in the
      order SLB, Redis, RDS, and names no disabled one. */
  lemma EnabledServicesInFixedOrder(services: ServicesConfig)
    ensures var names := EnabledServiceNames(services);
      && (SlbService in names <==> services.slb.enabled)
      && (RedisService in names <==> services.redis.enabled)
      && (RdsService in names <==> services.rds.enabled)
      && (forall i, j :: 0 <= i < j < |names| ==> Rank(names[i]) < Rank(names[j]))
      && (forall i :: 0 <= i < |names| ==> Section(services, names[i]).enabled)
  {
  }

  /** The number of enabled collectors that reported an error. */
  function CountCollectorErrors(enabled: seq<bool>, failed: seq<bool>): (n: nat)
    requires |enabled| == |failed|
    ensures n <= |failed|
  {
    if |failed| == 0 then 0
    else
      var k := |failed| - 1;
      CountCollectorErrors(enabled[..k], failed[..k]) + (if enabled[k] && failed[k] then 1 else 0)
  }

  /** The count is positive exactly when some enabled collector failed. */
  lemma {:induction false} CountCollectorErrorsPositive(enabled: seq<bool>, failed: seq<bool>)
    requires |enabled| == |failed|
    ensures CountCollectorErrors(enabled, failed) > 0 <==> exists i :: 0 <= i < |failed| && enabled[i] && failed[i]
  {
    if |failed| > 0 {
      var k := |failed| - 1;
      CountCollectorErrorsPositive(enabled[..k], failed[..k]);
      if CountCollectorErrors(enabled[..k], failed[..k]) > 0 {
        var i :| 0 <= i < k && enabled[..k][i] && failed[..k][i];
        assert enabled[i] && failed[i];
      }
      if exists i :: 0 <= i < |failed| && enabled[i] && failed[i] {
        var i :| 0 <= i < |failed| && enabled[i] && failed[i];
        if i < k { assert enabled[..k][i] && failed[..k][i]; }
      }
    }
  }

  /** Disabled collectors never count, whatever their outcome. */
  lemma {:induction false} DisabledCollectorsDoNotCount(enabled: seq<bool>, failed: seq<bool>, failed': seq<bool>)
    requires |enabled| == |failed| == |failed'|
    requires forall i :: 0 <= i < |enabled| && enabled[i] ==> failed[i] == failed'[i]
    ensures CountCollectorErrors(enabled, failed) == CountCollectorErrors(enabled, failed')
  {
    if |failed| > 0 {
      var k := |failed| - 1;
      DisabledCollectorsDoNotCount(enabled[..k], failed[..k], failed'[..k]);
    }
  }

  /** The exporter's own gauges and counters. */
  datatype Counters = Counters(up: int, totalScrapes: nat, scrapeErrors: nat, lastScrapeTime: int, lastScrapeError: int)

  /** The counters after one scrape with the given health-check result and
      collector outcomes, finished at `now`, the Unix time in whole seconds. */
  function ScrapeBookkeeping(c: Counters, healthOk: bool, enabled: seq<bool>, failed: seq<bool>, now: int): Counters
    requires |enabled| == |failed|
  {
    var errors := CountCollectorErrors(enabled, failed);
    Counters(
      if healthOk then 1 else 0,
      c.totalScrapes + 1,
      c.scrapeErrors + (if healthOk then 0 else 1) + errors,
      now,
      if errors > 0 then 1 else 0)
  }

  /** A scrape counts once; `up` reports the health check; scrape errors grow
      by one for a failed health check plus one per failed enabled
      collector; the last-scrape-error gauge is 1 exactly when some enabled
      collector failed, so a failed health check alone ends at 0. */
  lemma ScrapeAccounting(c: Counters, healthOk: bool, enabled: seq<bool>, failed: seq<bool>, now: int)
    requires |enabled| == |failed|
    ensures var c' := ScrapeBookkeeping(c, healthOk, enabled, failed, now);
      && c'.totalScrapes == c.totalScrapes + 1
      && (c'.up == 1 <==> healthOk) && (c'.up == 0 <==> !healthOk)
      && c.scrapeErrors <= c'.scrapeErrors <= c.scrapeErrors + 1 + |failed|
      && (c'.scrapeErrors == c.scrapeErrors <==> healthOk && forall i :: 0 <= i < |failed| && enabled[i] ==> !failed[i])
      && (c'.lastScrapeError == 1 <==> exists i :: 0 <= i < |failed| && enabled[i] && failed[i])
      && (c'.lastScrapeError == 0 <==> forall i :: 0 <= i < |failed| && enabled[i] ==> !failed[i])
      && c'.lastScrapeTime == now
  {
    CountCollectorErrorsPositive(enabled, failed);
  }

  /** The names of the exporter's six internal metrics. */
  const InternalNames: seq<string> :=
    ["up", "scrapes_total", "scrape_errors_total", "scrape_duration_seconds",
     "last_scrape_timestamp_seconds", "last_scrape_error"]

  const InternalHelp: seq<string> :=
    ["Was the last scrape of Alicloud successful.",
     "Total number of times Alicloud was scraped for metrics.",
     "Total number of times an error occurred scraping Alicloud.",
     "Time spent on scraping Alicloud.",
     "Unix timestamp of the last scrape of Alicloud.",
     "Whether the last scrape of Alicloud resulted in an error (1 for error, 0 for success)."]

  /** The descriptors of the six internal metrics, in the order they are sent. */
  function InternalDescs(metricPrefix: string, globalLabels: map<string, string>): (r: seq<Desc>)
    ensures |r| == 6
    ensures forall i :: 0 <= i < 6 ==> r[i].fqName == BuildFQName(metricPrefix, "", InternalNames[i])
  {
    seq(6, i requires 0 <= i < 6 => Desc(BuildFQName(metricPrefix, "", InternalNames[i]), InternalHelp[i], [], globalLabels))
  }

  /** What a collector's Describe draws on: its metric descriptors and its
      two internal descriptors. */
  datatype DescView = DescView(metricDescs: map<string, Desc>, scrapeErrorsDesc: Desc, scrapeDurationDesc: Desc)

  /** A collector's descriptor view. */
  function ViewOf(b: BaseCollector): DescView
    reads b
  {
    DescView(b.metricDescs, b.scrapeErrorsDesc, b.scrapeDurationDesc)
  }

  /** The base collector of each entry, in list order. */
  function Bases(collectors: seq<ServiceCollector>): (r: seq<BaseCollector>)
    ensures |r| == |collectors| && forall i :: 0 <= i < |collectors| ==> r[i] == collectors[i].Base()
  {
    seq(|collectors|, i requires 0 <= i < |collectors| => collectors[i].Base())
  }

  /** The descriptor view of each collector, in list order. */
  ghost function Views(collectors: seq<ServiceCollector>): (r: seq<DescView>)
    reads set i | 0 <= i < |collectors| :: collectors[i].Base()
    ensures |r| == |collectors| && forall i :: 0 <= i < |collectors| ==> r[i] == ViewOf(collectors[i].Base())
  {
    seq(|collectors|, i requires 0 <= i < |collectors| reads set j | 0 <= j < |collectors| :: collectors[j].Base() =>
      ViewOf(collectors[i].Base()))
  }

  /** Every key each order lists has a descriptor in its collector. */
  predicate OrdersCover(views: seq<DescView>, orders: seq<seq<string>>)
  {
    && |orders| == |views|
    && forall i, k :: 0 <= i < |views| && k in orders[i] ==> k in views[i].metricDescs
  }

  /** Map orders that enumerate each collector's descriptor keys cover them. */
  lemma EnumerationsCover(collectors: seq<ServiceCollector>, orders: seq<seq<string>>)
    requires |orders| == |collectors|
    requires forall i :: 0 <= i < |collectors| ==> IsEnumeration(orders[i], collectors[i].Base().metricDescs.Keys)
    ensures OrdersCover(Views(collectors), orders)
  {
    var views := Views(collectors);
    forall i, k | 0 <= i < |views| && k in orders[i] ensures k in views[i].metricDescs {
      assert IsEnumeration(orders[i], collectors[i].Base().metricDescs.Keys);
    }
  }

  /** What the Describe calls of the first `n` collectors send, in list
      order, each listing its descriptors in the given map order. */
  function DescribedBy(views: seq<DescView>, orders: seq<seq<string>>, n: nat): seq<Desc>
    requires n <= |views| && OrdersCover(views, orders)
  {
    if n == 0 then []
    else
      var v := views[n - 1];
      DescribedBy(views, orders, n - 1)
      + DescriptorsInOrder(v.metricDescs, orders[n - 1]) + [v.scrapeErrorsDesc, v.scrapeDurationDesc]
  }

  /** The Describe calls of the collectors, in list order. */
  method DescribeAll(bases: seq<BaseCollector>, orders: seq<seq<string>>, ghost views: seq<DescView>)
    returns (descs: seq<Desc>)
    requires |bases| == |views| && OrdersCover(views, orders)
    requires forall j :: 0 <= j < |bases| ==> views[j] == ViewOf(bases[j])
    requires forall j :: 0 <= j < |bases| ==> IsEnumeration(orders[j], views[j].metricDescs.Keys)
    ensures descs == DescribedBy(views, orders, |views|)
  {
    descs := [];
    var i := 0;
    while i < |bases|
      invariant 0 <= i <= |bases|
      invariant forall j :: 0 <= j < |bases| ==> views[j] == ViewOf(bases[j])
      invariant descs == DescribedBy(views, orders, i)
    {
      var part := bases[i].Describe(orders[i]);
      assert DescribedBy(views, orders, i + 1) == DescribedBy(views, orders, i) + part;
      descs := descs + part;
      i := i + 1;
    }
  }

  class Exporter {
    const client: Client
    const config: Config
    const internalDescs: seq<Desc>
    var collectors: seq<ServiceCollector>
    var up: int
    var totalScrapes: nat
    var scrapeErrors: nat
    var lastScrapeTime: int
    var lastScrapeError: int

    function Snapshot(): Counters
      reads this
    {
      Counters(up, totalScrapes, scrapeErrors, lastScrapeTime, lastScrapeError)
    }

    /** New: the client for the Alicloud section, the six internal metrics
        at zero, then the collectors of the enabled services. */
    constructor (cfg: Config, canConnect: string -> bool)
      requires 0 < cfg.alicloud.rateLimit.requestsPerSecond <= Second && cfg.alicloud.rateLimit.burst >= 0
      ensures fresh(client) && client.Valid() && client.config == cfg.alicloud && config == cfg
      ensures internalDescs == InternalDescs(cfg.prometheus.metricPrefix, cfg.prometheus.globalLabels)
      ensures Snapshot() == Counters(0, 0, 0, 0, 0)
      ensures Names(collectors) == EnabledServiceNames(cfg.services)
      ensures forall i :: 0 <= i < |collectors| ==>
        var b := collectors[i].Base();
        fresh(b) && b.Valid() && b.client == client && b.config == Section(cfg.services, b.Name()) && b.Enabled()
        && b.metricPrefix == cfg.prometheus.metricPrefix && b.globalLabels == cfg.prometheus.globalLabels && collectors[i].Kind() == b.Name()
    {
      client := new Client(cfg.alicloud, canConnect);
      config := cfg;
      internalDescs := InternalDescs(cfg.prometheus.metricPrefix, cfg.prometheus.globalLabels);
      collectors := [];
      up, totalScrapes, scrapeErrors, lastScrapeTime, lastScrapeError := 0, 0, 0, 0, 0;
      new;
      InitCollectors();
    }

    /** initCollectors: a fresh list holding a collector for each enabled
        service, in the order SLB, Redis, RDS. */
    method InitCollectors()
      modifies this
      ensures Snapshot() == old(Snapshot())
      ensures Names(collectors) == EnabledServiceNames(config.services)
      ensures forall i :: 0 <= i < |collectors| ==>
        var b := collectors[i].Base();
        fresh(b) && b.Valid() && b.client == client && b.config == Section(config.services, b.Name()) && b.Enabled()
        && b.metricPrefix == config.prometheus.metricPrefix && b.globalLabels == config.prometheus.globalLabels && collectors[i].Kind() == b.Name()
    {
      var services := config.services;
      var globalLabels := config.prometheus.globalLabels;
      var metricPrefix := config.prometheus.metricPrefix;
      var list: seq<ServiceCollector> := [];
      if services.slb.enabled {
        var slbCollector := new SlbCollector(client, services.slb, globalLabels, metricPrefix);
        list := [ForSlb(slbCollector)];
      }
      assert Names(list) == (if services.slb.enabled then [SlbService] else []);
      if services.redis.enabled {
        var redisCollector := new RedisCollector(client, services.redis, globalLabels, metricPrefix);
        list := list + [ForRedis(redisCollector)];
      }
      assert Names(list) == (if services.slb.enabled then [SlbService] else [])
                            + (if services.redis.enabled then [RedisService] else []);
      if services.rds.enabled {
        var rdsCollector := new BaseCollector(client, services.rds, RdsService, globalLabels, metricPrefix);
        list := list + [ForRds(rdsCollector)];
      }
      collectors := list;
    }

    /** Sends the six internal descriptors, then each collector's
        descriptors in list order. */
    method Describe(orders: seq<seq<string>>) returns (descs: seq<Desc>)
      requires |orders| == |collectors|
      requires forall i :: 0 <= i < |collectors| ==> IsEnumeration(orders[i], collectors[i].Base().metricDescs.Keys)
      ensures OrdersCover(Views(collectors), orders)
      ensures descs == internalDescs + DescribedBy(Views(collectors), orders, |collectors|)
    {
      ghost var views := Views(collectors);
      EnumerationsCover(collectors, orders);
      var described := DescribeAll(Bases(collectors), orders, views);
      descs := internalDescs + described;
      assert Views(collectors) == views;
    }

    /** One scrape: count it, record the health check, run the enabled
        collectors (whose outcomes `failed` gives, one per list entry), count
        their errors, and stamp the end time `now`, in Unix seconds. */
    method Collect(healthOk: bool, failed: seq<bool>, now: int)
      requires |failed| == |collectors|
      modifies this
      ensures collectors == old(collectors)
      ensures Snapshot() == ScrapeBookkeeping(old(Snapshot()), healthOk, EnabledFlags(collectors), failed, now)
    {
      totalScrapes := totalScrapes + 1;
      if !healthOk {
        up := 0;
        scrapeErrors := scrapeErrors + 1;
        lastScrapeError := 1;
      } else {
        up := 1;
        lastScrapeError := 0;
      }
      ghost var enabled := EnabledFlags(collectors);
      var errorCount := 0;
      var i := 0;
      while i < |collectors|
        invariant 0 <= i <= |collectors|
        invariant errorCount == CountCollectorErrors(enabled[..i], failed[..i])
      {
        assert enabled[..i + 1][..i] == enabled[..i] && failed[..i + 1][..i] == failed[..i];
        if collectors[i].Enabled() && failed[i] {
          errorCount := errorCount + 1;
        }
        i := i + 1;
      }
      assert enabled[..i] == enabled && failed[..i] == failed;
      if errorCount > 0 {
        scrapeErrors := scrapeErrors + errorCount;
        lastScrapeError := 1;
      } else {
        lastScrapeError := 0;
      }
      lastScrapeTime := now;
    }

    /** Stops the client's rate limiter. */
    method Close()
      modifies client.limiter
      ensures !client.limiter.refilling && client.limiter.tokens == old(client.limiter.tokens)
    {
      client.Close();
    }

    /** A fresh array holding the collector list: changing it leaves the
        exporter's list as it is. */
    method GetCollectors() returns (copy: array<ServiceCollector>)
      ensures fresh(copy) && copy[..] == collectors
    {
      var current := collectors;
      copy := new ServiceCollector[|current|](i requires 0 <= i < |current| => current[i]);
    }
  }
}
