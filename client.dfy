/** The API client layer (internal/client/client.go): a TTL cache of metric
    responses, a cache of load-balancer tags, a token-bucket rate limiter, and
    the client operations built on them.

    Time is an explicit `now` in nanoseconds (Go's time.Duration unit). The
    CMS and SLB remote calls are function-typed parameters: the answer the
    remote side would give to a request. */
module Client {
  import opened Wrappers
  import opened Config

  const Second: int := 1_000_000_000
  /** TTL of the metric response cache built by NewClient. */
  const MetricCacheTtl: int := 30 * Second
  /** TTL given to the tag cache by NewClient; the tag cache never reads it. */
  const TagCacheTtl: int := 5 * 60 * Second

  type Tags = map<string, string>

  /** The part of a DescribeMetricLast response the exporter reads: its
      datapoints, a JSON array carried as a string. */
  datatype Response = Response(requestId: string, datapoints: string)

  /** A DescribeMetricLast request; `dimensions` is unset unless the caller
      passed a non-empty dimension map. */
  datatype MetricRequest = MetricRequest(namespace: string, metricName: string, dimensions: Option<string>)

  /** A cached response, when it was stored and for how long it is fresh. */
  datatype CacheEntry = CacheEntry(data: Response, timestamp: int, ttl: int)

  /** An entry is stale once strictly more than its TTL has elapsed. */
  predicate IsExpired(e: CacheEntry, now: int)
  {
    now - e.timestamp > e.ttl
  }

  /** An entry aged exactly its TTL is still served; one tick later it is not. */
  lemma ExpiryBoundary(d: Response, t: int, ttl: int)
    ensures !IsExpired(CacheEntry(d, t, ttl), t + ttl)
    ensures IsExpired(CacheEntry(d, t, ttl), t + ttl + 1)
  {
  }

  /** What `MetricCache.Get` answers for `key` at time `now`. */
  function CachedResponse(entries: map<string, CacheEntry>, key: string, now: int): (r: Option<Response>)
    ensures r.Some? <==> key in entries && !IsExpired(entries[key], now)
    ensures r.Some? ==> r.value == entries[key].data
  {
    if key !in entries || IsExpired(entries[key], now) then None else Some(entries[key].data)
  }

  /** The entries `MetricCache.Clear` keeps: exactly the unexpired ones. */
  function Unexpired(entries: map<string, CacheEntry>, now: int): (r: map<string, CacheEntry>)
    ensures forall k :: k in r <==> k in entries && !IsExpired(entries[k], now)
    ensures forall k :: k in r ==> r[k] == entries[k]
  {
    map k | k in entries && !IsExpired(entries[k], now) :: entries[k]
  }

  /** A value stored at time `t` is read back until its TTL has elapsed and
      not after; other keys read as they did before. */
  lemma GetAfterSet(entries: map<string, CacheEntry>, key: string, d: Response, t: int, ttl: int, now: int, other: string)
    requires other != key
    ensures CachedResponse(entries[key := CacheEntry(d, t, ttl)], key, now)
            == if now - t <= ttl then Some(d) else None
    ensures CachedResponse(entries[key := CacheEntry(d, t, ttl)], other, now)
            == CachedResponse(entries, other, now)
  {
  }

  /** Sweeping is invisible to readers: at the sweep time and at every later
      time, every key reads the same from the swept map as from the original. */
  lemma SweepPreservesReads(entries: map<string, CacheEntry>, sweptAt: int, now: int, key: string)
    requires sweptAt <= now
    ensures CachedResponse(Unexpired(entries, sweptAt), key, now) == CachedResponse(entries, key, now)
  {
    if key in entries && IsExpired(entries[key], sweptAt) {
      assert IsExpired(entries[key], now);
    }
  }

  /** TTL cache of metric responses keyed by "namespace:metric". Expired
      entries read as absent but stay until `Clear` sweeps them. */
  class MetricCache {
    var entries: map<string, CacheEntry>
    const ttl: int

    constructor (ttl: int)
      ensures entries == map[] && this.ttl == ttl
    {
      entries := map[];
      this.ttl := ttl;
    }

    method Get(key: string, now: int) returns (r: Option<Response>)
      ensures r == CachedResponse(entries, key, now)
    {
      if key !in entries || IsExpired(entries[key], now) {
        return None;
      }
      return Some(entries[key].data);
    }

    /** Replaces any entry for `key` wholesale, stamped with `now` and the cache's TTL. */
    method Set(key: string, data: Response, now: int)
      modifies this
      ensures entries == old(entries)[key := CacheEntry(data, now, ttl)]
    {
      entries := entries[key := CacheEntry(data, now, ttl)];
    }

    /** Deletes the expired entries, visiting the keys in any order. */
    method Clear(now: int)
      modifies this
      ensures entries == Unexpired(old(entries), now)
    {
      var pending := entries.Keys;
      while pending != {}
        invariant pending <= old(entries).Keys
        invariant entries == map k | k in old(entries) && (k in pending || !IsExpired(old(entries)[k], now)) :: old(entries)[k]
        decreases pending
      {
        var key :| key in pending;
        if IsExpired(entries[key], now) {
          entries := entries - {key};
        }
        pending := pending - {key};
      }
    }
  }

  /** Cache of load-balancer tags keyed by instance id. Its TTL is stored
      but never consulted, so an entry, once set, is served forever. */
  class TagCache {
    var entries: map<string, Tags>
    const ttl: int

    constructor (ttl: int)
      ensures entries == map[] && this.ttl == ttl
    {
      entries := map[];
      this.ttl := ttl;
    }

    method Get(key: string) returns (r: Option<Tags>)
      ensures r.Some? <==> key in entries
      ensures r.Some? ==> r.value == entries[key]
    {
      if key in entries {
        return Some(entries[key]);
      }
      return None;
    }

    method Set(key: string, tags: Tags)
      modifies this
      ensures entries == old(entries)[key := tags]
    {
      entries := entries[key := tags];
    }
  }

  /** The caller's context when it waits for a token: whether it is already
      done (cancelled or past its deadline), and, when it is done while a
      token is also available, whether Go's `select` happens to take the token. */
  datatype Ctx = Ctx(done: bool, tokenWinsRace: bool)

  /** Whether a wait gets a token. A held token is taken at once, unless the
      context is already done and wins the race. An empty bucket that is
      still refilling hands the next tick's token to the waiting caller: a
      tick comes at least once a second, before the five-second timeout, so
      the wait succeeds unless the context ends first. Once the refill has
      stopped, a wait on an empty bucket runs into the timeout. */
  predicate Admits(tokens: nat, refilling: bool, ctx: Ctx)
  {
    if tokens > 0 then !ctx.done || ctx.tokenWinsRace
    else refilling && !ctx.done
  }

  /** Token count after a successful wait: a held token is spent; a token
      handed over by a tick never enters the bucket. */
  function Take(tokens: nat): nat
  {
    if tokens > 0 then tokens - 1 else 0
  }

  /** Token count after one refill tick: a full bucket drops the tick. */
  function AfterTick(tokens: nat, burst: nat, refilling: bool): nat
  {
    if refilling && tokens < burst then tokens + 1 else tokens
  }

  /** Token bucket of capacity `burst`, refilled one token per tick. Ticks
      between waits are `Tick` calls; the tick that serves a caller waiting
      on an empty bucket is part of `Wait`. */
  class RateLimiter {
    var tokens: nat
    const burst: nat
    const requests: nat
    /** False once `Close` has stopped the refill ticker. */
    var refilling: bool

    ghost predicate Valid()
      reads this
    {
      tokens <= burst
    }

    /** Go computes the tick period as one second divided by the rate, so
        the rate must be positive and at most one per nanosecond. */
    constructor (requestsPerSecond: int, burst: nat)
      requires 0 < requestsPerSecond <= Second
      ensures Valid() && refilling
      ensures tokens == burst && this.burst == burst && requests == requestsPerSecond
    {
      this.burst := burst;
      requests := requestsPerSecond;
      tokens := 0;
      refilling := true;
      new;
      var i := 0;
      while i < burst
        invariant 0 <= i <= burst && tokens == i && refilling
      {
        tokens := tokens + 1;
        i := i + 1;
      }
    }

    /** One tick of the refill goroutine. */
    method Tick()
      requires Valid()
      modifies this
      ensures Valid() && refilling == old(refilling)
      ensures tokens == AfterTick(old(tokens), burst, refilling)
    {
      if refilling && tokens < burst {
        tokens := tokens + 1;
      }
    }

    /** Takes one token, from the bucket or from the next tick, or fails. */
    method Wait(ctx: Ctx) returns (ok: bool)
      requires Valid()
      modifies this
      ensures Valid() && refilling == old(refilling)
      ensures ok == Admits(old(tokens), refilling, ctx)
      ensures tokens == if ok then Take(old(tokens)) else old(tokens)
    {
      if tokens > 0 {
        if !ctx.done || ctx.tokenWinsRace {
          tokens := tokens - 1;
          return true;
        }
        return false;
      }
      return refilling && !ctx.done;
    }

    /** Stops the refill; the tokens already held stay available. */
    method Close()
      modifies this
      ensures !refilling && tokens == old(tokens)
    {
      refilling := false;
    }
  }

  /** A fresh limiter admits its first `burst` waits from the bucket. The
      bucket is then empty: a caller whose context is already done gets
      nothing even when its `select` would take a ready token, while a live
      caller is served by the next tick (with a burst of zero, every live
      caller is). */
  method FullBucketAdmitsBurst(requestsPerSecond: int, burst: nat)
    returns (admitted: seq<bool>, cancelledAfter: bool, liveAfter: bool)
    requires 0 < requestsPerSecond <= Second
    ensures |admitted| == burst && forall i :: 0 <= i < burst ==> admitted[i]
    ensures !cancelledAfter && liveAfter
  {
    var rl := new RateLimiter(requestsPerSecond, burst);
    admitted := [];
    var live := Ctx(false, false);
    while |admitted| < burst
      invariant |admitted| <= burst && rl.Valid() && rl.burst == burst && rl.refilling
      invariant rl.tokens == burst - |admitted|
      invariant forall i :: 0 <= i < |admitted| ==> admitted[i]
    {
      var ok := rl.Wait(live);
      admitted := admitted + [ok];
    }
    cancelledAfter := rl.Wait(Ctx(true, true));
    liveAfter := rl.Wait(live);
  }

  /** Why a client call failed. */
  datatype FetchError = RateLimiterWait | RemoteCall(reason: string)

  /** The state a fetch reads and changes: the metric cache, the token count,
      and whether the limiter is still refilling. */
  datatype ClientState = ClientState(entries: map<string, CacheEntry>, tokens: nat, refilling: bool)

  /** The remote CMS call: the response it would give to each request. */
  type Describe = MetricRequest -> Result<Response, string>

  /** The key under which a metric's response is cached. */
  function CacheKey(namespace: string, metricName: string): string
  {
    namespace + ":" + metricName
  }

  /** In a key whose namespace holds no colon, the first colon ends the namespace. */
  lemma SeparatorPosition(namespace: string, metricName: string)
    requires ':' !in namespace
    ensures CacheKey(namespace, metricName)[|namespace|] == ':'
    ensures forall i :: 0 <= i < |namespace| ==> CacheKey(namespace, metricName)[i] != ':'
  {
    var k := CacheKey(namespace, metricName);
    forall i | 0 <= i < |namespace| ensures k[i] != ':' {
      assert k[i] == namespace[i];
    }
  }

  /** Distinct (namespace, metric) pairs get distinct keys, as long as the
      namespace holds no colon (CMS namespaces such as acs_slb_dashboard do not). */
  lemma {:induction false} CacheKeyInjective(ns1: string, m1: string, ns2: string, m2: string)
    requires ':' !in ns1 && ':' !in ns2
    requires CacheKey(ns1, m1) == CacheKey(ns2, m2)
    ensures ns1 == ns2 && m1 == m2
  {
    var k := CacheKey(ns1, m1);
    SeparatorPosition(ns1, m1);
    SeparatorPosition(ns2, m2);
    if |ns1| == |ns2| {
      assert ns1 == k[..|ns1|] == ns2;
      assert m1 == k[|ns1| + 1..] == m2;
    }
  }

  /** `GetMetricData` as a function of the state it starts from: a fresh
      cache entry answers without a token or a remote call; otherwise one
      token is taken and the remote answer is returned, and cached only on
      success. */
  function Fetch(st: ClientState, ttl: int, namespace: string, metricName: string,
                 now: int, ctx: Ctx, describe: Describe): (Result<Response, FetchError>, ClientState)
  {
    var key := CacheKey(namespace, metricName);
    var hit := CachedResponse(st.entries, key, now);
    if hit.Some? then (Ok(hit.value), st)
    else if !Admits(st.tokens, st.refilling, ctx) then (Err(RateLimiterWait), st)
    else
      var spent := st.(tokens := Take(st.tokens));
      match describe(MetricRequest(namespace, metricName, None))
      case Err(reason) => (Err(RemoteCall(reason)), spent)
      case Ok(resp) => (Ok(resp), spent.(entries := st.entries[key := CacheEntry(resp, now, ttl)]))
  }

  /** The outcomes of a fetch: a hit touches neither the limiter nor the
      remote side; on a miss a refused wait changes nothing, and an admitted
      one spends a token and asks for the metric without dimensions,
      answering with the remote result; a failure leaves the cache as it
      was; a success is stored under the metric's key and served back while
      its TTL has not elapsed. */
  lemma FetchOutcomes(st: ClientState, ttl: int, namespace: string, metricName: string,
                      now: int, ctx: Ctx, describe: Describe)
    ensures var (r, st') := Fetch(st, ttl, namespace, metricName, now, ctx, describe);
            var key := CacheKey(namespace, metricName);
            && (CachedResponse(st.entries, key, now).Some? ==>
                  r == Ok(CachedResponse(st.entries, key, now).value) && st' == st)
            && (CachedResponse(st.entries, key, now).None? && !Admits(st.tokens, st.refilling, ctx) ==>
                  r == Err(RateLimiterWait) && st' == st)
            && (CachedResponse(st.entries, key, now).None? && Admits(st.tokens, st.refilling, ctx) ==>
                  st'.tokens == Take(st.tokens)
                  && r == match describe(MetricRequest(namespace, metricName, None))
                          case Ok(resp) => Ok(resp)
                          case Err(reason) => Err(RemoteCall(reason)))
            && (r.Err? ==> st'.entries == st.entries)
            && (r.Ok? && CachedResponse(st.entries, key, now).None? ==>
                  st'.tokens == Take(st.tokens) && st'.refilling == st.refilling
                  && st'.entries == st.entries[key := CacheEntry(r.value, now, ttl)]
                  && (ttl >= 0 ==> CachedResponse(st'.entries, key, now) == Some(r.value)))
  {
  }

  /** The `Dimensions` request field: a JSON array of one
      {"instanceId":"<value>"} object per value, in the given order. */
  function DimensionItem(value: string): string
  {
    "{\"instanceId\":\"" + value + "\"}"
  }

  /** Items separated by commas, as the builder appends them. */
  function JoinWithCommas(items: seq<string>): string
  {
    if |items| == 0 then ""
    else if |items| == 1 then items[0]
    else JoinWithCommas(items[..|items| - 1]) + "," + items[|items| - 1]
  }

  function DimensionItems(values: seq<string>): (r: seq<string>)
    ensures |r| == |values|
    ensures forall i :: 0 <= i < |values| ==> r[i] == DimensionItem(values[i])
  {
    seq(|values|, i requires 0 <= i < |values| => DimensionItem(values[i]))
  }

  /** Every item, and nothing else, sits between the brackets: the joined
      list of n items is n items plus n - 1 commas long. */
  lemma {:induction false} JoinLength(items: seq<string>, lens: nat)
    requires |items| > 0
    requires lens == SumLengths(items)
    ensures |JoinWithCommas(items)| == lens + |items| - 1
  {
    if |items| > 1 {
      var front := items[..|items| - 1];
      assert SumLengths(items) == SumLengths(front) + |items[|items| - 1]| by {
        SumLengthsSnoc(front, items[|items| - 1]);
        assert front + [items[|items| - 1]] == items;
      }
      JoinLength(front, SumLengths(front));
    }
  }

  /** Where item `i` starts in the joined text: after the earlier items
      and one comma for each of them. */
  function ItemStart(items: seq<string>, i: nat): nat
    requires i <= |items|
  {
    SumLengths(items[..i]) + i
  }

  /** Each item sits, unchanged, at its start position in the joined text,
      and every item but the last is followed by a comma. */
  lemma {:induction false} JoinedItemAt(items: seq<string>, i: nat)
    requires i < |items|
    ensures ItemStart(items, i) + |items[i]| <= |JoinWithCommas(items)|
    ensures JoinWithCommas(items)[ItemStart(items, i)..ItemStart(items, i) + |items[i]|] == items[i]
    ensures i < |items| - 1 ==> ItemStart(items, i) + |items[i]| < |JoinWithCommas(items)|
    ensures i < |items| - 1 ==> JoinWithCommas(items)[ItemStart(items, i) + |items[i]|] == ','
  {
    var n := |items|;
    if n > 1 {
      var front := items[..n - 1];
      var joined := JoinWithCommas(front);
      assert JoinWithCommas(items) == joined + "," + items[n - 1];
      JoinLength(front, SumLengths(front));
      if i == n - 1 {
        assert items[..i] == front;
      } else {
        assert items[..i] == front[..i];
        JoinedItemAt(front, i);
        if i == n - 2 {
          assert front[..i] + [front[i]] == front;
          SumLengthsSnoc(front[..i], front[i]);
        }
      }
    }
  }

  function SumLengths(items: seq<string>): nat
  {
    if |items| == 0 then 0 else |items[0]| + SumLengths(items[1..])
  }

  lemma {:induction false} SumLengthsSnoc(items: seq<string>, x: string)
    ensures SumLengths(items + [x]) == SumLengths(items) + |x|
  {
    if |items| > 0 {
      assert (items + [x])[1..] == items[1..] + [x];
      SumLengthsSnoc(items[1..], x);
    }
  }

  /** The values of a dimension map in the order `order` visits its keys. */
  function ValuesInOrder(dimensions: map<string, string>, order: seq<string>): (r: seq<string>)
    requires forall i :: 0 <= i < |order| ==> order[i] in dimensions
    ensures |r| == |order| && forall i :: 0 <= i < |order| ==> r[i] == dimensions[order[i]]
  {
    seq(|order|, i requires 0 <= i < |order| => dimensions[order[i]])
  }

  /** The bracketed, comma-separated list of dimension items. */
  function DimensionsJson(values: seq<string>): string
  {
    "[" + JoinWithCommas(DimensionItems(values)) + "]"
  }

  /** One more item on the bracketed list: the opening bracket alone, or a
      comma after the items before it. */
  lemma JoinExtend(items: seq<string>, i: nat)
    requires i < |items|
    ensures "[" + JoinWithCommas(items[..i + 1]) == (if i == 0 then "[" else "[" + JoinWithCommas(items[..i]) + ",") + items[i]
  {
    assert items[..i + 1][..i] == items[..i];
  }

  /** The dimension string built from a dimension map visited in `order`
      (Go's map iteration order): only the values are used, the keys are
      ignored, and an empty map leaves the field unset. */
  method BuildDimensions(dimensions: map<string, string>, order: seq<string>) returns (r: Option<string>)
    requires IsEnumeration(order, dimensions.Keys)
    ensures |dimensions| == 0 <==> r.None?
    ensures r.Some? ==> r.value == DimensionsJson(ValuesInOrder(dimensions, order))
  {
    if |order| == 0 {
      assert dimensions.Keys == {};
      return None;
    }
    ghost var values := ValuesInOrder(dimensions, order);
    ghost var items := DimensionItems(values);
    var json := "[";
    var first := true;
    var i := 0;
    while i < |order|
      invariant 0 <= i <= |order|
      invariant first <==> i == 0
      invariant json == "[" + JoinWithCommas(items[..i])
    {
      if !first {
        json := json + ",";
      }
      json := json + DimensionItem(dimensions[order[i]]);
      first := false;
      JoinExtend(items, i);
      i := i + 1;
    }
    assert items[..i] == items;
    json := json + "]";
    assert |dimensions| > 0 by {
      assert order[0] in dimensions;
    }
    return Some(json);
  }

  /** A tag as DescribeLoadBalancers lists it. */
  datatype Tag = Tag(key: string, value: string)

  /** A load balancer from a DescribeLoadBalancers listing: its id and tags. */
  datatype LoadBalancer = LoadBalancer(id: string, tags: seq<Tag>)

  /** The listing of one region: every load balancer in it, or a failure. */
  type ListLoadBalancers = string -> Result<seq<LoadBalancer>, string>

  /** The tag map built from a tag list: a later tag overrides an earlier one with the same key. */
  function TagMap(tags: seq<Tag>): Tags
  {
    if |tags| == 0 then map[]
    else TagMap(tags[..|tags| - 1])[tags[|tags| - 1].key := tags[|tags| - 1].value]
  }

  /** A key is in the tag map exactly when some tag carries it. */
  lemma {:induction false} TagMapKeys(tags: seq<Tag>, k: string)
    ensures k in TagMap(tags) <==> exists i :: 0 <= i < |tags| && tags[i].key == k
  {
    if |tags| > 0 {
      var front := tags[..|tags| - 1];
      TagMapKeys(front, k);
      if exists i :: 0 <= i < |front| && front[i].key == k {
        var i :| 0 <= i < |front| && front[i].key == k;
        assert tags[i] == front[i];
      }
      if exists i :: 0 <= i < |tags| && tags[i].key == k {
        var i :| 0 <= i < |tags| && tags[i].key == k;
        if i < |tags| - 1 { assert front[i] == tags[i]; }
      }
    }
  }

  /** A key of the tag map maps to the value of the last tag carrying it. */
  lemma {:induction false} TagMapIsLastWins(tags: seq<Tag>, k: string)
    requires k in TagMap(tags)
    ensures exists i :: 0 <= i < |tags| && tags[i].key == k && TagMap(tags)[k] == tags[i].value
                        && forall j :: i < j < |tags| ==> tags[j].key != k
  {
    var last := |tags| - 1;
    if tags[last].key == k {
      assert TagMap(tags)[k] == tags[last].value;
    } else {
      var front := tags[..last];
      assert TagMap(tags)[k] == TagMap(front)[k];
      TagMapIsLastWins(front, k);
      var i :| 0 <= i < |front| && front[i].key == k && TagMap(front)[k] == front[i].value
               && forall j :: i < j < |front| ==> front[j].key != k;
      assert tags[i] == front[i];
      assert forall j :: i < j < |tags| ==> tags[j].key != k by {
        forall j | i < j < |tags| ensures tags[j].key != k {
          if j < last { assert tags[j] == front[j]; }
        }
      }
    }
  }

  /** Reads a load balancer's tag list into a map, one tag at a time. */
  method ExtractTags(tags: seq<Tag>) returns (m: Tags)
    ensures m == TagMap(tags)
  {
    m := map[];
    var i := 0;
    while i < |tags|
      invariant 0 <= i <= |tags|
      invariant m == TagMap(tags[..i])
    {
      m := m[tags[i].key := tags[i].value];
      assert tags[..i + 1][..i] == tags[..i];
      i := i + 1;
    }
    assert tags[..i] == tags;
  }

  /** Progress of the tag lookup: tags found remotely so far, and the ids
      still outstanding. */
  datatype TagScan = TagScan(found: map<string, Tags>, outstanding: set<string>)

  /** Filters one region's listing against the outstanding ids: each
      outstanding id met gets its tags and stops being outstanding. */
  function ScanListing(s: TagScan, lbs: seq<LoadBalancer>): TagScan
  {
    if |lbs| == 0 then s
    else ScanOne(ScanListing(s, lbs[..|lbs| - 1]), lbs[|lbs| - 1])
  }

  /** One load balancer of a listing against the outstanding ids. */
  function ScanOne(s: TagScan, lb: LoadBalancer): TagScan
  {
    if lb.id in s.outstanding
    then TagScan(s.found[lb.id := TagMap(lb.tags)], s.outstanding - {lb.id})
    else s
  }

  /** Where the region loop ends: the scan, the token count, and whether the
      rate limiter refused a wait. */
  datatype RegionScan = RegionScan(scan: TagScan, tokens: nat, rateLimited: bool)

  /** The region loop: stop once nothing is outstanding; otherwise take a
      token per region (a refusal ends the lookup), and filter the region's
      listing unless the listing failed, in which case the region is skipped. */
  function ScanRegions(s: TagScan, tokens: nat, refilling: bool, regions: seq<string>, ctx: Ctx, list: ListLoadBalancers): RegionScan
    decreases |regions|
  {
    if |regions| == 0 || s.outstanding == {} then RegionScan(s, tokens, false)
    else if !Admits(tokens, refilling, ctx) then RegionScan(s, tokens, true)
    else match list(regions[0])
      case Err(_) => ScanRegions(s, Take(tokens), refilling, regions[1..], ctx, list)
      case Ok(lbs) => ScanRegions(ScanListing(s, lbs), Take(tokens), refilling, regions[1..], ctx, list)
  }

  /** The requested ids found in the tag cache, with their cached tags. */
  function CachedTags(cache: map<string, Tags>, ids: seq<string>): (r: map<string, Tags>)
    ensures forall id :: id in r <==> id in ids && id in cache
    ensures forall id :: id in r ==> r[id] == cache[id]
  {
    map id | id in ids && id in cache :: cache[id]
  }

  function UncachedIds(cache: map<string, Tags>, ids: seq<string>): (r: set<string>)
    ensures forall id :: id in r <==> id in ids && id !in cache
  {
    set id | id in ids && id !in cache
  }

  /** An empty tag map for each of the given ids. */
  function EmptyTags(ids: set<string>): (r: map<string, Tags>)
    ensures r.Keys == ids
    ensures forall id :: id in r ==> r[id] == map[]
  {
    map id | id in ids :: map[]
  }

  /** Adding an id to the emptied set is setting it to the empty map. */
  lemma EmptyTagsInsert(m: map<string, Tags>, ids: set<string>, id: string)
    ensures m + EmptyTags(ids + {id}) == (m + EmptyTags(ids))[id := map[]]
  {
  }

  /** Updating a union at a key is updating its right operand there. */
  lemma UpdateAfterUnion(a: map<string, Tags>, b: map<string, Tags>, key: string, value: Tags)
    ensures (a + b)[key := value] == a + b[key := value]
  {
  }

  /** What `GetSLBInstanceTags` returns, the tag cache it leaves and the tokens left. */
  datatype TagLookup = TagLookup(tags: map<string, Tags>, err: Option<FetchError>, cache: map<string, Tags>, tokens: nat)

  /** `GetSLBInstanceTags` as a function of the tag cache and token count it starts from. */
  function LookupTags(cache: map<string, Tags>, tokens: nat, refilling: bool, ids: seq<string>, regions: seq<string>,
                      ctx: Ctx, list: ListLoadBalancers): TagLookup
  {
    if |ids| == 0 then TagLookup(map[], None, cache, tokens)
    else
      var cached := CachedTags(cache, ids);
      var uncached := UncachedIds(cache, ids);
      if uncached == {} then TagLookup(cached, None, cache, tokens)
      else
        var rs := ScanRegions(TagScan(map[], uncached), tokens, refilling, regions, ctx, list);
        if rs.rateLimited
        then TagLookup(cached + rs.scan.found, Some(RateLimiterWait), cache + rs.scan.found, rs.tokens)
        else
          var empties := EmptyTags(rs.scan.outstanding);
          TagLookup(cached + rs.scan.found + empties, None, cache + rs.scan.found + empties, rs.tokens)
  }

  /** Filtering a listing moves ids from outstanding to found and no other way. */
  lemma {:induction false} ScanListingPartition(s: TagScan, lbs: seq<LoadBalancer>)
    requires s.found.Keys !! s.outstanding
    ensures var s' := ScanListing(s, lbs);
            && s'.found.Keys !! s'.outstanding
            && s'.found.Keys + s'.outstanding == s.found.Keys + s.outstanding
            && s'.outstanding <= s.outstanding
            && (forall id :: id in s.found ==> id in s'.found && s'.found[id] == s.found[id])
  {
    if |lbs| > 0 {
      ScanListingPartition(s, lbs[..|lbs| - 1]);
    }
  }

  /** The region loop keeps found and outstanding a partition of the ids it
      started with, and a refusal by the limiter leaves some id outstanding. */
  lemma {:induction false} ScanRegionsPartition(s: TagScan, tokens: nat, refilling: bool, regions: seq<string>, ctx: Ctx, list: ListLoadBalancers)
    requires s.found.Keys !! s.outstanding
    ensures var rs := ScanRegions(s, tokens, refilling, regions, ctx, list);
            && rs.scan.found.Keys !! rs.scan.outstanding
            && rs.scan.found.Keys + rs.scan.outstanding == s.found.Keys + s.outstanding
            && rs.scan.outstanding <= s.outstanding
            && (forall id :: id in s.found ==> id in rs.scan.found && rs.scan.found[id] == s.found[id])
            && (rs.rateLimited ==> rs.scan.outstanding != {})
            && tokens - |regions| <= rs.tokens <= tokens
    decreases |regions|
  {
    if |regions| == 0 || s.outstanding == {} || !Admits(tokens, refilling, ctx) {
    } else {
      match list(regions[0])
      case Err(_) =>
        ScanRegionsPartition(s, Take(tokens), refilling, regions[1..], ctx, list);
      case Ok(lbs) =>
        ScanListingPartition(s, lbs);
        ScanRegionsPartition(ScanListing(s, lbs), Take(tokens), refilling, regions[1..], ctx, list);
    }
  }

  /** True when some successful listing among `regions` contains a load balancer with id `id`. */
  ghost predicate ListedSomewhere(id: string, regions: seq<string>, list: ListLoadBalancers)
  {
    exists r, k :: r in regions && list(r).Ok? && 0 <= k < |list(r).value| && list(r).value[k].id == id
  }

  /** An id no listing contains is never found by filtering a listing. */
  lemma {:induction false} ScanListingMisses(s: TagScan, lbs: seq<LoadBalancer>, id: string)
    requires forall k :: 0 <= k < |lbs| ==> lbs[k].id != id
    ensures (id in ScanListing(s, lbs).found) == (id in s.found)
    ensures (id in ScanListing(s, lbs).outstanding) == (id in s.outstanding)
  {
    if |lbs| > 0 {
      ScanListingMisses(s, lbs[..|lbs| - 1], id);
    }
  }

  /** An outstanding id that no successful listing contains stays outstanding. */
  lemma {:induction false} ScanRegionsMisses(s: TagScan, tokens: nat, refilling: bool, regions: seq<string>, ctx: Ctx,
                                             list: ListLoadBalancers, id: string)
    requires id in s.outstanding && id !in s.found
    requires !ListedSomewhere(id, regions, list)
    ensures id in ScanRegions(s, tokens, refilling, regions, ctx, list).scan.outstanding
    decreases |regions|
  {
    if |regions| == 0 || s.outstanding == {} || !Admits(tokens, refilling, ctx) {
    } else {
      assert !ListedSomewhere(id, regions[1..], list);
      match list(regions[0])
      case Err(_) =>
        ScanRegionsMisses(s, Take(tokens), refilling, regions[1..], ctx, list, id);
      case Ok(lbs) =>
        assert forall k :: 0 <= k < |lbs| ==> lbs[k].id != id by {
          assert regions[0] in regions;
        }
        ScanListingMisses(s, lbs, id);
        ScanRegionsMisses(ScanListing(s, lbs), Take(tokens), refilling, regions[1..], ctx, list, id);
    }
  }

  /** True when some successful listing among `regions` has a load balancer
      with id `id` whose tag list reads into `tags`. */
  ghost predicate ListedWithTags(id: string, tags: Tags, regions: seq<string>, list: ListLoadBalancers)
  {
    exists r, k :: r in regions && list(r).Ok? && 0 <= k < |list(r).value|
                   && list(r).value[k].id == id && TagMap(list(r).value[k].tags) == tags
  }

  /** An id found by filtering a listing gets the tags of a load balancer
      of that listing carrying the id. */
  lemma {:induction false} ScanListingFound(s: TagScan, lbs: seq<LoadBalancer>, id: string)
    requires s.found.Keys !! s.outstanding
    requires id !in s.found && id in ScanListing(s, lbs).found
    ensures exists k :: 0 <= k < |lbs| && lbs[k].id == id && ScanListing(s, lbs).found[id] == TagMap(lbs[k].tags)
  {
    var last := |lbs| - 1;
    var p := ScanListing(s, lbs[..last]);
    ScanListingPartition(s, lbs[..last]);
    if id in p.found {
      ScanListingFound(s, lbs[..last], id);
      var k :| 0 <= k < last && lbs[..last][k].id == id && p.found[id] == TagMap(lbs[..last][k].tags);
      assert lbs[k] == lbs[..last][k];
    } else {
      assert lbs[last].id == id;
    }
  }

  /** An id still outstanding after filtering a listing is carried by no
      load balancer of it. */
  lemma {:induction false} ScanListingKeeps(s: TagScan, lbs: seq<LoadBalancer>, id: string)
    requires id in ScanListing(s, lbs).outstanding
    ensures id in s.outstanding
    ensures forall k :: 0 <= k < |lbs| ==> lbs[k].id != id
  {
    if |lbs| > 0 {
      var last := |lbs| - 1;
      ScanListingKeeps(s, lbs[..last], id);
      forall k | 0 <= k < last ensures lbs[k].id != id {
        assert lbs[k] == lbs[..last][k];
      }
    }
  }

  /** An id the region loop finds gets the tags of a load balancer carrying
      it in some region whose listing succeeded. */
  lemma {:induction false} ScanRegionsFound(s: TagScan, tokens: nat, refilling: bool, regions: seq<string>, ctx: Ctx,
                                            list: ListLoadBalancers, id: string)
    requires s.found.Keys !! s.outstanding
    requires id !in s.found && id in ScanRegions(s, tokens, refilling, regions, ctx, list).scan.found
    ensures ListedWithTags(id, ScanRegions(s, tokens, refilling, regions, ctx, list).scan.found[id], regions, list)
    decreases |regions|
  {
    var rs := ScanRegions(s, tokens, refilling, regions, ctx, list);
    if |regions| == 0 || s.outstanding == {} || !Admits(tokens, refilling, ctx) {
    } else {
      match list(regions[0])
      case Err(_) =>
        ScanRegionsFound(s, Take(tokens), refilling, regions[1..], ctx, list, id);
        var r, k :| r in regions[1..] && list(r).Ok? && 0 <= k < |list(r).value|
                    && list(r).value[k].id == id && TagMap(list(r).value[k].tags) == rs.scan.found[id];
        assert r in regions;
      case Ok(lbs) =>
        var s1 := ScanListing(s, lbs);
        ScanListingPartition(s, lbs);
        if id in s1.found {
          ScanListingFound(s, lbs, id);
          ScanRegionsPartition(s1, Take(tokens), refilling, regions[1..], ctx, list);
          var k :| 0 <= k < |lbs| && lbs[k].id == id && s1.found[id] == TagMap(lbs[k].tags);
          assert regions[0] in regions && list(regions[0]).value[k] == lbs[k];
        } else {
          ScanRegionsFound(s1, Take(tokens), refilling, regions[1..], ctx, list, id);
          var r, k :| r in regions[1..] && list(r).Ok? && 0 <= k < |list(r).value|
                      && list(r).value[k].id == id && TagMap(list(r).value[k].tags) == rs.scan.found[id];
          assert r in regions;
        }
    }
  }

  /** When the region loop runs to the end without a refusal, an id still
      outstanding is listed in no region whose listing succeeded. */
  lemma {:induction false} ScanRegionsLeftUnlisted(s: TagScan, tokens: nat, refilling: bool, regions: seq<string>, ctx: Ctx,
                                                   list: ListLoadBalancers, id: string)
    requires s.found.Keys !! s.outstanding
    requires !ScanRegions(s, tokens, refilling, regions, ctx, list).rateLimited
    requires id in ScanRegions(s, tokens, refilling, regions, ctx, list).scan.outstanding
    ensures !ListedSomewhere(id, regions, list)
    decreases |regions|
  {
    if |regions| == 0 || s.outstanding == {} || !Admits(tokens, refilling, ctx) {
      assert |regions| == 0;
    } else {
      var rest := regions[1..];
      match list(regions[0]) {
        case Err(_) =>
          ScanRegionsLeftUnlisted(s, Take(tokens), refilling, rest, ctx, list, id);
        case Ok(lbs) =>
          var s1 := ScanListing(s, lbs);
          ScanListingPartition(s, lbs);
          ScanRegionsPartition(s1, Take(tokens), refilling, rest, ctx, list);
          ScanRegionsLeftUnlisted(s1, Take(tokens), refilling, rest, ctx, list, id);
          ScanListingKeeps(s, lbs, id);
      }
      forall r, k | r in regions && list(r).Ok? && 0 <= k < |list(r).value|
        ensures list(r).value[k].id != id
      {
        if r != regions[0] {
          assert r in rest;
        }
      }
    }
  }

  /** When every id is cached, no token is taken, the cache is untouched and
      the cached tags are returned. */
  lemma LookupAllCached(cache: map<string, Tags>, tokens: nat, refilling: bool, ids: seq<string>, regions: seq<string>,
                        ctx: Ctx, list: ListLoadBalancers)
    requires forall id :: id in ids ==> id in cache
    ensures var r := LookupTags(cache, tokens, refilling, ids, regions, ctx, list);
            r == TagLookup(CachedTags(cache, ids), None, cache, tokens)
  {
    assert UncachedIds(cache, ids) == {};
  }

  /** On success the result holds exactly the requested ids, and each of
      them is cached afterwards with the tags returned for it; cached ids
      keep their cached tags, and the others get the tags of a load balancer
      listed with the id, or empty tags when no listing carries it. */
  lemma {:induction false} LookupSuccessCoversIds(cache: map<string, Tags>, tokens: nat, refilling: bool, ids: seq<string>,
                                                  regions: seq<string>, ctx: Ctx, list: ListLoadBalancers)
    requires LookupTags(cache, tokens, refilling, ids, regions, ctx, list).err.None?
    ensures var r := LookupTags(cache, tokens, refilling, ids, regions, ctx, list);
            && r.tags.Keys == (set id | id in ids)
            && (forall id :: id in ids ==> id in r.cache && r.cache[id] == r.tags[id])
            && (forall id :: id in ids && id in cache ==> r.tags[id] == cache[id])
            && (forall id :: id in ids && id !in cache ==>
                  ListedWithTags(id, r.tags[id], regions, list)
                  || (r.tags[id] == map[] && !ListedSomewhere(id, regions, list)))
  {
    if |ids| > 0 && UncachedIds(cache, ids) != {} {
      ScanRegionsPartition(TagScan(map[], UncachedIds(cache, ids)), tokens, refilling, regions, ctx, list);
    }
    var r := LookupTags(cache, tokens, refilling, ids, regions, ctx, list);
    forall id | id in ids && id !in cache
      ensures ListedWithTags(id, r.tags[id], regions, list) || (r.tags[id] == map[] && !ListedSomewhere(id, regions, list))
    {
      LookupFoundGetsListedTags(cache, tokens, refilling, ids, regions, ctx, list, id);
    }
  }

  /** An uncached id that no successful listing contains is answered, and
      cached, with an empty tag map. */
  lemma LookupNotFoundIsEmpty(cache: map<string, Tags>, tokens: nat, refilling: bool, ids: seq<string>, regions: seq<string>,
                              ctx: Ctx, list: ListLoadBalancers, id: string)
    requires id in ids && id !in cache && !ListedSomewhere(id, regions, list)
    requires LookupTags(cache, tokens, refilling, ids, regions, ctx, list).err.None?
    ensures var r := LookupTags(cache, tokens, refilling, ids, regions, ctx, list);
            id in r.tags && r.tags[id] == map[] && id in r.cache && r.cache[id] == map[]
  {
    var s0 := TagScan(map[], UncachedIds(cache, ids));
    ScanRegionsPartition(s0, tokens, refilling, regions, ctx, list);
    ScanRegionsMisses(s0, tokens, refilling, regions, ctx, list, id);
  }

  /** When the limiter refuses a wait, the partial result misses some
      requested id, and every new cache entry holds the tags of a load
      balancer listed with that id: nothing is cached as empty. */
  lemma LookupRateLimited(cache: map<string, Tags>, tokens: nat, refilling: bool, ids: seq<string>, regions: seq<string>,
                          ctx: Ctx, list: ListLoadBalancers)
    requires LookupTags(cache, tokens, refilling, ids, regions, ctx, list).err.Some?
    ensures var r := LookupTags(cache, tokens, refilling, ids, regions, ctx, list);
            && r.tags.Keys < (set id | id in ids)
            && (forall id :: id in r.cache && id !in cache ==>
                  id in r.tags && r.tags[id] == r.cache[id] && ListedWithTags(id, r.cache[id], regions, list))
  {
    var s0 := TagScan(map[], UncachedIds(cache, ids));
    ScanRegionsPartition(s0, tokens, refilling, regions, ctx, list);
    var rs := ScanRegions(s0, tokens, refilling, regions, ctx, list);
    var r := LookupTags(cache, tokens, refilling, ids, regions, ctx, list);
    var missing :| missing in rs.scan.outstanding;
    assert missing in ids && missing !in r.tags;
    forall id | id in r.cache && id !in cache
      ensures ListedWithTags(id, r.cache[id], regions, list)
    {
      ScanRegionsFound(s0, tokens, refilling, regions, ctx, list, id);
    }
  }

  /** Every id the lookup newly caches is answered with what it caches, and
      that is either the tags of a load balancer listed with the id, or, when
      the lookup ran through every region and no successful listing carries
      the id, an empty tag map. */
  lemma {:induction false} LookupFoundGetsListedTags(cache: map<string, Tags>, tokens: nat, refilling: bool, ids: seq<string>,
                                                     regions: seq<string>, ctx: Ctx, list: ListLoadBalancers, id: string)
    requires id !in cache
    requires id in LookupTags(cache, tokens, refilling, ids, regions, ctx, list).cache
    ensures var r := LookupTags(cache, tokens, refilling, ids, regions, ctx, list);
            && id in ids && id in r.tags && r.tags[id] == r.cache[id]
            && (ListedWithTags(id, r.cache[id], regions, list)
                || (r.err.None? && r.cache[id] == map[] && !ListedSomewhere(id, regions, list)))
  {
    var s0 := TagScan(map[], UncachedIds(cache, ids));
    ScanRegionsPartition(s0, tokens, refilling, regions, ctx, list);
    var rs := ScanRegions(s0, tokens, refilling, regions, ctx, list);
    if id in rs.scan.found {
      ScanRegionsFound(s0, tokens, refilling, regions, ctx, list, id);
    } else {
      ScanRegionsLeftUnlisted(s0, tokens, refilling, regions, ctx, list, id);
    }
  }

  /** Entries are only ever added to the tag cache, and at most one token is
      taken per region. */
  lemma LookupBounds(cache: map<string, Tags>, tokens: nat, refilling: bool, ids: seq<string>, regions: seq<string>,
                     ctx: Ctx, list: ListLoadBalancers)
    ensures var r := LookupTags(cache, tokens, refilling, ids, regions, ctx, list);
            && cache.Keys <= r.cache.Keys
            && tokens - |regions| <= r.tokens <= tokens
  {
    if |ids| > 0 && UncachedIds(cache, ids) != {} {
      ScanRegionsPartition(TagScan(map[], UncachedIds(cache, ids)), tokens, refilling, regions, ctx, list);
    }
  }

  /** Looking the same ids up again right after a successful lookup is
      served wholly from the cache: no token, no remote listing, same answer. */
  lemma SecondLookupIsCached(cache: map<string, Tags>, tokens: nat, refilling: bool, ids: seq<string>, regions: seq<string>,
                             ctx: Ctx, list: ListLoadBalancers, regions2: seq<string>, ctx2: Ctx, list2: ListLoadBalancers)
    requires LookupTags(cache, tokens, refilling, ids, regions, ctx, list).err.None?
    ensures var first := LookupTags(cache, tokens, refilling, ids, regions, ctx, list);
            var second := LookupTags(first.cache, first.tokens, refilling, ids, regions2, ctx2, list2);
            second == first
  {
    var first := LookupTags(cache, tokens, refilling, ids, regions, ctx, list);
    LookupSuccessCoversIds(cache, tokens, refilling, ids, regions, ctx, list);
    LookupAllCached(first.cache, first.tokens, refilling, ids, regions2, ctx2, list2);
    assert CachedTags(first.cache, ids) == first.tags;
  }

  /** The client: its configuration, the regions it holds SLB handles for,
      the shared rate limiter and the two caches. */
  class Client {
    const config: AlicloudConfig
    /** Regions whose SLB handle could be built (the keys of Go's slbClients map). */
    const slbRegions: set<string>
    const limiter: RateLimiter
    const cache: MetricCache
    const tagCache: TagCache

    ghost predicate Valid()
      reads this, limiter
    {
      limiter.Valid()
    }

    ghost function State(): ClientState
      reads this, cache, limiter
    {
      ClientState(cache.entries, limiter.tokens, limiter.refilling)
    }

    /** NewClient: the configured regions, or the primary one when none is
        listed, keeping those whose handle `canConnect` says could be built. */
    constructor (cfg: AlicloudConfig, canConnect: string -> bool)
      requires 0 < cfg.rateLimit.requestsPerSecond <= Second && cfg.rateLimit.burst >= 0
      ensures Valid() && fresh(limiter) && fresh(cache) && fresh(tagCache)
      ensures config == cfg
      ensures slbRegions == set r | r in (if |cfg.regions| == 0 then [cfg.region] else cfg.regions) && canConnect(r)
      ensures limiter.tokens == cfg.rateLimit.burst == limiter.burst && limiter.refilling
      ensures cache.entries == map[] && cache.ttl == MetricCacheTtl
      ensures tagCache.entries == map[] && tagCache.ttl == TagCacheTtl
    {
      var regions := if |cfg.regions| == 0 then [cfg.region] else cfg.regions;
      var handles: set<string> := {};
      var i := 0;
      while i < |regions|
        invariant 0 <= i <= |regions|
        invariant handles == set r | r in regions[..i] && canConnect(r)
      {
        if canConnect(regions[i]) {
          handles := handles + {regions[i]};
        }
        assert regions[..i + 1] == regions[..i] + [regions[i]];
        i := i + 1;
      }
      assert regions[..i] == regions;
      config := cfg;
      slbRegions := handles;
      limiter := new RateLimiter(cfg.rateLimit.requestsPerSecond, cfg.rateLimit.burst);
      cache := new MetricCache(MetricCacheTtl);
      tagCache := new TagCache(TagCacheTtl);
    }

    function GetRegion(): (r: string)
      ensures r == config.region
    {
      config.region
    }

    /** Fetches one metric, cache first, then one token, then the remote call. */
    method GetMetricData(namespace: string, metricName: string, now: int, ctx: Ctx, describe: Describe)
      returns (r: Result<Response, FetchError>)
      requires Valid()
      modifies cache, limiter
      ensures Valid() && limiter.refilling == old(limiter.refilling)
      ensures (r, State()) == Fetch(old(State()), cache.ttl, namespace, metricName, now, ctx, describe)
    {
      var key := CacheKey(namespace, metricName);
      var hit := cache.Get(key, now);
      if hit.Some? {
        return Ok(hit.value);
      }
      var admitted := limiter.Wait(ctx);
      if !admitted {
        return Err(RateLimiterWait);
      }
      var response := describe(MetricRequest(namespace, metricName, None));
      if response.Err? {
        return Err(RemoteCall(response.error));
      }
      cache.Set(key, response.value, now);
      return Ok(response.value);
    }

    /** Fetches one metric filtered by dimensions: always takes a token and
        calls the remote side, and never reads or writes the cache. */
    method GetMetricDataWithDimensions(namespace: string, metricName: string, dimensions: map<string, string>,
                                       order: seq<string>, ctx: Ctx, describe: Describe)
      returns (r: Result<Response, FetchError>)
      requires Valid() && IsEnumeration(order, dimensions.Keys)
      modifies limiter
      ensures Valid() && limiter.refilling == old(limiter.refilling)
      ensures !Admits(old(limiter.tokens), limiter.refilling, ctx) ==>
        r == Err(RateLimiterWait) && limiter.tokens == old(limiter.tokens)
      ensures Admits(old(limiter.tokens), limiter.refilling, ctx) ==> limiter.tokens == Take(old(limiter.tokens))
      ensures Admits(old(limiter.tokens), limiter.refilling, ctx) ==>
        var dims := if |dimensions| == 0 then None else Some(DimensionsJson(ValuesInOrder(dimensions, order)));
        r == match describe(MetricRequest(namespace, metricName, dims))
             case Ok(resp) => Ok(resp)
             case Err(reason) => Err(RemoteCall(reason))
    {
      var admitted := limiter.Wait(ctx);
      if !admitted {
        return Err(RateLimiterWait);
      }
      var dims := BuildDimensions(dimensions, order);
      var response := describe(MetricRequest(namespace, metricName, dims));
      if response.Err? {
        return Err(RemoteCall(response.error));
      }
      return Ok(response.value);
    }

    /** Stops the limiter's refill. */
    method Close()
      modifies limiter
      ensures !limiter.refilling && limiter.tokens == old(limiter.tokens)
    {
      limiter.Close();
    }

    /** The cache pass: the cached tags of the requested ids, and the
        uncached ids in request order. */
    method CollectCachedTags(instanceIds: seq<string>) returns (tags: map<string, Tags>, uncachedIds: seq<string>)
      ensures tags == CachedTags(tagCache.entries, instanceIds)
      ensures forall id :: id in uncachedIds <==> id in instanceIds && id !in tagCache.entries
    {
      tags := map[];
      uncachedIds := [];
      var i := 0;
      while i < |instanceIds|
        invariant 0 <= i <= |instanceIds|
        invariant tags == CachedTags(tagCache.entries, instanceIds[..i])
        invariant forall id :: id in uncachedIds <==> id in instanceIds[..i] && id !in tagCache.entries
      {
        var id := instanceIds[i];
        var hit := tagCache.Get(id);
        assert instanceIds[..i + 1] == instanceIds[..i] + [id];
        if hit.Some? {
          tags := tags[id := hit.value];
        } else {
          uncachedIds := uncachedIds + [id];
        }
        i := i + 1;
      }
      assert instanceIds[..i] == instanceIds;
    }

    /** Filters one region's listing: every outstanding id met is answered
        with its tags, cached, and no longer outstanding. */
    method FilterListing(lbs: seq<LoadBalancer>, tags: map<string, Tags>, s: TagScan,
                         ghost cached: map<string, Tags>, ghost cache0: map<string, Tags>)
      returns (tags': map<string, Tags>, s': TagScan)
      requires tags == cached + s.found && tagCache.entries == cache0 + s.found
      modifies tagCache
      ensures s' == ScanListing(s, lbs)
      ensures tags' == cached + s'.found && tagCache.entries == cache0 + s'.found
    {
      tags', s' := tags, s;
      var j := 0;
      while j < |lbs|
        invariant 0 <= j <= |lbs|
        invariant s' == ScanListing(s, lbs[..j])
        invariant tags' == cached + s'.found && tagCache.entries == cache0 + s'.found
      {
        var lb := lbs[j];
        assert ScanListing(s, lbs[..j + 1]) == ScanOne(s', lb) by {
          assert lbs[..j + 1][..j] == lbs[..j];
        }
        if lb.id in s'.outstanding {
          var instanceTags := ExtractTags(lb.tags);
          tags' := tags'[lb.id := instanceTags];
          tagCache.Set(lb.id, instanceTags);
          UpdateAfterUnion(cached, s'.found, lb.id, instanceTags);
          UpdateAfterUnion(cache0, s'.found, lb.id, instanceTags);
          s' := TagScan(s'.found[lb.id := instanceTags], s'.outstanding - {lb.id});
        }
        j := j + 1;
      }
      assert lbs[..j] == lbs;
    }

    /** The region loop: until nothing is outstanding, one token and one
        listing per region handle; a refused wait ends the loop early. */
    method ScanRegionHandles(regionOrder: seq<string>, ctx: Ctx, list: ListLoadBalancers, tags: map<string, Tags>,
                             s: TagScan, ghost cached: map<string, Tags>, ghost cache0: map<string, Tags>)
      returns (tags': map<string, Tags>, s': TagScan, rateLimited: bool)
      requires limiter.Valid()
      requires tags == cached + s.found && tagCache.entries == cache0 + s.found
      modifies tagCache, limiter
      ensures limiter.Valid() && limiter.refilling == old(limiter.refilling)
      ensures RegionScan(s', limiter.tokens, rateLimited) == ScanRegions(s, old(limiter.tokens), limiter.refilling, regionOrder, ctx, list)
      ensures tags' == cached + s'.found && tagCache.entries == cache0 + s'.found
    {
      tags', s' := tags, s;
      ghost var goal := ScanRegions(s, limiter.tokens, limiter.refilling, regionOrder, ctx, list);
      var k := 0;
      while k < |regionOrder|
        invariant 0 <= k <= |regionOrder|
        invariant limiter.Valid() && limiter.refilling == old(limiter.refilling)
        invariant tags' == cached + s'.found && tagCache.entries == cache0 + s'.found
        invariant goal == ScanRegions(s', limiter.tokens, limiter.refilling, regionOrder[k..], ctx, list)
      {
        if s'.outstanding == {} {
          break;
        }
        assert regionOrder[k..][0] == regionOrder[k] && regionOrder[k..][1..] == regionOrder[k + 1..];
        var admitted := limiter.Wait(ctx);
        if !admitted {
          return tags', s', true;
        }
        var response := list(regionOrder[k]);
        if response.Ok? {
          tags', s' := FilterListing(response.value, tags', s', cached, cache0);
        }
        k := k + 1;
      }
      rateLimited := false;
    }

    /** Answers, and caches, every id still outstanding with an empty tag map. */
    method CacheMissingAsEmpty(tags: map<string, Tags>, outstanding: set<string>) returns (tags': map<string, Tags>)
      modifies tagCache
      ensures tags' == tags + EmptyTags(outstanding)
      ensures tagCache.entries == old(tagCache.entries) + EmptyTags(outstanding)
    {
      tags' := tags;
      ghost var emptied: set<string> := {};
      var remaining := outstanding;
      while remaining != {}
        invariant remaining <= outstanding && emptied == outstanding - remaining
        invariant tags' == tags + EmptyTags(emptied)
        invariant tagCache.entries == old(tagCache.entries) + EmptyTags(emptied)
        decreases remaining
      {
        var id :| id in remaining;
        EmptyTagsInsert(tags, emptied, id);
        EmptyTagsInsert(old(tagCache.entries), emptied, id);
        tags' := tags'[id := map[]];
        tagCache.Set(id, map[]);
        remaining := remaining - {id};
        emptied := emptied + {id};
      }
    }

    /** Tags of the given load balancers, cache first, then one full
        listing per region in `regionOrder` (Go's map order over the region
        handles) until every id is found; ids found nowhere get an empty map. */
    method GetSLBInstanceTags(instanceIds: seq<string>, regionOrder: seq<string>, ctx: Ctx, list: ListLoadBalancers)
      returns (tags: map<string, Tags>, err: Option<FetchError>)
      requires Valid() && IsEnumeration(regionOrder, slbRegions)
      modifies tagCache, limiter
      ensures Valid() && limiter.refilling == old(limiter.refilling)
      ensures TagLookup(tags, err, tagCache.entries, limiter.tokens)
              == LookupTags(old(tagCache.entries), old(limiter.tokens), limiter.refilling, instanceIds, regionOrder, ctx, list)
    {
      if |instanceIds| == 0 {
        return map[], None;
      }
      var uncachedIds;
      tags, uncachedIds := CollectCachedTags(instanceIds);
      if |uncachedIds| == 0 {
        assert UncachedIds(tagCache.entries, instanceIds) == {};
        return tags, None;
      }
      var uncachedSet: set<string> := {};
      var i := 0;
      while i < |uncachedIds|
        invariant 0 <= i <= |uncachedIds|
        invariant uncachedSet == set id | id in uncachedIds[..i]
      {
        assert uncachedIds[..i + 1] == uncachedIds[..i] + [uncachedIds[i]];
        uncachedSet := uncachedSet + {uncachedIds[i]};
        i := i + 1;
      }
      assert uncachedIds[..i] == uncachedIds;
      assert uncachedSet == UncachedIds(tagCache.entries, instanceIds);
      assert uncachedSet != {} by { assert uncachedIds[0] in uncachedSet; }

      var s, rateLimited;
      tags, s, rateLimited := ScanRegionHandles(regionOrder, ctx, list, tags, TagScan(map[], uncachedSet),
                                                tags, tagCache.entries);
      if rateLimited {
        return tags, Some(RateLimiterWait);
      }
      tags := CacheMissingAsEmpty(tags, s.outstanding);
      err := None;
    }
  }
}
