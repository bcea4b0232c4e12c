/**
 * The image optimisation service: the `ImageOptimizer` singleton of utils/imageOptimization.ts.
 * Its pure advice (dimensions, cache policy, priority, analytics) is written as functions; the
 * object's counters and per-image metrics map are fields of a class whose methods update them.
 * The external image primitive (prefetch, memory-cache clear, disk-cache clear) is not called:
 * each method receives the outcome the primitive would report.
 */
module ImageOptimization {
  import opened Wrappers

  datatype Quality = LowQuality | MediumQuality | HighQuality

  datatype DeviceMemory = LowMemory | MediumMemory | HighMemory

  /** 'memory' (conservative), 'disk' (balanced) and 'memory-disk' (aggressive). */
  datatype CachePolicy = MemoryCache | DiskCache | MemoryDiskCache

  /** 'low' (background), 'normal' and 'high' (critical). */
  datatype Priority = LowPriority | NormalPriority | HighPriority

  /** The `policy` argument of clearCache: 'memory', 'disk' or 'all'. */
  datatype ClearScope = ClearMemory | ClearDisk | ClearAll

  /** A call issued to the image primitive by clearCache. */
  datatype CacheClearCall = MemoryCacheClear | DiskCacheClear

  datatype Dimensions = Dimensions(width: int, height: int)

  // ---------------------------------------------------------------------------
  // calculateOptimalDimensions
  // ---------------------------------------------------------------------------

  function QualityMultiplier(quality: Quality): (m: real)
    ensures 0.0 < m <= 1.0
  {
    match quality
    case LowQuality => 0.5
    case MediumQuality => 0.75
    case HighQuality => 1.0
  }

  /** JavaScript's Math.round on a finite number: the nearest integer, halves rounded up. */
  function Round(x: real): (n: int)
    ensures x - 0.5 < n as real <= x + 0.5
  {
    (x + 0.5).Floor
  }

  function Max(a: real, b: real): (m: real)
    ensures m >= a && m >= b && (m == a || m == b)
  {
    if a >= b then a else b
  }

  const MinDimension: real := 50.0

  /** The scaled container sides after the aspect ratio is enforced (lines 93-103). */
  function TargetSize(containerWidth: real, containerHeight: real, aspectRatio: real, quality: Quality): (real, real) {
    var w := containerWidth * QualityMultiplier(quality);
    var h := containerHeight * QualityMultiplier(quality);
    if aspectRatio > 1.0 then (w, w / aspectRatio) else (h * aspectRatio, h)
  }

  /**
   * Both container sides are scaled by the quality multiplier; a landscape ratio keeps the scaled
   * width and derives the height from it, every other ratio keeps the scaled height and derives
   * the width.
   */
  lemma TargetSizeKeepsAspect(containerWidth: real, containerHeight: real, aspectRatio: real, quality: Quality)
    ensures var t := TargetSize(containerWidth, containerHeight, aspectRatio, quality);
      && (aspectRatio > 1.0 ==> t.0 == containerWidth * QualityMultiplier(quality) && t.1 * aspectRatio == t.0)
      && (aspectRatio <= 1.0 ==> t.1 == containerHeight * QualityMultiplier(quality) && t.0 == t.1 * aspectRatio)
  {
  }

  /** Math.round(x / 8) * 8: the multiple of 8 nearest to x. */
  function RoundToMultipleOf8(x: real): (n: int)
    ensures n % 8 == 0
    ensures x - 4.0 < n as real <= x + 4.0
  {
    Round(x / 8.0) * 8
  }

  /**
   * The clamp to 50 comes before the rounding, so 50 itself rounds to 48: every side is a multiple
   * of 8 and at least 48, and lies within 4 of the clamped target.
   */
  function CalculateOptimalDimensions(containerWidth: real, containerHeight: real, aspectRatio: real, quality: Quality): (r: Dimensions)
    ensures r.width % 8 == 0 && r.height % 8 == 0
    ensures r.width >= 48 && r.height >= 48
    ensures var t := TargetSize(containerWidth, containerHeight, aspectRatio, quality);
      && Max(t.0, MinDimension) - 4.0 < r.width as real <= Max(t.0, MinDimension) + 4.0
      && Max(t.1, MinDimension) - 4.0 < r.height as real <= Max(t.1, MinDimension) + 4.0
  {
    var t := TargetSize(containerWidth, containerHeight, aspectRatio, quality);
    var w := RoundToMultipleOf8(Max(t.0, MinDimension));
    var h := RoundToMultipleOf8(Max(t.1, MinDimension));
    MultipleOf8Above46(w);
    MultipleOf8Above46(h);
    Dimensions(w, h)
  }

  lemma MultipleOf8Above46(n: int)
    requires n % 8 == 0 && n > 46
    ensures n >= 48
  {
    var k := n / 8;
    assert n == 8 * k;
  }

  /** A small container yields 48 by 48: the rounding undoes the minimum of 50. */
  lemma MinimumDimensionIs48()
    ensures CalculateOptimalDimensions(10.0, 10.0, 1.0, HighQuality) == Dimensions(48, 48)
  {
    assert Round(50.0 / 8.0) == 6;
  }

  // ---------------------------------------------------------------------------
  // getOptimalCachePolicy, getOptimalPriority
  // ---------------------------------------------------------------------------

  const OneMiB: real := 1048576.0

  /**
   * Frequently used images are cached aggressively; otherwise only an image over 1 MiB on a
   * low-memory device is kept in memory alone, and everything else goes to disk.
   */
  function GetOptimalCachePolicy(imageSize: real, isFrequentlyUsed: bool, deviceMemory: DeviceMemory): (p: CachePolicy)
    ensures isFrequentlyUsed <==> p == MemoryDiskCache
    ensures p == MemoryCache <==> !isFrequentlyUsed && imageSize > OneMiB && deviceMemory == LowMemory
  {
    if isFrequentlyUsed then MemoryDiskCache
    else if imageSize > 1024.0 * 1024.0 then (if deviceMemory == LowMemory then MemoryCache else DiskCache)
    else DiskCache
  }

  /** First match wins: interacting gives high, above the fold or visible gives normal, else low. */
  function GetOptimalPriority(isVisible: bool, isAboveFold: bool, isUserInteracting: bool): (p: Priority)
    ensures p == HighPriority <==> isUserInteracting
    ensures p == LowPriority <==> !isUserInteracting && !isAboveFold && !isVisible
  {
    if isUserInteracting then HighPriority
    else if isAboveFold then NormalPriority
    else if isVisible then NormalPriority
    else LowPriority
  }

  // ---------------------------------------------------------------------------
  // Performance metrics and their analytics
  // ---------------------------------------------------------------------------

  datatype Metrics = Metrics(loadTime: real, cacheHit: bool, memoryUsage: real, networkRequest: bool)

  /** A Partial<ImagePerformanceMetrics>: a field is None when the key is absent. */
  datatype MetricsUpdate = MetricsUpdate(
    loadTime: Option<real>, cacheHit: Option<bool>, memoryUsage: Option<real>, networkRequest: Option<bool>)

  const DefaultMetrics: Metrics := Metrics(0.0, false, 0.0, false)

  /** `{ ...existing, ...update }`: a field present in the update wins, an absent one is kept. */
  function MergeMetrics(existing: Metrics, update: MetricsUpdate): (r: Metrics)
    ensures update.loadTime.Some? ==> r.loadTime == update.loadTime.value
    ensures update.loadTime.None? ==> r.loadTime == existing.loadTime
    ensures update.cacheHit.Some? ==> r.cacheHit == update.cacheHit.value
    ensures update.cacheHit.None? ==> r.cacheHit == existing.cacheHit
    ensures update.memoryUsage.Some? ==> r.memoryUsage == update.memoryUsage.value
    ensures update.memoryUsage.None? ==> r.memoryUsage == existing.memoryUsage
    ensures update.networkRequest.Some? ==> r.networkRequest == update.networkRequest.value
    ensures update.networkRequest.None? ==> r.networkRequest == existing.networkRequest
    ensures update == MetricsUpdate(None, None, None, None) ==> r == existing
  {
    Metrics(
      update.loadTime.GetOr(existing.loadTime),
      update.cacheHit.GetOr(existing.cacheHit),
      update.memoryUsage.GetOr(existing.memoryUsage),
      update.networkRequest.GetOr(existing.networkRequest))
  }

  /** Two updates in a row: the later one's present fields, else the earlier one's. */
  function CombineUpdates(first: MetricsUpdate, second: MetricsUpdate): MetricsUpdate {
    MetricsUpdate(
      if second.loadTime.Some? then second.loadTime else first.loadTime,
      if second.cacheHit.Some? then second.cacheHit else first.cacheHit,
      if second.memoryUsage.Some? then second.memoryUsage else first.memoryUsage,
      if second.networkRequest.Some? then second.networkRequest else first.networkRequest)
  }

  /** Recording m1 then m2 for one id is recording their combination: m2's fields over m1's. */
  lemma MergeTwice(existing: Metrics, first: MetricsUpdate, second: MetricsUpdate)
    ensures MergeMetrics(MergeMetrics(existing, first), second) == MergeMetrics(existing, CombineUpdates(first, second))
  {
  }

  /** An update that names every field replaces the record whatever it was. */
  lemma FullUpdateReplaces(existing: Metrics, m: Metrics)
    ensures MergeMetrics(existing, MetricsUpdate(Some(m.loadTime), Some(m.cacheHit), Some(m.memoryUsage), Some(m.networkRequest))) == m
  {
  }

  datatype Analytics = Analytics(
    totalImages: nat, averageLoadTime: real, cacheHitRate: real, averageMemoryUsage: real, networkRequests: nat)

  /** `ms.filter(p).length` */
  function CountWhere(ms: seq<Metrics>, p: Metrics -> bool): (n: nat)
    ensures n <= |ms|
  {
    if ms == [] then 0
    else CountWhere(ms[..|ms| - 1], p) + (if p(ms[|ms| - 1]) then 1 else 0)
  }

  /** `ms.reduce((sum, m) => sum + f(m), 0)` */
  function SumOf(ms: seq<Metrics>, f: Metrics -> real): real {
    if ms == [] then 0.0 else SumOf(ms[..|ms| - 1], f) + f(ms[|ms| - 1])
  }

  function IsCacheHit(m: Metrics): bool { m.cacheHit }
  function IsNetworkRequest(m: Metrics): bool { m.networkRequest }
  function LoadTimeOf(m: Metrics): real { m.loadTime }
  function MemoryUsageOf(m: Metrics): real { m.memoryUsage }

  /**
   * getPerformanceAnalytics over the metric records in map order: null for no records, otherwise
   * counts, means and rates, with the hit rate a fraction in [0, 1].
   */
  function Analyze(ms: seq<Metrics>): (r: Option<Analytics>)
    ensures r.None? <==> ms == []
    ensures r.Some? ==>
      && r.value.totalImages == |ms|
      && r.value.networkRequests <= r.value.totalImages
      && 0.0 <= r.value.cacheHitRate <= 1.0
  {
    if ms == [] then None
    else
      var n := |ms| as real;
      var hits := CountWhere(ms, IsCacheHit);
      assert 0.0 <= hits as real / n <= 1.0 by {
        assert 0.0 <= hits as real <= n;
      }
      assert CountWhere(ms, IsNetworkRequest) <= |ms|;
      Some(Analytics(
        |ms|,
        SumOf(ms, LoadTimeOf) / n,
        hits as real / n,
        SumOf(ms, MemoryUsageOf) / n,
        CountWhere(ms, IsNetworkRequest)))
  }

  /** The filter keeps all records when each passes, and none when each fails. */
  lemma {:induction false} CountWhereAllOrNone(ms: seq<Metrics>, p: Metrics -> bool)
    ensures (forall i :: 0 <= i < |ms| ==> p(ms[i])) ==> CountWhere(ms, p) == |ms|
    ensures (forall i :: 0 <= i < |ms| ==> !p(ms[i])) ==> CountWhere(ms, p) == 0
  {
    if ms != [] {
      var init := ms[..|ms| - 1];
      assert forall i :: 0 <= i < |init| ==> init[i] == ms[i];
      CountWhereAllOrNone(init, p);
    }
  }

  /**
   * Records that were all network fetches and none a cache hit (as loadImage writes them) give a
   * hit rate of 0 and one network request per image.
   */
  lemma AllMissesAnalytics(ms: seq<Metrics>)
    requires ms != []
    requires forall i :: 0 <= i < |ms| ==> !ms[i].cacheHit && ms[i].networkRequest
    ensures Analyze(ms).Some?
    ensures Analyze(ms).value.cacheHitRate == 0.0
    ensures Analyze(ms).value.networkRequests == Analyze(ms).value.totalImages == |ms|
  {
    CountWhereAllOrNone(ms, IsCacheHit);
    CountWhereAllOrNone(ms, IsNetworkRequest);
  }

  /** With one tracked image the analytics are that image's record. */
  lemma SingleImageAnalytics(m: Metrics)
    ensures Analyze([m]) == Some(Analytics(
      1, m.loadTime, if m.cacheHit then 1.0 else 0.0, m.memoryUsage, if m.networkRequest then 1 else 0))
  {
    assert [m][..0] == [];
    assert CountWhere([m], IsCacheHit) == if m.cacheHit then 1 else 0;
    assert CountWhere([m], IsNetworkRequest) == if m.networkRequest then 1 else 0;
    assert SumOf([m], LoadTimeOf) == m.loadTime;
    assert SumOf([m], MemoryUsageOf) == m.memoryUsage;
  }

  // ---------------------------------------------------------------------------
  // Cache counters and preloading
  // ---------------------------------------------------------------------------

  datatype CacheStats = CacheStats(hits: nat, misses: nat, total: nat, hitRate: real)

  datatype PreloadSource = PreloadSource(uri: string, priority: Option<string>)

  datatype PreloadResult = PreloadResult(loaded: nat, total: nat)

  /** The number of prefetch promises that resolved rather than rejected. */
  function CountTrue(outcomes: seq<bool>): (n: nat)
    ensures n <= |outcomes|
  {
    if outcomes == [] then 0
    else CountTrue(outcomes[..|outcomes| - 1]) + (if outcomes[|outcomes| - 1] then 1 else 0)
  }

  predicate SelectsMemory(scope: ClearScope) { scope == ClearAll || scope == ClearMemory }
  predicate SelectsDisk(scope: ClearScope) { scope == ClearAll || scope == ClearDisk }

  /** The clears clearCache awaits, in order; a failing memory clear skips the disk clear. */
  function ClearCalls(scope: ClearScope, memoryClearOk: bool): (calls: seq<CacheClearCall>)
    ensures MemoryCacheClear in calls <==> SelectsMemory(scope)
    ensures DiskCacheClear in calls <==> SelectsDisk(scope) && (memoryClearOk || !SelectsMemory(scope))
    ensures |calls| <= 2 && (|calls| == 2 ==> calls == [MemoryCacheClear, DiskCacheClear])
  {
    (if SelectsMemory(scope) then [MemoryCacheClear] else [])
    + (if SelectsDisk(scope) && (memoryClearOk || !SelectsMemory(scope)) then [DiskCacheClear] else [])
  }

  /** No selected clear throws, so the try block reaches resetCacheStats. */
  predicate ClearSucceeds(scope: ClearScope, memoryClearOk: bool, diskClearOk: bool) {
    (SelectsMemory(scope) ==> memoryClearOk) && (SelectsDisk(scope) ==> diskClearOk)
  }

  // ---------------------------------------------------------------------------
  // Insertion-ordered keys of a JavaScript Map
  // ---------------------------------------------------------------------------

  predicate Distinct(s: seq<string>) {
    forall i, j :: 0 <= i < j < |s| ==> s[i] != s[j]
  }

  function Elements(s: seq<string>): set<string> {
    set x | x in s
  }

  lemma {:induction false} DistinctCardinality(s: seq<string>)
    requires Distinct(s)
    ensures |Elements(s)| == |s|
  {
    if s != [] {
      var init, last := s[..|s| - 1], s[|s| - 1];
      assert s == init + [last];
      assert Distinct(init);
      DistinctCardinality(init);
      assert Elements(s) == Elements(init) + {last};
      assert last !in init by {
        forall i | 0 <= i < |init| ensures init[i] != last {
          assert s[i] == init[i];
        }
      }
    }
  }

  lemma {:induction false} SubsetSize(a: set<string>, b: set<string>)
    requires a <= b
    ensures |a| <= |b|
    decreases a
  {
    if a != {} {
      var x :| x in a;
      SubsetSize(a - {x}, b - {x});
    }
  }

  lemma SubsetOfSameSize(a: set<string>, b: set<string>)
    requires a <= b && |a| == |b|
    ensures a == b
  {
    if a != b {
      var x :| x in b && x !in a;
      SubsetSize(a, b - {x});
    }
  }

  function ValuesInOrder(order: seq<string>, m: map<string, Metrics>): (vs: seq<Metrics>)
    requires forall i :: 0 <= i < |order| ==> order[i] in m
    ensures |vs| == |order|
    ensures forall i :: 0 <= i < |order| ==> vs[i] == m[order[i]]
  {
    if order == [] then [] else ValuesInOrder(order[..|order| - 1], m) + [m[order[|order| - 1]]]
  }

  // ---------------------------------------------------------------------------
  // The service object
  // ---------------------------------------------------------------------------

  class ImageOptimizer {
    var hits: nat
    var misses: nat
    var total: nat
    /** The keys of performanceMetrics in insertion order, as a JavaScript Map iterates them. */
    var order: seq<string>
    var performanceMetrics: map<string, Metrics>

    /** Every lookup is either a hit or a miss. */
    ghost predicate CountersValid()
      reads this`hits, this`misses, this`total
    {
      total == hits + misses
    }

    /**
     * The counters agree, and `order` lists each recorded id once. With as many ids as entries,
     * it lists exactly the keys (OrderListsKeys).
     */
    ghost predicate Valid()
      reads this
    {
      && CountersValid()
      && Distinct(order)
      && |order| == |performanceMetrics|
      && (forall i :: 0 <= i < |order| ==> order[i] in performanceMetrics)
    }

    /** The insertion order holds every key of the map and nothing else. */
    lemma OrderListsKeys()
      requires Valid()
      ensures performanceMetrics.Keys == Elements(order)
    {
      assert Elements(order) <= performanceMetrics.Keys;
      DistinctCardinality(order);
      SubsetOfSameSize(Elements(order), performanceMetrics.Keys);
    }

    constructor ()
      ensures Valid()
      ensures hits == 0 && misses == 0 && total == 0
      ensures order == [] && performanceMetrics == map[]
    {
      hits, misses, total := 0, 0, 0;
      order, performanceMetrics := [], map[];
    }

    /** One lookup: total and exactly one of hits or misses go up by one. */
    method UpdateCacheStats(hit: bool)
      requires Valid()
      modifies this`hits, this`misses, this`total
      ensures Valid()
      ensures total == old(total) + 1
      ensures hit ==> hits == old(hits) + 1 && misses == old(misses)
      ensures !hit ==> misses == old(misses) + 1 && hits == old(hits)
    {
      total := total + 1;
      if hit {
        hits := hits + 1;
      } else {
        misses := misses + 1;
      }
    }

    method ResetCacheStats()
      requires Valid()
      modifies this`hits, this`misses, this`total
      ensures Valid()
      ensures hits == 0 && misses == 0 && total == 0
    {
      hits, misses, total := 0, 0, 0;
    }

    /** The counters with the hit rate: 0 before any lookup, otherwise hits as a fraction of total. */
    function GetCacheStats(): (s: CacheStats)
      reads this`hits, this`misses, this`total
      requires CountersValid()
      ensures s.hits == hits && s.misses == misses && s.total == total
      ensures 0.0 <= s.hitRate <= 1.0
      ensures total == 0 ==> s.hitRate == 0.0
      ensures total > 0 ==> s.hitRate * total as real == hits as real
    {
      CacheStats(hits, misses, total, if total > 0 then hits as real / total as real else 0.0)
    }

    /** The record stored for `imageId`: the existing one (or the defaults) overwritten by `update`. */
    method RecordPerformanceMetrics(imageId: string, update: MetricsUpdate)
      requires Valid()
      modifies this`order, this`performanceMetrics
      ensures Valid()
      ensures performanceMetrics == old(performanceMetrics)[imageId :=
        MergeMetrics(if imageId in old(performanceMetrics) then old(performanceMetrics)[imageId] else DefaultMetrics, update)]
      ensures order == if imageId in old(performanceMetrics) then old(order) else old(order) + [imageId]
    {
      var existing := if imageId in performanceMetrics then performanceMetrics[imageId] else DefaultMetrics;
      if imageId !in performanceMetrics {
        order := order + [imageId];
      }
      performanceMetrics := performanceMetrics[imageId := MergeMetrics(existing, update)];
    }

    method ResetPerformanceMetrics()
      requires Valid()
      modifies this`order, this`performanceMetrics
      ensures Valid()
      ensures order == [] && performanceMetrics == map[]
    {
      order, performanceMetrics := [], map[];
    }

    /** Array.from(performanceMetrics.values()) */
    function Values(): (vs: seq<Metrics>)
      reads this
      requires Valid()
      ensures |vs| == |order| == |performanceMetrics|
      ensures forall i :: 0 <= i < |vs| ==> vs[i] == performanceMetrics[order[i]]
    {
      ValuesInOrder(order, performanceMetrics)
    }

    /** Null exactly when nothing is recorded; otherwise one entry per recorded image id. */
    function GetPerformanceAnalytics(): (r: Option<Analytics>)
      reads this
      requires Valid()
      ensures r.None? <==> |performanceMetrics| == 0
      ensures r.Some? ==>
        && r.value.totalImages == |performanceMetrics|
        && r.value.networkRequests <= r.value.totalImages
        && 0.0 <= r.value.cacheHitRate <= 1.0
    {
      Analyze(Values())
    }

    /**
     * Every prefetch is awaited; `outcomes[i]` is whether the i-th promise to settle resolved
     * (true, whatever value it resolved to) or rejected (false). Only a resolved prefetch raises
     * `loaded` and reports progress, so the reports are (1, total) .. (loaded, total).
     */
    method PreloadImages(sources: seq<PreloadSource>, outcomes: seq<bool>)
      returns (result: PreloadResult, progress: seq<(nat, nat)>)
      requires |outcomes| == |sources|
      ensures result.total == |sources|
      ensures result.loaded == CountTrue(outcomes) && result.loaded <= result.total
      ensures |progress| == result.loaded
      ensures forall k :: 0 <= k < |progress| ==> progress[k] == (k + 1, result.total)
    {
      var total := |sources|;
      var loaded := 0;
      progress := [];
      for i := 0 to |outcomes|
        invariant loaded == CountTrue(outcomes[..i])
        invariant |progress| == loaded
        invariant forall k :: 0 <= k < |progress| ==> progress[k] == (k + 1, total)
      {
        assert outcomes[..i + 1][..i] == outcomes[..i];
        if outcomes[i] {
          loaded := loaded + 1;
          progress := progress + [(loaded, total)];
        }
      }
      assert outcomes[..|outcomes|] == outcomes;
      result := PreloadResult(loaded, total);
    }

    /**
     * Clears the selected caches; the counters are reset only when no selected clear throws, and a
     * thrown clear leaves them as they were. The metrics map is never touched.
     */
    method ClearCache(scope: ClearScope, memoryClearOk: bool, diskClearOk: bool)
      returns (calls: seq<CacheClearCall>)
      requires Valid()
      modifies this`hits, this`misses, this`total
      ensures Valid()
      ensures calls == ClearCalls(scope, memoryClearOk)
      ensures ClearSucceeds(scope, memoryClearOk, diskClearOk) ==> hits == 0 && misses == 0 && total == 0
      ensures !ClearSucceeds(scope, memoryClearOk, diskClearOk) ==>
        hits == old(hits) && misses == old(misses) && total == old(total)
    {
      calls := [];
      if scope == ClearAll || scope == ClearMemory {
        calls := calls + [MemoryCacheClear];
        if !memoryClearOk {
          return;
        }
      }
      if scope == ClearAll || scope == ClearDisk {
        calls := calls + [DiskCacheClear];
        if !diskClearOk {
          return;
        }
      }
      ResetCacheStats();
    }
  }
}
