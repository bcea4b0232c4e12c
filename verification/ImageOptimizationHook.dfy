/**
 * The `useImageOptimization` hook of hooks/useImageOptimization.ts without its React wrapper.
 * Each `setState(prev => ...)` is a pure update of the per-image load-state map, applied in
 * program order; the preload queue and the in-flight flag (refs mutated in place) and the
 * published state are fields of a class that holds the shared ImageOptimizer.
 */
module ImageOptimizationHook {
  import opened Wrappers
  import opened ImageOptimization
  import ImageUtils

  datatype ImageLoadState = ImageLoadState(
    isLoading: bool, isLoaded: bool, hasError: bool,
    loadTime: Option<real>, cacheHit: Option<bool>, dimensions: Option<Dimensions>)

  /** A Partial<ImageLoadState>: a field is None when the key is absent. */
  datatype LoadStateUpdate = LoadStateUpdate(
    isLoading: Option<bool>, isLoaded: Option<bool>, hasError: Option<bool>,
    loadTime: Option<real>, cacheHit: Option<bool>, dimensions: Option<Dimensions>)

  /** The entry initializeImage writes, and the one updateImageState starts from for a new id. */
  const FreshState: ImageLoadState := ImageLoadState(false, false, false, None, None, None)

  /** `{ ...current, ...update }` */
  function ApplyUpdate(current: ImageLoadState, u: LoadStateUpdate): ImageLoadState
  {
    ImageLoadState(
      u.isLoading.GetOr(current.isLoading),
      u.isLoaded.GetOr(current.isLoaded),
      u.hasError.GetOr(current.hasError),
      if u.loadTime.Some? then u.loadTime else current.loadTime,
      if u.cacheHit.Some? then u.cacheHit else current.cacheHit,
      if u.dimensions.Some? then u.dimensions else current.dimensions)
  }

  /** The spread: a field present in the update wins, an absent one keeps the current value. */
  lemma ApplyUpdateFieldwise(current: ImageLoadState, u: LoadStateUpdate)
    ensures u.isLoading.Some? ==> ApplyUpdate(current, u).isLoading == u.isLoading.value
    ensures u.isLoading.None? ==> ApplyUpdate(current, u).isLoading == current.isLoading
    ensures u.isLoaded.Some? ==> ApplyUpdate(current, u).isLoaded == u.isLoaded.value
    ensures u.isLoaded.None? ==> ApplyUpdate(current, u).isLoaded == current.isLoaded
    ensures u.hasError.Some? ==> ApplyUpdate(current, u).hasError == u.hasError.value
    ensures u.hasError.None? ==> ApplyUpdate(current, u).hasError == current.hasError
    ensures ApplyUpdate(current, u).loadTime == if u.loadTime.Some? then u.loadTime else current.loadTime
    ensures ApplyUpdate(current, u).cacheHit == if u.cacheHit.Some? then u.cacheHit else current.cacheHit
    ensures ApplyUpdate(current, u).dimensions == if u.dimensions.Some? then u.dimensions else current.dimensions
    ensures u == LoadStateUpdate(None, None, None, None, None, None) ==> ApplyUpdate(current, u) == current
  {
  }

  /** Writing an entry twice leaves only the second write. */
  lemma OverwriteEntry(images: map<string, ImageLoadState>, imageId: string, first: ImageLoadState, second: ImageLoadState)
    ensures images[imageId := first][imageId := second] == images[imageId := second]
  {
  }

  /** initializeImage: `imageId` gets the three cleared flags and nothing else; other ids keep theirs. */
  function InitializeImage(images: map<string, ImageLoadState>, imageId: string): (r: map<string, ImageLoadState>)
    ensures r.Keys == images.Keys + {imageId}
    ensures !r[imageId].isLoading && !r[imageId].isLoaded && !r[imageId].hasError
    ensures r[imageId].loadTime.None? && r[imageId].cacheHit.None? && r[imageId].dimensions.None?
    ensures forall k {:trigger r[k]} :: k in images && k != imageId ==> r[k] == images[k]
  {
    images[imageId := FreshState]
  }

  /**
   * updateImageState: `imageId`'s entry (or the fresh one) overwritten by the fields the update
   * names; other ids keep theirs.
   */
  function UpdateImageState(images: map<string, ImageLoadState>, imageId: string, u: LoadStateUpdate): (r: map<string, ImageLoadState>)
    ensures r.Keys == images.Keys + {imageId}
    ensures r[imageId] == ApplyUpdate(if imageId in images then images[imageId] else FreshState, u)
    ensures forall k {:trigger r[k]} :: k in images && k != imageId ==> r[k] == images[k]
  {
    var current := if imageId in images then images[imageId] else FreshState;
    images[imageId := ApplyUpdate(current, u)]
  }

  /** Initializing an id that is absent changes nothing that a following update can see. */
  lemma InitializeBeforeUpdateIsRedundant(images: map<string, ImageLoadState>, imageId: string, u: LoadStateUpdate)
    requires imageId !in images
    ensures UpdateImageState(InitializeImage(images, imageId), imageId, u) == UpdateImageState(images, imageId, u)
  {
  }

  /** `{ isLoading: true, hasError: false }` */
  const MarkLoading: LoadStateUpdate := LoadStateUpdate(Some(true), None, Some(false), None, None, None)

  /** The update of loadImage's catch block: loading stops and the error flag is raised. */
  const MarkFailed: LoadStateUpdate := LoadStateUpdate(Some(false), None, Some(true), None, None, None)

  /** Initializing discards every earlier update of that id. */
  lemma InitializeOverridesUpdate(images: map<string, ImageLoadState>, imageId: string, u: LoadStateUpdate)
    ensures InitializeImage(UpdateImageState(images, imageId, u), imageId) == InitializeImage(images, imageId)
  {
  }

  /** The hook's clearCache map update: loaded and loading flags cleared, the rest kept. */
  function ResetLoadFlags(images: map<string, ImageLoadState>): (r: map<string, ImageLoadState>)
    ensures r.Keys == images.Keys
    ensures forall k :: k in r ==>
      && !r[k].isLoaded && !r[k].isLoading
      && r[k].hasError == images[k].hasError
      && r[k].loadTime == images[k].loadTime
      && r[k].cacheHit == images[k].cacheHit
      && r[k].dimensions == images[k].dimensions
  {
    map k | k in images :: images[k].(isLoaded := false, isLoading := false)
  }

  lemma ResetLoadFlagsIdempotent(images: map<string, ImageLoadState>)
    ensures ResetLoadFlags(ResetLoadFlags(images)) == ResetLoadFlags(images)
  {
  }

  /** The uris a preload batch names. */
  function Uris(sources: seq<PreloadSource>): (s: set<string>)
    ensures forall i :: 0 <= i < |sources| ==> sources[i].uri in s
    ensures forall u :: u in s ==> exists i :: 0 <= i < |sources| && sources[i].uri == u
  {
    set i | 0 <= i < |sources| :: sources[i].uri
  }

  /** `splice(0, threshold)` on a queue of `length` items removes this many from the front. */
  function BatchSize(threshold: int, length: nat): (n: nat)
    ensures n <= length
    ensures threshold <= 0 ==> n == 0
    ensures 0 <= threshold <= length ==> n == threshold
    ensures threshold >= length ==> n == length
  {
    if threshold <= 0 then 0 else if threshold < length then threshold else length
  }

  /**
   * What loadImage records for an image it never finds cached: the load time, a miss, a network
   * request and 4 bytes per pixel of the computed dimensions.
   */
  function EstimatedMetrics(loadTime: real, dimensions: Dimensions): Metrics {
    Metrics(loadTime, false, (dimensions.width * dimensions.height * 4) as real, true)
  }

  /** The hook's published `performanceMetrics`. */
  datatype PublishedMetrics = PublishedMetrics(averageLoadTime: real, totalImages: nat, networkRequests: nat)

  /**
   * The metrics map and its key order after recording `m` for `imageId` with a full update: the
   * record is replaced, and an id seen for the first time goes to the end of the order.
   */
  predicate RecordedAs(before: map<string, Metrics>, beforeOrder: seq<string>,
                       after: map<string, Metrics>, afterOrder: seq<string>, imageId: string, m: Metrics)
  {
    && after == before[imageId := m]
    && afterOrder == if imageId in before then beforeOrder else beforeOrder + [imageId]
  }

  function Publish(a: Analytics): PublishedMetrics {
    PublishedMetrics(a.averageLoadTime, a.totalImages, a.networkRequests)
  }

  /**
   * The record loadImage writes is a cache miss served by one network request, costing 4 bytes per
   * pixel of the computed dimensions (never negative), and it names every field, so it replaces
   * whatever was stored for the image.
   */
  lemma EstimatedMetricsIsNetworkMiss(loadTime: real, dimensions: Dimensions, existing: Metrics)
    ensures var m := EstimatedMetrics(loadTime, dimensions);
      && !m.cacheHit && m.networkRequest && m.loadTime == loadTime
      && m.memoryUsage == 4.0 * (dimensions.width as real) * (dimensions.height as real)
      && (0 <= dimensions.width && 0 <= dimensions.height ==> 0.0 <= m.memoryUsage)
      && MergeMetrics(existing, MetricsUpdate(Some(m.loadTime), Some(m.cacheHit), Some(m.memoryUsage),
           Some(m.networkRequest))) == m
  {
    var w, h := dimensions.width, dimensions.height;
    assert (w * h * 4) as real == 4.0 * (w as real) * (h as real);
    if 0 <= w && 0 <= h {
      assert 0 <= w * h;
    }
  }

  /**
   * What the hook publishes from non-null analytics: the image count is the number of records,
   * at most that many were network requests, and the mean load time is carried over.
   */
  lemma PublishedMetricsCountRecords(ms: seq<Metrics>)
    requires ms != []
    ensures Analyze(ms).Some?
    ensures var p := Publish(Analyze(ms).value);
      && p.totalImages == |ms|
      && p.networkRequests <= p.totalImages
      && p.averageLoadTime == Analyze(ms).value.averageLoadTime
  {
  }

  class ImageOptimizationHook {
    const optimizer: ImageOptimizer
    const enablePreloading: bool
    const enablePerformanceMonitoring: bool
    const preloadThreshold: int
    const screenWidth: real
    const screenHeight: real

    var images: map<string, ImageLoadState>
    var preloadedImages: set<string>
    var cacheStats: CacheStats
    var performanceMetrics: PublishedMetrics
    var preloadQueue: seq<PreloadSource>
    var isPreloading: bool

    ghost predicate Valid()
      reads optimizer
    {
      optimizer.Valid()
    }

    constructor (optimizer: ImageOptimizer, enablePreloading: bool, enablePerformanceMonitoring: bool,
                 preloadThreshold: int, screenWidth: real, screenHeight: real)
      requires optimizer.Valid()
      ensures Valid()
      ensures this.optimizer == optimizer && this.enablePreloading == enablePreloading
      ensures this.enablePerformanceMonitoring == enablePerformanceMonitoring
      ensures this.preloadThreshold == preloadThreshold
      ensures this.screenWidth == screenWidth && this.screenHeight == screenHeight
      ensures images == map[] && preloadedImages == {}
      ensures cacheStats == CacheStats(0, 0, 0, 0.0)
      ensures performanceMetrics == PublishedMetrics(0.0, 0, 0)
      ensures preloadQueue == [] && !isPreloading
    {
      this.optimizer := optimizer;
      this.enablePreloading := enablePreloading;
      this.enablePerformanceMonitoring := enablePerformanceMonitoring;
      this.preloadThreshold := preloadThreshold;
      this.screenWidth := screenWidth;
      this.screenHeight := screenHeight;
      images, preloadedImages := map[], {};
      cacheStats := CacheStats(0, 0, 0, 0.0);
      performanceMetrics := PublishedMetrics(0.0, 0, 0);
      preloadQueue, isPreloading := [], false;
    }

    /** The hook's updateCacheStats: publish the optimizer's counters. */
    method UpdateCacheStats()
      requires Valid()
      modifies this`cacheStats
      ensures cacheStats == optimizer.GetCacheStats()
    {
      cacheStats := optimizer.GetCacheStats();
    }

    /** Publishes the analytics when there are any; with no records the published values stay. */
    method UpdatePerformanceMetrics()
      requires Valid()
      modifies this`performanceMetrics
      ensures optimizer.GetPerformanceAnalytics().Some? ==>
        performanceMetrics == Publish(optimizer.GetPerformanceAnalytics().value)
      ensures optimizer.GetPerformanceAnalytics().None? ==> performanceMetrics == old(performanceMetrics)
    {
      var metrics := optimizer.GetPerformanceAnalytics();
      if metrics.Some? {
        performanceMetrics := Publish(metrics.value);
      }
    }

    /**
     * loadImage, run to completion with the three clock readings it takes and whether the caller's
     * `onLoad` callback throws. Only that callback can throw inside the try block; when it does, the
     * catch block marks the already loaded entry as failed as well.
     */
    method LoadImage(imageId: string, quality: Quality, startTime: real, recordedAt: real, finishedAt: real,
                     onLoadThrows: bool)
      returns (dimensions: Dimensions)
      requires Valid()
      modifies this`images, this`cacheStats, this`performanceMetrics, optimizer
      ensures Valid()
      ensures dimensions == CalculateOptimalDimensions(screenWidth, screenHeight, 1.0, quality)
      ensures images == old(images)[imageId :=
        ImageLoadState(false, true, onLoadThrows, Some(finishedAt - startTime), Some(false), Some(dimensions))]
      ensures optimizer.misses == old(optimizer.misses) + 1 && optimizer.total == old(optimizer.total) + 1
      ensures optimizer.hits == old(optimizer.hits)
      ensures cacheStats == optimizer.GetCacheStats()
      ensures enablePerformanceMonitoring ==>
        && RecordedAs(old(optimizer.performanceMetrics), old(optimizer.order),
             optimizer.performanceMetrics, optimizer.order, imageId, EstimatedMetrics(recordedAt - startTime, dimensions))
        && optimizer.GetPerformanceAnalytics().Some?
        && performanceMetrics == Publish(optimizer.GetPerformanceAnalytics().value)
      ensures !enablePerformanceMonitoring ==>
        && optimizer.performanceMetrics == old(optimizer.performanceMetrics)
        && optimizer.order == old(optimizer.order)
        && performanceMetrics == old(performanceMetrics)
    {
      BeginLoad(imageId);
      ghost var begun := images;
      dimensions := RecordLoad(imageId, quality, recordedAt - startTime);
      SettleLoad(imageId, finishedAt - startTime, dimensions, onLoadThrows);
      OverwriteEntry(old(images), imageId, begun[imageId], images[imageId]);
    }

    /**
     * The end of loadImage's try block and, when `onLoad` throws, its catch block: the entry is
     * loaded, not loading, a miss with time and dimensions, and failed exactly when it already was
     * or the callback threw.
     */
    method SettleLoad(imageId: string, loadTime: real, dimensions: Dimensions, onLoadThrows: bool)
      modifies this`images
      ensures images == old(images)[imageId := ImageLoadState(
        false, true, onLoadThrows || (imageId in old(images) && old(images)[imageId].hasError),
        Some(loadTime), Some(false), Some(dimensions))]
    {
      FinishLoad(imageId, loadTime, dimensions);
      if onLoadThrows {
        FailLoad(imageId);
      }
    }

    /**
     * The middle of loadImage's try block, which leaves the load-state map alone: a miss is
     * counted, the dimensions are chosen, and the estimated metrics are recorded when monitoring.
     */
    method RecordLoad(imageId: string, quality: Quality, loadTime: real) returns (dimensions: Dimensions)
      requires Valid()
      modifies this`cacheStats, this`performanceMetrics, optimizer
      ensures Valid()
      ensures dimensions == CalculateOptimalDimensions(screenWidth, screenHeight, 1.0, quality)
      ensures optimizer.misses == old(optimizer.misses) + 1 && optimizer.total == old(optimizer.total) + 1
      ensures optimizer.hits == old(optimizer.hits)
      ensures cacheStats == optimizer.GetCacheStats()
      ensures enablePerformanceMonitoring ==>
        && RecordedAs(old(optimizer.performanceMetrics), old(optimizer.order),
             optimizer.performanceMetrics, optimizer.order, imageId, EstimatedMetrics(loadTime, dimensions))
        && optimizer.GetPerformanceAnalytics().Some?
        && performanceMetrics == Publish(optimizer.GetPerformanceAnalytics().value)
      ensures !enablePerformanceMonitoring ==>
        && optimizer.performanceMetrics == old(optimizer.performanceMetrics)
        && optimizer.order == old(optimizer.order)
        && performanceMetrics == old(performanceMetrics)
    {
      CountMiss();
      dimensions := CalculateOptimalDimensions(screenWidth, screenHeight, 1.0, quality);
      MonitorLoad(imageId, loadTime, dimensions);
    }

    /**
     * The first steps of loadImage: an unknown id is initialized, then marked loading with its
     * error cleared. The initialization is invisible after the update.
     */
    method BeginLoad(imageId: string)
      modifies this`images
      ensures images == old(images)[imageId :=
        ApplyUpdate(if imageId in old(images) then old(images)[imageId] else FreshState, MarkLoading)]
      ensures images[imageId].isLoading && !images[imageId].hasError
    {
      if imageId !in images {
        InitializeBeforeUpdateIsRedundant(images, imageId, MarkLoading);
        images := InitializeImage(images, imageId);
      }
      images := UpdateImageState(images, imageId, MarkLoading);
    }

    /**
     * The cache check of loadImage: the image is assumed not cached, so a miss is counted and the
     * counters are republished.
     */
    method CountMiss()
      requires Valid()
      modifies this`cacheStats, optimizer`hits, optimizer`misses, optimizer`total
      ensures Valid()
      ensures optimizer.misses == old(optimizer.misses) + 1 && optimizer.total == old(optimizer.total) + 1
      ensures optimizer.hits == old(optimizer.hits)
      ensures cacheStats == optimizer.GetCacheStats()
    {
      var isCached := false;
      optimizer.UpdateCacheStats(isCached);
      UpdateCacheStats();
    }

    /** The last state update of loadImage: loaded, not loading, a miss, with time and dimensions. */
    method FinishLoad(imageId: string, loadTime: real, dimensions: Dimensions)
      modifies this`images
      ensures images == old(images)[imageId := ImageLoadState(
        false, true, imageId in old(images) && old(images)[imageId].hasError,
        Some(loadTime), Some(false), Some(dimensions))]
    {
      images := UpdateImageState(images, imageId, LoadStateUpdate(
        Some(false), Some(true), None, Some(loadTime), Some(false), Some(dimensions)));
    }

    /** loadImage's catch block: the entry stops loading and is marked failed; its other fields stay. */
    method FailLoad(imageId: string)
      modifies this`images
      ensures images == old(images)[imageId :=
        (if imageId in old(images) then old(images)[imageId] else FreshState).(isLoading := false, hasError := true)]
    {
      images := UpdateImageState(images, imageId, MarkFailed);
    }

    /**
     * The monitoring step of loadImage: when monitoring is on, record the estimated metrics and
     * republish the analytics; otherwise nothing changes.
     */
    method MonitorLoad(imageId: string, loadTime: real, dimensions: Dimensions)
      requires Valid()
      modifies this`performanceMetrics, optimizer`order, optimizer`performanceMetrics
      ensures Valid()
      ensures enablePerformanceMonitoring ==>
        && RecordedAs(old(optimizer.performanceMetrics), old(optimizer.order),
             optimizer.performanceMetrics, optimizer.order, imageId, EstimatedMetrics(loadTime, dimensions))
        && optimizer.GetPerformanceAnalytics().Some?
        && performanceMetrics == Publish(optimizer.GetPerformanceAnalytics().value)
      ensures !enablePerformanceMonitoring ==>
        && optimizer.performanceMetrics == old(optimizer.performanceMetrics)
        && optimizer.order == old(optimizer.order)
        && performanceMetrics == old(performanceMetrics)
    {
      if enablePerformanceMonitoring {
        var m := EstimatedMetrics(loadTime, dimensions);
        optimizer.RecordPerformanceMetrics(imageId, MetricsUpdate(
          Some(m.loadTime), Some(m.cacheHit), Some(m.memoryUsage), Some(m.networkRequest)));
        FullUpdateReplaces(if imageId in old(optimizer.performanceMetrics) then old(optimizer.performanceMetrics)[imageId] else DefaultMetrics, m);
        UpdatePerformanceMetrics();
      }
    }

    /**
     * The synchronous part of preloadImages, up to its first await: refused when preloading is
     * disabled or a batch is already in flight, otherwise raises the in-flight flag.
     */
    method StartPreload() returns (started: bool)
      modifies this`isPreloading
      ensures started <==> enablePreloading && !old(isPreloading)
      ensures isPreloading == (old(isPreloading) || started)
    {
      if !enablePreloading || isPreloading {
        return false;
      }
      isPreloading := true;
      started := true;
    }

    /**
     * The rest of a started preloadImages, once every prefetch has settled: every uri of the batch
     * is marked preloaded, whether or not its prefetch succeeded, and the flag drops.
     */
    method FinishPreload(sources: seq<PreloadSource>, outcomes: seq<bool>)
      returns (result: PreloadResult, progress: seq<(nat, nat)>)
      requires Valid()
      requires |outcomes| == |sources|
      modifies this`preloadedImages, this`isPreloading
      ensures result == PreloadResult(CountTrue(outcomes), |sources|)
      ensures forall k :: 0 <= k < |progress| ==> progress[k] == (k + 1, |sources|)
      ensures |progress| == CountTrue(outcomes)
      ensures preloadedImages == old(preloadedImages) + Uris(sources)
      ensures !isPreloading
    {
      result, progress := optimizer.PreloadImages(sources, outcomes);
      preloadedImages := preloadedImages + Uris(sources);
      isPreloading := false;
    }

    /** preloadImages awaited with nothing interleaved: None is the early return of a refused call. */
    method PreloadImages(sources: seq<PreloadSource>, outcomes: seq<bool>)
      returns (result: Option<PreloadResult>)
      requires Valid()
      requires |outcomes| == |sources|
      modifies this`preloadedImages, this`isPreloading
      ensures !enablePreloading || old(isPreloading) ==>
        result == None && preloadedImages == old(preloadedImages) && isPreloading == old(isPreloading)
      ensures enablePreloading && !old(isPreloading) ==>
        && result == Some(PreloadResult(CountTrue(outcomes), |sources|))
        && preloadedImages == old(preloadedImages) + Uris(sources)
        && !isPreloading
    {
      var started := StartPreload();
      if !started {
        return None;
      }
      var r, _ := FinishPreload(sources, outcomes);
      result := Some(r);
    }

    /**
     * queuePreload: appends the item; when no batch is in flight, the first `preloadThreshold`
     * items leave the queue in FIFO order and are handed to preloadImages, which starts them only
     * when preloading is enabled (otherwise the batch is dropped unpreloaded).
     */
    method QueuePreload(uri: string, priority: string) returns (batch: seq<PreloadSource>, started: bool)
      modifies this`preloadQueue, this`isPreloading
      ensures var queued := old(preloadQueue) + [PreloadSource(uri, Some(priority))];
        if old(isPreloading) then
          && batch == [] && !started && preloadQueue == queued && isPreloading
        else
          var n := BatchSize(preloadThreshold, |queued|);
          && batch == queued[..n] && preloadQueue == queued[n..]
          && batch + preloadQueue == queued
          && started == enablePreloading && isPreloading == started
    {
      preloadQueue := preloadQueue + [PreloadSource(uri, Some(priority))];
      batch, started := [], false;
      if !isPreloading && |preloadQueue| > 0 {
        var n := BatchSize(preloadThreshold, |preloadQueue|);
        batch := preloadQueue[..n];
        preloadQueue := preloadQueue[n..];
        started := StartPreload();
      }
    }

    /**
     * clearCache: the optimizer clears the selected caches, its counters are republished, and every
     * image keeps its entry with the loaded and loading flags cleared.
     */
    method ClearCache(scope: ClearScope, memoryClearOk: bool, diskClearOk: bool)
      returns (calls: seq<CacheClearCall>)
      requires Valid()
      modifies this`images, this`cacheStats, optimizer
      ensures Valid()
      ensures calls == ClearCalls(scope, memoryClearOk)
      ensures cacheStats == optimizer.GetCacheStats()
      ensures ClearSucceeds(scope, memoryClearOk, diskClearOk) ==>
        optimizer.hits == 0 && optimizer.misses == 0 && optimizer.total == 0
      ensures !ClearSucceeds(scope, memoryClearOk, diskClearOk) ==>
        optimizer.hits == old(optimizer.hits) && optimizer.misses == old(optimizer.misses) &&
        optimizer.total == old(optimizer.total)
      ensures ClearSucceeds(scope, memoryClearOk, diskClearOk) ==> cacheStats == CacheStats(0, 0, 0, 0.0)
      ensures !ClearSucceeds(scope, memoryClearOk, diskClearOk) ==> cacheStats == old(optimizer.GetCacheStats())
      ensures images == ResetLoadFlags(old(images))
      ensures optimizer.performanceMetrics == old(optimizer.performanceMetrics)
      ensures optimizer.order == old(optimizer.order)
    {
      calls := optimizer.ClearCache(scope, memoryClearOk, diskClearOk);
      UpdateCacheStats();
      images := ResetLoadFlags(images);
    }

    /** Empties the optimizer's records; the published metrics keep their last values. */
    method ResetPerformanceMetrics()
      requires Valid()
      modifies this`performanceMetrics, optimizer
      ensures Valid()
      ensures optimizer.performanceMetrics == map[] && optimizer.order == []
      ensures optimizer.hits == old(optimizer.hits) && optimizer.misses == old(optimizer.misses)
      ensures optimizer.total == old(optimizer.total)
      ensures performanceMetrics == old(performanceMetrics)
    {
      optimizer.ResetPerformanceMetrics();
      UpdatePerformanceMetrics();
    }

    /** getImageState: undefined for an id never initialized or updated. */
    function GetImageState(imageId: string): (r: Option<ImageLoadState>)
      reads this
      ensures r.Some? <==> imageId in images
      ensures r.Some? ==> r.value == images[imageId]
    {
      if imageId in images then Some(images[imageId]) else None
    }

    function IsImagePreloaded(uri: string): bool
      reads this
    {
      uri in preloadedImages
    }

    /** The unmount cleanup: the pending queue is dropped and the in-flight flag lowered. */
    method Cleanup()
      modifies this`preloadQueue, this`isPreloading
      ensures preloadQueue == [] && !isPreloading
    {
      preloadQueue := [];
      isPreloading := false;
    }

    /**
     * The hook's getOptimalCachePolicy as written: it calls `getDeviceMemoryCapacity` on the
     * optimizer object, which has no such method, so every call throws a TypeError.
     */
    function GetOptimalCachePolicyAsWritten(imageSize: real, isFrequentlyUsed: bool): (r: Result<CachePolicy, string>)
      ensures r.Failure?
    {
      Failure("imageOptimizer.getDeviceMemoryCapacity is not a function")
    }

    /**
     * The hook's getOptimalCachePolicy with the memory class taken from the utility that does
     * define it. That utility never reports a low-memory device, so the memory-only policy is
     * never chosen on this path.
     */
    function GetOptimalCachePolicy(imageSize: real, isFrequentlyUsed: bool, platform: ImageUtils.Platform): (p: CachePolicy)
      ensures p != MemoryCache
      ensures p == MemoryDiskCache <==> isFrequentlyUsed
    {
      ImageOptimization.GetOptimalCachePolicy(imageSize, isFrequentlyUsed, ImageUtils.GetDeviceMemoryCapacity(platform))
    }

    /** The hook's getOptimalPriority hands its three flags to the optimizer's unchanged. */
    function GetOptimalPriority(isVisible: bool, isAboveFold: bool, isUserInteracting: bool): (p: Priority)
      ensures p == HighPriority <==> isUserInteracting
      ensures p == LowPriority <==> !isVisible && !isAboveFold && !isUserInteracting
    {
      ImageOptimization.GetOptimalPriority(isVisible, isAboveFold, isUserInteracting)
    }
  }
}
