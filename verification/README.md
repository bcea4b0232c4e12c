# Image optimisation and gallery state, modelled in Dafny

This project models the image layer of the KevinHealthcare app: the `ImageOptimizer` service and
its `imageUtils` helpers, the `useImageOptimization` hook built on it, the index state of the
`OptimizedImageGallery` component, and the load-status flags of `FastImageView`. It also proves
what these pieces promise.

- `Wrappers.dfy`: `Option` (JavaScript `undefined`, an absent key, a null return) and `Result`
  (a thrown error).
- `ImageOptimization.dfy`: the `ImageOptimizer` class.
  - Its counters and its per-image metrics map are fields. The map is a `map` plus the
    insertion order of its keys, because `Array.from(map.values())` iterates in that order.
  - Its advice functions (dimensions, cache policy, priority, analytics) are functions.
  - `preloadImages` is a method with the loop over prefetch outcomes.
  - `clearCache` is a method that takes the outcome of each cache clear as an argument.
- `ImageUtils.dfy`: the `imageUtils` helpers `getDeviceMemoryCapacity` (the platform is an
  argument) and `generatePlaceholderColor`.
  - The hash loop runs over the UTF-16 code units of the string, with ECMAScript ToInt32
    wrap-around written out.
  - A lemma identifies the result as the polynomial hash `sum of unit[i] * 31^(n-1-i)` reduced
    to a signed 32-bit integer.
- `ImageOptimizationHook.dfy`: the hook as a class holding the shared optimizer.
  - The `images` map is a field. Each `setState(prev => …)` is a pure map function applied in
    program order.
  - The preload queue and the in-flight flag (refs) are fields that the methods update in place.
  - The clock readings (`Date.now`) and the screen size are arguments.
- `Gallery.dfy`: the gallery's `currentIndex` as a class with one variable field.
  - Each handler is proved against a pure `Step` function over gallery events.
  - The thumbnail strip, the counter and the strip's visibility are pure derivations.
- `FastImage.dfy`: the three load flags as a class whose handlers are proved against a pure
  `Step` function over image callbacks.
  - Also modelled: source normalisation, the effective content fit, and which of the
    placeholder, content, error view and spinner are shown.

Behaviours of the code that are easy to misread, and that the model keeps:

- `preloadImages` counts in `loaded` every prefetch whose promise resolves, whatever value it
  resolves to. Only a rejected prefetch is caught before `loaded++`. A prefetch that reports
  failure by resolving `false` is therefore counted as loaded.
- `clearCache` resets the counters only when every selected clear succeeds. A throwing clear
  jumps past `resetCacheStats`.
- `calculateOptimalDimensions` clamps each side to 50 before rounding to a multiple of 8, so
  the smallest result is 48, not 50.
- A thumbnail press is not bounds-checked. The model requires an in-range index, which is the
  only kind the thumbnail strip offers.

## Model

| member | source | states |
|---|---|---|
| ImageOptimization.QualityMultiplier | utils/imageOptimization.ts:87-91 | the quality multiplier lies in (0, 1] |
| ImageOptimization.Round | utils/imageOptimization.ts:111-112 | Math.round gives the integer within one half of its argument, halves rounded up |
| ImageOptimization.RoundToMultipleOf8 | utils/imageOptimization.ts:111-112 | the result is a multiple of 8 within 4 of its argument |
| ImageOptimization.TargetSizeKeepsAspect | utils/imageOptimization.ts:93-103 | landscape keeps the scaled width and the height is width / ratio; otherwise it keeps the scaled height and the width is height * ratio |
| ImageOptimization.CalculateOptimalDimensions | utils/imageOptimization.ts:81-115 | both sides are multiples of 8, at least 48, and within 4 of the target clamped to at least 50 |
| ImageOptimization.MinimumDimensionIs48 | utils/imageOptimization.ts:105-112 | a small container yields 48 x 48, below the intended minimum of 50 |
| ImageOptimization.GetOptimalCachePolicy | utils/imageOptimization.ts:118-132 | memory-disk exactly for frequently used images; memory-only exactly for an infrequent image over 1 MiB on a low-memory device; disk otherwise |
| ImageOptimization.GetOptimalPriority | utils/imageOptimization.ts:135-144 | high exactly when the user is interacting; low exactly when nothing holds |
| ImageOptimization.MergeMetrics | utils/imageOptimization.ts:203 | the spread: each field present in the update wins, each absent one keeps the stored value; an empty update keeps the record |
| ImageOptimization.MergeTwice | utils/imageOptimization.ts:192-204 | two records for one id merge to the second's present fields over the first's |
| ImageOptimization.FullUpdateReplaces | utils/imageOptimization.ts:196-203 | a record naming every field replaces the stored one whatever it was |
| ImageOptimization.CountWhere | utils/imageOptimization.ts:213-221 | a filtered count never exceeds the number of records |
| ImageOptimization.CountWhereAllOrNone | utils/imageOptimization.ts:213-221 | the filter keeps every record when all pass and none when all fail |
| ImageOptimization.Analyze | utils/imageOptimization.ts:207-223 | null exactly for no records; otherwise totalImages is the record count, networkRequests is at most that, and the hit rate is in [0, 1] |
| ImageOptimization.AllMissesAnalytics | utils/imageOptimization.ts:207-223 | records that are all network misses give hit rate 0 and one network request per image |
| ImageOptimization.SingleImageAnalytics | utils/imageOptimization.ts:207-223 | with one record the analytics are that record's values |
| ImageOptimization.CountTrue | utils/imageOptimization.ts:152-165 | the number of successful prefetches is at most the number of sources |
| ImageOptimization.ClearCalls | utils/imageOptimization.ts:169-176 | the memory clear is issued exactly when selected; the disk clear exactly when selected and no earlier memory clear threw; memory before disk |
| ImageOptimization.ValuesInOrder | utils/imageOptimization.ts:208 | the values come out one per key, in key order |
| ImageOptimization.ImageOptimizer.OrderListsKeys | utils/imageOptimization.ts:66 | the recorded insertion order lists exactly the keys of the metrics map |
| ImageOptimization.ImageOptimizer.constructor | utils/imageOptimization.ts:64-71 | zero counters and an empty metrics map |
| ImageOptimization.ImageOptimizer.UpdateCacheStats | utils/imageOptimization.ts:236-243 | total and exactly one of hits or misses rise by one, keeping total == hits + misses |
| ImageOptimization.ImageOptimizer.ResetCacheStats | utils/imageOptimization.ts:231-233 | all three counters become 0 |
| ImageOptimization.ImageOptimizer.GetCacheStats | utils/imageOptimization.ts:184-189 | the counters with a hit rate in [0, 1]: 0 before any lookup, hits / total after |
| ImageOptimization.ImageOptimizer.RecordPerformanceMetrics | utils/imageOptimization.ts:192-204 | the id maps to its old record (or the defaults) merged with the update; a new id goes to the end of the order; nothing else changes |
| ImageOptimization.ImageOptimizer.ResetPerformanceMetrics | utils/imageOptimization.ts:226-228 | the metrics map is empty |
| ImageOptimization.ImageOptimizer.Values | utils/imageOptimization.ts:208 | one value per recorded id, in insertion order |
| ImageOptimization.ImageOptimizer.GetPerformanceAnalytics | utils/imageOptimization.ts:207-223 | null exactly when nothing is recorded; otherwise totalImages equals the number of recorded ids |
| ImageOptimization.ImageOptimizer.PreloadImages | utils/imageOptimization.ts:147-166 | total is the number of sources; loaded counts the successes; progress reports (1, total) up to (loaded, total) |
| ImageOptimization.ImageOptimizer.ClearCache | utils/imageOptimization.ts:169-181 | issues the selected clears; counters become 0 when every clear succeeds and are unchanged otherwise |
| ImageUtils.GetDeviceMemoryCapacity | utils/imageOptimization.ts:280-295 | never low; high exactly on iOS |
| ImageUtils.ToInt32 | utils/imageOptimization.ts:302-303 | a signed 32-bit integer congruent to the input modulo 2^32, and the identity on 32-bit inputs |
| ImageUtils.CodeUnits | utils/imageOptimization.ts:301 | one or two UTF-16 code units per character, each below 0x10000 |
| ImageUtils.Utf16 | utils/imageOptimization.ts:300-301 | at least one code unit per character, each below 0x10000 |
| ImageUtils.HashStep | utils/imageOptimization.ts:302-303 | one round leaves a signed 32-bit integer congruent to hash * 31 + unit modulo 2^32 |
| ImageUtils.StringHash | utils/imageOptimization.ts:299-304 | the hash stays a signed 32-bit integer after every round |
| ImageUtils.HashStepIsTimes31 | utils/imageOptimization.ts:302-303 | one round computes hash * 31 + unit wrapped to 32 bits |
| ImageUtils.StringHashIsWrappedPolynomial | utils/imageOptimization.ts:299-304 | the loop's hash is the base-31 polynomial of the code units reduced to a signed 32-bit integer |
| ImageUtils.Abs | utils/imageOptimization.ts:306-308 | Math.abs gives the argument or its negation, never negative |
| ImageUtils.ColorOf | utils/imageOptimization.ts:306-310 | hue in [0, 359], saturation in [20, 49], lightness in [85, 94] |
| ImageUtils.GeneratePlaceholderColor | utils/imageOptimization.ts:298-311 | the colour is determined by the string's polynomial hash alone and lies in those ranges |
| ImageOptimizationHook.ApplyUpdateFieldwise | hooks/useImageOptimization.ts:110 | `{ ...current, ...updates }`: each field present in the update wins, each absent one keeps the current value; an empty update changes nothing |
| ImageOptimizationHook.EstimatedMetricsIsNetworkMiss | hooks/useImageOptimization.ts:159-166 | the record loadImage writes is a miss served by a network request, with its load time and 4 bytes per pixel of the dimensions (never negative), and it replaces whatever was stored |
| ImageOptimizationHook.PublishedMetricsCountRecords | hooks/useImageOptimization.ts:70-81 | non-null analytics are published with the image count equal to the number of records, network requests at most that, and the mean load time carried over |
| ImageOptimizationHook.InitializeImage | hooks/useImageOptimization.ts:85-95 | the id gets the three cleared flags and no optional fields; other ids keep their entries |
| ImageOptimizationHook.UpdateImageState | hooks/useImageOptimization.ts:98-113 | the id's entry (or the fresh one) is overwritten by the fields the update names; other ids keep theirs |
| ImageOptimizationHook.InitializeBeforeUpdateIsRedundant | hooks/useImageOptimization.ts:135-141 | for an unknown id, initialising before the update changes nothing |
| ImageOptimizationHook.InitializeOverridesUpdate | hooks/useImageOptimization.ts:85-113 | initialising discards any earlier update of that id |
| ImageOptimizationHook.ResetLoadFlags | hooks/useImageOptimization.ts:250-260 | same ids; loaded and loading cleared; error, time, cache hit and dimensions kept |
| ImageOptimizationHook.ResetLoadFlagsIdempotent | hooks/useImageOptimization.ts:250-260 | resetting twice is resetting once |
| ImageOptimizationHook.Uris | hooks/useImageOptimization.ts:203-207 | exactly the uris the batch names |
| ImageOptimizationHook.BatchSize | hooks/useImageOptimization.ts:221 | splice(0, threshold) takes min(threshold, length) items, none for a non-positive threshold |
| ImageOptimizationHook.ImageOptimizationHook.constructor | hooks/useImageOptimization.ts:39-58 | empty maps and sets, zero stats, an empty queue, not preloading |
| ImageOptimizationHook.ImageOptimizationHook.UpdateCacheStats | hooks/useImageOptimization.ts:61-67 | the published stats are the optimizer's current ones |
| ImageOptimizationHook.ImageOptimizationHook.UpdatePerformanceMetrics | hooks/useImageOptimization.ts:70-82 | publishes the analytics when there are any; otherwise the published values stay |
| ImageOptimizationHook.ImageOptimizationHook.LoadImage | hooks/useImageOptimization.ts:116-188 | the id ends loaded and not loading, with the time, a miss and the computed dimensions, and failed exactly when the caller's onLoad throws; a miss is counted; with monitoring on, the estimate is recorded (a new id appended to the order) and published |
| ImageOptimizationHook.ImageOptimizationHook.RecordLoad | hooks/useImageOptimization.ts:144-167 | a miss is counted and republished, the dimensions computed, and with monitoring on the estimated record stored (a new id appended to the order) and the analytics published |
| ImageOptimizationHook.ImageOptimizationHook.BeginLoad | hooks/useImageOptimization.ts:135-141 | the id's entry is marked loading with its error cleared; other ids keep theirs |
| ImageOptimizationHook.ImageOptimizationHook.CountMiss | hooks/useImageOptimization.ts:144-149 | misses and total rise by one, hits unchanged, and the stats are republished |
| ImageOptimizationHook.ImageOptimizationHook.SettleLoad | hooks/useImageOptimization.ts:170-186 | the entry ends loaded and not loading, with time, cache miss and dimensions; it is failed exactly when it already was or onLoad threw |
| ImageOptimizationHook.ImageOptimizationHook.FailLoad | hooks/useImageOptimization.ts:181-185 | the catch block: the entry (or a fresh one) stops loading and is marked failed, all else kept |
| ImageOptimizationHook.ImageOptimizationHook.FinishLoad | hooks/useImageOptimization.ts:171-177 | the id is loaded and not loading, with time, cache miss and dimensions; its error flag is kept |
| ImageOptimizationHook.ImageOptimizationHook.MonitorLoad | hooks/useImageOptimization.ts:160-167 | with monitoring on, the record becomes the estimate, a new id is appended to the order, and the analytics are published; with it off, nothing changes |
| ImageOptimizationHook.ImageOptimizationHook.StartPreload | hooks/useImageOptimization.ts:195-197 | starts exactly when preloading is enabled and no batch is in flight, then raises the flag |
| ImageOptimizationHook.ImageOptimizationHook.FinishPreload | hooks/useImageOptimization.ts:199-212 | every uri of the batch is marked preloaded whether or not its prefetch succeeded; the flag drops |
| ImageOptimizationHook.ImageOptimizationHook.PreloadImages | hooks/useImageOptimization.ts:191-213 | a refused call returns nothing and changes nothing; otherwise the batch result is returned and the uris are added |
| ImageOptimizationHook.ImageOptimizationHook.QueuePreload | hooks/useImageOptimization.ts:216-224 | the item is appended; when idle, the first threshold items leave in FIFO order and start preloading only if enabled; otherwise they are dropped |
| ImageOptimizationHook.ImageOptimizationHook.ClearCache | hooks/useImageOptimization.ts:245-261 | the optimizer's counters become 0 when every selected clear succeeds and are unchanged otherwise, and the published stats equal the optimizer's (zero after a successful clear, the old ones otherwise); every image keeps its entry with the load flags cleared; metrics are untouched |
| ImageOptimizationHook.ImageOptimizationHook.ResetPerformanceMetrics | hooks/useImageOptimization.ts:264-267 | the optimizer's records are emptied and the published metrics keep their last values |
| ImageOptimizationHook.ImageOptimizationHook.GetImageState | hooks/useImageOptimization.ts:270-272 | undefined exactly for an unknown id, otherwise its entry |
| ImageOptimizationHook.ImageOptimizationHook.Cleanup | hooks/useImageOptimization.ts:285-291 | the queue is emptied and the in-flight flag lowered |
| ImageOptimizationHook.ImageOptimizationHook.GetOptimalCachePolicyAsWritten | hooks/useImageOptimization.ts:227-233 | every call throws, since the optimizer has no getDeviceMemoryCapacity |
| ImageOptimizationHook.ImageOptimizationHook.GetOptimalCachePolicy | hooks/useImageOptimization.ts:227-233 | using the utility's memory class: never memory-only; memory-disk exactly for frequently used images |
| ImageOptimizationHook.ImageOptimizationHook.GetOptimalPriority | hooks/useImageOptimization.ts:236-242 | the optimizer's priority: high exactly when interacting, low exactly when nothing holds |
| Gallery.SwipeTarget | components/OptimizedImageGallery.tsx:119-124 | moves exactly when swiping left before the last image or right after the first; at most one step; stays in range |
| Gallery.Step | components/OptimizedImageGallery.tsx:108-142 | a disabled swipe and an empty viewable list keep the index, a tap selects its thumbnail, and every event that names an existing image keeps an in-range index in range |
| Gallery.RunStaysInRange | components/OptimizedImageGallery.tsx:108-142 | any sequence of such events keeps the index in range |
| Gallery.SwipesKeepSingleImage | components/OptimizedImageGallery.tsx:116-133 | with at most one image, no swipes ever move the index |
| Gallery.LeftSwipesAdvance | components/OptimizedImageGallery.tsx:116-133 | n left swipes advance n images, stopping at the last one |
| Gallery.ThreeSwipesOverEightImages | constants/degreeData.ts:3-39 | in the eight-product BDS gallery, three left swipes from the first image reach index 3, and ten reach 7 |
| Gallery.ThumbnailData | components/OptimizedImageGallery.tsx:84-90 | one entry per image, in order, carrying its position, active exactly at the current index |
| Gallery.ActiveCountOfPrefix | components/OptimizedImageGallery.tsx:84-90 | a prefix of the strip has one active entry when it holds the current index, and none otherwise |
| Gallery.ExactlyOneActiveThumbnail | components/OptimizedImageGallery.tsx:84-90 | exactly one entry is active when the index is in range, and none otherwise |
| Gallery.CounterText | components/OptimizedImageGallery.tsx:221-223 | shows index + 1 of length, between 1 and length exactly when the index is in range |
| Gallery.ThumbnailsVisible | components/OptimizedImageGallery.tsx:230-231 | the strip is rendered exactly when enabled and there are at least two images |
| Gallery.CounterView | components/OptimizedImageGallery.tsx:218-226 | the counter is rendered exactly when showImageCounter is set, and then reads index + 1 of length |
| Gallery.VisibleStripHighlightsOne | components/OptimizedImageGallery.tsx:230-231 | a visible strip has at least two entries and highlights exactly one |
| Gallery.Gallery.constructor | components/OptimizedImageGallery.tsx:73 | the index starts at initialIndex |
| Gallery.Gallery.HandleSwipe | components/OptimizedImageGallery.tsx:116-133 | the index follows the swipe step, or stays put when swiping is disabled; a scroll is requested only on a change, to the new index |
| Gallery.Gallery.HandleThumbnailPress | components/OptimizedImageGallery.tsx:108-114 | the index becomes the tapped one and the pager scrolls there |
| Gallery.Gallery.HandleViewableItemsChanged | components/OptimizedImageGallery.tsx:135-142 | adopts the first viewable index; with nothing viewable the index is unchanged |
| FastImage.Truthy | components/FastImageView.tsx:69-89 | a prop counts as given unless absent, the empty string or the asset handle 0 |
| FastImage.NormalizeSource | components/FastImageView.tsx:62-67 | a string becomes { uri }; objects and assets pass through |
| FastImage.NormalizeSourceIdempotent | components/FastImageView.tsx:62-67 | normalising twice is normalising once |
| FastImage.NormalizeOptional | components/FastImageView.tsx:70-89 | null exactly for a falsy prop, otherwise the normalised prop |
| FastImage.NormalizeOptionalIdempotent | components/FastImageView.tsx:70-89 | normalising a normalised prop changes nothing |
| FastImage.FinalContentFit | components/FastImageView.tsx:116 | contentFit when given, otherwise resizeMode |
| FastImage.Step | components/FastImageView.tsx:91-106 | after any callback the view is never loading and failed at once; loading exactly after load-start; failed exactly after an error or a load that kept an earlier error; loaded once a load is reported |
| FastImage.RunIsConsistent | components/FastImageView.tsx:57-106 | that holds in every state reached from a consistent one |
| FastImage.InitialIsConsistent | components/FastImageView.tsx:57-59 | the initial flags are consistent |
| FastImage.ImageLoadedIsSticky | components/FastImageView.tsx:91-106 | no callback clears imageLoaded |
| FastImage.LoadedAfterLoad | components/FastImageView.tsx:96-100 | after any sequence containing a load, imageLoaded holds |
| FastImage.ShowsFallback | components/FastImageView.tsx:113 | the fallback is used exactly after a failure with a given fallback |
| FastImage.ShowsErrorView | components/FastImageView.tsx:119 | the error view is shown exactly after a failure without a fallback |
| FastImage.LoadingIndicatorVisible | components/FastImageView.tsx:149 | the spinner shows exactly while enabled, loading and nothing loaded yet |
| FastImage.PlaceholderVisible | components/FastImageView.tsx:161 | the placeholder shows exactly while one is given and the image has neither loaded nor failed |
| FastImage.CurrentSource | components/FastImageView.tsx:113 | the normalised fallback exactly after a failure with a fallback, the normalised source otherwise; never a bare string |
| FastImage.FailureShowsFallbackOrErrorView | components/FastImageView.tsx:113-126 | after a failure exactly one of the fallback and the error view is used; without one, neither |
| FastImage.IndicatorExcludesErrorView | components/FastImageView.tsx:119-158 | in a consistent state the spinner and the error view are never shown together |
| FastImage.NoPlaceholderOrIndicatorAfterLoad | components/FastImageView.tsx:148-176 | once a load is reported, neither the placeholder nor the spinner is shown again |
| FastImage.FastImageView.constructor | components/FastImageView.tsx:57-59 | starts loading, without an error, with nothing loaded |
| FastImage.FastImageView.HandleLoadStart | components/FastImageView.tsx:91-94 | loading, error cleared, imageLoaded unchanged |
| FastImage.FastImageView.HandleLoad | components/FastImageView.tsx:96-100 | not loading, loaded, error unchanged |
| FastImage.FastImageView.HandleError | components/FastImageView.tsx:102-106 | not loading, failed, imageLoaded unchanged |

## Left out

- Calls into expo-image (`Image.prefetch`, `clearMemoryCache`, `clearDiskCache`): each is an
  outcome argument (success or failure), not a call.
- ClearCache: runs as one atomic step, in both the optimizer and the hook. In the code, a
  `loadImage` can run while the clears are awaited, and the reset that follows then erases that
  load's miss. The model does not capture this interleaving.
- `Promise.all` concurrency: prefetch outcomes are a sequence in settlement order, and the hook's
  preload is split at its await into `StartPreload` and `FinishPreload`. Nothing else is
  interleaved in `PreloadImages`.
- React batching, re-rendering and stale closures: every `setState` updater is applied in
  program order to the current state.
- `Date.now`, `Dimensions.get` and `Platform.OS` are arguments.
- Caller callbacks are not modelled as code:
  - `onProgress` is modelled by the returned sequence of progress reports.
  - A throwing `onLoad` is an argument of `LoadImage`.
  - `onError`, `onPress` and `onImagePress` do not touch the modelled state.
- `console.warn` / `console.error` logging.
- Default arguments are passed explicitly: `quality = 'medium'`, `policy = 'all'`,
  `isFrequentlyUsed = false`, `deviceMemory = 'medium'`, `isUserInteracting = false`, the queue's
  `priority = 'low'`, `initialIndex = 0` and `resizeMode = 'cover'` are not defaults in the model.
- Strings with unpaired surrogates: a Dafny `string` holds Unicode scalar values, so `Utf16`
  never yields a lone surrogate code unit. The placeholder hash of such a JavaScript string is
  not modelled.
- `getInstance`: the singleton is one shared `ImageOptimizer` object passed to the hook.
- `formatFileSize`: it depends on `Math.log`, `toFixed` and floating-point formatting.
- `isImageCached` and `getImageDimensions`: stubs that always return false / null.
- `hsl(...)` string formatting: the colour is returned as its three integer components.
- NaN, infinities and floating-point rounding: dimensions, sizes and times are reals.
- LoadImage: models its catch block only for a throwing `onLoad`. The other calls in the try
  block (`updateCacheStats`, `calculateOptimalDimensions`, `recordPerformanceMetrics`) do not
  throw on the values the model admits.
- LoadImage: the unused `cachePolicy`, `priority` and `IMAGE_QUALITY_PRESETS` lookups are not
  modelled.
- The hook's unused options (`defaultCachePolicy`, `defaultPriority`, `memoryThreshold`) are not
  modelled.
- `isImagePreloaded` is a plain set lookup (`IsImagePreloaded`) with no contract of its own.
  `FinishPreload` states what enters the set.
- Gallery: animations (`handleClose` fade, `Animated` values), FlatList scrolling and layout,
  `handleImagePress`, styles and JSX are not modelled. `swipeThreshold` and
  `swipeVelocityThreshold` are never read.
- FastImageView: `handlePress`, styles, transitions and cache/priority props are passed
  through and not modelled.
- Gallery.Gallery.HandleThumbnailPress: requires an in-range index, where the source accepts
  any number.
- Gallery.Gallery.HandleViewableItemsChanged: keeps the index in range only when the first
  viewable index is in range. The pager only reports its own items.

## Findings

| source | as written | input that shows it | evidently intended | confidence | as-written member | corrected member |
|---|---|---|---|---|---|---|
| hooks/useImageOptimization.ts:231 | calls `imageOptimizer.getDeviceMemoryCapacity()`, but `ImageOptimizer` has no such method; it is defined on `imageUtils` (utils/imageOptimization.ts:280) | any call, e.g. `getOptimalCachePolicy(2000000, false)`, throws a TypeError | take the memory class from `imageUtils.getDeviceMemoryCapacity()` | high, not executed | ImageOptimizationHook.ImageOptimizationHook.GetOptimalCachePolicyAsWritten | ImageOptimizationHook.ImageOptimizationHook.GetOptimalCachePolicy |
