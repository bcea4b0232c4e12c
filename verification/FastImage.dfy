/**
 * The load-status machine of components/FastImageView.tsx: three flags moved by the image's
 * load-start, load and error callbacks, the normalisation of the source, placeholder and
 * fallback props, and which of the placeholder, content, error view and spinner are shown.
 */
module FastImage {
  import opened Wrappers

  datatype Fit = Cover | Contain | Fill | NoFit | ScaleDown

  /** An image prop: a URI string, a `{ uri }` object, or a bundled asset handle from `require`. */
  datatype Source = Text(text: string) | UriObject(uri: string) | Asset(handle: int)

  /** JavaScript truthiness of an optional prop: absent, the empty string and 0 are falsy. */
  predicate Truthy(p: Option<Source>): (b: bool)
    ensures b <==> p.Some? && p.value != Text("") && p.value != Asset(0)
  {
    match p
    case None => false
    case Some(Text(s)) => s != ""
    case Some(UriObject(_)) => true
    case Some(Asset(h)) => h != 0
  }

  /** A string becomes `{ uri: s }`; an object or asset handle passes through unchanged. */
  function NormalizeSource(s: Source): (r: Source)
    ensures !r.Text?
    ensures s.Text? ==> r == UriObject(s.text)
    ensures !s.Text? ==> r == s
  {
    match s
    case Text(t) => UriObject(t)
    case _ => s
  }

  /** Normalising twice is normalising once. */
  lemma NormalizeSourceIdempotent(s: Source)
    ensures NormalizeSource(NormalizeSource(s)) == NormalizeSource(s)
  {
  }

  /** memoizedPlaceholder / memoizedFallback: null for a falsy prop, otherwise the normalised prop. */
  function NormalizeOptional(p: Option<Source>): (r: Option<Source>)
    ensures r.Some? <==> Truthy(p)
    ensures r.Some? ==> r.value == NormalizeSource(p.value)
  {
    if Truthy(p) then Some(NormalizeSource(p.value)) else None
  }

  /** A normalised prop is never a string and, when present, still truthy: normalising is idempotent. */
  lemma NormalizeOptionalIdempotent(p: Option<Source>)
    ensures NormalizeOptional(NormalizeOptional(p)) == NormalizeOptional(p)
  {
  }

  /** finalContentFit: the `contentFit` prop when given, otherwise `resizeMode`. */
  function FinalContentFit(contentFit: Option<Fit>, resizeMode: Fit): (f: Fit)
    ensures contentFit.Some? ==> f == contentFit.value
    ensures contentFit.None? ==> f == resizeMode
  {
    contentFit.GetOr(resizeMode)
  }

  datatype Flags = Flags(isLoading: bool, hasError: bool, imageLoaded: bool)

  datatype Event = LoadStart | Load | Error

  /** Never loading and failed at once. */
  predicate Consistent(f: Flags) {
    !(f.isLoading && f.hasError)
  }

  /** The state a component starts in: loading, no error, nothing loaded. */
  const Initial: Flags := Flags(true, false, false)

  /**
   * One callback: load-start raises loading and clears the error; load ends loading and marks
   * the image loaded; error ends loading and raises the error. Each keeps the flag it does not set,
   * so whatever the flags were before, the view is never left loading and failed at once.
   */
  function Step(f: Flags, e: Event): (r: Flags)
    ensures Consistent(r)
    ensures r.isLoading <==> e == LoadStart
    ensures r.hasError <==> e == Error || (e == Load && f.hasError)
    ensures r.imageLoaded <==> e == Load || f.imageLoaded
  {
    match e
    case LoadStart => f.(isLoading := true, hasError := false)
    case Load => f.(isLoading := false, imageLoaded := true)
    case Error => f.(isLoading := false, hasError := true)
  }

  function Run(f: Flags, events: seq<Event>): Flags
    decreases |events|
  {
    if events == [] then f else Run(Step(f, events[0]), events[1..])
  }

  /** Every state reachable from the initial one is consistent. */
  lemma {:induction false} RunIsConsistent(f: Flags, events: seq<Event>)
    requires Consistent(f)
    ensures Consistent(Run(f, events))
    decreases |events|
  {
    if events != [] {
      RunIsConsistent(Step(f, events[0]), events[1..]);
    }
  }

  lemma InitialIsConsistent()
    ensures Consistent(Initial)
    ensures Run(Initial, []) == Initial
  {
  }

  /** No callback clears `imageLoaded`: once loaded, loaded for good. */
  lemma {:induction false} ImageLoadedIsSticky(f: Flags, events: seq<Event>)
    requires f.imageLoaded
    ensures Run(f, events).imageLoaded
    decreases |events|
  {
    if events != [] {
      ImageLoadedIsSticky(Step(f, events[0]), events[1..]);
    }
  }

  /** Once a load has been reported, the image counts as loaded from then on. */
  lemma {:induction false} LoadedAfterLoad(f: Flags, events: seq<Event>)
    requires Load in events
    ensures Run(f, events).imageLoaded
    decreases |events|
  {
    if events[0] == Load {
      ImageLoadedIsSticky(Step(f, Load), events[1..]);
    } else {
      LoadedAfterLoad(Step(f, events[0]), events[1..]);
    }
  }

  /** The fallback replaces the source exactly when the load failed and a fallback is given. */
  predicate ShowsFallback(f: Flags, fallback: Option<Source>): (b: bool)
    ensures b <==> f.hasError && Truthy(fallback)
  {
    f.hasError && NormalizeOptional(fallback).Some?
  }

  /** currentSource: the normalised fallback after a failure, the normalised source otherwise. */
  function CurrentSource(f: Flags, source: Source, fallback: Option<Source>): (r: Source)
    ensures !r.Text?
    ensures ShowsFallback(f, fallback) ==> r == NormalizeSource(fallback.value)
    ensures !ShowsFallback(f, fallback) ==> r == NormalizeSource(source)
  {
    var memoizedFallback := NormalizeOptional(fallback);
    if f.hasError && memoizedFallback.Some? then memoizedFallback.value else NormalizeSource(source)
  }

  /** renderContent shows the "failed to load" view exactly when the load failed with no fallback. */
  predicate ShowsErrorView(f: Flags, fallback: Option<Source>): (b: bool)
    ensures b <==> f.hasError && !Truthy(fallback)
  {
    f.hasError && NormalizeOptional(fallback).None?
  }

  /** renderLoadingIndicator: shown while loading, if enabled and nothing has loaded yet. */
  predicate LoadingIndicatorVisible(showLoadingIndicator: bool, f: Flags): (b: bool)
    ensures b <==> showLoadingIndicator && f.isLoading && !f.imageLoaded
  {
    !(!showLoadingIndicator || !f.isLoading || f.imageLoaded)
  }

  /** renderPlaceholder: shown while a placeholder is given and nothing has loaded or failed. */
  predicate PlaceholderVisible(placeholder: Option<Source>, f: Flags): (b: bool)
    ensures b <==> Truthy(placeholder) && !f.imageLoaded && !f.hasError
  {
    !(NormalizeOptional(placeholder).None? || f.imageLoaded || f.hasError)
  }

  /** After a failure exactly one of the fallback and the error view is used; before it, neither. */
  lemma FailureShowsFallbackOrErrorView(f: Flags, fallback: Option<Source>)
    ensures f.hasError <==> ShowsFallback(f, fallback) || ShowsErrorView(f, fallback)
    ensures !(ShowsFallback(f, fallback) && ShowsErrorView(f, fallback))
  {
  }

  /** In a consistent state the spinner and the error view are never shown together. */
  lemma IndicatorExcludesErrorView(showLoadingIndicator: bool, f: Flags, fallback: Option<Source>)
    requires Consistent(f)
    ensures !(LoadingIndicatorVisible(showLoadingIndicator, f) && ShowsErrorView(f, fallback))
  {
  }

  /** Once a load has been reported, neither the placeholder nor the spinner comes back. */
  lemma NoPlaceholderOrIndicatorAfterLoad(
    f: Flags, events: seq<Event>, placeholder: Option<Source>, showLoadingIndicator: bool)
    requires Load in events
    ensures !PlaceholderVisible(placeholder, Run(f, events))
    ensures !LoadingIndicatorVisible(showLoadingIndicator, Run(f, events))
  {
    LoadedAfterLoad(f, events);
  }

  /** A FastImageView instance: its props and its three state flags. */
  class FastImageView {
    const source: Source
    const placeholder: Option<Source>
    const fallback: Option<Source>
    const showLoadingIndicator: bool
    const contentFit: Option<Fit>
    const resizeMode: Fit
    var isLoading: bool
    var hasError: bool
    var imageLoaded: bool

    function State(): Flags
      reads this
    {
      Flags(isLoading, hasError, imageLoaded)
    }

    /** A fresh component: loading, without an error, nothing loaded. */
    constructor (source: Source, placeholder: Option<Source>, fallback: Option<Source>,
                 showLoadingIndicator: bool, contentFit: Option<Fit>, resizeMode: Fit)
      ensures State() == Initial
      ensures this.source == source && this.placeholder == placeholder && this.fallback == fallback
      ensures this.showLoadingIndicator == showLoadingIndicator
      ensures this.contentFit == contentFit && this.resizeMode == resizeMode
    {
      this.source := source;
      this.placeholder := placeholder;
      this.fallback := fallback;
      this.showLoadingIndicator := showLoadingIndicator;
      this.contentFit := contentFit;
      this.resizeMode := resizeMode;
      isLoading := true;
      hasError := false;
      imageLoaded := false;
    }

    /** handleLoadStart */
    method HandleLoadStart()
      modifies this`isLoading, this`hasError
      ensures State() == Step(old(State()), LoadStart)
      ensures isLoading && !hasError && imageLoaded == old(imageLoaded)
    {
      isLoading := true;
      hasError := false;
    }

    /** handleLoad */
    method HandleLoad()
      modifies this`isLoading, this`imageLoaded
      ensures State() == Step(old(State()), Load)
      ensures !isLoading && imageLoaded && hasError == old(hasError)
    {
      isLoading := false;
      imageLoaded := true;
    }

    /** handleError */
    method HandleError()
      modifies this`isLoading, this`hasError
      ensures State() == Step(old(State()), Error)
      ensures !isLoading && hasError && imageLoaded == old(imageLoaded)
    {
      isLoading := false;
      hasError := true;
    }
  }
}
