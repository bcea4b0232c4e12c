/**
 * The index state machine of components/OptimizedImageGallery.tsx: one `currentIndex` over a
 * fixed list of images, moved by swipes, thumbnail taps and the pager's viewability callback,
 * and the views derived from it (thumbnail strip, counter).
 */
module Gallery {
  import opened Wrappers

  datatype ImageItem = ImageItem(id: string, source: string, title: Option<string>, description: Option<string>)

  datatype SwipeDirection = Left | Right

  /** What moves the index: a swipe, a tap on thumbnail `index`, or the pager's viewable items. */
  datatype GalleryEvent =
    | Swipe(direction: SwipeDirection)
    | ThumbnailPress(index: int)
    | ViewableItemsChanged(viewable: seq<int>)

  /**
   * The index a swipe selects: left moves to the next image unless on the last one, right to the
   * previous one unless on the first; anything else keeps the index.
   */
  function SwipeTarget(index: int, length: nat, direction: SwipeDirection): (n: int)
    ensures n != index <==> (direction == Left && index < length - 1) || (direction == Right && index > 0)
    ensures n == index || n == index + 1 || n == index - 1
    ensures 0 <= index < length ==> 0 <= n < length
  {
    if direction == Left && index < length - 1 then index + 1
    else if direction == Right && index > 0 then index - 1
    else index
  }

  /** An event that names an image names one that exists (thumbnails and the pager only offer those). */
  predicate WellFormed(e: GalleryEvent, length: nat) {
    match e
    case Swipe(_) => true
    case ThumbnailPress(i) => 0 <= i < length
    case ViewableItemsChanged(viewable) => |viewable| > 0 ==> 0 <= viewable[0] < length
  }

  /**
   * The index after one event: a disabled swipe and an empty viewable list change nothing, and a
   * well-formed event keeps an in-range index in range.
   */
  function Step(index: int, length: nat, enableSwipe: bool, e: GalleryEvent): (n: int)
    ensures e.Swipe? && !enableSwipe ==> n == index
    ensures e.ViewableItemsChanged? && |e.viewable| == 0 ==> n == index
    ensures e.ThumbnailPress? ==> n == e.index
    ensures 0 <= index < length && WellFormed(e, length) ==> 0 <= n < length
  {
    match e
    case Swipe(direction) => if enableSwipe then SwipeTarget(index, length, direction) else index
    case ThumbnailPress(i) => i
    case ViewableItemsChanged(viewable) => if |viewable| > 0 then viewable[0] else index
  }

  /** The index after a sequence of events, in order. */
  function Run(index: int, length: nat, enableSwipe: bool, events: seq<GalleryEvent>): int
    decreases |events|
  {
    if events == [] then index
    else Run(Step(index, length, enableSwipe, events[0]), length, enableSwipe, events[1..])
  }

  /** Any run of well-formed events keeps an in-range index in range. */
  lemma {:induction false} RunStaysInRange(index: int, length: nat, enableSwipe: bool, events: seq<GalleryEvent>)
    requires 0 <= index < length
    requires forall k :: 0 <= k < |events| ==> WellFormed(events[k], length)
    ensures 0 <= Run(index, length, enableSwipe, events) < length
    decreases |events|
  {
    if events != [] {
      RunStaysInRange(Step(index, length, enableSwipe, events[0]), length, enableSwipe, events[1..]);
    }
  }

  /** A gallery of one image (or none) never moves on a swipe, whatever the swipes. */
  lemma {:induction false} SwipesKeepSingleImage(index: int, length: nat, enableSwipe: bool, events: seq<GalleryEvent>)
    requires length <= 1 && index == 0
    requires forall k :: 0 <= k < |events| ==> events[k].Swipe?
    ensures Run(index, length, enableSwipe, events) == 0
    decreases |events|
  {
    if events != [] {
      assert Step(index, length, enableSwipe, events[0]) == 0;
      SwipesKeepSingleImage(0, length, enableSwipe, events[1..]);
    }
  }

  function LeftSwipes(n: nat): (es: seq<GalleryEvent>)
    ensures |es| == n
    ensures forall k :: 0 <= k < n ==> es[k] == Swipe(Left)
  {
    if n == 0 then [] else [Swipe(Left)] + LeftSwipes(n - 1)
  }

  /** Left swipes walk forward one image each and stop at the last image. */
  lemma {:induction false} LeftSwipesAdvance(index: nat, length: nat, n: nat)
    requires index < length
    ensures Run(index, length, true, LeftSwipes(n)) == if index + n < length then index + n else length - 1
    decreases n
  {
    if n > 0 {
      assert LeftSwipes(n)[1..] == LeftSwipes(n - 1);
      LeftSwipesAdvance(SwipeTarget(index, length, Left), length, n - 1);
    }
  }

  /** The eight-product gallery: three left swipes from the first image show the fourth. */
  lemma ThreeSwipesOverEightImages()
    ensures Run(0, 8, true, LeftSwipes(3)) == 3
    ensures Run(0, 8, true, LeftSwipes(10)) == 7
  {
    LeftSwipesAdvance(0, 8, 3);
    LeftSwipesAdvance(0, 8, 10);
  }

  /** An entry of `thumbnailData`: the image, its position, and whether it is the current one. */
  datatype Thumbnail = Thumbnail(item: ImageItem, index: nat, isActive: bool)

  /** thumbnailData: the images in order, each tagged with its position and with whether it is current. */
  function ThumbnailData(images: seq<ImageItem>, currentIndex: int): (ts: seq<Thumbnail>)
    ensures |ts| == |images|
    ensures forall i :: 0 <= i < |ts| ==> ts[i].item == images[i] && ts[i].index == i
    ensures forall i :: 0 <= i < |ts| ==> (ts[i].isActive <==> i == currentIndex)
  {
    seq(|images|, i requires 0 <= i < |images| => Thumbnail(images[i], i, i == currentIndex))
  }

  function ActiveCount(ts: seq<Thumbnail>): nat {
    if ts == [] then 0 else ActiveCount(ts[..|ts| - 1]) + (if ts[|ts| - 1].isActive then 1 else 0)
  }

  /** At most one thumbnail is active at any time: the one at `currentIndex`, if that is in range. */
  lemma {:induction false} ActiveCountOfPrefix(images: seq<ImageItem>, currentIndex: int, n: nat)
    requires n <= |images|
    ensures ActiveCount(ThumbnailData(images, currentIndex)[..n]) == if 0 <= currentIndex < n then 1 else 0
  {
    var ts := ThumbnailData(images, currentIndex);
    if n > 0 {
      ActiveCountOfPrefix(images, currentIndex, n - 1);
      assert ts[..n][..n - 1] == ts[..n - 1];
    }
  }

  /** Exactly one thumbnail is active when the index is in range, and none otherwise. */
  lemma ExactlyOneActiveThumbnail(images: seq<ImageItem>, currentIndex: int)
    ensures ActiveCount(ThumbnailData(images, currentIndex)) == if 0 <= currentIndex < |images| then 1 else 0
  {
    ActiveCountOfPrefix(images, currentIndex, |images|);
    assert ThumbnailData(images, currentIndex)[..|images|] == ThumbnailData(images, currentIndex);
  }

  /** The header counter, "`position` of `count`". */
  datatype Counter = Counter(position: int, count: nat)

  /** The counter is one-based: an in-range index shows a position between 1 and the count. */
  function CounterText(currentIndex: int, length: nat): (c: Counter)
    ensures c.count == length
    ensures 0 <= currentIndex < length <==> 1 <= c.position <= c.count
    ensures c.position - 1 == currentIndex
  {
    Counter(currentIndex + 1, length)
  }

  /** The thumbnail strip is rendered only when enabled and there is more than one image. */
  predicate ThumbnailsVisible(showThumbnails: bool, length: nat): (b: bool)
    ensures b <==> showThumbnails && length >= 2
  {
    !(!showThumbnails || length <= 1)
  }

  /** The header counter as rendered: present exactly when `showImageCounter` is set. */
  function CounterView(showImageCounter: bool, currentIndex: int, length: nat): (c: Option<Counter>)
    ensures c.Some? <==> showImageCounter
    ensures c.Some? ==> c.value.count == length && c.value.position == currentIndex + 1
  {
    if showImageCounter then Some(CounterText(currentIndex, length)) else None
  }

  /**
   * A visible strip has at least two entries, and with an in-range index exactly one of them is
   * highlighted.
   */
  lemma VisibleStripHighlightsOne(showThumbnails: bool, images: seq<ImageItem>, currentIndex: int)
    requires ThumbnailsVisible(showThumbnails, |images|) && 0 <= currentIndex < |images|
    ensures showThumbnails && |ThumbnailData(images, currentIndex)| >= 2
    ensures ActiveCount(ThumbnailData(images, currentIndex)) == 1
  {
    ExactlyOneActiveThumbnail(images, currentIndex);
  }

  /** The gallery component's state: its props and the one piece of state it updates. */
  class Gallery {
    const images: seq<ImageItem>
    const enableSwipe: bool
    const showThumbnails: bool
    const showImageCounter: bool
    var currentIndex: int

    ghost predicate InRange()
      reads this
    {
      0 <= currentIndex < |images|
    }

    constructor (images: seq<ImageItem>, initialIndex: int, enableSwipe: bool, showThumbnails: bool, showImageCounter: bool)
      ensures this.images == images && currentIndex == initialIndex
      ensures this.enableSwipe == enableSwipe && this.showThumbnails == showThumbnails
      ensures this.showImageCounter == showImageCounter
    {
      this.images := images;
      this.enableSwipe := enableSwipe;
      this.showThumbnails := showThumbnails;
      this.showImageCounter := showImageCounter;
      currentIndex := initialIndex;
    }

    /**
     * handleSwipe: moves at most one image and stays in range; the pager is told to scroll only
     * when the index changed, and then to the new index.
     */
    method HandleSwipe(direction: SwipeDirection) returns (scrollTo: Option<int>)
      modifies this`currentIndex
      ensures currentIndex == Step(old(currentIndex), |images|, enableSwipe, Swipe(direction))
      ensures !enableSwipe ==> currentIndex == old(currentIndex)
      ensures scrollTo == if currentIndex != old(currentIndex) then Some(currentIndex) else None
      ensures old(InRange()) ==> InRange()
    {
      scrollTo := None;
      if !enableSwipe {
        return;
      }
      var newIndex := currentIndex;
      if direction == Left && currentIndex < |images| - 1 {
        newIndex := currentIndex + 1;
      } else if direction == Right && currentIndex > 0 {
        newIndex := currentIndex - 1;
      }
      if newIndex != currentIndex {
        currentIndex := newIndex;
        scrollTo := Some(newIndex);
      }
    }

    /** handleThumbnailPress: jumps to the tapped thumbnail and scrolls the pager there. */
    method HandleThumbnailPress(index: int) returns (scrollTo: int)
      requires 0 <= index < |images|
      modifies this`currentIndex
      ensures currentIndex == Step(old(currentIndex), |images|, enableSwipe, ThumbnailPress(index))
      ensures currentIndex == index && scrollTo == index
      ensures InRange()
    {
      currentIndex := index;
      scrollTo := index;
    }

    /** handleViewableItemsChanged: adopts the first viewable item's index, if any is viewable. */
    method HandleViewableItemsChanged(viewable: seq<int>)
      modifies this`currentIndex
      ensures currentIndex == Step(old(currentIndex), |images|, enableSwipe, ViewableItemsChanged(viewable))
      ensures |viewable| == 0 ==> currentIndex == old(currentIndex)
      ensures old(InRange()) && WellFormed(ViewableItemsChanged(viewable), |images|) ==> InRange()
    {
      if |viewable| > 0 {
        var newIndex := viewable[0];
        if newIndex != currentIndex {
          currentIndex := newIndex;
        }
      }
    }
  }
}
