/** The product detail gallery of `frontend/src/components/ProductModal.js`: the list of images
  * to show, and the carousel state stepped by the arrow buttons, the thumbnails and touch
  * swipes. The animation timers are collapsed: a navigation moves the index at once and marks
  * the carousel busy until `AnimationDone`. */
module ProductGallery {
  import opened Wrappers
  import opened JsValues
  import opened Cart

  const Placeholder := "https://via.placeholder.com/800x600?text=No+Image"

  /** The entries of `images` that `getAllImages` keeps, in order: truthy and different from
    * `image_url`. */
  function KeptEntries(entries: seq<Option<string>>, url: Option<string>): seq<string>
    decreases |entries|
  {
    if |entries| == 0 then []
    else
      var last := entries[|entries| - 1];
      KeptEntries(entries[..|entries| - 1], url)
        + (if TruthyStr(last) && last != url then [last.value] else [])
  }

  /** `image_url` when truthy, followed by the kept entries of `images` when it is an array. */
  function Collected(p: Product): seq<string> {
    (if TruthyStr(p.imageUrl) then [p.imageUrl.value] else [])
      + (if p.images.Some? then KeptEntries(p.images.value, p.imageUrl) else [])
  }

  /** `getAllImages()`: the collected images, or the placeholder alone when there are none. */
  function AllImages(p: Product): seq<string> {
    if |Collected(p)| == 0 then [Placeholder] else Collected(p)
  }

  /** A string is kept exactly when it is a non-empty entry of `images` other than `image_url`. */
  lemma {:induction false} KeptEntriesMembers(entries: seq<Option<string>>, url: Option<string>, x: string)
    ensures x in KeptEntries(entries, url) <==> Some(x) in entries && x != "" && Some(x) != url
    decreases |entries|
  {
    if |entries| > 0 {
      var init := entries[..|entries| - 1];
      KeptEntriesMembers(init, url, x);
      assert entries == init + [entries[|entries| - 1]];
    }
  }

  /** The gallery is never empty, never shows an empty string, starts with `image_url` when that
    * is truthy and then never repeats it, and falls back to the placeholder alone. */
  lemma {:induction false} AllImagesShape(p: Product)
    ensures |AllImages(p)| > 0
    ensures forall k :: 0 <= k < |AllImages(p)| ==> AllImages(p)[k] != ""
    ensures TruthyStr(p.imageUrl) ==> AllImages(p)[0] == p.imageUrl.value
    ensures TruthyStr(p.imageUrl) ==>
              forall k :: 1 <= k < |AllImages(p)| ==> AllImages(p)[k] != p.imageUrl.value
    ensures !TruthyStr(p.imageUrl) && (p.images.None? || forall e :: e in p.images.value ==> !TruthyStr(e))
            ==> AllImages(p) == [Placeholder]
  {
    var head := if TruthyStr(p.imageUrl) then [p.imageUrl.value] else [];
    var tail := if p.images.Some? then KeptEntries(p.images.value, p.imageUrl) else [];
    assert Collected(p) == head + tail;
    forall x | x in tail ensures x != "" && Some(x) != p.imageUrl {
      KeptEntriesMembers(p.images.value, p.imageUrl, x);
    }
    if !TruthyStr(p.imageUrl) && (p.images.None? || forall e :: e in p.images.value ==> !TruthyStr(e)) {
      if |tail| > 0 {
        KeptEntriesMembers(p.images.value, p.imageUrl, tail[0]);
        assert false;
      }
    }
    if |Collected(p)| > 0 {
      forall k | 0 <= k < |Collected(p)| ensures Collected(p)[k] != "" {
        if k < |head| {
          assert Collected(p)[k] == head[k];
        } else {
          assert Collected(p)[k] == tail[k - |head|];
          assert tail[k - |head|] in tail;
        }
      }
      if TruthyStr(p.imageUrl) {
        forall k | 1 <= k < |Collected(p)| ensures Collected(p)[k] != p.imageUrl.value {
          assert Collected(p)[k] == tail[k - 1];
          assert tail[k - 1] in tail;
        }
      }
    }
  }

  /** `getAllImages()` as written: push `image_url`, then each qualifying entry of `images` in a
    * `forEach`, then the placeholder if nothing was pushed. */
  method GetAllImages(p: Product) returns (images: seq<string>)
    ensures images == AllImages(p)
  {
    images := [];
    if TruthyStr(p.imageUrl) {
      images := images + [p.imageUrl.value];
    }
    ghost var head := images;
    if p.images.Some? {
      var entries := p.images.value;
      var i := 0;
      while i < |entries|
        invariant 0 <= i <= |entries|
        invariant images == head + KeptEntries(entries[..i], p.imageUrl)
      {
        assert entries[..i + 1][..i] == entries[..i];
        if TruthyStr(entries[i]) && entries[i] != p.imageUrl {
          images := images + [entries[i].value];
        }
        i := i + 1;
      }
      assert entries[..i] == entries;
    }
    if |images| == 0 {
      images := images + [Placeholder];
    }
  }

  /** `(prev + 1) % images.length`. */
  function NextIndex(i: nat, n: nat): nat
    requires n > 0
  {
    (i + 1) % n
  }

  /** `(prev - 1 + images.length) % images.length`. */
  function PrevIndex(i: nat, n: nat): nat
    requires n > 0
  {
    (i - 1 + n) % n
  }

  /** Both steps stay in range and undo each other. */
  lemma StepsAreInverse(i: nat, n: nat)
    requires i < n
    ensures NextIndex(i, n) < n && PrevIndex(i, n) < n
    ensures PrevIndex(NextIndex(i, n), n) == i
    ensures NextIndex(PrevIndex(i, n), n) == i
  {
    if i + 1 == n {
      ModWhole(n);
      ModShift(n - 1 + n, n);
    } else {
      ModSmall(i + 1, n);
      ModShift(i + n, n);
    }
    if i == 0 {
      ModSmall(n - 1, n);
      ModWhole(n);
    } else {
      ModShift(i - 1 + n, n);
      ModSmall(i, n);
    }
  }

  lemma ModSmall(x: int, n: int)
    requires 0 <= x < n
    ensures x % n == x
  {
  }

  lemma ModWhole(n: int)
    requires 0 < n
    ensures n % n == 0
  {
  }

  lemma ModShift(x: int, n: int)
    requires n <= x < 2 * n
    ensures x % n == x - n
  {
  }

  const SwipeThreshold := 80
  const VerticalTolerance := 50

  /** The index a completed swipe should lead to: past the threshold, a rightward drag goes to
    * the previous image and a leftward one to the next; otherwise the index stays. */
  function SwipeTarget(i: nat, offset: int, n: nat): nat
    requires n > 0
  {
    if offset > SwipeThreshold then PrevIndex(i, n)
    else if offset < -SwipeThreshold then NextIndex(i, n)
    else i
  }

  /** The carousel's state for one product: the number of images is fixed by the product. */
  class Carousel {
    const imageCount: nat
    var index: nat
    var isAnimating: bool
    var isDragging: bool
    var dragStartX: int
    var dragStartY: int
    var dragOffset: int
    var autoPlay: bool

    predicate Valid()
      reads this
    {
      imageCount > 0 && index < imageCount
    }

    /** The carousel opened on a product: first image, idle. */
    constructor (p: Product)
      ensures imageCount == |AllImages(p)| && index == 0
      ensures !isAnimating && !isDragging && dragOffset == 0 && !autoPlay
      ensures Valid()
    {
      AllImagesShape(p);
      imageCount := |AllImages(p)|;
      index := 0;
      isAnimating := false;
      isDragging := false;
      dragStartX := 0;
      dragStartY := 0;
      dragOffset := 0;
      autoPlay := false;
    }

    /** `nextImage()`: ignored while animating or dragging. */
    method NextImage()
      requires Valid()
      modifies this
      ensures Valid()
      ensures old(isAnimating) || old(isDragging) ==> index == old(index) && isAnimating == old(isAnimating)
      ensures !old(isAnimating) && !old(isDragging) ==> index == NextIndex(old(index), imageCount) && isAnimating
      ensures isDragging == old(isDragging) && dragOffset == old(dragOffset) && autoPlay == old(autoPlay)
      ensures dragStartX == old(dragStartX) && dragStartY == old(dragStartY)
    {
      if isAnimating || isDragging {
        return;
      }
      isAnimating := true;
      index := NextIndex(index, imageCount);
    }

    /** `prevImage()`: ignored while animating or dragging. */
    method PrevImage()
      requires Valid()
      modifies this
      ensures Valid()
      ensures old(isAnimating) || old(isDragging) ==> index == old(index) && isAnimating == old(isAnimating)
      ensures !old(isAnimating) && !old(isDragging) ==> index == PrevIndex(old(index), imageCount) && isAnimating
      ensures isDragging == old(isDragging) && dragOffset == old(dragOffset) && autoPlay == old(autoPlay)
      ensures dragStartX == old(dragStartX) && dragStartY == old(dragStartY)
    {
      if isAnimating || isDragging {
        return;
      }
      isAnimating := true;
      index := PrevIndex(index, imageCount);
    }

    /** `goToImage(k)` from a thumbnail: ignored while animating or dragging and for the image
      * already shown. */
    method GoToImage(k: nat)
      requires Valid() && k < imageCount
      modifies this
      ensures Valid()
      ensures old(isAnimating) || old(isDragging) || k == old(index) ==>
                index == old(index) && isAnimating == old(isAnimating)
      ensures !old(isAnimating) && !old(isDragging) && k != old(index) ==> index == k && isAnimating
      ensures isDragging == old(isDragging) && dragOffset == old(dragOffset) && autoPlay == old(autoPlay)
      ensures dragStartX == old(dragStartX) && dragStartY == old(dragStartY)
    {
      if isAnimating || k == index || isDragging {
        return;
      }
      isAnimating := true;
      index := k;
    }

    /** The end of a navigation's animation. */
    method AnimationDone()
      modifies this
      ensures !isAnimating && index == old(index) && isDragging == old(isDragging)
      ensures dragOffset == old(dragOffset) && autoPlay == old(autoPlay)
      ensures dragStartX == old(dragStartX) && dragStartY == old(dragStartY)
    {
      isAnimating := false;
    }

    /** `handleTouchStart` at `(x, y)`: ignored with a single image or while animating;
      * otherwise dragging starts there and autoplay stops. */
    method TouchStart(x: int, y: int)
      modifies this
      ensures imageCount <= 1 || old(isAnimating) ==>
                isDragging == old(isDragging) && dragStartX == old(dragStartX)
                && dragStartY == old(dragStartY) && autoPlay == old(autoPlay)
      ensures imageCount > 1 && !old(isAnimating) ==>
                isDragging && dragStartX == x && dragStartY == y && !autoPlay
      ensures index == old(index) && isAnimating == old(isAnimating) && dragOffset == old(dragOffset)
    {
      if imageCount <= 1 || isAnimating {
        return;
      }
      isDragging := true;
      dragStartX, dragStartY := x, y;
      autoPlay := false;
    }

    /** `handleTouchMove` at `(x, y)`: while dragging, the horizontal offset is recorded only
      * when the vertical movement stays under the tolerance. */
    method TouchMove(x: int, y: int)
      modifies this
      ensures isDragging && imageCount > 1
              && -VerticalTolerance < y - dragStartY < VerticalTolerance
              ==> dragOffset == x - dragStartX
      ensures !(isDragging && imageCount > 1
                && -VerticalTolerance < y - dragStartY < VerticalTolerance)
              ==> dragOffset == old(dragOffset)
      ensures index == old(index) && isAnimating == old(isAnimating) && isDragging == old(isDragging)
      ensures dragStartX == old(dragStartX) && dragStartY == old(dragStartY) && autoPlay == old(autoPlay)
    {
      if !isDragging || imageCount <= 1 {
        return;
      }
      var offsetY := if y - dragStartY < 0 then dragStartY - y else y - dragStartY;
      if offsetY < VerticalTolerance {
        dragOffset := x - dragStartX;
      }
    }

    /** `handleTouchEnd` as written: the navigation is requested while `isDragging` is still
      * set, so the guard of `prevImage`/`nextImage` turns it away and the index never moves. */
    method TouchEnd()
      requires Valid()
      modifies this
      ensures Valid()
      ensures index == old(index) && isAnimating == old(isAnimating)
      ensures old(isDragging) && imageCount > 1 ==> !isDragging && dragOffset == 0
      ensures !(old(isDragging) && imageCount > 1) ==>
                isDragging == old(isDragging) && dragOffset == old(dragOffset)
      ensures autoPlay == old(autoPlay) && dragStartX == old(dragStartX) && dragStartY == old(dragStartY)
    {
      if !isDragging || imageCount <= 1 {
        return;
      }
      if dragOffset > SwipeThreshold || dragOffset < -SwipeThreshold {
        if dragOffset > 0 {
          PrevImage();
        } else {
          NextImage();
        }
      }
      isDragging := false;
      dragOffset := 0;
    }

    /** `handleTouchEnd` as intended: the drag ends first, so a swipe past the threshold
      * navigates unless an animation is running. */
    method TouchEndIntended()
      requires Valid()
      modifies this
      ensures Valid()
      ensures old(isDragging) && imageCount > 1 && !old(isAnimating) ==>
                index == SwipeTarget(old(index), old(dragOffset), imageCount)
      ensures old(isDragging) && imageCount > 1 ==> !isDragging && dragOffset == 0
      ensures !(old(isDragging) && imageCount > 1) ==> index == old(index) && isDragging == old(isDragging)
      ensures !(old(isDragging) && imageCount > 1) ==> dragOffset == old(dragOffset)
      ensures old(isAnimating) ==> index == old(index)
      ensures isAnimating == (old(isAnimating) || (old(isDragging) && imageCount > 1
                              && (old(dragOffset) > SwipeThreshold || old(dragOffset) < -SwipeThreshold)))
      ensures autoPlay == old(autoPlay) && dragStartX == old(dragStartX) && dragStartY == old(dragStartY)
    {
      if !isDragging || imageCount <= 1 {
        return;
      }
      var offset := dragOffset;
      isDragging := false;
      dragOffset := 0;
      if offset > SwipeThreshold || offset < -SwipeThreshold {
        if offset > 0 {
          PrevImage();
        } else {
          NextImage();
        }
      }
    }
  }

  /** A leftward swipe of 100 pixels on a three-image gallery: as written the carousel stays on
    * the first image; as intended it moves to the second. */
  method SwipeCounterexample() returns (asWritten: nat, intended: nat)
    ensures asWritten == 0 && intended == 1
  {
    var p := Product(1, "bag", "", 100, "bags", 3, Some("a"), Some([Some("b"), Some("c")]));
    assert Collected(p) == ["a", "b", "c"] by {
      var entries := [Some("b"), Some("c")];
      assert entries[..1] == [Some("b")];
      assert entries[..1][..0] == [];
      assert KeptEntries(entries[..1], Some("a")) == ["b"];
      assert KeptEntries(entries, Some("a")) == ["b", "c"];
    }
    var c1 := new Carousel(p);
    c1.TouchStart(200, 10);
    c1.TouchMove(100, 20);
    c1.TouchEnd();
    asWritten := c1.index;
    var c2 := new Carousel(p);
    c2.TouchStart(200, 10);
    c2.TouchMove(100, 20);
    c2.TouchEndIntended();
    intended := c2.index;
  }
}
