/** The catalogue tile of `frontend/src/components/ProductCard.js`: its cover image, the image
  * count behind the "several images" badge, the low-stock label and the add-to-cart switch. */
module ProductCardView {
  import opened Wrappers
  import opened JsValues
  import opened Text
  import opened Cart
  import opened ProductGallery

  /** `getMainImage()`: `image_url` when truthy, else the first entry of a non-empty `images`
    * array (whatever it holds), else the placeholder. */
  function MainImage(p: Product): Option<string> {
    if TruthyStr(p.imageUrl) then p.imageUrl
    else if p.images.Some? && |p.images.value| > 0 then p.images.value[0]
    else Some(Placeholder)
  }

  /** How many entries differ from `image_url`; falsy entries are counted. */
  function OtherEntryCount(entries: seq<Option<string>>, url: Option<string>): nat
    decreases |entries|
  {
    if |entries| == 0 then 0
    else OtherEntryCount(entries[..|entries| - 1], url) + (if entries[|entries| - 1] != url then 1 else 0)
  }

  /** `getTotalImagesCount()`. */
  function TotalImagesCount(p: Product): nat {
    (if TruthyStr(p.imageUrl) then 1 else 0)
      + (if p.images.Some? then OtherEntryCount(p.images.value, p.imageUrl) else 0)
  }

  /** The badge appears when the product has more than one image. */
  predicate ShowsImageBadge(p: Product) {
    TotalImagesCount(p) > 1
  }

  const OutOfStockText := "Out of Stock"

  /** The stock label: none above five, "Out of Stock" at zero, otherwise "Only n left". */
  function StockLabel(stock: int): Option<string> {
    if stock <= 5 then Some(if stock == 0 then OutOfStockText else "Only " + IntToString(stock) + " left")
    else None
  }

  /** The add-to-cart button is disabled exactly at zero stock. */
  predicate AddToCartDisabled(p: Product) {
    p.stockQuantity == 0
  }

  /** Unfolding `KeptEntries` from the front. */
  lemma {:induction false} KeptEntriesCons(e: Option<string>, rest: seq<Option<string>>, url: Option<string>)
    ensures KeptEntries([e] + rest, url)
         == (if TruthyStr(e) && e != url then [e.value] else []) + KeptEntries(rest, url)
    decreases |rest|
  {
    if |rest| > 0 {
      var init := rest[..|rest| - 1];
      KeptEntriesCons(e, init, url);
      assert ([e] + rest)[..|rest|] == [e] + init;
    } else {
      assert [e][..0] == [];
    }
  }

  /** The tile's cover is the gallery's first image, except when the first entry of `images` is
    * falsy and `image_url` is not truthy. */
  lemma MainImageIsGalleryCover(p: Product)
    requires TruthyStr(p.imageUrl) || p.images.None? || |p.images.value| == 0 || TruthyStr(p.images.value[0])
    ensures MainImage(p) == Some(AllImages(p)[0])
  {
    if !TruthyStr(p.imageUrl) && p.images.Some? && |p.images.value| > 0 {
      var entries := p.images.value;
      KeptEntriesCons(entries[0], entries[1..], p.imageUrl);
      assert [entries[0]] + entries[1..] == entries;
    } else if !TruthyStr(p.imageUrl) && p.images.Some? {
      assert p.images.value == [];
    }
  }

  /** With only truthy entries, the count of entries differing from `image_url` is the number
    * the gallery keeps. */
  lemma {:induction false} CountMatchesKept(entries: seq<Option<string>>, url: Option<string>)
    requires forall k :: 0 <= k < |entries| ==> TruthyStr(entries[k])
    ensures OtherEntryCount(entries, url) == |KeptEntries(entries, url)|
    decreases |entries|
  {
    if |entries| > 0 {
      CountMatchesKept(entries[..|entries| - 1], url);
    }
  }

  /** When every entry of `images` is truthy and there is at least one image, the tile's count
    * is the number of images the gallery shows. */
  lemma CountMatchesGallery(p: Product)
    requires p.images.Some? ==> forall k :: 0 <= k < |p.images.value| ==> TruthyStr(p.images.value[k])
    requires TotalImagesCount(p) > 0
    ensures TotalImagesCount(p) == |AllImages(p)|
  {
    if p.images.Some? {
      CountMatchesKept(p.images.value, p.imageUrl);
    }
  }

  /** A falsy entry makes the two disagree: with an empty first entry and one real image the
    * tile shows the badge while the gallery holds a single image. */
  lemma FalsyEntryOvercounts()
    ensures var p := Product(1, "bag", "", 100, "bags", 3, None, Some([Some(""), Some("x")]));
      ShowsImageBadge(p) && |AllImages(p)| == 1
  {
    var entries := [Some(""), Some("x")];
    assert entries[..1] == [Some("")];
    assert entries[..1][..0] == [];
    assert KeptEntries(entries, None) == ["x"];
    assert OtherEntryCount(entries, None) == 2;
  }

  /** The label is shown exactly up to five in stock, reads "Out of Stock" exactly at zero, and
    * otherwise names the quantity. */
  lemma StockLabelCases(stock: int)
    ensures StockLabel(stock).Some? <==> stock <= 5
    ensures StockLabel(stock) == Some(OutOfStockText) <==> stock == 0
    ensures stock <= 5 && stock != 0 ==> StockLabel(stock) == Some("Only " + IntToString(stock) + " left")
  {
    if stock <= 5 && stock != 0 {
      assert StockLabel(stock).value[1] == 'n' != OutOfStockText[1];
    }
  }

  /** The button is disabled exactly when the tile says "Out of Stock". */
  lemma DisabledIffOutOfStock(p: Product)
    ensures AddToCartDisabled(p) <==> StockLabel(p.stockQuantity) == Some(OutOfStockText)
  {
    StockLabelCases(p.stockQuantity);
  }
}
