/** The display helpers and the product-form image list of
  * `frontend/src/components/AdminPanel.js`. Order items reach the panel as loosely shaped JSON:
  * a name may sit on the item, under `product_name` or in a nested `product`, or only be found
  * through the catalogue by `product_id` or `id`. */
module AdminPanel {
  import opened Wrappers
  import opened JsValues
  import opened Text
  import opened Cart

  const NoProductsText := "لا توجد منتجات"
  const UnknownText := "غير محدد"
  const ProductLabel := "منتج #"
  const OthersWord := " أخرى"

  /** The nested `item.product` of an order item. */
  datatype ProductRef = ProductRef(
    name: Option<string>, price: Option<int>, category: Option<string>, description: Option<string>,
    imageUrl: Option<string>, images: Option<seq<Option<string>>>)

  /** An order item as the panel reads it; every field may be missing. */
  datatype OrderItemView = OrderItemView(
    id: Option<int>, productId: Option<int>, name: Option<string>, productName: Option<string>,
    product: Option<ProductRef>, quantity: Option<int>, price: Option<int>, category: Option<string>,
    description: Option<string>, imageUrl: Option<string>, images: Option<seq<Option<string>>>)

  /** `getProductById(id)`: the first catalogue product with that id. */
  function GetProductById(products: seq<Product>, id: ProductId): (r: Option<Product>)
    ensures r.Some? ==> r.value in products && r.value.id == id
    ensures r.None? <==> forall k :: 0 <= k < |products| ==> products[k].id != id
    decreases |products|
  {
    if |products| == 0 then None
    else if products[0].id == id then Some(products[0])
    else GetProductById(products[1..], id)
  }

  /** The product found is the earliest one with that id. */
  lemma {:induction false} GetProductByIdFirst(products: seq<Product>, id: ProductId, k: nat)
    requires k < |products| && products[k].id == id
    requires forall j :: 0 <= j < k ==> products[j].id != id
    ensures GetProductById(products, id) == Some(products[k])
    decreases k
  {
    if k > 0 {
      GetProductByIdFirst(products[1..], id, k - 1);
    }
  }

  /** `item.product?.name`, and the other nested fields likewise. */
  function NestedName(item: OrderItemView): Option<string> {
    if item.product.Some? then item.product.value.name else None
  }

  /** `foundProduct?.name` for a catalogue lookup. */
  function FoundName(products: seq<Product>, id: ProductId): Option<string> {
    var found := GetProductById(products, id);
    if found.Some? then Some(found.value.name) else None
  }

  /** `item.product_id || item.id || 'غير محدد'`, as text. */
  function FallbackRef(item: OrderItemView): string {
    if TruthyNum(item.productId) then IntToString(item.productId.value)
    else if TruthyNum(item.id) then IntToString(item.id.value)
    else UnknownText
  }

  /** The name `getOrderProductNames` shows for one item. */
  function ItemDisplayName(products: seq<Product>, item: OrderItemView): string {
    var own := OrStr(OrStr(item.name, item.productName), NestedName(item));
    var byProductId :=
      if !TruthyStr(own) && TruthyNum(item.productId) then FoundName(products, item.productId.value) else own;
    var byId :=
      if !TruthyStr(byProductId) && TruthyNum(item.id) then FoundName(products, item.id.value) else byProductId;
    StrOrDefault(byId, ProductLabel + FallbackRef(item))
  }

  /** Name precedence: the item's own name, `product_name`, the nested product's name, the
    * catalogue by `product_id`, the catalogue by `id`, then the numbered label. */
  lemma NamePrecedence(products: seq<Product>, item: OrderItemView)
    ensures TruthyStr(item.name) ==> ItemDisplayName(products, item) == item.name.value
    ensures !TruthyStr(item.name) && TruthyStr(item.productName) ==>
              ItemDisplayName(products, item) == item.productName.value
    ensures !TruthyStr(item.name) && !TruthyStr(item.productName) && TruthyStr(NestedName(item)) ==>
              ItemDisplayName(products, item) == NestedName(item).value
    ensures !TruthyStr(item.name) && !TruthyStr(item.productName) && !TruthyStr(NestedName(item))
            && TruthyNum(item.productId) && TruthyStr(FoundName(products, item.productId.value))
            ==> ItemDisplayName(products, item) == FoundName(products, item.productId.value).value
    ensures !TruthyStr(item.name) && !TruthyStr(item.productName) && !TruthyStr(NestedName(item))
            && !(TruthyNum(item.productId) && TruthyStr(FoundName(products, item.productId.value)))
            && TruthyNum(item.id) && TruthyStr(FoundName(products, item.id.value))
            ==> ItemDisplayName(products, item) == FoundName(products, item.id.value).value
    ensures ItemDisplayName(products, item) != ""
  {
  }

  /** When nothing names the item, the label carries `product_id`, else `id`, else the unknown
    * marker. */
  lemma FallbackLabel(products: seq<Product>, item: OrderItemView)
    requires !TruthyStr(item.name) && !TruthyStr(item.productName) && !TruthyStr(NestedName(item))
    requires TruthyNum(item.productId) ==> !TruthyStr(FoundName(products, item.productId.value))
    requires TruthyNum(item.id) ==> !TruthyStr(FoundName(products, item.id.value))
    ensures ItemDisplayName(products, item) == ProductLabel + FallbackRef(item)
    ensures TruthyNum(item.productId) ==> FallbackRef(item) == IntToString(item.productId.value)
    ensures !TruthyNum(item.productId) && TruthyNum(item.id) ==> FallbackRef(item) == IntToString(item.id.value)
    ensures !TruthyNum(item.productId) && !TruthyNum(item.id) ==> FallbackRef(item) == UnknownText
  {
  }

  /** The names of all items, in order. */
  function ItemNames(products: seq<Product>, items: seq<OrderItemView>): (r: seq<string>)
    ensures |r| == |items|
  {
    seq(|items|, k requires 0 <= k < |items| => ItemDisplayName(products, items[k]))
  }

  /** `getOrderProductNames(items)`. */
  function OrderProductNames(products: seq<Product>, items: Option<seq<OrderItemView>>): string {
    if items.None? || |items.value| == 0 then NoProductsText
    else
      var names := ItemNames(products, items.value);
      if |names| > 3 then Join(names[..3], ", ") + " + " + IntToString(|names| - 3) + OthersWord
      else Join(names, ", ")
  }

  /** Every part of a joined string occurs in it. */
  lemma {:induction false} JoinContainsParts(parts: seq<string>, sep: string, k: nat)
    requires k < |parts|
    ensures Contains(Join(parts, sep), parts[k])
    decreases |parts|
  {
    if |parts| == 1 {
      ContainsAt(parts[0], parts[0], 0);
    } else if k == 0 {
      assert Join(parts, sep)[..|parts[0]|] == parts[0];
      ContainsAt(Join(parts, sep), parts[0], 0);
    } else {
      JoinContainsParts(parts[1..], sep, k - 1);
      var rest := Join(parts[1..], sep);
      var i := ContainsWitness(rest, parts[k]);
      var pre := parts[0] + sep;
      assert Join(parts, sep) == pre + rest;
      assert (pre + rest)[|pre| + i..|pre| + i + |parts[k]|] == rest[i..i + |parts[k]|];
      ContainsAt(Join(parts, sep), parts[k], |pre| + i);
    }
  }

  /** A missing or empty list reads "no products". */
  lemma NoItemsNoProducts(products: seq<Product>, items: Option<seq<OrderItemView>>)
    requires items.None? || |items.value| == 0
    ensures OrderProductNames(products, items) == NoProductsText
  {
  }

  /** With one to three items every item's name is shown. */
  lemma FewNamesAllShown(products: seq<Product>, items: seq<OrderItemView>, k: nat)
    requires 0 < |items| <= 3 && k < |items|
    ensures Contains(OrderProductNames(products, Some(items)), ItemNames(products, items)[k])
  {
    JoinContainsParts(ItemNames(products, items), ", ", k);
  }

  /** With more than three items the first three names are shown, followed by how many were left
    * out. */
  lemma ManyNamesTruncated(products: seq<Product>, items: seq<OrderItemView>, k: nat)
    requires |items| > 3 && k < 3
    ensures Contains(OrderProductNames(products, Some(items)), ItemNames(products, items)[k])
    ensures OrderProductNames(products, Some(items))
         == Join(ItemNames(products, items)[..3], ", ") + " + " + IntToString(|items| - 3) + OthersWord
  {
    var shown := ItemNames(products, items)[..3];
    JoinContainsParts(shown, ", ", k);
    PrefixContained(Join(shown, ", "), shown[k], " + " + IntToString(|items| - 3) + OthersWord);
    assert Join(shown, ", ") + " + " + IntToString(|items| - 3) + OthersWord
        == Join(shown, ", ") + (" + " + IntToString(|items| - 3) + OthersWord);
  }

  /** What `getEnhancedProductDetails` returns. */
  datatype Details = Details(
    name: string, price: int, category: string, description: Option<string>,
    imageUrl: Option<string>, images: Option<seq<Option<string>>>, quantity: int)

  /** The intermediate `productDetails`, before the defaults. */
  datatype PartialDetails = PartialDetails(
    name: Option<string>, price: Option<int>, category: Option<string>, description: Option<string>,
    imageUrl: Option<string>, images: Option<seq<Option<string>>>)

  /** Fields read from the item, else from its nested product. */
  function OwnDetails(item: OrderItemView): PartialDetails {
    var nested := if item.product.Some? then item.product.value else ProductRef(None, None, None, None, None, None);
    PartialDetails(
      OrStr(OrStr(item.name, item.productName), nested.name),
      OrNum(item.price, nested.price),
      OrStr(item.category, nested.category),
      OrStr(item.description, nested.description),
      OrStr(item.imageUrl, nested.imageUrl),
      if item.images.Some? then item.images else nested.images)
  }

  /** A catalogue lookup replaces everything, but keeps the item's own truthy price. */
  function LookedUp(products: seq<Product>, item: OrderItemView, d: PartialDetails, id: Option<int>): PartialDetails {
    if !TruthyStr(d.name) && TruthyNum(id) && GetProductById(products, id.value).Some? then
      var f := GetProductById(products, id.value).value;
      PartialDetails(Some(f.name), OrNum(item.price, Some(f.price)), Some(f.category), Some(f.description),
                     f.imageUrl, f.images)
    else d
  }

  /** The item's own details after the catalogue lookups by `product_id` and then by `id`. */
  function MergedDetails(products: seq<Product>, item: OrderItemView): PartialDetails {
    LookedUp(products, item, LookedUp(products, item, OwnDetails(item), item.productId), item.id)
  }

  /** `getEnhancedProductDetails(item)`. */
  function EnhancedDetails(products: seq<Product>, item: OrderItemView): Details {
    var d := MergedDetails(products, item);
    Details(
      StrOrDefault(d.name, ProductLabel + FallbackRef(item)),
      NumOrDefault(d.price, 0),
      StrOrDefault(d.category, UnknownText),
      d.description, d.imageUrl, d.images,
      NumOrDefault(item.quantity, 1))
  }

  /** The details fill every display field: quantity defaults to 1, price to 0, category to the
    * unknown marker; the item's own truthy price always wins over the catalogue's; and the name
    * is the one the order list shows. */
  lemma EnhancedDefaults(products: seq<Product>, item: OrderItemView)
    ensures EnhancedDetails(products, item).quantity == (if TruthyNum(item.quantity) then item.quantity.value else 1)
    ensures EnhancedDetails(products, item).quantity != 0
    ensures TruthyNum(item.price) ==> EnhancedDetails(products, item).price == item.price.value
    ensures !TruthyNum(MergedDetails(products, item).price) ==> EnhancedDetails(products, item).price == 0
    ensures !TruthyStr(MergedDetails(products, item).category) ==> EnhancedDetails(products, item).category == UnknownText
    ensures EnhancedDetails(products, item).category != ""
    ensures EnhancedDetails(products, item).name == ItemDisplayName(products, item)
  {
  }

  /** `item.quantity || 0`. */
  function PiecesOf(item: OrderItemView): int {
    NumOrDefault(item.quantity, 0)
  }

  /** `items?.reduce((sum, item) => sum + (item.quantity || 0), 0) || 0`. */
  function TotalPieces(items: Option<seq<OrderItemView>>): int {
    if items.None? then 0 else SumPieces(items.value)
  }

  function SumPieces(items: seq<OrderItemView>): int
    decreases |items|
  {
    if |items| == 0 then 0 else SumPieces(items[..|items| - 1]) + PiecesOf(items[|items| - 1])
  }

  /** How an order line submitted from a cart reaches the panel. */
  function ItemFromLine(x: LineItem): OrderItemView {
    OrderItemView(None, Some(x.product.id), None, None, None, Some(x.quantity), Some(x.product.price),
                  None, None, None, None)
  }

  /** The panel's piece count of an order submitted from a cart is that cart's item count. */
  lemma {:induction false} PiecesOfSubmittedCart(cart: Items)
    ensures TotalPieces(Some(seq(|cart|, k requires 0 <= k < |cart| => ItemFromLine(cart[k])))) == CartCount(cart)
    decreases |cart|
  {
    var items := seq(|cart|, k requires 0 <= k < |cart| => ItemFromLine(cart[k]));
    if |cart| > 0 {
      var init := cart[..|cart| - 1];
      PiecesOfSubmittedCart(init);
      assert items[..|items| - 1] == seq(|init|, k requires 0 <= k < |init| => ItemFromLine(init[k]));
    }
  }

  /** `images.filter((_, index) => index !== k)`. */
  function WithoutIndex(images: seq<Option<string>>, k: int): seq<Option<string>>
    decreases |images|
  {
    if |images| == 0 then []
    else WithoutIndex(images[..|images| - 1], k) + (if |images| - 1 == k then [] else [images[|images| - 1]])
  }

  /** Filtering out index `k` removes exactly that entry, keeping the rest in order; an index out
    * of range removes nothing. */
  lemma {:induction false} WithoutIndexSplices(images: seq<Option<string>>, k: int)
    ensures 0 <= k < |images| ==> WithoutIndex(images, k) == images[..k] + images[k + 1..]
    ensures !(0 <= k < |images|) ==> WithoutIndex(images, k) == images
    decreases |images|
  {
    if |images| > 0 {
      var init := images[..|images| - 1];
      WithoutIndexSplices(init, k);
      if k == |images| - 1 {
        assert images[..k] == init;
      } else if 0 <= k < |images| - 1 {
        assert images[..k] == init[..k];
        assert images[k + 1..] == init[k + 1..] + [images[|images| - 1]];
      } else {
        assert init + [images[|images| - 1]] == images;
      }
    }
  }

  /** The product form's image list and upload state. */
  class ProductForm {
    var images: seq<Option<string>>
    var selectedFiles: seq<string>
    var uploadingImages: bool

    constructor ()
      ensures images == [] && selectedFiles == [] && !uploadingImages
    {
      images := [];
      selectedFiles := [];
      uploadingImages := false;
    }

    /** `removeImage(k)`. */
    method RemoveImage(k: int)
      modifies this
      ensures 0 <= k < |old(images)| ==> images == old(images)[..k] + old(images)[k + 1..]
      ensures !(0 <= k < |old(images)|) ==> images == old(images)
      ensures selectedFiles == old(selectedFiles) && uploadingImages == old(uploadingImages)
    {
      WithoutIndexSplices(images, k);
      images := WithoutIndex(images, k);
    }

    /** `addImageUrl()`, with the prompt's answer as `input` (absent when cancelled). */
    method AddImageUrl(input: Option<string>)
      modifies this
      ensures TruthyStr(input) && Trim(input.value) != "" ==> images == old(images) + [Some(Trim(input.value))]
      ensures !(TruthyStr(input) && Trim(input.value) != "") ==> images == old(images)
      ensures selectedFiles == old(selectedFiles) && uploadingImages == old(uploadingImages)
    {
      if TruthyStr(input) && Trim(input.value) != "" {
        images := images + [Some(Trim(input.value))];
      }
    }

    /** `handleMultipleFileUpload()`, with the settled upload of each selected file, in order,
      * as `uploads` (the `url` of each answer, or the error). */
    method HandleMultipleFileUpload(uploads: seq<Result<Option<string>, string>>) returns (succeeded: bool)
      requires |uploads| == |selectedFiles|
      modifies this
      ensures |old(selectedFiles)| == 0 ==>
                !succeeded && images == old(images) && selectedFiles == old(selectedFiles)
                && uploadingImages == old(uploadingImages)
      ensures |old(selectedFiles)| > 0 ==> !uploadingImages
      ensures succeeded <==> |old(selectedFiles)| > 0 && forall k :: 0 <= k < |uploads| ==> uploads[k].Ok?
      ensures succeeded ==>
                |images| == |old(images)| + |uploads| && images[..|old(images)|] == old(images)
                && (forall k :: 0 <= k < |uploads| ==> images[|old(images)| + k] == uploads[k].value)
                && selectedFiles == []
      ensures !succeeded ==> images == old(images) && selectedFiles == old(selectedFiles)
    {
      if |selectedFiles| == 0 {
        return false;
      }
      uploadingImages := true;
      if forall k :: 0 <= k < |uploads| ==> uploads[k].Ok? {
        var urls := seq(|uploads|, k requires 0 <= k < |uploads| && uploads[k].Ok? => uploads[k].value);
        images := images + urls;
        selectedFiles := [];
        succeeded := true;
      } else {
        succeeded := false;
      }
      // finally
      uploadingImages := false;
    }
  }
}
