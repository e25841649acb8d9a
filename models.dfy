/** The request and record models of `backend/models.py`: the order status enumeration, the
  * product fields with their defaults, and the field validators. Prices are in minor currency
  * units. */
module Models {
  import opened Wrappers

  /** `OrderStatus`. */
  datatype OrderStatus = Pending | Confirmed | Processing | Shipped | Delivered | Cancelled

  /** The string value of each status. */
  function StatusValue(s: OrderStatus): string {
    match s
    case Pending => "pending"
    case Confirmed => "confirmed"
    case Processing => "processing"
    case Shipped => "shipped"
    case Delivered => "delivered"
    case Cancelled => "cancelled"
  }

  /** `OrderStatus(value)`: the status with that value, if any. */
  function ParseStatus(v: string): (r: Option<OrderStatus>)
    ensures r.Some? ==> StatusValue(r.value) == v
  {
    if v == "pending" then Some(Pending)
    else if v == "confirmed" then Some(Confirmed)
    else if v == "processing" then Some(Processing)
    else if v == "shipped" then Some(Shipped)
    else if v == "delivered" then Some(Delivered)
    else if v == "cancelled" then Some(Cancelled)
    else None
  }

  /** Every status survives the round trip through its value, so the six values are distinct. */
  lemma StatusRoundTrip(s: OrderStatus)
    ensures ParseStatus(StatusValue(s)) == Some(s)
  {
  }

  /** The six values, one per status. */
  lemma SixStatuses()
    ensures |{StatusValue(Pending), StatusValue(Confirmed), StatusValue(Processing),
              StatusValue(Shipped), StatusValue(Delivered), StatusValue(Cancelled)}| == 6
    ensures forall s: OrderStatus :: StatusValue(s) in
              {"pending", "confirmed", "processing", "shipped", "delivered", "cancelled"}
  {
    var values := ["pending", "confirmed", "processing", "shipped", "delivered", "cancelled"];
    forall i, j | 0 <= i < j < 6 ensures values[i] != values[j] {
      assert values[i][|values[i]| - 1] != values[j][|values[j]| - 1] || values[i][0] != values[j][0]
          || values[i][1] != values[j][1];
    }
  }

  const PriceErrorText := "Price must be positive"
  const QuantityErrorText := "Quantity must be positive"

  /** `ProductBase.price_must_be_positive`. */
  function ValidatePrice(v: int): (r: Result<int, string>)
    ensures r.Ok? <==> v > 0
    ensures r.Ok? ==> r.value == v
    ensures r.Err? ==> r.error == PriceErrorText
  {
    if v <= 0 then Err(PriceErrorText) else Ok(v)
  }

  /** `ProductUpdate.price_update_must_be_positive`: an absent price is accepted. */
  function ValidateUpdatePrice(v: Option<int>): (r: Result<Option<int>, string>)
    ensures r.Ok? <==> v.None? || v.value > 0
    ensures r.Ok? ==> r.value == v
    ensures r.Err? ==> r.error == PriceErrorText
  {
    if v.Some? && v.value <= 0 then Err(PriceErrorText) else Ok(v)
  }

  /** `OrderItemBase.quantity_must_be_positive`. */
  function ValidateQuantity(v: int): (r: Result<int, string>)
    ensures r.Ok? <==> v > 0
    ensures r.Ok? ==> r.value == v
    ensures r.Err? ==> r.error == QuantityErrorText
  {
    if v <= 0 then Err(QuantityErrorText) else Ok(v)
  }

  /** An update's price passes exactly when it is absent or would pass as a creation price. */
  lemma UpdatePriceAgreesWithCreate(v: Option<int>)
    ensures v.Some? ==> (ValidateUpdatePrice(v).Ok? <==> ValidatePrice(v.value).Ok?)
    ensures v.None? ==> ValidateUpdatePrice(v) == Ok(None)
  {
  }

  /** A product body as sent: fields with defaults may be omitted (`None`); an explicit `null`
    * is `Some(None)`. */
  datatype ProductInput = ProductInput(
    name: string,
    description: Option<Option<string>>,
    price: int,
    category: Option<Option<string>>,
    images: Option<Option<seq<string>>>,
    stockQuantity: Option<int>,
    isAvailable: Option<bool>)

  /** A validated `ProductBase`. */
  datatype ProductBase = ProductBase(
    name: string, description: Option<string>, price: int, category: Option<string>,
    images: Option<seq<string>>, stockQuantity: int, isAvailable: bool)

  /** Validation of a product body: the price check, then the declared defaults. */
  function ValidateProduct(input: ProductInput): Result<ProductBase, string> {
    match ValidatePrice(input.price)
    case Err(e) => Err(e)
    case Ok(price) =>
      Ok(ProductBase(
        input.name,
        if input.description.Some? then input.description.value else None,
        price,
        if input.category.Some? then input.category.value else None,
        if input.images.Some? then input.images.value else Some([]),
        if input.stockQuantity.Some? then input.stockQuantity.value else 0,
        if input.isAvailable.Some? then input.isAvailable.value else true))
  }

  /** Omitted fields take their defaults: no stock, available, no images, no description or
    * category; given fields are kept; a non-positive price is refused whatever else is sent. */
  lemma ProductDefaults(input: ProductInput)
    ensures ValidateProduct(input).Ok? <==> input.price > 0
    ensures ValidateProduct(input).Err? ==> ValidateProduct(input).error == PriceErrorText
    ensures ValidateProduct(input).Ok? ==>
              var p := ValidateProduct(input).value;
              p.name == input.name && p.price == input.price
              && (input.stockQuantity.None? ==> p.stockQuantity == 0)
              && (input.stockQuantity.Some? ==> p.stockQuantity == input.stockQuantity.value)
              && (input.isAvailable.None? ==> p.isAvailable)
              && (input.images.None? ==> p.images == Some([]))
              && (input.description.None? ==> p.description.None?)
              && (input.category.None? ==> p.category.None?)
  {
  }
}
