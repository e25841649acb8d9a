/** Order creation in `backend/main.py`: each line is checked against the catalogue (unknown
  * product, insufficient stock), the total is priced from the catalogue, the order is stored
  * and the stock of every line's product is decremented. */
module Orders {
  import opened Wrappers
  import opened Text
  import opened Models
  import Cart
  import Checkout

  /** What the catalogue holds for one product id. */
  datatype StockEntry = StockEntry(name: string, price: int, stock: int)

  type Catalogue = map<int, StockEntry>

  /** One requested line of `OrderCreate.items`; the body carries no price the server reads. */
  datatype ItemIn = ItemIn(productId: int, quantity: int)

  /** One stored `order_items` row. */
  datatype StoredItem = StoredItem(productId: int, quantity: int, pricePerUnit: int, totalPrice: int)

  datatype StoredOrder = StoredOrder(id: int, status: string, totalAmount: int, items: seq<StoredItem>)

  /** An `HTTPException` the endpoint raises. */
  datatype HttpError = HttpError(status: int, detail: string)

  function NotFoundDetail(id: int): string {
    "Product " + IntToString(id) + " not found"
  }

  function InsufficientDetail(name: string): string {
    "Insufficient stock for product " + name
  }

  const CreateFailedDetail := "Error creating order"

  /** The checks of one line: 404 for an unknown product, then 400 when its stock is below the
    * line's quantity. */
  function LineError(products: Catalogue, item: ItemIn): (r: Option<HttpError>)
    ensures r.None? <==> item.productId in products && products[item.productId].stock >= item.quantity
    ensures r.Some? ==> (r.value.status == 404 <==> item.productId !in products)
  {
    if item.productId !in products then Some(HttpError(404, NotFoundDetail(item.productId)))
    else if products[item.productId].stock < item.quantity then
      Some(HttpError(400, InsufficientDetail(products[item.productId].name)))
    else None
  }

  /** The first failing line's error, checking lines in order. */
  function FirstError(products: Catalogue, items: seq<ItemIn>): Option<HttpError>
    decreases |items|
  {
    if |items| == 0 then None
    else if FirstError(products, items[..|items| - 1]).Some? then FirstError(products, items[..|items| - 1])
    else LineError(products, items[|items| - 1])
  }

  /** The checks pass exactly when every line passes on its own; otherwise the error is that of
    * the first failing line. */
  lemma {:induction false} FirstErrorSpec(products: Catalogue, items: seq<ItemIn>) returns (k: nat)
    ensures FirstError(products, items).None? <==> forall j :: 0 <= j < |items| ==> LineError(products, items[j]).None?
    ensures FirstError(products, items).Some? ==>
              k < |items| && FirstError(products, items) == LineError(products, items[k])
              && forall j :: 0 <= j < k ==> LineError(products, items[j]).None?
    decreases |items|
  {
    k := 0;
    if |items| > 0 {
      var init := items[..|items| - 1];
      k := FirstErrorSpec(products, init);
      assert forall j :: 0 <= j < |init| ==> init[j] == items[j];
      if FirstError(products, init).None? {
        k := |items| - 1;
      }
    }
  }

  /** Once a prefix fails, the whole order fails with the prefix's error. */
  lemma {:induction false} FirstErrorPrefix(products: Catalogue, items: seq<ItemIn>, m: nat)
    requires m <= |items| && FirstError(products, items[..m]).Some?
    ensures FirstError(products, items) == FirstError(products, items[..m])
    decreases |items| - m
  {
    if m < |items| {
      assert items[..m + 1][..m] == items[..m];
      FirstErrorPrefix(products, items, m + 1);
    } else {
      assert items[..m] == items;
    }
  }

  /** Every line names a product of the catalogue. */
  predicate Known(products: Catalogue, items: seq<ItemIn>) {
    forall k :: 0 <= k < |items| ==> items[k].productId in products
  }

  /** The stored rows: the catalogue price per unit and price times quantity. */
  function Priced(products: Catalogue, items: seq<ItemIn>): (r: seq<StoredItem>)
    requires Known(products, items)
    ensures |r| == |items|
    ensures forall k :: 0 <= k < |items| ==>
              r[k].productId == items[k].productId && r[k].quantity == items[k].quantity
              && r[k].pricePerUnit == products[items[k].productId].price
  {
    seq(|items|, k requires 0 <= k < |items| =>
      StoredItem(items[k].productId, items[k].quantity, products[items[k].productId].price,
                 products[items[k].productId].price * items[k].quantity))
  }

  /** Σ catalogue price × quantity over the lines, in order. */
  function ServerTotal(products: Catalogue, items: seq<ItemIn>): int
    requires Known(products, items)
    decreases |items|
  {
    if |items| == 0 then 0
    else ServerTotal(products, items[..|items| - 1])
         + products[items[|items| - 1].productId].price * items[|items| - 1].quantity
  }

  /** The quantity the lines ask of product `id` altogether. */
  function Demand(items: seq<ItemIn>, id: int): int
    decreases |items|
  {
    if |items| == 0 then 0
    else Demand(items[..|items| - 1], id) + (if items[|items| - 1].productId == id then items[|items| - 1].quantity else 0)
  }

  /** The catalogue after the stock loop: every product loses what the lines ask of it. */
  function Restocked(products: Catalogue, items: seq<ItemIn>): (r: Catalogue)
    ensures r.Keys == products.Keys
    ensures forall id :: id in r ==>
              r[id].name == products[id].name && r[id].price == products[id].price
              && r[id].stock == products[id].stock - Demand(items, id)
  {
    map id | id in products :: products[id].(stock := products[id].stock - Demand(items, id))
  }

  /** One more line decrements only its own product's stock. */
  lemma RestockStep(products: Catalogue, items: seq<ItemIn>, i: nat)
    requires i < |items| && items[i].productId in products
    ensures var before := Restocked(products, items[..i]);
            var id := items[i].productId;
            Restocked(products, items[..i + 1]) == before[id := before[id].(stock := before[id].stock - items[i].quantity)]
  {
    assert items[..i + 1][..i] == items[..i];
  }

  /** The first loop of `create_order`: each line is checked in order and priced from the
    * catalogue. It stops at the first failing line with that line's error; otherwise it gives
    * Σ price × quantity and the rows to store. */
  method CheckAndPrice(products: Catalogue, items: seq<ItemIn>)
    returns (e: Option<HttpError>, totalAmount: int, lines: seq<StoredItem>)
    ensures e == FirstError(products, items)
    ensures e.None? ==>
              Known(products, items) && totalAmount == ServerTotal(products, items) && lines == Priced(products, items)
  {
    totalAmount := 0;
    lines := [];
    var i := 0;
    while i < |items|
      invariant 0 <= i <= |items|
      invariant FirstError(products, items[..i]).None? && Known(products, items[..i])
      invariant totalAmount == ServerTotal(products, items[..i])
      invariant lines == Priced(products, items[..i])
    {
      var item := items[i];
      assert items[..i + 1][..i] == items[..i];
      if item.productId !in products || products[item.productId].stock < item.quantity {
        e := LineError(products, item);
        FirstErrorPrefix(products, items, i + 1);
        return;
      }
      var product := products[item.productId];
      var itemTotal := product.price * item.quantity;
      totalAmount := totalAmount + itemTotal;
      lines := lines + [StoredItem(item.productId, item.quantity, product.price, itemTotal)];
      i := i + 1;
    }
    assert items[..i] == items;
    e := None;
  }

  class Database {
    var products: Catalogue
    var orders: seq<StoredOrder>
    var nextOrderId: int

    constructor(products: Catalogue)
      ensures this.products == products && orders == [] && nextOrderId == 1
    {
      this.products := products;
      orders := [];
      nextOrderId := 1;
    }

    /** No product has negative stock. */
    predicate StockNonNegative()
      reads this
    {
      forall id :: id in products ==> products[id].stock >= 0
    }

    /** `create_order(order_data)`. `inserted` is whether `db.create_order` returned the new
      * row. A failed check or a failed insert leaves everything as it was; otherwise the order
      * is stored as pending with the catalogue-priced total and every product's stock drops by
      * what the lines ask of it. */
    method CreateOrder(items: seq<ItemIn>, inserted: bool) returns (r: Result<StoredOrder, HttpError>)
      modifies this
      ensures r.Ok? <==> FirstError(old(products), items).None? && inserted
      ensures FirstError(old(products), items).Some? ==> r == Err(FirstError(old(products), items).value)
      ensures FirstError(old(products), items).None? && !inserted ==> r == Err(HttpError(400, CreateFailedDetail))
      ensures r.Err? ==> products == old(products) && orders == old(orders) && nextOrderId == old(nextOrderId)
      ensures r.Ok? ==>
                FirstError(old(products), items).None? && inserted && Known(old(products), items)
                && r.value == StoredOrder(old(nextOrderId), StatusValue(Pending),
                                          ServerTotal(old(products), items), Priced(old(products), items))
                && orders == old(orders) + [r.value] && nextOrderId == old(nextOrderId) + 1
                && products == Restocked(old(products), items)
    {
      var e, totalAmount, lines := CheckAndPrice(products, items);
      if e.Some? {
        r := Err(e.value);
        return;
      }
      if !inserted {
        r := Err(HttpError(400, CreateFailedDetail));
        return;
      }
      var order := StoredOrder(nextOrderId, StatusValue(Pending), totalAmount, lines);
      orders := orders + [order];
      nextOrderId := nextOrderId + 1;
      TakeStock(items);
      r := Ok(order);
    }

    /** The stock loop: for each line in turn, its product's stock drops by its quantity. */
    method TakeStock(items: seq<ItemIn>)
      requires Known(products, items)
      modifies this
      ensures products == Restocked(old(products), items)
      ensures orders == old(orders) && nextOrderId == old(nextOrderId)
    {
      var i := 0;
      while i < |items|
        invariant 0 <= i <= |items|
        invariant products == Restocked(old(products), items[..i])
        invariant orders == old(orders) && nextOrderId == old(nextOrderId)
      {
        assert items[i].productId in old(products);
        var id := items[i].productId;
        RestockStep(old(products), items, i);
        products := products[id := products[id].(stock := products[id].stock - items[i].quantity)];
        i := i + 1;
      }
      assert items[..i] == items;
    }

    /** `create_order` with the stock check made against the total each product is asked for
      * across all lines, so that repeated lines cannot oversell. */
    method CreateOrderChecked(items: seq<ItemIn>, inserted: bool) returns (r: Result<StoredOrder, HttpError>)
      requires StockNonNegative()
      modifies this
      ensures StockNonNegative()
      ensures r.Err? ==> products == old(products) && orders == old(orders) && nextOrderId == old(nextOrderId)
      ensures r.Ok? <==> FirstError(old(products), items).None? && Shortfall(old(products), items, 0).None? && inserted
      ensures r.Ok? ==>
                Known(old(products), items) && r.value.totalAmount == ServerTotal(old(products), items)
                && orders == old(orders) + [r.value] && products == Restocked(old(products), items)
    {
      if FirstError(products, items).None? {
        var s := Shortfall(products, items, 0);
        if s.Some? {
          r := Err(s.value);
          return;
        }
        var _ := FirstErrorSpec(products, items);
        ShortfallNoneCovered(products, items, 0);
        RestockedNonNegative(products, items);
      }
      r := CreateOrder(items, inserted);
    }
  }

  /** The first line, from `k` on, whose product is asked for more than its stock in total. */
  function Shortfall(products: Catalogue, items: seq<ItemIn>, k: nat): (r: Option<HttpError>)
    requires k <= |items|
    ensures r.Some? ==> r.value.status == 400
    decreases |items| - k
  {
    if k == |items| then None
    else if items[k].productId in products && products[items[k].productId].stock < Demand(items, items[k].productId) then
      Some(HttpError(400, InsufficientDetail(products[items[k].productId].name)))
    else Shortfall(products, items, k + 1)
  }

  /** Every product named by a line has stock for all the lines naming it. */
  predicate DemandCovered(products: Catalogue, items: seq<ItemIn>) {
    forall k :: 0 <= k < |items| && items[k].productId in products ==>
      Demand(items, items[k].productId) <= products[items[k].productId].stock
  }

  lemma {:induction false} ShortfallNoneCovered(products: Catalogue, items: seq<ItemIn>, k: nat)
    requires k <= |items| && Shortfall(products, items, k).None?
    ensures forall j :: k <= j < |items| && items[j].productId in products ==>
              Demand(items, items[j].productId) <= products[items[j].productId].stock
    decreases |items| - k
  {
    if k < |items| {
      ShortfallNoneCovered(products, items, k + 1);
    }
  }

  /** A product no line names is asked for nothing. */
  lemma {:induction false} DemandAbsent(items: seq<ItemIn>, id: int)
    requires forall k :: 0 <= k < |items| ==> items[k].productId != id
    ensures Demand(items, id) == 0
    decreases |items|
  {
    if |items| > 0 {
      DemandAbsent(items[..|items| - 1], id);
    }
  }

  /** Lines that pass `quantity_must_be_positive` ask at least each line's quantity of its
    * product, and nothing negative of any product. */
  lemma {:induction false} DemandOfValidated(items: seq<ItemIn>, id: int, k: nat)
    requires forall j :: 0 <= j < |items| ==> ValidateQuantity(items[j].quantity).Ok?
    requires k < |items| && items[k].productId == id
    ensures Demand(items, id) >= items[k].quantity > 0
    decreases |items|
  {
    if k < |items| - 1 {
      DemandOfValidated(items[..|items| - 1], id, k);
    } else {
      DemandNonNegative(items[..|items| - 1], id);
    }
  }

  /** Validated lines never ask a negative amount of a product. */
  lemma {:induction false} DemandNonNegative(items: seq<ItemIn>, id: int)
    requires forall j :: 0 <= j < |items| ==> ValidateQuantity(items[j].quantity).Ok?
    ensures Demand(items, id) >= 0
    decreases |items|
  {
    if |items| > 0 {
      DemandNonNegative(items[..|items| - 1], id);
    }
  }

  /** After validated lines, the stock loop strictly lowers the stock of every product a line
    * names and leaves every other product's stock as it was. */
  lemma ValidatedLinesLowerStock(products: Catalogue, items: seq<ItemIn>, id: int)
    requires forall j :: 0 <= j < |items| ==> ValidateQuantity(items[j].quantity).Ok?
    requires id in products
    ensures (exists k :: 0 <= k < |items| && items[k].productId == id)
            ==> Restocked(products, items)[id].stock < products[id].stock
    ensures (forall k :: 0 <= k < |items| ==> items[k].productId != id)
            ==> Restocked(products, items)[id].stock == products[id].stock
  {
    if k :| 0 <= k < |items| && items[k].productId == id {
      DemandOfValidated(items, id, k);
    } else {
      DemandAbsent(items, id);
    }
  }

  /** With the total demand covered and no negative stock before, the stock loop leaves no
    * product negative. */
  lemma RestockedNonNegative(products: Catalogue, items: seq<ItemIn>)
    requires DemandCovered(products, items)
    requires forall id :: id in products ==> products[id].stock >= 0
    ensures forall id :: id in Restocked(products, items) ==> Restocked(products, items)[id].stock >= 0
  {
    forall id | id in products
      ensures products[id].stock - Demand(items, id) >= 0
    {
      if forall k :: 0 <= k < |items| ==> items[k].productId != id {
        DemandAbsent(items, id);
      }
    }
  }

  /** When no two lines name the same product, a line's quantity is all that is asked of its
    * product. */
  lemma {:induction false} DemandOfDistinct(items: seq<ItemIn>, k: nat)
    requires k < |items|
    requires forall i, j :: 0 <= i < j < |items| ==> items[i].productId != items[j].productId
    ensures Demand(items, items[k].productId) == items[k].quantity
    decreases |items|
  {
    var init := items[..|items| - 1];
    if k < |items| - 1 {
      DemandOfDistinct(init, k);
    } else {
      DemandAbsent(init, items[k].productId);
    }
  }

  /** The per-line check already covers the total demand when every product appears on one line
    * only. */
  lemma DistinctLinesCovered(products: Catalogue, items: seq<ItemIn>)
    requires forall i, j :: 0 <= i < j < |items| ==> items[i].productId != items[j].productId
    requires FirstError(products, items).None?
    ensures DemandCovered(products, items)
  {
    var _ := FirstErrorSpec(products, items);
    forall k | 0 <= k < |items| && items[k].productId in products
      ensures Demand(items, items[k].productId) <= products[items[k].productId].stock
    {
      DemandOfDistinct(items, k);
      assert LineError(products, items[k]).None?;
    }
  }

  /** A product with one unit in stock, ordered on two lines of one unit each: both lines pass
    * the per-line check, yet the stock loop takes it to -1. */
  lemma OversellExample()
    ensures var products := map[7 := StockEntry("bag", 100, 1)];
            var items := [ItemIn(7, 1), ItemIn(7, 1)];
            FirstError(products, items).None? && Restocked(products, items)[7].stock == -1
            && Shortfall(products, items, 0).Some?
  {
    var items := [ItemIn(7, 1), ItemIn(7, 1)];
    assert items[..1][..0] == [];
    assert Demand(items, 7) == 2 by {
      assert items[..1] == [ItemIn(7, 1)];
    }
  }

  /** The lines the server reads from the storefront's order body. */
  function ItemsOf(lines: seq<Checkout.OrderLine>): (r: seq<ItemIn>)
    ensures |r| == |lines|
    ensures forall k :: 0 <= k < |lines| ==> r[k] == ItemIn(lines[k].productId, lines[k].quantity)
  {
    seq(|lines|, k requires 0 <= k < |lines| => ItemIn(lines[k].productId, lines[k].quantity))
  }

  /** An order placed from a valid storefront cart never takes stock negative: the cart names
    * every product once, so the per-line check covers the total demand. */
  lemma StorefrontOrdersKeepStock(products: Catalogue, cart: Cart.Items)
    requires Cart.Valid(cart)
    requires FirstError(products, ItemsOf(Checkout.OrderLines(cart))).None?
    requires forall id :: id in products ==> products[id].stock >= 0
    ensures var r := Restocked(products, ItemsOf(Checkout.OrderLines(cart)));
            forall id :: id in r ==> r[id].stock >= 0
  {
    var items := ItemsOf(Checkout.OrderLines(cart));
    DistinctLinesCovered(products, items);
    RestockedNonNegative(products, items);
  }

  /** When the prices in the cart are the catalogue's, the server's total equals the total the
    * storefront sent. */
  lemma {:induction false} StorefrontTotalAgrees(products: Catalogue, cart: Cart.Items)
    requires forall k :: 0 <= k < |cart| ==>
               cart[k].product.id in products && products[cart[k].product.id].price == cart[k].product.price
    ensures Known(products, ItemsOf(Checkout.OrderLines(cart)))
    ensures ServerTotal(products, ItemsOf(Checkout.OrderLines(cart))) == Cart.TotalPrice(cart)
    decreases |cart|
  {
    var items := ItemsOf(Checkout.OrderLines(cart));
    if |cart| > 0 {
      var init := cart[..|cart| - 1];
      StorefrontTotalAgrees(products, init);
      assert items[..|items| - 1] == ItemsOf(Checkout.OrderLines(init));
    }
  }
}
