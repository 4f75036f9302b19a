/** The records the backend stores and the frontend receives: products, users,
    orders and their items, and the joined shapes the order endpoints return
    (an item with its product included, an order with its user included).
    Prices and totals are whole numbers of the smallest currency unit. */
module Schema {
  import opened Wrappers

  const ADMIN := "ADMIN"
  const CUSTOMER := "CUSTOMER"

  const PENDING := "PENDING"
  const PREPARING := "PREPARING"
  const READY := "READY"
  const COMPLETED := "COMPLETED"
  const CANCELLED := "CANCELLED"

  /** Stock strictly below this counts as low, on the admin dashboard and on
      the menu-management page alike. */
  const LOW_STOCK_THRESHOLD := 20

  predicate IsLowStock(inventory: int) {
    inventory < LOW_STOCK_THRESHOLD
  }

  datatype Product = Product(
    id: int, name: string, price: int, category: string, inventory: int, image: Option<string>)

  datatype User = User(id: int, email: string, name: string, password: string, role: string)

  /** One order line as stored: the product it refers to, the quantity and the
      unit price captured when the order was placed. */
  datatype OrderItem = OrderItem(productId: int, quantity: int, price: int)

  datatype Order = Order(
    id: int, userId: Option<int>, tableNumber: Option<string>, status: string,
    notes: Option<string>, total: int, createdAt: nat, items: seq<OrderItem>)

  /** How a request from a page ended: an OK response, a non-OK one, or a
      thrown error. */
  datatype Outcome = Succeeded | Refused | Failed

  /** An order item with its product included, as the order endpoints send it. */
  datatype ItemView = ItemView(quantity: int, price: int, product: Product)

  datatype UserSummary = UserSummary(name: Option<string>, email: string)

  /** An order with its items, their products and its user included. */
  datatype OrderView = OrderView(
    id: int, userId: Option<int>, tableNumber: Option<string>, status: string,
    notes: Option<string>, total: int, createdAt: nat, items: seq<ItemView>,
    user: Option<UserSummary>)

  /** Sum of captured unit price times quantity over stored items. */
  function CapturedTotal(items: seq<OrderItem>): int
    decreases |items|
  {
    if items == [] then 0
    else CapturedTotal(items[..|items| - 1]) + items[|items| - 1].price * items[|items| - 1].quantity
  }

  /** Sum of captured unit price times quantity over the items of a view. */
  function ViewCapturedTotal(items: seq<ItemView>): int
    decreases |items|
  {
    if items == [] then 0
    else ViewCapturedTotal(items[..|items| - 1]) + items[|items| - 1].price * items[|items| - 1].quantity
  }

  /** Sum of the product's CURRENT price times quantity: the total the admin
      dashboard and the customer history recompute, ignoring captured prices. */
  function LiveTotal(items: seq<ItemView>): int
    decreases |items|
  {
    if items == [] then 0
    else LiveTotal(items[..|items| - 1]) + items[|items| - 1].product.price * items[|items| - 1].quantity
  }

  /** The live and the captured totals differ exactly by the price drift of
      each product since the order was placed. */
  lemma {:induction false} LiveTotalDrift(items: seq<ItemView>)
    ensures LiveTotal(items) == ViewCapturedTotal(items) + PriceDrift(items)
    decreases |items|
  {
    if items != [] {
      var n := |items| - 1;
      LiveTotalDrift(items[..n]);
      var it := items[n];
      assert it.product.price * it.quantity == it.price * it.quantity + (it.product.price - it.price) * it.quantity;
    }
  }

  function PriceDrift(items: seq<ItemView>): int
    decreases |items|
  {
    if items == [] then 0
    else
      var it := items[|items| - 1];
      PriceDrift(items[..|items| - 1]) + (it.product.price - it.price) * it.quantity
  }

  /** Every item's current product price and quantity are at least zero. */
  predicate PricesAndQuantitiesNonNegative(items: seq<ItemView>) {
    forall k | 0 <= k < |items| :: items[k].product.price >= 0 && items[k].quantity >= 0
  }

  /** With no negative price or quantity the live total is not negative. */
  lemma {:induction false} LiveTotalNonNegative(items: seq<ItemView>)
    ensures PricesAndQuantitiesNonNegative(items) ==> LiveTotal(items) >= 0
    decreases |items|
  {
    if items != [] {
      var n := |items| - 1;
      LiveTotalNonNegative(items[..n]);
      assert PricesAndQuantitiesNonNegative(items) ==> PricesAndQuantitiesNonNegative(items[..n]);
    }
  }

  /** When no product price changed, the live total equals the captured one. */
  lemma {:induction false} LiveTotalWithoutDrift(items: seq<ItemView>)
    requires forall k | 0 <= k < |items| :: items[k].product.price == items[k].price
    ensures LiveTotal(items) == ViewCapturedTotal(items)
    decreases |items|
  {
    if items != [] {
      LiveTotalWithoutDrift(items[..|items| - 1]);
    }
  }
}
