/** The admin dashboard figures, computed from the user, order and product
    tables as fetched (orders with their items and products included). */
module AdminService {
  import opened Wrappers
  import opened Schema
  import opened Seqs

  const RECENT_SALES_LIMIT := 10

  predicate IsCustomer(u: User) {
    u.role == CUSTOMER
  }

  /** Number of users with role CUSTOMER; admins are not counted. */
  function CustomerCount(users: seq<User>): (n: nat)
    ensures n <= |users|
  {
    |Filter(users, IsCustomer)|
  }

  /** Adding a user changes the count by one exactly when it is a customer. */
  lemma CustomerCountExtend(users: seq<User>, u: User)
    ensures CustomerCount(users + [u]) == CustomerCount(users) + (if IsCustomer(u) then 1 else 0)
  {
    FilterAppend(users, [u], IsCustomer);
    assert [u][1..] == [];
  }

  /** Revenue: over the orders, over their items, the product's current price
      times the quantity. Neither the stored total nor the captured price is
      used. */
  function Revenue(orders: seq<OrderView>): (r: int)
    ensures (forall i | 0 <= i < |orders| :: PricesAndQuantitiesNonNegative(orders[i].items)) ==> r >= 0
    decreases |orders|
  {
    if orders == [] then 0
    else
      LiveTotalNonNegative(orders[|orders| - 1].items);
      Revenue(orders[..|orders| - 1]) + LiveTotal(orders[|orders| - 1].items)
  }

  /** Revenue adds up over concatenated order lists. */
  lemma {:induction false} RevenueAppend(a: seq<OrderView>, b: seq<OrderView>)
    ensures Revenue(a + b) == Revenue(a) + Revenue(b)
    decreases |b|
  {
    if b == [] {
      assert a + b == a;
    } else {
      var n := |b| - 1;
      assert (a + b)[..|a + b| - 1] == a + b[..n];
      RevenueAppend(a, b[..n]);
    }
  }

  /** Sum of the totals stored on the orders. */
  function StoredRevenue(orders: seq<OrderView>): int
    decreases |orders|
  {
    if orders == [] then 0
    else StoredRevenue(orders[..|orders| - 1]) + orders[|orders| - 1].total
  }

  /** Sum of the price drift of every item of every order. */
  function OrdersDrift(orders: seq<OrderView>): int
    decreases |orders|
  {
    if orders == [] then 0
    else OrdersDrift(orders[..|orders| - 1]) + PriceDrift(orders[|orders| - 1].items)
  }

  /** When each stored total is its items' captured total, as placement sets
      it, the revenue is the sum of the stored totals plus the drift of every
      product's price since it was ordered. */
  lemma {:induction false} RevenueMatchesStoredTotals(orders: seq<OrderView>)
    requires forall i | 0 <= i < |orders| :: orders[i].total == ViewCapturedTotal(orders[i].items)
    ensures Revenue(orders) == StoredRevenue(orders) + OrdersDrift(orders)
    decreases |orders|
  {
    if orders != [] {
      var n := |orders| - 1;
      RevenueMatchesStoredTotals(orders[..n]);
      LiveTotalDrift(orders[n].items);
    }
  }

  /** In particular, while no price has changed since the orders were placed,
      the revenue equals the sum of the stored totals. */
  lemma {:induction false} RevenueWithoutDrift(orders: seq<OrderView>)
    requires forall i | 0 <= i < |orders| :: orders[i].total == ViewCapturedTotal(orders[i].items)
    requires forall i, k | 0 <= i < |orders| && 0 <= k < |orders[i].items| ::
      orders[i].items[k].product.price == orders[i].items[k].price
    ensures Revenue(orders) == StoredRevenue(orders)
    decreases |orders|
  {
    if orders != [] {
      var n := |orders| - 1;
      RevenueWithoutDrift(orders[..n]);
      LiveTotalWithoutDrift(orders[n].items);
    }
  }

  /** A price change after the order shows up in the revenue. */
  lemma RevenueFollowsLivePrice()
    ensures
      var latte := Product(1, "Latte", 600, "HOT", 50, None);
      var order := OrderView(1, None, None, PENDING, None, 1000, 0, [ItemView(2, 500, latte)], None);
      Revenue([order]) == 1200 && StoredRevenue([order]) == 1000
  {
    var latte := Product(1, "Latte", 600, "HOT", 50, None);
    var order := OrderView(1, None, None, PENDING, None, 1000, 0, [ItemView(2, 500, latte)], None);
    assert [order][..0] == [];
    assert order.items[..0] == [];
    assert LiveTotal(order.items) == LiveTotal([]) + 600 * 2;
    assert Revenue([order]) == Revenue([]) + LiveTotal(order.items);
    assert StoredRevenue([order]) == StoredRevenue([]) + 1000;
  }

  predicate HasLowStock(p: Product) {
    IsLowStock(p.inventory)
  }

  /** Number of products with stock strictly below the threshold. */
  function LowInventoryCount(products: seq<Product>): (n: nat)
    ensures n <= |products|
  {
    |Filter(products, HasLowStock)|
  }

  /** All products low gives all of them; none low gives zero. */
  lemma LowInventoryCountBounds(products: seq<Product>)
    ensures (forall i | 0 <= i < |products| :: products[i].inventory < LOW_STOCK_THRESHOLD) ==>
      LowInventoryCount(products) == |products|
    ensures (forall i | 0 <= i < |products| :: products[i].inventory >= LOW_STOCK_THRESHOLD) ==>
      LowInventoryCount(products) == 0
  {
    if forall i | 0 <= i < |products| :: products[i].inventory < LOW_STOCK_THRESHOLD {
      FilterKeepsAll(products, HasLowStock);
    }
    if forall i | 0 <= i < |products| :: products[i].inventory >= LOW_STOCK_THRESHOLD {
      FilterKeepsNone(products, HasLowStock);
    }
  }

  /** Adding a product raises the count by one exactly when its stock is low. */
  lemma LowInventoryCountExtend(products: seq<Product>, p: Product)
    ensures LowInventoryCount(products + [p]) == LowInventoryCount(products) + (if HasLowStock(p) then 1 else 0)
  {
    FilterAppend(products, [p], HasLowStock);
    assert [p][1..] == [];
  }

  /** The first ten orders as fetched, or all of them when fewer. */
  function RecentSales(orders: seq<OrderView>): (r: seq<OrderView>)
    ensures |r| == if |orders| < RECENT_SALES_LIMIT then |orders| else RECENT_SALES_LIMIT
    ensures r <= orders
  {
    if |orders| < RECENT_SALES_LIMIT then orders else orders[..RECENT_SALES_LIMIT]
  }

  datatype Stats = Stats(
    totalUsers: nat, totalOrders: nat, totalRevenue: int,
    lowInventoryCount: nat, recentSales: seq<OrderView>)

  /** getStats. */
  function GetStats(users: seq<User>, orders: seq<OrderView>, products: seq<Product>): (r: Stats)
    ensures r.totalUsers == CustomerCount(users) && r.totalUsers <= |users|
    ensures r.totalOrders == |orders|
    ensures r.totalRevenue == Revenue(orders)
    ensures r.lowInventoryCount == LowInventoryCount(products)
    ensures r.recentSales == RecentSales(orders)
    ensures r.recentSales <= orders && |r.recentSales| <= RECENT_SALES_LIMIT
  {
    Stats(CustomerCount(users), |orders|, Revenue(orders), LowInventoryCount(products), RecentSales(orders))
  }
}
