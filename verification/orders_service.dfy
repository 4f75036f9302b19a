/** The order engine: placing an order against the product table inside one
    transaction, the read queries, and the unchecked update and delete.

    Placement is specified by the function Place, which walks the request
    lines in order exactly as the service's loop does; the class OrderStore
    holds the two tables and its Create method is proved to compute Place
    and to commit its result only when every line succeeds. */
module OrdersService {
  import opened Wrappers
  import opened Schema
  import opened Text
  import opened Seqs
  import opened OrderDto

  type ProductTable = map<int, Product>

  /** Both failures are raised as NotFoundException (HTTP 404). */
  datatype CreateError =
    | ProductNotFound(productId: int)
    | InsufficientInventory(name: string, available: int, requested: int)

  function Quoted(s: string): string {
    "\"" + s + "\""
  }

  function ErrorMessage(e: CreateError): string {
    match e
    case ProductNotFound(id) =>
      "Product with ID " + IntToString(id) + " not found"
    case InsufficientInventory(name, available, requested) =>
      "Insufficient inventory for product " + Quoted(name) + ". Available: "
      + IntToString(available) + ", Requested: " + IntToString(requested)
  }

  /** The not-found message is the fixed text around the decimal product id,
      so it names the id the request asked for. */
  lemma MissingProductMessage(id: int)
    ensures ErrorMessage(ProductNotFound(id)) == "Product with ID " + IntToString(id) + " not found"
    ensures Contains(ErrorMessage(ProductNotFound(id)), IntToString(id))
  {
    var digits := IntToString(id);
    ContainsInfix("Product with ID ", digits, " not found");
  }

  /** The stock message names the product in double quotes, then the
      available and the requested quantity in decimal. */
  lemma ShortStockMessage(name: string, available: int, requested: int)
    ensures ErrorMessage(InsufficientInventory(name, available, requested))
      == "Insufficient inventory for product " + "\"" + name + "\"" + ". Available: "
         + IntToString(available) + ", Requested: " + IntToString(requested)
    ensures Contains(ErrorMessage(InsufficientInventory(name, available, requested)), Quoted(name))
  {
    var head := "Insufficient inventory for product ";
    var a, r := IntToString(available), IntToString(requested);
    var tail := ". Available: " + a + ", Requested: " + r;
    var msg := ErrorMessage(InsufficientInventory(name, available, requested));
    assert msg == head + Quoted(name) + ". Available: " + a + ", Requested: " + r;
    assert msg == head + Quoted(name) + tail;
    ContainsInfix(head, Quoted(name), tail);
  }

  datatype Placement = Placement(stock: ProductTable, items: seq<OrderItem>)

  /** One pass of the loop body: look the product up, check the stock,
      decrement it and snapshot the price into an order item. */
  function Step(stock: ProductTable, line: OrderLine): (r: Result<(ProductTable, OrderItem), CreateError>)
    ensures r.Ok? <==> line.productId in stock && stock[line.productId].inventory >= line.quantity
    ensures r.Ok? ==>
      && r.value.0.Keys == stock.Keys
      && (forall id | id in stock && id != line.productId :: r.value.0[id] == stock[id])
      && r.value.0[line.productId].inventory == stock[line.productId].inventory - line.quantity
      && r.value.1 == OrderItem(line.productId, line.quantity, stock[line.productId].price)
    ensures r.Err? && line.productId !in stock ==> r.error == ProductNotFound(line.productId)
    ensures r.Err? && line.productId in stock ==>
      r.error == InsufficientInventory(stock[line.productId].name, stock[line.productId].inventory, line.quantity)
  {
    if line.productId !in stock then Err(ProductNotFound(line.productId))
    else
      var p := stock[line.productId];
      if p.inventory < line.quantity then Err(InsufficientInventory(p.name, p.inventory, line.quantity))
      else Ok((stock[line.productId := p.(inventory := p.inventory - line.quantity)],
               OrderItem(line.productId, line.quantity, p.price)))
  }

  /** The whole loop: the first failing line aborts; otherwise the final stock
      and the items, one per line, in request order. */
  function Place(stock: ProductTable, lines: seq<OrderLine>): (r: Result<Placement, CreateError>)
    ensures r.Ok? ==> |r.value.items| == |lines| && r.value.stock.Keys == stock.Keys
    decreases |lines|
  {
    if lines == [] then Ok(Placement(stock, []))
    else match Step(stock, lines[0])
      case Err(e) => Err(e)
      case Ok((next, item)) => Prefixed([item], Place(next, lines[1..]))
  }

  function Prefixed(items: seq<OrderItem>, r: Result<Placement, CreateError>): Result<Placement, CreateError> {
    match r
    case Err(e) => Err(e)
    case Ok(p) => Ok(Placement(p.stock, items + p.items))
  }

  lemma PrefixedEmpty(r: Result<Placement, CreateError>)
    ensures Prefixed([], r) == r
  {
    if r.Ok? {
      assert [] + r.value.items == r.value.items;
    }
  }

  lemma PrefixedTwice(a: seq<OrderItem>, b: seq<OrderItem>, r: Result<Placement, CreateError>)
    ensures Prefixed(a, Prefixed(b, r)) == Prefixed(a + b, r)
  {
    if r.Ok? {
      assert a + (b + r.value.items) == (a + b) + r.value.items;
    }
  }

  /** Total quantity the lines request of product `id`. */
  function Requested(lines: seq<OrderLine>, id: int): int
    decreases |lines|
  {
    if lines == [] then 0
    else (if lines[0].productId == id then lines[0].quantity else 0) + Requested(lines[1..], id)
  }

  /** Sum over the lines of the product's price times the requested quantity. */
  function LinesTotal(stock: ProductTable, lines: seq<OrderLine>): int
    decreases |lines|
  {
    if lines == [] then 0
    else
      var line := lines[|lines| - 1];
      LinesTotal(stock, lines[..|lines| - 1])
      + (if line.productId in stock then stock[line.productId].price * line.quantity else 0)
  }

  /** Line k passes the checks: its product exists and the stock left after
      the earlier lines covers its quantity. */
  predicate LineFits(stock: ProductTable, lines: seq<OrderLine>, k: int)
    requires 0 <= k < |lines|
  {
    var id := lines[k].productId;
    id in stock && stock[id].inventory - Requested(lines[..k], id) >= lines[k].quantity
  }

  predicate Feasible(stock: ProductTable, lines: seq<OrderLine>) {
    forall k | 0 <= k < |lines| :: LineFits(stock, lines, k)
  }

  predicate NonNegativeStock(stock: ProductTable) {
    forall id | id in stock :: stock[id].inventory >= 0
  }

  // ---------------------------------------------------------------------
  // Properties of placement

  /** A successful placement makes one item per line, in request order, with
      the requested quantity and the product's price. */
  lemma {:induction false} PlaceItems(stock: ProductTable, lines: seq<OrderLine>)
    requires Place(stock, lines).Ok?
    ensures |Place(stock, lines).value.items| == |lines|
    ensures forall k | 0 <= k < |lines| ::
      lines[k].productId in stock &&
      Place(stock, lines).value.items[k] ==
        OrderItem(lines[k].productId, lines[k].quantity, stock[lines[k].productId].price)
    decreases |lines|
  {
    if lines != [] {
      var (next, item) := Step(stock, lines[0]).value;
      PlaceItems(next, lines[1..]);
      var rest := Place(next, lines[1..]).value.items;
      assert Place(stock, lines).value.items == [item] + rest;
      forall k | 1 <= k < |lines|
        ensures lines[k].productId in stock
        ensures Place(stock, lines).value.items[k] ==
          OrderItem(lines[k].productId, lines[k].quantity, stock[lines[k].productId].price)
      {
        assert lines[1..][k - 1] == lines[k];
      }
    }
  }

  /** A successful placement lowers each product's stock by the total quantity
      the lines request of it, and changes nothing else in the table. */
  lemma {:induction false} PlaceStock(stock: ProductTable, lines: seq<OrderLine>)
    requires Place(stock, lines).Ok?
    ensures Place(stock, lines).value.stock.Keys == stock.Keys
    ensures forall id | id in stock ::
      Place(stock, lines).value.stock[id] ==
        stock[id].(inventory := stock[id].inventory - Requested(lines, id))
    decreases |lines|
  {
    if lines != [] {
      var (next, item) := Step(stock, lines[0]).value;
      PlaceStock(next, lines[1..]);
    }
  }

  /** Inventory that starts non-negative stays non-negative, whatever the
      sign of the requested quantities. */
  lemma {:induction false} PlaceKeepsStockNonNegative(stock: ProductTable, lines: seq<OrderLine>)
    requires NonNegativeStock(stock)
    requires Place(stock, lines).Ok?
    ensures NonNegativeStock(Place(stock, lines).value.stock)
    decreases |lines|
  {
    if lines != [] {
      var (next, item) := Step(stock, lines[0]).value;
      PlaceKeepsStockNonNegative(next, lines[1..]);
    }
  }

  /** The order total: the sum over the lines of price times quantity. */
  lemma PlaceTotal(stock: ProductTable, lines: seq<OrderLine>)
    requires Place(stock, lines).Ok?
    ensures CapturedTotal(Place(stock, lines).value.items) == LinesTotal(stock, lines)
  {
    PlaceItems(stock, lines);
    TotalsAgree(Place(stock, lines).value.items, stock, lines);
  }

  lemma {:induction false} TotalsAgree(items: seq<OrderItem>, stock: ProductTable, lines: seq<OrderLine>)
    requires |items| == |lines|
    requires forall k | 0 <= k < |lines| ::
      lines[k].productId in stock &&
      items[k] == OrderItem(lines[k].productId, lines[k].quantity, stock[lines[k].productId].price)
    ensures CapturedTotal(items) == LinesTotal(stock, lines)
    decreases |lines|
  {
    if lines != [] {
      var n := |lines| - 1;
      TotalsAgree(items[..n], stock, lines[..n]);
    }
  }

  /** A line naming a product that does not exist makes the whole placement
      fail, wherever the line stands. */
  lemma {:induction false} PlaceFailsOnMissingProduct(stock: ProductTable, lines: seq<OrderLine>, k: int)
    requires 0 <= k < |lines| && lines[k].productId !in stock
    ensures Place(stock, lines).Err?
    decreases |lines|
  {
    if Step(stock, lines[0]).Ok? && k > 0 {
      var (next, item) := Step(stock, lines[0]).value;
      assert lines[1..][k - 1] == lines[k];
      PlaceFailsOnMissingProduct(next, lines[1..], k - 1);
    }
  }

  /** The error placement reports is the first failing line's: ProductNotFound
      for its id when its product is missing, else InsufficientInventory with
      the product's name, the stock the earlier lines left and the quantity
      asked for. */
  lemma {:induction false} PlaceReportsFirstFailure(stock: ProductTable, lines: seq<OrderLine>, k: int)
    requires 0 <= k < |lines|
    requires forall j | 0 <= j < k :: LineFits(stock, lines, j)
    requires !LineFits(stock, lines, k)
    ensures lines[k].productId !in stock ==> Place(stock, lines) == Err(ProductNotFound(lines[k].productId))
    ensures lines[k].productId in stock ==>
      var id := lines[k].productId;
      Place(stock, lines) ==
        Err(InsufficientInventory(stock[id].name, stock[id].inventory - Requested(lines[..k], id), lines[k].quantity))
    decreases |lines|
  {
    var id := lines[k].productId;
    if k == 0 {
      assert lines[..0] == [];
    } else {
      assert LineFits(stock, lines, 0);
      assert lines[..0] == [];
      var (next, item) := Step(stock, lines[0]).value;
      forall j | 0 <= j < k - 1
        ensures LineFits(next, lines[1..], j)
      {
        ShiftFits(stock, lines, j);
      }
      ShiftFits(stock, lines, k - 1);
      assert lines[1..][k - 1] == lines[k];
      PlaceReportsFirstFailure(next, lines[1..], k - 1);
      assert lines[..k][1..] == lines[1..][..k - 1];
      assert lines[..k][0] == lines[0];
      assert Requested(lines[..k], id) ==
        (if lines[0].productId == id then lines[0].quantity else 0) + Requested(lines[1..][..k - 1], id);
    }
  }

  lemma ShiftFits(stock: ProductTable, lines: seq<OrderLine>, j: int)
    requires 0 <= j < |lines| - 1
    requires Step(stock, lines[0]).Ok?
    ensures LineFits(Step(stock, lines[0]).value.0, lines[1..], j) <==> LineFits(stock, lines, j + 1)
  {
    var next := Step(stock, lines[0]).value.0;
    var id := lines[j + 1].productId;
    assert lines[1..][j] == lines[j + 1];
    assert lines[..j + 1][1..] == lines[1..][..j];
    assert lines[..j + 1][0] == lines[0];
    assert Requested(lines[..j + 1], id) ==
      (if lines[0].productId == id then lines[0].quantity else 0) + Requested(lines[1..][..j], id);
  }

  /** Placement succeeds exactly when every line fits the stock left by the
      lines before it: a product named twice is checked against the already
      decremented stock. */
  lemma {:induction false} PlaceSucceedsIffFeasible(stock: ProductTable, lines: seq<OrderLine>)
    ensures Place(stock, lines).Ok? <==> Feasible(stock, lines)
    decreases |lines|
  {
    if lines != [] {
      assert lines[..0] == [];
      if Step(stock, lines[0]).Ok? {
        var next := Step(stock, lines[0]).value.0;
        PlaceSucceedsIffFeasible(next, lines[1..]);
        forall j | 0 <= j < |lines| - 1
          ensures LineFits(next, lines[1..], j) <==> LineFits(stock, lines, j + 1)
        {
          ShiftFits(stock, lines, j);
        }
        assert LineFits(stock, lines, 0);
        if Feasible(next, lines[1..]) {
          forall k | 0 <= k < |lines| ensures LineFits(stock, lines, k) {
            if k > 0 {
              assert LineFits(next, lines[1..], k - 1);
            }
          }
        }
        if Feasible(stock, lines) {
          forall j | 0 <= j < |lines| - 1 ensures LineFits(next, lines[1..], j) {
            assert LineFits(stock, lines, j + 1);
          }
        }
      } else {
        assert !LineFits(stock, lines, 0);
      }
    }
  }

  /** A zero or negative quantity passes the stock check and raises the stock. */
  lemma NonPositiveQuantityRaisesStock(stock: ProductTable, line: OrderLine)
    requires line.productId in stock && stock[line.productId].inventory >= 0
    requires line.quantity <= 0
    ensures Step(stock, line).Ok?
    ensures Step(stock, line).value.0[line.productId].inventory >= stock[line.productId].inventory
  {
  }

  /** Two orders of 2 against a stock of 3: the first succeeds and leaves 1,
      the second is refused. */
  lemma TwoOrdersCompeteForStock()
    ensures
      var latte := Product(7, "Latte", 500, "HOT", 3, None);
      var first := Place(map[7 := latte], [OrderLine(7, 2)]);
      && first == Ok(Placement(map[7 := latte.(inventory := 1)], [OrderItem(7, 2, 500)]))
      && Place(first.value.stock, [OrderLine(7, 2)]) == Err(InsufficientInventory("Latte", 1, 2))
  {
    var latte := Product(7, "Latte", 500, "HOT", 3, None);
    var after := map[7 := latte][7 := latte.(inventory := 1)];
    assert after == map[7 := latte.(inventory := 1)];
    assert [OrderLine(7, 2)][1..] == [];
    assert [OrderItem(7, 2, 500)] + [] == [OrderItem(7, 2, 500)];
  }

  // ---------------------------------------------------------------------
  // Update requests

  /** UpdateOrderDto: every field optional; `items` is accepted but dropped. */
  datatype OrderPatch = OrderPatch(
    status: Option<string>, notes: Option<string>, tableNumber: Option<string>,
    userId: Option<int>, items: Option<seq<OrderLine>>)

  /** Overwrites the supplied fields; no status transition is checked. */
  function ApplyPatch(o: Order, patch: OrderPatch): (r: Order)
    ensures r.id == o.id && r.total == o.total && r.items == o.items && r.createdAt == o.createdAt
    ensures r.status == (if patch.status.Some? then patch.status.value else o.status)
    ensures r.notes == (if patch.notes.Some? then patch.notes else o.notes)
    ensures r.tableNumber == (if patch.tableNumber.Some? then patch.tableNumber else o.tableNumber)
    ensures r.userId == (if patch.userId.Some? then patch.userId else o.userId)
    ensures patch == OrderPatch(None, None, None, None, patch.items) ==> r == o
  {
    o.(status := if patch.status.Some? then patch.status.value else o.status,
       notes := if patch.notes.Some? then patch.notes else o.notes,
       tableNumber := if patch.tableNumber.Some? then patch.tableNumber else o.tableNumber,
       userId := if patch.userId.Some? then patch.userId else o.userId)
  }

  /** Position of the order with the given id, or -1. */
  function IndexOf(os: seq<Order>, id: int): (k: int)
    ensures -1 <= k < |os|
    ensures k >= 0 ==> os[k].id == id
    ensures k == -1 <==> forall j | 0 <= j < |os| :: os[j].id != id
    decreases |os|
  {
    if os == [] then -1
    else if os[0].id == id then 0
    else
      var k := IndexOf(os[1..], id);
      if k < 0 then -1 else k + 1
  }

  /** How a store call fails: the order to update or delete does not exist;
      the order would name a user the user table does not hold (the foreign
      key from orders to users); or a line of a new order failed inside the
      transaction. */
  datatype StoreError =
    | RecordNotFound
    | UnknownUser(userId: int)
    | LineRejected(error: CreateError)

  /** The optional owning user is absent or present in the user table. */
  predicate UserExists(users: set<int>, userId: Option<int>) {
    userId.None? || userId.value in users
  }

  /** Every order's owner, when it has one, is in the user table. */
  predicate OwnersExist(os: seq<Order>, users: set<int>) {
    forall i | 0 <= i < |os| :: UserExists(users, os[i].userId)
  }

  predicate IncreasingCreation(os: seq<Order>) {
    forall i, j | 0 <= i < j < |os| :: os[i].createdAt < os[j].createdAt
  }

  lemma FilterKeepsCreationOrder(os: seq<Order>, keep: Order -> bool)
    requires IncreasingCreation(os)
    ensures IncreasingCreation(Filter(os, keep))
  {
    var key := (o: Order) => o.createdAt as int;
    assert KeysIncreasing(os, key);
    FilterKeepsIncreasing(os, keep, key);
  }

  /** The order table's own invariant: ids below the counter and increasing,
      creation times before the clock and increasing, and every item naming a
      product of the table. */
  ghost predicate WellFormedTable(os: seq<Order>, products: ProductTable, nextId: int, clock: nat) {
    && (forall i | 0 <= i < |os| :: 1 <= os[i].id < nextId && os[i].createdAt < clock)
    && (forall i, j | 0 <= i < j < |os| :: os[i].id < os[j].id)
    && IncreasingCreation(os)
    && (forall i, k | 0 <= i < |os| && 0 <= k < |os[i].items| :: os[i].items[k].productId in products)
  }

  /** Deleting one order keeps the table well formed. */
  lemma RemoveKeepsWellFormed(os: seq<Order>, k: int, products: ProductTable, nextId: int, clock: nat)
    requires 0 <= k < |os|
    requires WellFormedTable(os, products, nextId, clock)
    ensures WellFormedTable(os[..k] + os[k + 1..], products, nextId, clock)
  {
    var rest := os[..k] + os[k + 1..];
    RemoveAt(os, k);
    assert forall i | 0 <= i < |rest| :: rest[i] == os[if i < k then i else i + 1];
  }

  /** The loop inside the transaction, run on a working copy of the product
      table: each line is looked up, checked, decremented and snapshotted in
      turn, and the first failure aborts. Returns the placement and the
      running total it accumulated. */
  method Transaction(products: ProductTable, lines: seq<OrderLine>)
    returns (r: Result<Placement, CreateError>, total: int)
    ensures r == Place(products, lines)
    ensures r.Ok? ==> total == CapturedTotal(r.value.items)
  {
    var stock := products;
    total := 0;
    var itemsData: seq<OrderItem> := [];
    var i := 0;
    assert lines[0..] == lines;
    PrefixedEmpty(Place(stock, lines));
    while i < |lines|
      invariant 0 <= i <= |lines|
      invariant Place(products, lines) == Prefixed(itemsData, Place(stock, lines[i..]))
      invariant total == CapturedTotal(itemsData)
    {
      var line := lines[i];
      assert lines[i..][0] == line && lines[i..][1..] == lines[i + 1..];
      if line.productId !in stock {
        return Err(ProductNotFound(line.productId)), total;
      }
      var product := stock[line.productId];
      if product.inventory < line.quantity {
        return Err(InsufficientInventory(product.name, product.inventory, line.quantity)), total;
      }
      var item := OrderItem(line.productId, line.quantity, product.price);
      stock := stock[line.productId := product.(inventory := product.inventory - line.quantity)];
      total := total + product.price * line.quantity;
      assert CapturedTotal(itemsData + [item]) == total by {
        assert (itemsData + [item])[..|itemsData|] == itemsData;
      }
      PrefixedTwice(itemsData, [item], Place(stock, lines[i + 1..]));
      itemsData := itemsData + [item];
      i := i + 1;
    }
    assert lines[i..] == [];
    assert itemsData + [] == itemsData;
    r := Ok(Placement(stock, itemsData));
  }

  // ---------------------------------------------------------------------
  // The store

  class OrderStore {
    var products: ProductTable
    /** The order table in insertion order. */
    var orders: seq<Order>
    /** The next autoincrement order id. */
    var nextId: int
    /** The next creation time; each new order is stamped later than the last. */
    var clock: nat
    /** The ids in the user table, which this store does not change. */
    const users: set<int>

    ghost predicate Valid()
      reads this
    {
      && NonNegativeStock(products)
      && nextId >= 1
      && WellFormedTable(orders, products, nextId, clock)
      && OwnersExist(orders, users)
    }

    constructor (catalog: ProductTable, userIds: set<int>)
      requires NonNegativeStock(catalog)
      ensures Valid()
      ensures products == catalog && users == userIds && orders == [] && nextId == 1 && clock == 0
    {
      products := catalog;
      users := userIds;
      orders := [];
      nextId := 1;
      clock := 0;
    }

    /** create: all-or-nothing placement. The transaction computes the new
        product table and the items; the insert that ends it fails when the
        order names an unknown user, and the whole transaction, stock
        decrements included, is rolled back. Only a placement whose every
        line succeeded and whose user exists is committed. */
    method Create(dto: CreateOrderDto) returns (r: Result<Order, StoreError>)
      requires Valid()
      modifies this
      ensures Valid()
      ensures Place(old(products), dto.items).Err? ==>
        r == Err(LineRejected(Place(old(products), dto.items).error))
      ensures Place(old(products), dto.items).Ok? && !UserExists(users, dto.userId) ==>
        r == Err(UnknownUser(dto.userId.value))
      ensures r.Err? ==>
        products == old(products) && orders == old(orders) && nextId == old(nextId) && clock == old(clock)
      ensures Place(old(products), dto.items).Ok? && UserExists(users, dto.userId) ==>
        var p := Place(old(products), dto.items).value;
        && r == Ok(Order(old(nextId), dto.userId, dto.tableNumber, PENDING, None,
                         CapturedTotal(p.items), old(clock), p.items))
        && products == p.stock && orders == old(orders) + [r.value]
        && nextId == old(nextId) + 1 && clock == old(clock) + 1
      ensures dto.items == [] && UserExists(users, dto.userId) ==>
        r.Ok? && r.value.total == 0 && r.value.items == [] && products == old(products)
    {
      var placed, total := Transaction(products, dto.items);
      if placed.Err? {
        return Err(LineRejected(placed.error));
      }
      if !UserExists(users, dto.userId) {
        return Err(UnknownUser(dto.userId.value));
      }
      PlaceKeepsStockNonNegative(products, dto.items);
      PlaceStock(products, dto.items);
      PlaceItems(products, dto.items);
      var order := Order(nextId, dto.userId, dto.tableNumber, PENDING, None, total, clock, placed.value.items);
      products := placed.value.stock;
      orders := orders + [order];
      nextId := nextId + 1;
      clock := clock + 1;
      r := Ok(order);
    }

    /** findAll: every order, newest first. */
    function FindAll(): (r: seq<Order>)
      reads this
      requires Valid()
      ensures |r| == |orders|
      ensures forall i | 0 <= i < |orders| :: orders[i] in r
      ensures forall i | 0 <= i < |r| :: r[i] in orders
      ensures forall i, j | 0 <= i < j < |r| :: r[i].createdAt > r[j].createdAt
    {
      ReverseSameElements(orders);
      Reverse(orders)
    }

    /** findByUser: exactly the user's orders, newest first. */
    function FindByUser(userId: int): (r: seq<Order>)
      reads this
      requires Valid()
      ensures forall i | 0 <= i < |r| :: r[i] in orders && r[i].userId == Some(userId)
      ensures forall i | 0 <= i < |orders| && orders[i].userId == Some(userId) :: orders[i] in r
      ensures forall i, j | 0 <= i < j < |r| :: r[i].createdAt > r[j].createdAt
    {
      var mine := Filter(orders, (o: Order) => o.userId == Some(userId));
      FilterKeepsCreationOrder(orders, (o: Order) => o.userId == Some(userId));
      ReverseSameElements(mine);
      Reverse(mine)
    }

    /** findOne: the order with that id, if any. */
    function FindOne(id: int): (r: Option<Order>)
      reads this
      ensures r.Some? ==> r.value in orders && r.value.id == id
      ensures r.None? <==> forall i | 0 <= i < |orders| :: orders[i].id != id
    {
      var k := IndexOf(orders, id);
      if k < 0 then None else Some(orders[k])
    }

    /** update: overwrites the supplied fields (items dropped); an unknown id
        fails, and so does a new owner missing from the user table; the
        product table is untouched. */
    method Update(id: int, patch: OrderPatch) returns (r: Result<Order, StoreError>)
      requires Valid()
      modifies this
      ensures Valid()
      ensures products == old(products) && nextId == old(nextId) && clock == old(clock)
      ensures IndexOf(old(orders), id) < 0 ==> r == Err(RecordNotFound) && orders == old(orders)
      ensures IndexOf(old(orders), id) >= 0 && !UserExists(users, patch.userId) ==>
        r == Err(UnknownUser(patch.userId.value)) && orders == old(orders)
      ensures IndexOf(old(orders), id) >= 0 && UserExists(users, patch.userId) ==>
        var k := IndexOf(old(orders), id);
        r == Ok(ApplyPatch(old(orders)[k], patch)) && orders == old(orders)[k := r.value]
    {
      var k := IndexOf(orders, id);
      if k < 0 {
        return Err(RecordNotFound);
      }
      if !UserExists(users, patch.userId) {
        return Err(UnknownUser(patch.userId.value));
      }
      var updated := ApplyPatch(orders[k], patch);
      orders := orders[k := updated];
      r := Ok(updated);
    }

    /** remove: deletes the order (its items go with it); the stock it took
        is not given back. */
    method Remove(id: int) returns (r: Result<Order, StoreError>)
      requires Valid()
      modifies this
      ensures Valid()
      ensures products == old(products) && nextId == old(nextId) && clock == old(clock)
      ensures IndexOf(old(orders), id) < 0 ==> r == Err(RecordNotFound) && orders == old(orders)
      ensures IndexOf(old(orders), id) >= 0 ==>
        var k := IndexOf(old(orders), id);
        r == Ok(old(orders)[k]) && orders == old(orders)[..k] + old(orders)[k + 1..]
    {
      var k := IndexOf(orders, id);
      if k < 0 {
        return Err(RecordNotFound);
      }
      r := Ok(orders[k]);
      RemoveKeepsWellFormed(orders, k, products, nextId, clock);
      orders := orders[..k] + orders[k + 1..];
    }
  }
}
