/** The order builder: the cart summary, the checkout request, the upsell
    request and the checkout button's state. The cart itself is kept by a
    shared cart store; what it holds after an add is an input here. */
module OrderPage {
  import opened Wrappers
  import opened Schema
  import opened OrderDto
  import opened OrdersService
  import opened AiService

  /** A cart line: the product's fields and the quantity chosen. */
  datatype CartLine = CartLine(id: int, name: string, price: int, category: string, quantity: int)

  /** Sum of price times quantity over the cart. */
  function CartTotal(cart: seq<CartLine>): (t: int)
    ensures (forall i | 0 <= i < |cart| :: cart[i].price >= 0 && cart[i].quantity >= 0) ==> t >= 0
    decreases |cart|
  {
    if cart == [] then 0
    else CartTotal(cart[..|cart| - 1]) + cart[|cart| - 1].price * cart[|cart| - 1].quantity
  }

  /** Sum of quantities over the cart: at least one per line when every
      line holds at least one. */
  function ItemCount(cart: seq<CartLine>): (n: int)
    ensures (forall i | 0 <= i < |cart| :: cart[i].quantity >= 1) ==> n >= |cart|
    decreases |cart|
  {
    if cart == [] then 0 else ItemCount(cart[..|cart| - 1]) + cart[|cart| - 1].quantity
  }

  /** Both sums add up over concatenated carts. */
  lemma {:induction false} CartSumsAppend(a: seq<CartLine>, b: seq<CartLine>)
    ensures CartTotal(a + b) == CartTotal(a) + CartTotal(b)
    ensures ItemCount(a + b) == ItemCount(a) + ItemCount(b)
    decreases |b|
  {
    if b == [] {
      assert a + b == a;
    } else {
      var n := |b| - 1;
      assert (a + b)[..|a + b| - 1] == a + b[..n];
      CartSumsAppend(a, b[..n]);
    }
  }

  function Lines(cart: seq<CartLine>): (r: seq<OrderLine>)
    ensures |r| == |cart|
    ensures forall i | 0 <= i < |cart| :: r[i] == OrderLine(cart[i].id, cart[i].quantity)
  {
    seq(|cart|, i requires 0 <= i < |cart| => OrderLine(cart[i].id, cart[i].quantity))
  }

  /** The order request: one line per cart line, in cart order, and always
      user 1, whoever is signed in. */
  function CheckoutPayload(cart: seq<CartLine>): (dto: CreateOrderDto)
    ensures dto.userId == Some(1) && dto.tableNumber.None?
    ensures |dto.items| == |cart|
    ensures forall i | 0 <= i < |cart| :: dto.items[i].productId == cart[i].id && dto.items[i].quantity == cart[i].quantity
  {
    CreateOrderDto(Some(1), None, Lines(cart))
  }

  /** The request passes the server's validation unchanged. */
  lemma CheckoutPayloadValidates(cart: seq<CartLine>)
    ensures Validate(ToJson(CheckoutPayload(cart))) == Ok(CheckoutPayload(cart))
  {
    ValidateToJson(CheckoutPayload(cart));
  }

  /** While the cart's prices are the products' current prices, the total
      the server charges is the total the cart shows. */
  lemma ServerTotalIsCartTotal(stock: ProductTable, cart: seq<CartLine>)
    requires forall i | 0 <= i < |cart| :: cart[i].id in stock && stock[cart[i].id].price == cart[i].price
    requires Place(stock, CheckoutPayload(cart).items).Ok?
    ensures CapturedTotal(Place(stock, CheckoutPayload(cart).items).value.items) == CartTotal(cart)
  {
    PlaceTotal(stock, Lines(cart));
    LinesTotalIsCartTotal(stock, cart);
  }

  lemma {:induction false} LinesTotalIsCartTotal(stock: ProductTable, cart: seq<CartLine>)
    requires forall i | 0 <= i < |cart| :: cart[i].id in stock && stock[cart[i].id].price == cart[i].price
    ensures LinesTotal(stock, Lines(cart)) == CartTotal(cart)
    decreases |cart|
  {
    if cart != [] {
      var n := |cart| - 1;
      assert Lines(cart)[..n] == Lines(cart[..n]);
      LinesTotalIsCartTotal(stock, cart[..n]);
    }
  }

  /** What the upsell request says about one line. */
  function AsUpsellItem(line: CartLine): UpsellItem {
    UpsellItem(Some(line.name), Some(line.category))
  }

  function UpsellItems(cart: seq<CartLine>): (r: seq<UpsellItem>)
    ensures |r| == |cart| && forall i | 0 <= i < |cart| :: r[i] == AsUpsellItem(cart[i])
  {
    seq(|cart|, i requires 0 <= i < |cart| => AsUpsellItem(cart[i]))
  }

  /** The checkout button is off for an empty cart and while a request is
      out, so an enabled button always sends at least one line. */
  predicate CheckoutDisabled(cart: seq<CartLine>, isCheckout: bool)
    ensures !CheckoutDisabled(cart, isCheckout) ==> |CheckoutPayload(cart).items| >= 1 && !isCheckout
  {
    |cart| == 0 || isCheckout
  }

  class OrderPage {
    var products: seq<Product>
    var cart: seq<CartLine>
    var upsell: Option<Suggestion>
    var isCheckout: bool
    var orderSuccess: bool

    constructor (cart: seq<CartLine>)
      ensures products == [] && this.cart == cart && upsell.None? && !isCheckout && !orderSuccess
    {
      products := [];
      this.cart := cart;
      upsell := None;
      isCheckout := false;
      orderSuccess := false;
    }

    function Total(): int
      reads this
    {
      CartTotal(cart)
    }

    /** The menu fetch of the first render: a reply replaces the product
        list, a failed fetch leaves it as it was. */
    method ProductsArrived(reply: Option<seq<Product>>)
      modifies this
      ensures products == (if reply.Some? then reply.value else old(products))
      ensures cart == old(cart) && upsell == old(upsell) && isCheckout == old(isCheckout)
      ensures orderSuccess == old(orderSuccess)
    {
      if reply.Some? {
        products := reply.value;
      }
    }

    /** addToCart: the cart store takes the product (its new cart is
        `updated`); an upsell request goes out only while none is held, and
        it lists the cart as it was plus the product. */
    method AddToCart(product: CartLine, updated: seq<CartLine>) returns (request: Option<seq<UpsellItem>>)
      modifies this
      ensures cart == updated
      ensures old(upsell).Some? <==> request.None?
      ensures request.Some? ==> request.value == UpsellItems(old(cart)) + [AsUpsellItem(product)]
      ensures upsell == old(upsell) && isCheckout == old(isCheckout) && orderSuccess == old(orderSuccess)
      ensures products == old(products)
    {
      var before := cart;
      cart := updated;
      if upsell.None? {
        request := Some(UpsellItems(before) + [AsUpsellItem(product)]);
      } else {
        request := None;
      }
    }

    /** The upsell reply arrives. */
    method UpsellArrived(s: Suggestion)
      modifies this
      ensures upsell == Some(s) && cart == old(cart) && isCheckout == old(isCheckout)
      ensures orderSuccess == old(orderSuccess) && products == old(products)
    {
      upsell := Some(s);
    }

    /** handleCheckout, from an enabled button: sends the cart as an order;
        an OK response shows the success state; the in-progress flag is
        cleared however the request ended. */
    method Checkout(outcome: Outcome) returns (sent: CreateOrderDto)
      requires !CheckoutDisabled(cart, isCheckout)
      modifies this
      ensures sent == CheckoutPayload(cart)
      ensures !isCheckout && !CheckoutDisabled(cart, isCheckout)
      ensures orderSuccess == (outcome == Succeeded || old(orderSuccess))
      ensures cart == old(cart) && upsell == old(upsell) && products == old(products)
    {
      isCheckout := true;
      sent := CheckoutPayload(cart);
      if outcome == Succeeded {
        orderSuccess := true;
      }
      isCheckout := false;
    }

    /** Three seconds after a successful order: cart, upsell and the success
        state are cleared, which disables checkout again. */
    method SuccessTimerFired()
      modifies this
      ensures cart == [] && upsell.None? && !orderSuccess && isCheckout == old(isCheckout)
      ensures CheckoutDisabled(cart, isCheckout) && Total() == 0
      ensures products == old(products)
    {
      cart := [];
      upsell := None;
      orderSuccess := false;
    }
  }
}
