/**
 * The shop's cart and checkout endpoints over an in-memory store of the
 * tables they touch.
 */
module ProductsViews {
  import opened Wrappers
  import opened Models

  /** Why a request is refused: a field that fails validation, a 400 or 404 with its message, or an unhandled error (500). */
  datatype ApiError = Invalid(field: string) | BadRequest(message: string) | NotFound(message: string) | ServerError

  /**
   * One entry of the checkout's `cart_items`: `item["product"]["id"]` and
   * `item["quantity"]` (None when the key is missing), and whatever price
   * the client put in it.
   */
  datatype CheckoutItem = CheckoutItem(productId: Option<ProductId>, quantity: Option<nat>, clientPrice: Option<int>)

  /** The checkout body; each field may be missing. */
  datatype CheckoutRequest = CheckoutRequest(
    cartItems: Option<seq<CheckoutItem>>,
    shippingDetails: Option<map<string, string>>,
    paymentMethod: Option<string>)

  const CartNotFoundMessage := "Cart not found."
  const EmptyCartMessage := "Cart is empty"
  const DefaultPaymentMethod := "card"

  /** The item names a stored product and carries a quantity, so both lookups of the checkout succeed. */
  predicate Resolves(products: map<ProductId, Product>, item: CheckoutItem) {
    item.productId.Some? && item.productId.value in products && item.quantity.Some?
  }

  /** The stored product's current price times the submitted quantity. */
  function ItemAmount(products: map<ProductId, Product>, item: CheckoutItem): int
    requires Resolves(products, item)
  {
    products[item.productId.value].price * item.quantity.value
  }

  /** The first loop of the checkout: the running total, or None when some item fails its lookups. */
  function CheckoutTotal(products: map<ProductId, Product>, items: seq<CheckoutItem>): Option<int> {
    if items == [] then Some(0)
    else
      var last := items[|items| - 1];
      match CheckoutTotal(products, items[..|items| - 1])
      case None => None
      case Some(t) => if Resolves(products, last) then Some(t + ItemAmount(products, last)) else None
  }

  /** The total exists exactly when every item resolves. */
  lemma {:induction false} CheckoutTotalDefined(products: map<ProductId, Product>, items: seq<CheckoutItem>)
    ensures CheckoutTotal(products, items).Some? <==> forall i :: 0 <= i < |items| ==> Resolves(products, items[i])
  {
    if items != [] {
      var init := items[..|items| - 1];
      CheckoutTotalDefined(products, init);
      assert forall i :: 0 <= i < |init| ==> init[i] == items[i];
    }
  }

  /** Prices sent by the client play no part: two requests that differ only in them have the same total. */
  lemma {:induction false} TotalIgnoresClientPrices(products: map<ProductId, Product>, a: seq<CheckoutItem>, b: seq<CheckoutItem>)
    requires |a| == |b|
    requires forall i :: 0 <= i < |a| ==> a[i].productId == b[i].productId && a[i].quantity == b[i].quantity
    ensures CheckoutTotal(products, a) == CheckoutTotal(products, b)
  {
    if a != [] {
      TotalIgnoresClientPrices(products, a[..|a| - 1], b[..|b| - 1]);
    }
  }

  /** The order line the second loop creates for one item: its quantity and the product's current price. */
  function Line(products: map<ProductId, Product>, item: CheckoutItem, order: OrderId): (line: OrderItem)
    requires Resolves(products, item)
    ensures line.order == order && line.product == item.productId.value && line.quantity == item.quantity.value
    ensures line.price == products[item.productId.value].price
  {
    OrderItem(order, item.productId.value, item.quantity.value, products[item.productId.value].price)
  }

  /** The order lines of the second loop: one per item, in order. */
  function OrderLines(products: map<ProductId, Product>, items: seq<CheckoutItem>, order: OrderId): (lines: seq<OrderItem>)
    requires forall i :: 0 <= i < |items| ==> Resolves(products, items[i])
    ensures |lines| == |items|
    ensures forall i :: 0 <= i < |items| ==> lines[i] == Line(products, items[i], order)
  {
    seq(|items|, i requires 0 <= i < |items| => Line(products, items[i], order))
  }

  function LinesTotal(lines: seq<OrderItem>): int {
    if lines == [] then 0 else LinesTotal(lines[..|lines| - 1]) + lines[|lines| - 1].price * lines[|lines| - 1].quantity
  }

  /** The order's total is the sum of its lines' price × quantity. */
  lemma {:induction false} LinesAddUpToTotal(products: map<ProductId, Product>, items: seq<CheckoutItem>, order: OrderId)
    requires forall i :: 0 <= i < |items| ==> Resolves(products, items[i])
    ensures CheckoutTotal(products, items) == Some(LinesTotal(OrderLines(products, items, order)))
  {
    if items != [] {
      var init := items[..|items| - 1];
      assert forall i :: 0 <= i < |init| ==> init[i] == items[i];
      LinesAddUpToTotal(products, init, order);
      var lines := OrderLines(products, items, order);
      assert lines[..|lines| - 1] == OrderLines(products, init, order);
    }
  }

  /** `shipping_data.get(key, "")`. */
  function ShippingValue(details: Option<map<string, string>>, key: string): string {
    if details.Some? && key in details.value then details.value[key] else ""
  }

  /** The shipping address the checkout stores for a new order. */
  function CheckoutShipping(order: OrderId, details: Option<map<string, string>>): (s: ShippingAddress)
    ensures s.order == order && s.paymentStatus == "Success" && s.orderStatus == "Pending"
    ensures details.Some? && "fullName" in details.value ==> s.fullName == details.value["fullName"]
    ensures details.None? || "fullName" !in details.value ==> s.fullName == ""
    ensures details.Some? && "address" in details.value ==> s.address == details.value["address"]
    ensures details.None? || "address" !in details.value ==> s.address == ""
    ensures details.Some? && "city" in details.value ==> s.city == details.value["city"]
    ensures details.None? || "city" !in details.value ==> s.city == ""
    ensures details.Some? && "state" in details.value ==> s.state == details.value["state"]
    ensures details.None? || "state" !in details.value ==> s.state == ""
    ensures details.Some? && "postalCode" in details.value ==> s.postalCode == details.value["postalCode"]
    ensures details.None? || "postalCode" !in details.value ==> s.postalCode == ""
    ensures details.Some? && "country" in details.value ==> s.country == details.value["country"]
    ensures details.None? || "country" !in details.value ==> s.country == ""
    ensures details.Some? && "phone" in details.value ==> s.phone == details.value["phone"]
    ensures details.None? || "phone" !in details.value ==> s.phone == ""
  {
    NewShippingAddress(order,
      ShippingValue(details, "fullName"), ShippingValue(details, "address"), ShippingValue(details, "city"),
      ShippingValue(details, "state"), ShippingValue(details, "postalCode"), ShippingValue(details, "country"),
      ShippingValue(details, "phone"))
  }

  /** The items of one cart, product to quantity. */
  function CartContents(items: map<(CartId, ProductId), nat>, cart: CartId): map<ProductId, nat> {
    map k | k in items && k.0 == cart :: k.1 := items[k]
  }

  class Store {
    var products: map<ProductId, Product>
    /** The one-to-one link from a user to their cart. */
    var carts: map<UserId, CartId>
    var nextCartId: CartId
    /** The cart-item table, keyed by its unique (cart, product) pair. */
    var cartItems: map<(CartId, ProductId), nat>
    /** Orders by id: the order with id `i` is `orders[i]`. */
    var orders: seq<Order>
    var orderItems: seq<OrderItem>
    /** At most one shipping address per order. */
    var shipping: map<OrderId, ShippingAddress>

    ghost predicate Valid()
      reads this
    {
      && 0 <= nextCartId
      && (forall u :: u in carts ==> 0 <= carts[u] < nextCartId)
      && (forall u, v :: u in carts && v in carts && u != v ==> carts[u] != carts[v])
      && (forall i :: 0 <= i < |orders| ==> orders[i].id == i)
      && (forall i :: 0 <= i < |orderItems| ==> 0 <= orderItems[i].order < |orders|)
      && (forall o :: o in shipping ==> 0 <= o < |orders| && shipping[o].order == o)
    }

    constructor (products: map<ProductId, Product>)
      ensures Valid()
      ensures this.products == products && carts == map[] && cartItems == map[]
      ensures orders == [] && orderItems == [] && shipping == map[]
    {
      this.products := products;
      carts, nextCartId, cartItems := map[], 0, map[];
      orders, orderItems, shipping := [], [], map[];
    }

    /**
     * `CartItemCreateView.perform_create` with its serializer's checks: the
     * product must exist and a given quantity must not be negative. The
     * user's cart is created when missing; the product's item is created
     * with the quantity (1 when none is given) or grows by it.
     */
    method AddItem(user: UserId, productId: ProductId, quantity: Option<int>) returns (r: Result<(), ApiError>)
      requires Valid()
      modifies this`carts, this`nextCartId, this`cartItems
      ensures Valid()
      ensures productId !in products ==> r == Failure(Invalid("product_id"))
      ensures productId in products && quantity.Some? && quantity.value < 0 ==> r == Failure(Invalid("quantity"))
      ensures r.Failure? ==> carts == old(carts) && cartItems == old(cartItems) && nextCartId == old(nextCartId)
      ensures productId in products && (quantity.None? || quantity.value >= 0) ==> r.Success?
      ensures r.Success? ==>
                && user in carts
                && (user in old(carts) ==> carts == old(carts))
                && (user !in old(carts) ==> carts == old(carts)[user := old(nextCartId)])
                && var key := (carts[user], productId);
                   var q := if quantity.Some? then quantity.value else 1;
                   cartItems == old(cartItems)[key := (if key in old(cartItems) then old(cartItems)[key] else 0) + q]
    {
      if productId !in products {
        return Failure(Invalid("product_id"));
      }
      if quantity.Some? && quantity.value < 0 {
        return Failure(Invalid("quantity"));
      }
      var cart;
      if user in carts {
        cart := carts[user];
      } else {
        cart := nextCartId;
        carts := carts[user := cart];
        nextCartId := nextCartId + 1;
      }
      var q: nat := if quantity.Some? then quantity.value else DefaultQuantity;
      var key := (cart, productId);
      if key in cartItems {
        cartItems := cartItems[key := cartItems[key] + q];
      } else {
        cartItems := cartItems[key := q];
      }
      return Success(());
    }

    /** `CartDetailView.get`: the user's cart, or not-found when they have none. */
    method CartDetail(user: UserId) returns (r: Result<map<ProductId, nat>, ApiError>)
      ensures user !in carts <==> r == Failure(NotFound(CartNotFoundMessage))
      ensures user in carts ==> r == Success(CartContents(cartItems, carts[user]))
    {
      if user !in carts {
        return Failure(NotFound(CartNotFoundMessage));
      }
      return Success(CartContents(cartItems, carts[user]));
    }

    /** The first loop of the checkout: the total, or None where a lookup would fail. */
    method Total(items: seq<CheckoutItem>) returns (total: Option<int>)
      ensures total == CheckoutTotal(products, items)
    {
      var sum := 0;
      var i := 0;
      while i < |items|
        invariant 0 <= i <= |items|
        invariant CheckoutTotal(products, items[..i]) == Some(sum)
      {
        assert items[..i + 1][..i] == items[..i];
        var item := items[i];
        if item.productId.None? || item.productId.value !in products || item.quantity.None? {
          assert CheckoutTotal(products, items[..i + 1]).None?;
          CheckoutTotalNoneExtends(products, items, i + 1);
          return None;
        }
        sum := sum + products[item.productId.value].price * item.quantity.value;
        i := i + 1;
      }
      assert items[..i] == items;
      return Some(sum);
    }

    /** The second loop of the checkout: one order line per item, for order `id`. */
    method AddLines(items: seq<CheckoutItem>, id: OrderId)
      requires forall i :: 0 <= i < |items| ==> Resolves(products, items[i])
      requires 0 <= id < |orders|
      requires forall j :: 0 <= j < |orderItems| ==> 0 <= orderItems[j].order < |orders|
      modifies this`orderItems
      ensures orderItems == old(orderItems) + OrderLines(products, items, id)
      ensures forall j :: 0 <= j < |orderItems| ==> 0 <= orderItems[j].order < |orders|
    {
      var i := 0;
      while i < |items|
        invariant 0 <= i <= |items|
        invariant orderItems == old(orderItems) + OrderLines(products, items[..i], id)
        invariant forall j :: 0 <= j < |orderItems| ==> 0 <= orderItems[j].order < |orders|
      {
        var item := items[i];
        var product := products[item.productId.value];
        orderItems := orderItems + [OrderItem(id, item.productId.value, item.quantity.value, product.price)];
        assert OrderLines(products, items[..i + 1], id) == OrderLines(products, items[..i], id) + [Line(products, item, id)];
        i := i + 1;
      }
      assert items[..i] == items;
    }

    /**
     * `CheckoutView.post` for `user` at time `now`. The order id is the next
     * free one. An item whose product or quantity cannot be looked up makes
     * the first loop fail before anything is written.
     */
    method Checkout(user: UserId, request: CheckoutRequest, now: int) returns (r: Result<OrderId, ApiError>)
      requires Valid()
      modifies this`orders, this`orderItems, this`shipping, this`cartItems
      ensures Valid()
      ensures var items := request.cartItems.GetOr([]);
              items == [] ==> r == Failure(BadRequest(EmptyCartMessage))
      ensures var items := request.cartItems.GetOr([]);
              items != [] && CheckoutTotal(products, items).None? ==> r == Failure(ServerError)
      ensures r.Failure? ==>
                orders == old(orders) && orderItems == old(orderItems) && shipping == old(shipping)
                && cartItems == old(cartItems)
      ensures var items := request.cartItems.GetOr([]);
              items != [] && CheckoutTotal(products, items).Some? ==> r == Success(|old(orders)|)
      ensures r.Success? ==>
                var items := request.cartItems.GetOr([]);
                var id := r.value;
                && CheckoutTotal(products, items).Some?
                && (forall i :: 0 <= i < |items| ==> Resolves(products, items[i]))
                && orders == old(orders) + [Order(id, Some(user), CheckoutTotal(products, items).value,
                                                  request.paymentMethod.GetOr(DefaultPaymentMethod), true, now)]
                && orderItems == old(orderItems) + OrderLines(products, items, id)
                && shipping == old(shipping)[id := CheckoutShipping(id, request.shippingDetails)]
                && (user in carts ==> cartItems == DeleteCart(old(cartItems), carts[user]))
                && (user !in carts ==> cartItems == old(cartItems))
    {
      var items := request.cartItems.GetOr([]);
      if items == [] {
        return Failure(BadRequest(EmptyCartMessage));
      }
      var total := Total(items);
      if total.None? {
        return Failure(ServerError);
      }
      CheckoutTotalDefined(products, items);
      var id := PlaceOrder(user, items, total.value, request.paymentMethod.GetOr(DefaultPaymentMethod),
                           request.shippingDetails, now);
      return Success(id);
    }

    /**
     * The writing half of the checkout, once every item resolved: the order,
     * its lines and its shipping record, then the user's cart is emptied.
     */
    method PlaceOrder(user: UserId, items: seq<CheckoutItem>, total: int, paymentMethod: string,
                      details: Option<map<string, string>>, now: int) returns (id: OrderId)
      requires Valid()
      requires forall i :: 0 <= i < |items| ==> Resolves(products, items[i])
      modifies this`orders, this`orderItems, this`shipping, this`cartItems
      ensures Valid()
      ensures id == |old(orders)|
      ensures orders == old(orders) + [Order(id, Some(user), total, paymentMethod, true, now)]
      ensures orderItems == old(orderItems) + OrderLines(products, items, id)
      ensures shipping == old(shipping)[id := CheckoutShipping(id, details)]
      ensures user in carts ==> cartItems == DeleteCart(old(cartItems), carts[user])
      ensures user !in carts ==> cartItems == old(cartItems)
    {
      id := |orders|;
      orders := orders + [Order(id, Some(user), total, paymentMethod, true, now)];
      AddLines(items, id);
      shipping := shipping[id := CheckoutShipping(id, details)];
      ClearCart(user);
    }

    /** `cart.items.all().delete()` for the user's cart; no cart is no change. */
    method ClearCart(user: UserId)
      modifies this`cartItems
      ensures user in carts ==> cartItems == DeleteCart(old(cartItems), carts[user])
      ensures user !in carts ==> cartItems == old(cartItems)
    {
      if user in carts {
        cartItems := DeleteCart(cartItems, carts[user]);
      }
    }

    /** `serializer.save()` on an order's shipping record: the record is replaced, every other one kept. */
    method SaveShipping(id: OrderId, record: ShippingAddress)
      requires Valid()
      requires 0 <= id < |orders| && record.order == id
      modifies this`shipping
      ensures Valid()
      ensures shipping == old(shipping)[id := record]
    {
      shipping := shipping[id := record];
    }
  }

  /** Once a prefix has no total, no longer prefix has one. */
  lemma {:induction false} CheckoutTotalNoneExtends(products: map<ProductId, Product>, items: seq<CheckoutItem>, k: nat)
    requires k <= |items|
    requires CheckoutTotal(products, items[..k]).None?
    ensures CheckoutTotal(products, items).None?
    decreases |items| - k
  {
    if k < |items| {
      assert items[..k + 1][..k] == items[..k];
      CheckoutTotalNoneExtends(products, items, k + 1);
    } else {
      assert items[..k] == items;
    }
  }
}
