/**
 * The shop's database records: their shapes, defaults, length bounds and
 * the constraints the schema declares (one row per cart and product, one
 * cart per user, one shipping address per order, cascading deletes).
 */
module Models {
  import opened Wrappers
  import opened Seqs

  /** Primary keys of the records. */
  type UserId = int
  type CategoryId = int
  type ProductId = int
  type CartId = int
  type OrderId = int

  datatype Category = Category(id: CategoryId, name: string)

  /** `price` is in minor currency units. */
  datatype Product = Product(
    id: ProductId, category: CategoryId, name: string, description: string,
    price: int, image: string, createdAt: int)

  datatype Cart = Cart(id: CartId, user: UserId, createdAt: int)

  datatype CartItem = CartItem(cart: CartId, product: ProductId, quantity: nat)

  datatype Order = Order(
    id: OrderId, user: Option<UserId>, totalPrice: int, paymentMethod: string,
    isPaid: bool, createdAt: int)

  datatype OrderItem = OrderItem(order: OrderId, product: ProductId, quantity: nat, price: int)

  datatype ShippingAddress = ShippingAddress(
    order: OrderId, fullName: string, address: string, city: string, state: string,
    paymentStatus: string, orderStatus: string, postalCode: string, country: string, phone: string)

  const CategoryNameMax := 50
  const ProductNameMax := 100
  const ImageMax := 500
  const PaymentMethodMax := 50

  const DefaultQuantity: nat := 1
  const DefaultPaymentStatus := "Success"
  const DefaultOrderStatus := "Pending"

  predicate ValidCategory(c: Category) {
    |c.name| <= CategoryNameMax
  }

  predicate ValidProduct(p: Product) {
    |p.name| <= ProductNameMax && |p.image| <= ImageMax
  }

  /** The `max_length` of each shipping column. */
  predicate ValidShipping(s: ShippingAddress) {
    |s.fullName| <= 100 && |s.address| <= 255 && |s.city| <= 100 && |s.state| <= 100
    && |s.paymentStatus| <= 30 && |s.orderStatus| <= 30
    && |s.postalCode| <= 20 && |s.country| <= 50 && |s.phone| <= 20
  }

  /** A cart item created without a quantity. */
  function NewCartItem(cart: CartId, product: ProductId): (item: CartItem)
    ensures item.quantity == 1 && item.cart == cart && item.product == product
  {
    CartItem(cart, product, DefaultQuantity)
  }

  /** An order created without `is_paid`. */
  function NewOrder(id: OrderId, user: Option<UserId>, totalPrice: int, paymentMethod: string, createdAt: int): (o: Order)
    ensures !o.isPaid
    ensures o.id == id && o.user == user && o.totalPrice == totalPrice && o.paymentMethod == paymentMethod
  {
    Order(id, user, totalPrice, paymentMethod, false, createdAt)
  }

  /** A shipping address created without the two status columns. */
  function NewShippingAddress(
    order: OrderId, fullName: string, address: string, city: string, state: string,
    postalCode: string, country: string, phone: string): (s: ShippingAddress)
    ensures s.paymentStatus == "Success" && s.orderStatus == "Pending"
    ensures s.order == order && s.fullName == fullName && s.address == address && s.city == city
    ensures s.state == state && s.postalCode == postalCode && s.country == country && s.phone == phone
  {
    ShippingAddress(order, fullName, address, city, state, DefaultPaymentStatus, DefaultOrderStatus,
                    postalCode, country, phone)
  }

  /**
   * The cart-item table kept as a map from (cart, product) to quantity:
   * the rows it stands for.
   */
  function ItemRows(items: map<(CartId, ProductId), nat>): set<CartItem> {
    set k | k in items :: CartItem(k.0, k.1, items[k])
  }

  /** The table can never hold two rows for the same cart and product. */
  lemma UniqueCartProduct(items: map<(CartId, ProductId), nat>, a: CartItem, b: CartItem)
    requires a in ItemRows(items) && b in ItemRows(items)
    requires a.cart == b.cart && a.product == b.product
    ensures a == b
  {
    var ka :| ka in items && a == CartItem(ka.0, ka.1, items[ka]);
    var kb :| kb in items && b == CartItem(kb.0, kb.1, items[kb]);
    assert ka == kb;
  }

  /** Every row of the table is some key of the map with its quantity. */
  lemma ItemRowsExact(items: map<(CartId, ProductId), nat>, r: CartItem)
    ensures r in ItemRows(items) <==> (r.cart, r.product) in items && items[(r.cart, r.product)] == r.quantity
  {
    if (r.cart, r.product) in items && items[(r.cart, r.product)] == r.quantity {
      var k := (r.cart, r.product);
      assert CartItem(k.0, k.1, items[k]) == r;
    }
  }

  /** The tables a category delete reaches through `on_delete=CASCADE`. */
  datatype Tables = Tables(
    categories: map<CategoryId, Category>, products: map<ProductId, Product>,
    cartItems: map<(CartId, ProductId), nat>, orderItems: seq<OrderItem>)

  /** Product `p` exists and belongs to category `id`, so deleting `id` deletes it. */
  predicate InCategory(products: map<ProductId, Product>, id: CategoryId, p: ProductId) {
    p in products && products[p].category == id
  }

  function KeepLine(products: map<ProductId, Product>, id: CategoryId): OrderItem -> bool {
    (x: OrderItem) => !InCategory(products, id, x.product)
  }

  /** Every reference points at a stored row, and every row is within its column lengths. */
  ghost predicate Consistent(t: Tables) {
    && (forall c :: c in t.categories ==> ValidCategory(t.categories[c]))
    && (forall p :: p in t.products ==> ValidProduct(t.products[p]) && t.products[p].category in t.categories)
    && (forall k :: k in t.cartItems ==> k.1 in t.products)
    && (forall i :: 0 <= i < |t.orderItems| ==> t.orderItems[i].product in t.products)
  }

  /**
   * Deleting a category deletes its products (models.py line 13), and with
   * them their cart items (line 34) and their order lines (line 57).
   */
  function DeleteCategory(t: Tables, id: CategoryId): (r: Tables)
    ensures r.categories == t.categories - {id}
    ensures forall p :: p in r.products <==> p in t.products && t.products[p].category != id
    ensures forall p :: p in r.products ==> r.products[p] == t.products[p]
    ensures forall k :: k in r.cartItems <==> k in t.cartItems && !InCategory(t.products, id, k.1)
    ensures forall k :: k in r.cartItems ==> r.cartItems[k] == t.cartItems[k]
  {
    Tables(
      t.categories - {id},
      map p | p in t.products && t.products[p].category != id :: t.products[p],
      map k | k in t.cartItems && !InCategory(t.products, id, k.1) :: t.cartItems[k],
      Filter(t.orderItems, KeepLine(t.products, id)))
  }

  /** The order lines that survive are exactly those of products outside the category, in their order. */
  lemma {:induction false} DeleteCategoryOrderLines(t: Tables, id: CategoryId, x: OrderItem)
    ensures x in DeleteCategory(t, id).orderItems <==> x in t.orderItems && !InCategory(t.products, id, x.product)
    ensures IsSubsequence(DeleteCategory(t, id).orderItems, t.orderItems)
  {
    FilterMembers(t.orderItems, KeepLine(t.products, id), x);
    FilterIsSubsequence(t.orderItems, KeepLine(t.products, id));
  }

  /** Deleting a cart deletes its items and no other cart's. */
  function DeleteCart(items: map<(CartId, ProductId), nat>, cart: CartId): (r: map<(CartId, ProductId), nat>)
    ensures forall k :: k in r <==> k in items && k.0 != cart
    ensures forall k :: k in r ==> r[k] == items[k]
  {
    map k | k in items && k.0 != cart :: items[k]
  }

  /** The cascade leaves consistent tables consistent: nothing refers to a deleted row. */
  lemma {:induction false} CascadeLeavesNoOrphans(t: Tables, id: CategoryId)
    requires Consistent(t)
    ensures Consistent(DeleteCategory(t, id))
  {
    var r := DeleteCategory(t, id);
    forall i | 0 <= i < |r.orderItems|
      ensures r.orderItems[i].product in r.products
    {
      DeleteCategoryOrderLines(t, id, r.orderItems[i]);
    }
  }
}
