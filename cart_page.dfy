/** The storefront cart page: listing, per-line amounts, the total, and removal. */
module CartPage {
  import opened Wrappers
  import opened Seqs
  import opened Http

  /** The product inside a cart line, with the fields the page may find missing. */
  datatype LineProduct = LineProduct(name: Option<string>, price: Option<int>)

  /** One item of the `GET /carts/` reply. */
  datatype CartLine = CartLine(id: int, product: Option<LineProduct>, quantity: Option<int>)

  /** The body of the `GET /carts/` reply; `items` may be absent. */
  datatype CartReply = CartReply(items: Option<seq<CartLine>>)

  const LoginMessage := "Please login to view your cart."
  const LoadFailedMessage := "Failed to load cart items. Please try again."
  const RemovedMessage := "Item removed from cart."
  const RemoveFailedMessage := "Failed to remove item from cart. Please try again."

  /** `item.product?.price || 0`. */
  function PriceOrZero(line: CartLine): int {
    if line.product.Some? && line.product.value.price.Some? then line.product.value.price.value else 0
  }

  /** The amount a line adds to the total: `(item.quantity || 0)` counts a missing quantity as 0. */
  function LineTotal(line: CartLine): int {
    PriceOrZero(line) * line.quantity.GetOr(0)
  }

  /** `getCartTotal`: the `reduce` over the lines, starting from 0. */
  function CartTotal(items: seq<CartLine>): int {
    if items == [] then 0 else CartTotal(items[..|items| - 1]) + LineTotal(items[|items| - 1])
  }

  /**
   * The amount printed on a rendered line: `(quantity || 1)` counts a
   * missing or zero quantity as 1. Lines without a product are not rendered.
   */
  function DisplayedAmount(line: CartLine): Option<int> {
    if line.product.None? then None
    else
      var q := if line.quantity.Some? && line.quantity.value != 0 then line.quantity.value else 1;
      Some(PriceOrZero(line) * q)
  }

  /** The line shown and the line's share of the total differ exactly on a missing or zero quantity. */
  lemma DisplayedVersusTotal(line: CartLine)
    requires line.product.Some?
    ensures line.quantity.None? ==> DisplayedAmount(line) == Some(PriceOrZero(line)) && LineTotal(line) == 0
    ensures line.quantity.Some? && line.quantity.value != 0 ==> DisplayedAmount(line) == Some(LineTotal(line))
  {
  }

  /** The total is additive over concatenation. */
  lemma {:induction false} CartTotalAppend(a: seq<CartLine>, b: seq<CartLine>)
    ensures CartTotal(a + b) == CartTotal(a) + CartTotal(b)
    decreases |b|
  {
    if b == [] {
      assert a + b == a;
    } else {
      var b' := b[..|b| - 1];
      assert (a + b)[..|a + b| - 1] == a + b';
      assert (a + b)[|a + b| - 1] == b[|b| - 1];
      CartTotalAppend(a, b');
    }
  }

  function KeepOthers(id: int): CartLine -> bool {
    (line: CartLine) => line.id != id
  }

  function IsLine(id: int): CartLine -> bool {
    (line: CartLine) => line.id == id
  }

  /** `prev.filter(item => item.id !== id)`. */
  function Remove(items: seq<CartLine>, id: int): seq<CartLine> {
    Filter(items, KeepOthers(id))
  }

  /** Removing the lines with one id lowers the total by exactly those lines' amounts. */
  lemma {:induction false} RemoveSplitsTotal(items: seq<CartLine>, id: int)
    ensures CartTotal(items) == CartTotal(Remove(items, id)) + CartTotal(Filter(items, IsLine(id)))
  {
    if items != [] {
      var head, tail := items[0], items[1..];
      assert items == [head] + tail;
      RemoveSplitsTotal(tail, id);
      CartTotalAppend([head], tail);
      if head.id == id {
        assert Remove(items, id) == Remove(tail, id);
        assert Filter(items, IsLine(id)) == [head] + Filter(tail, IsLine(id));
        CartTotalAppend([head], Filter(tail, IsLine(id)));
      } else {
        assert Remove(items, id) == [head] + Remove(tail, id);
        assert Filter(items, IsLine(id)) == Filter(tail, IsLine(id));
        CartTotalAppend([head], Remove(tail, id));
      }
    }
  }

  ghost predicate UniqueIds(items: seq<CartLine>) {
    forall i, j :: 0 <= i < j < |items| ==> items[i].id != items[j].id
  }

  lemma NoLineWith(s: seq<CartLine>, id: int)
    requires forall line :: line in s ==> line.id != id
    ensures Filter(s, IsLine(id)) == []
  {
    FilterEmpty(s, IsLine(id));
  }

  /** With distinct ids (as the server sends them), removing a line lowers the total by that line's amount. */
  lemma RemoveLowersTotal(items: seq<CartLine>, k: nat)
    requires k < |items| && UniqueIds(items)
    ensures CartTotal(Remove(items, items[k].id)) == CartTotal(items) - LineTotal(items[k])
  {
    var id := items[k].id;
    var before, after := items[..k], items[k + 1..];
    assert items == before + ([items[k]] + after);
    NoLineWith(before, id);
    NoLineWith(after, id);
    FilterAppend(before, [items[k]] + after, IsLine(id));
    FilterAppend([items[k]], after, IsLine(id));
    assert Filter([items[k]], IsLine(id)) == [items[k]];
    RemoveSplitsTotal(items, id);
    assert CartTotal([items[k]]) == CartTotal([]) + LineTotal(items[k]);
  }

  class Cart {
    var cartItems: seq<CartLine>
    var isLoading: bool

    constructor ()
      ensures cartItems == [] && isLoading
    {
      cartItems, isLoading := [], true;
    }

    /** `fetchCartItems`, given the reply to `GET /carts/`. */
    method Load(reply: Reply<CartReply>) returns (toasts: seq<Toast>)
      modifies this
      ensures !isLoading
      ensures reply.Ok? ==> cartItems == reply.data.items.GetOr([]) && toasts == []
      ensures reply.Err? ==> cartItems == old(cartItems)
      ensures reply.Err? ==> toasts == [LoadErrorToast(reply.failure, LoginMessage, LoadFailedMessage)]
    {
      match reply {
        case Ok(data) =>
          cartItems := data.items.GetOr([]);
          toasts := [];
        case Err(f) =>
          toasts := [LoadErrorToast(f, LoginMessage, LoadFailedMessage)];
      }
      isLoading := false;
    }

    /** `removeFromCart`: the list changes only once the delete request has succeeded. */
    method RemoveFromCart(id: int, reply: Reply<()>) returns (toasts: seq<Toast>)
      modifies this`cartItems
      ensures reply.Ok? ==> cartItems == Remove(old(cartItems), id) && toasts == [SuccessToast(RemovedMessage)]
      ensures reply.Err? ==> cartItems == old(cartItems) && toasts == [ErrorToast(RemoveFailedMessage)]
    {
      if reply.Ok? {
        cartItems := Remove(cartItems, id);
        toasts := [SuccessToast(RemovedMessage)];
      } else {
        toasts := [ErrorToast(RemoveFailedMessage)];
      }
    }

    function Total(): int
      reads this
    {
      CartTotal(cartItems)
    }
  }
}
