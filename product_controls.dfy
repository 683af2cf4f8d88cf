/**
 * The quantity counters and the add-to-cart handler that the product list
 * and the product page both define, with identical code.
 */
module ProductControls {
  import opened Wrappers
  import opened Http

  /** `prev[productId] || 1`: a missing (or zero) counter reads as 1. */
  function Current(quantities: map<int, int>, productId: int): int {
    if productId in quantities && quantities[productId] != 0 then quantities[productId] else 1
  }

  function Increment(quantities: map<int, int>, productId: int): (r: map<int, int>)
    ensures r.Keys == quantities.Keys + {productId}
    ensures r[productId] == Current(quantities, productId) + 1
    ensures forall k :: k in quantities && k != productId ==> r[k] == quantities[k]
  {
    quantities[productId := Current(quantities, productId) + 1]
  }

  /** `Math.max(1, (prev[productId] || 1) - 1)`. */
  function Decrement(quantities: map<int, int>, productId: int): (r: map<int, int>)
    ensures r.Keys == quantities.Keys + {productId}
    ensures r[productId] >= 1
    ensures Current(quantities, productId) > 1 ==> r[productId] == Current(quantities, productId) - 1
    ensures Current(quantities, productId) <= 1 ==> r[productId] == 1
    ensures forall k :: k in quantities && k != productId ==> r[k] == quantities[k]
  {
    var lowered := Current(quantities, productId) - 1;
    quantities[productId := if lowered < 1 then 1 else lowered]
  }

  /** Every counter the page holds is at least 1. */
  ghost predicate AllAtLeastOne(quantities: map<int, int>) {
    forall k :: k in quantities ==> quantities[k] >= 1
  }

  lemma {:induction false} CountersStayAtLeastOne(quantities: map<int, int>, productId: int)
    requires AllAtLeastOne(quantities)
    ensures AllAtLeastOne(Increment(quantities, productId))
    ensures AllAtLeastOne(Decrement(quantities, productId))
    ensures Current(quantities, productId) >= 1
  {
    var inc := Increment(quantities, productId);
    forall k | k in inc
      ensures inc[k] >= 1
    {
      if k != productId {
        assert inc[k] == quantities[k];
      }
    }
  }

  /** Decrementing right after incrementing restores the chosen quantity. */
  lemma {:induction false} DecrementUndoesIncrement(quantities: map<int, int>, productId: int)
    requires AllAtLeastOne(quantities)
    ensures Decrement(Increment(quantities, productId), productId)
         == quantities[productId := Current(quantities, productId)]
  {
    CountersStayAtLeastOne(quantities, productId);
    var inc := Increment(quantities, productId);
    assert Current(inc, productId) == Current(quantities, productId) + 1;
  }

  const AddedMessage := "Added to cart successfully!"
  const LoginRequiredMessage := "Login is required to add items to the cart."
  const AddFailedMessage := "Failed to add product to cart. Please try again."
  const LoginPath := "/login"

  /** The body of `POST cart/items/`. */
  datatype AddItemRequest = AddItemRequest(productId: int, quantity: int)

  /** The success reply's optional `message`. */
  datatype AddItemReply = AddItemReply(message: Option<string>)

  /** The request `addToCart` sends: the chosen quantity, 1 when none was chosen. */
  function AddToCartRequest(quantities: map<int, int>, productId: int): (req: AddItemRequest)
    ensures req.productId == productId
    ensures productId !in quantities ==> req.quantity == 1
    ensures productId in quantities && quantities[productId] != 0 ==> req.quantity == quantities[productId]
    ensures productId in quantities && quantities[productId] == 0 ==> req.quantity == 1
    ensures AllAtLeastOne(quantities) ==> req.quantity >= 1
  {
    AddItemRequest(productId, Current(quantities, productId))
  }

  /** After a change of the counter, the request sends the counter's new value. */
  lemma {:induction false} AddSendsChangedCounter(quantities: map<int, int>, productId: int)
    requires AllAtLeastOne(quantities)
    ensures AddToCartRequest(Increment(quantities, productId), productId).quantity == Current(quantities, productId) + 1
    ensures AddToCartRequest(Decrement(quantities, productId), productId).quantity
         == if Current(quantities, productId) > 1 then Current(quantities, productId) - 1 else 1
  {
    CountersStayAtLeastOne(quantities, productId);
    var inc := Increment(quantities, productId);
    var dec := Decrement(quantities, productId);
    assert inc[productId] != 0 && dec[productId] != 0;
  }

  /**
   * What `addToCart` shows once the reply is in: the server's message (or
   * the default) on success; on a 401 the log-in error and a move to the
   * login page; any other failure only the generic error.
   */
  function AddToCartOutcome(reply: Reply<AddItemReply>): (out: (seq<Toast>, seq<string>))
    ensures |out.0| == 1
    ensures out.1 == [LoginPath] <==> reply.Err? && IsStatus(reply.failure, Unauthorized)
    ensures out.1 == [] <==> !(reply.Err? && IsStatus(reply.failure, Unauthorized))
    ensures reply.Ok? ==> out.0[0].SuccessToast?
    ensures reply.Err? ==> out.0[0].ErrorToast?
  {
    match reply
    case Ok(data) =>
      var text := if data.message.Some? && data.message.value != "" then data.message.value else AddedMessage;
      ([SuccessToast(text)], [])
    case Err(f) =>
      if IsStatus(f, Unauthorized) then ([ErrorToast(LoginRequiredMessage)], [LoginPath])
      else ([ErrorToast(AddFailedMessage)], [])
  }
}
