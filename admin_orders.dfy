/** The admin's order list and its status badge. */
module AdminOrders {
  import opened Wrappers
  import opened Http

  /** The part of an order's shipping record the list reads; `orderStatus` may be absent. */
  datatype ShippingInfo = ShippingInfo(orderStatus: Option<string>)

  datatype OrderRow = OrderRow(id: int, userName: string, totalPrice: int, shippingAddress: Option<ShippingInfo>)

  const Green := "bg-green-100 text-green-700"
  const Yellow := "bg-yellow-100 text-yellow-700"
  const Blue := "bg-blue-100 text-blue-700"
  const Red := "bg-red-100 text-red-700"
  const Gray := "bg-gray-100 text-gray-700"

  const LoginMessage := "Log in required to access this content."
  const LoadFailedMessage := "Failed to fetch orders."

  /** `order.shipping_address?.order_status`. */
  function OrderStatus(order: OrderRow): Option<string> {
    if order.shippingAddress.None? then None else order.shippingAddress.value.orderStatus
  }

  /** `getStatusClass`: four known statuses have a colour, everything else is gray. */
  function StatusClass(status: Option<string>): (c: string)
    ensures status == Some("Delivered") ==> c == Green
    ensures status == Some("Pending") ==> c == Yellow
    ensures status == Some("Processing") ==> c == Blue
    ensures status == Some("Cancelled") ==> c == Red
  {
    match status
    case Some("Delivered") => Green
    case Some("Pending") => Yellow
    case Some("Processing") => Blue
    case Some("Cancelled") => Red
    case _ => Gray
  }

  /** The statuses that get a colour. */
  const Coloured: set<string> := {"Delivered", "Pending", "Processing", "Cancelled"}

  /**
   * A status is gray exactly when it is missing or not one of the four,
   * so "Shipped" is gray; the four colours differ from one another.
   */
  lemma GrayExactlyWhenUnknown(status: Option<string>)
    ensures StatusClass(status) == Gray <==> status.None? || status.value !in Coloured
    ensures StatusClass(Some("Shipped")) == Gray
  {
    assert Gray != Green && Gray != Yellow && Gray != Blue && Gray != Red by {
      assert Gray[3] == 'g' && Green[3] == 'g' && Gray[4] == 'r' && Green[4] == 'r';
      assert Gray[5] != Green[5] && Gray[3] != Yellow[3] && Gray[3] != Blue[3] && Gray[3] != Red[3];
    }
  }

  /** The badge tells the four coloured statuses apart: different statuses, different classes. */
  lemma {:induction false} ColouredStatusesDistinguishable(a: string, b: string)
    requires a in Coloured && b in Coloured && a != b
    ensures StatusClass(Some(a)) != StatusClass(Some(b))
  {
    assert Green[3] == 'g' && Yellow[3] == 'y' && Blue[3] == 'b' && Red[3] == 'r';
  }

  /** `order.shipping_address?.order_status || "N/A"`. */
  function StatusText(status: Option<string>): (t: string)
    ensures t != ""
    ensures status.Some? && status.value != "" ==> t == status.value
    ensures status.None? || status.value == "" ==> t == "N/A"
  {
    if status.Some? && status.value != "" then status.value else "N/A"
  }

  /** `fetchOrders`: the list the page holds after the reply, and the toasts. */
  function Loaded(current: seq<OrderRow>, reply: Reply<seq<OrderRow>>): (r: (seq<OrderRow>, seq<Toast>))
    ensures reply.Ok? ==> r == (reply.data, [])
    ensures reply.Err? ==> r.0 == current && |r.1| == 1
    ensures reply.Err? ==> (r.1[0] == ErrorToast(LoginMessage) <==> reply.failure.status == Some(Unauthorized))
  {
    match reply
    case Ok(data) => (data, [])
    case Err(f) => (current, [LoadErrorToast(f, LoginMessage, LoadFailedMessage)])
  }
}
