/** The admin's page for one order: its lines, its badge and the status update. */
module AdminOrderDetail {
  import opened Wrappers
  import opened Http
  import AdminOrders
  import Models
  import ProductsViews

  datatype OrderLine = OrderLine(id: int, productName: string, quantity: int, price: int)

  datatype Order = Order(
    id: int, userName: string, totalPrice: int, paymentMethod: string, isPaid: bool,
    items: seq<OrderLine>, shippingAddress: Option<AdminOrders.ShippingInfo>)

  /** The requests the page sends. */
  datatype Request = FetchOrder(routeId: int) | PatchStatus(orderId: int, orderStatus: string)

  const StatusOptions: seq<string> := ["Pending", "Processing", "Shipped", "Delivered", "Cancelled"]

  const LoginMessage := "Log in required to access this content."
  const LoadFailedMessage := "Failed to load order"
  const UpdatedMessage := "Order status updated!"
  const UpdateFailedMessage := "Failed to update status."

  function ShippingStatus(order: Order): Option<string> {
    if order.shippingAddress.None? then None else order.shippingAddress.value.orderStatus
  }

  /** `res.data.shipping_address?.order_status || "Pending"`. */
  function InitialStatus(order: Order): (s: string)
    ensures s != ""
    ensures ShippingStatus(order).Some? && ShippingStatus(order).value != "" ==> s == ShippingStatus(order).value
    ensures ShippingStatus(order).None? || ShippingStatus(order).value == "" ==> s == "Pending"
  {
    var st := ShippingStatus(order);
    if st.Some? && st.value != "" then st.value else "Pending"
  }

  /** The badge's chain of conditional expressions. */
  function Badge(status: Option<string>): string {
    if status == Some("Delivered") then AdminOrders.Green
    else if status == Some("Pending") then AdminOrders.Yellow
    else if status == Some("Processing") then AdminOrders.Blue
    else if status == Some("Cancelled") then AdminOrders.Red
    else AdminOrders.Gray
  }

  /** The detail badge and the list's `getStatusClass` agree on every status. */
  lemma BadgeIsStatusClass(status: Option<string>)
    ensures Badge(status) == AdminOrders.StatusClass(status)
  {
  }

  /** Of the five selectable statuses, only "Shipped" shows a gray badge. */
  lemma OnlyShippedIsGray()
    ensures forall s :: s in StatusOptions ==> (Badge(Some(s)) == AdminOrders.Gray <==> s == "Shipped")
  {
    forall s | s in StatusOptions
      ensures Badge(Some(s)) == AdminOrders.Gray <==> s == "Shipped"
    {
      AdminOrders.GrayExactlyWhenUnknown(Some(s));
      BadgeIsStatusClass(Some(s));
    }
  }

  /** `item.price * item.quantity`. */
  function Subtotal(line: OrderLine): (r: int)
    ensures line.quantity == 0 ==> r == 0
    ensures line.quantity == 1 ==> r == line.price
  {
    line.price * line.quantity
  }

  /** The subtotals of the listed lines, added up. */
  function SubtotalSum(lines: seq<OrderLine>): int {
    if lines == [] then 0 else SubtotalSum(lines[..|lines| - 1]) + Subtotal(lines[|lines| - 1])
  }

  /**
   * The page's subtotals of an order's lines, as the serializer sends their
   * quantity and price, add up to the stored lines' total, which checkout
   * makes the order's total price.
   */
  lemma {:induction false} SubtotalsAddUpToOrderTotal(lines: seq<OrderLine>, stored: seq<Models.OrderItem>)
    requires |lines| == |stored|
    requires forall i :: 0 <= i < |lines| ==> lines[i].quantity == stored[i].quantity && lines[i].price == stored[i].price
    ensures SubtotalSum(lines) == ProductsViews.LinesTotal(stored)
  {
    if lines != [] {
      SubtotalsAddUpToOrderTotal(lines[..|lines| - 1], stored[..|stored| - 1]);
    }
  }

  class OrderDetailPage {
    const routeId: int
    var order: Option<Order>
    var status: string

    constructor (routeId: int)
      ensures this.routeId == routeId && order.None? && status == ""
    {
      this.routeId := routeId;
      order, status := None, "";
    }

    /** `fetchOrder`, given the reply to `GET orders/<routeId>/`. */
    method Fetch(reply: Reply<Order>) returns (toasts: seq<Toast>)
      modifies this`order, this`status
      ensures reply.Ok? ==> order == Some(reply.data) && status == InitialStatus(reply.data) && toasts == []
      ensures reply.Err? ==> order == old(order) && status == old(status)
      ensures reply.Err? ==> toasts == [LoadErrorToast(reply.failure, LoginMessage, LoadFailedMessage)]
    {
      match reply {
        case Ok(data) =>
          order := Some(data);
          status := InitialStatus(data);
          toasts := [];
        case Err(f) =>
          toasts := [LoadErrorToast(f, LoginMessage, LoadFailedMessage)];
      }
    }

    method SetStatus(s: string)
      modifies this`status
      ensures status == s
    {
      status := s;
    }

    /**
     * `updateStatus`, given the replies the patch and the reload would get.
     * With no order loaded, reading its id fails and the catch reports the
     * failure without a request. The reload swallows its own errors, so a
     * successful patch is reported as a success after the reload's toasts.
     */
    method UpdateStatus(patch: Reply<()>, reload: Reply<Order>) returns (requests: seq<Request>, toasts: seq<Toast>)
      modifies this`order, this`status
      ensures old(order).None? ==>
                requests == [] && toasts == [ErrorToast(UpdateFailedMessage)]
                && order == old(order) && status == old(status)
      ensures old(order).Some? ==> |requests| >= 1 && requests[0] == PatchStatus(old(order).value.id, old(status))
      ensures old(order).Some? && patch.Err? ==>
                requests == [requests[0]] && toasts == [ErrorToast(UpdateFailedMessage)]
                && order == old(order) && status == old(status)
      ensures old(order).Some? && patch.Ok? ==>
                requests == [requests[0], FetchOrder(routeId)]
                && |toasts| >= 1 && toasts[|toasts| - 1] == SuccessToast(UpdatedMessage)
      ensures old(order).Some? && patch.Ok? && reload.Ok? ==>
                order == Some(reload.data) && status == InitialStatus(reload.data)
                && toasts == [SuccessToast(UpdatedMessage)]
      ensures old(order).Some? && patch.Ok? && reload.Err? ==> order == old(order) && status == old(status)
    {
      if order.None? {
        return [], [ErrorToast(UpdateFailedMessage)];
      }
      requests := [PatchStatus(order.value.id, status)];
      if patch.Err? {
        return requests, [ErrorToast(UpdateFailedMessage)];
      }
      requests := requests + [FetchOrder(routeId)];
      var reloadToasts := Fetch(reload);
      toasts := reloadToasts + [SuccessToast(UpdatedMessage)];
    }
  }
}
