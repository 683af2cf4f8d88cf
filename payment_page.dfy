/** The storefront payment page: form validation, the payable total and the checkout submission. */
module PaymentPage {
  import opened Wrappers
  import opened Text
  import opened Http
  import CartPage

  /** The shipping fields, in the order the form object declares them. */
  datatype ShippingField = FullName | Address | City | State | PostalCode | Country | Phone

  const FieldOrder: seq<ShippingField> := [FullName, Address, City, State, PostalCode, Country, Phone]

  function Key(f: ShippingField): string {
    match f
    case FullName => "fullName"
    case Address => "address"
    case City => "city"
    case State => "state"
    case PostalCode => "postalCode"
    case Country => "country"
    case Phone => "phone"
  }

  datatype ShippingDetails = ShippingDetails(
    fullName: string, address: string, city: string, state: string,
    postalCode: string, country: string, phone: string)

  datatype CardField = Name | Number | Exp | Cvv

  datatype CardDetails = CardDetails(name: string, number: string, exp: string, cvv: string)

  const EmptyShipping := ShippingDetails("", "", "", "", "", "", "")
  const EmptyCard := CardDetails("", "", "", "")

  function Value(d: ShippingDetails, f: ShippingField): string {
    match f
    case FullName => d.fullName
    case Address => d.address
    case City => d.city
    case State => d.state
    case PostalCode => d.postalCode
    case Country => d.country
    case Phone => d.phone
  }

  function CardValue(c: CardDetails, f: CardField): string {
    match f
    case Name => c.name
    case Number => c.number
    case Exp => c.exp
    case Cvv => c.cvv
  }

  /** `handleShippingChange`: one field takes the input's value. */
  function WithShipping(d: ShippingDetails, f: ShippingField, v: string): (r: ShippingDetails)
    ensures Value(r, f) == v
    ensures forall g :: g != f ==> Value(r, g) == Value(d, g)
  {
    match f
    case FullName => d.(fullName := v)
    case Address => d.(address := v)
    case City => d.(city := v)
    case State => d.(state := v)
    case PostalCode => d.(postalCode := v)
    case Country => d.(country := v)
    case Phone => d.(phone := v)
  }

  /** `handleCardChange`: one card field takes the input's value. */
  function WithCard(c: CardDetails, f: CardField, v: string): (r: CardDetails)
    ensures CardValue(r, f) == v
    ensures forall g :: g != f ==> CardValue(r, g) == CardValue(c, g)
  {
    match f
    case Name => c.(name := v)
    case Number => c.(number := v)
    case Exp => c.(exp := v)
    case Cvv => c.(cvv := v)
  }

  /** The shipping object's `for…in` order: (key, value) pairs. */
  function Entries(d: ShippingDetails): seq<(string, string)> {
    seq(|FieldOrder|, i requires 0 <= i < |FieldOrder| => (Key(FieldOrder[i]), Value(d, FieldOrder[i])))
  }

  /** The key of the first entry whose value is empty. */
  function FirstEmpty(entries: seq<(string, string)>): Option<string> {
    if entries == [] then None
    else if entries[0].1 == "" then Some(entries[0].0)
    else FirstEmpty(entries[1..])
  }

  /** `FirstEmpty` names the key at the first empty position, and nothing when there is none. */
  lemma {:induction false} FirstEmptyIff(entries: seq<(string, string)>)
    ensures FirstEmpty(entries).None? <==> forall i :: 0 <= i < |entries| ==> entries[i].1 != ""
    ensures forall i :: 0 <= i < |entries| && entries[i].1 == "" && (forall j :: 0 <= j < i ==> entries[j].1 != "")
              ==> FirstEmpty(entries) == Some(entries[i].0)
    ensures FirstEmpty(entries).Some? ==>
              exists i :: 0 <= i < |entries| && entries[i].1 == "" && entries[i].0 == FirstEmpty(entries).value
                && forall j :: 0 <= j < i ==> entries[j].1 != ""
  {
    if entries != [] && entries[0].1 != "" {
      var tail := entries[1..];
      FirstEmptyIff(tail);
      assert forall i :: 1 <= i < |entries| ==> entries[i] == tail[i - 1];
      if FirstEmpty(tail).Some? {
        var i :| 0 <= i < |tail| && tail[i].1 == "" && tail[i].0 == FirstEmpty(tail).value
                 && forall j :: 0 <= j < i ==> tail[j].1 != "";
        assert entries[i + 1] == tail[i];
        assert forall j :: 0 <= j < i + 1 ==> entries[j].1 != "" by {
          forall j | 0 <= j < i + 1 ensures entries[j].1 != "" {
            if j > 0 { assert entries[j] == tail[j - 1]; }
          }
        }
      }
      forall i | 0 <= i < |entries| && entries[i].1 == "" && (forall j :: 0 <= j < i ==> entries[j].1 != "")
        ensures FirstEmpty(entries) == Some(entries[i].0)
      {
        assert i > 0;
        assert tail[i - 1] == entries[i];
        assert forall j :: 0 <= j < i - 1 ==> tail[j].1 != "" by {
          forall j | 0 <= j < i - 1 ensures tail[j].1 != "" {
            assert tail[j] == entries[j + 1];
          }
        }
      }
    }
  }

  const CardMessage := "Please fill in all card details."

  function MissingFieldMessage(key: string): string {
    "Please fill in your " + Label(key) + "."
  }

  predicate CardComplete(c: CardDetails) {
    c.name != "" && c.number != "" && c.exp != "" && c.cvv != ""
  }

  /** The error `handlePayment` reports before sending anything, if any. */
  function FormError(d: ShippingDetails, c: CardDetails): Option<string> {
    match FirstEmpty(Entries(d))
    case Some(key) => Some(MissingFieldMessage(key))
    case None => if CardComplete(c) then None else Some(CardMessage)
  }

  /** The form is accepted exactly when every shipping field and every card field is filled. */
  lemma FormErrorNoneIff(d: ShippingDetails, c: CardDetails)
    ensures FormError(d, c).None? <==> (forall f :: Value(d, f) != "") && CardComplete(c)
  {
    FirstEmptyIff(Entries(d));
    if FirstEmpty(Entries(d)).None? {
      forall f ensures Value(d, f) != "" {
        var i := if f == FullName then 0 else if f == Address then 1 else if f == City then 2
                 else if f == State then 3 else if f == PostalCode then 4 else if f == Country then 5 else 6;
        assert Entries(d)[i].1 == Value(d, f);
      }
    } else {
      var i :| 0 <= i < |Entries(d)| && Entries(d)[i].1 == "";
      assert Value(d, FieldOrder[i]) == "";
    }
  }

  /** Card details are looked at only once the shipping fields are all filled. */
  lemma ShippingCheckedFirst(d: ShippingDetails, c: CardDetails, c': CardDetails)
    requires exists f :: Value(d, f) == ""
    ensures FormError(d, c) == FormError(d, c') && FormError(d, c) != Some(CardMessage)
  {
    var f :| Value(d, f) == "";
    FirstEmptyIff(Entries(d));
    var i := if f == FullName then 0 else if f == Address then 1 else if f == City then 2
             else if f == State then 3 else if f == PostalCode then 4 else if f == Country then 5 else 6;
    assert Entries(d)[i].1 == "";
    var key := FirstEmpty(Entries(d)).value;
    assert MissingFieldMessage(key)[..20] == "Please fill in your ";
    assert CardMessage[..20] == "Please fill in all c";
  }

  /** An untouched form asks for the full name first. */
  lemma EmptyFormAsksForFullName(c: CardDetails)
    ensures FormError(EmptyShipping, c) == Some("Please fill in your full name.")
  {
    var e := Entries(EmptyShipping);
    assert e[0] == ("fullName", "");
    assert FirstEmpty(e) == Some("fullName");
    LabelOfFullName();
    assert MissingFieldMessage("fullName") == "Please fill in your " + "full name" + ".";
    assert "Please fill in your " + "full name" + "." == "Please fill in your full name.";
  }

  lemma PostalCodeFirstEmpty(d: ShippingDetails)
    requires d.fullName != "" && d.address != "" && d.city != "" && d.state != ""
    requires d.postalCode == ""
    ensures FirstEmpty(Entries(d)) == Some("postalCode")
  {
    var e := Entries(d);
    assert e[4] == ("postalCode", "");
    assert forall j :: 0 <= j < 4 ==> e[j].1 != "";
    FirstEmptyIff(e);
  }

  lemma PostalCodeMessage()
    ensures MissingFieldMessage("postalCode") == "Please fill in your postal code."
  {
    LabelOfPostalCode();
    assert "Please fill in your " + "postal code" + "." == "Please fill in your postal code.";
  }

  /** With only the postal code missing, the message names it in spaced lower case. */
  lemma MissingPostalCode(d: ShippingDetails, c: CardDetails)
    requires d.fullName != "" && d.address != "" && d.city != "" && d.state != ""
    requires d.postalCode == ""
    ensures FormError(d, c) == Some("Please fill in your postal code.")
  {
    PostalCodeFirstEmpty(d);
    PostalCodeMessage();
  }

  /** The validation part of `handlePayment`: the `for…in` loop with its early return, then the card check. */
  method CheckForm(d: ShippingDetails, c: CardDetails) returns (error: Option<string>)
    ensures error == FormError(d, c)
  {
    var entries := Entries(d);
    var i := 0;
    while i < |entries|
      invariant 0 <= i <= |entries|
      invariant FirstEmpty(entries) == FirstEmpty(entries[i..])
    {
      if entries[i].1 == "" {
        return Some(MissingFieldMessage(entries[i].0));
      }
      assert entries[i..][1..] == entries[i + 1..];
      i := i + 1;
    }
    if c.name == "" || c.number == "" || c.exp == "" || c.cvv == "" {
      return Some(CardMessage);
    }
    return None;
  }

  /**
   * `getCartTotal` on this page: a missing price counts as 0, but the
   * quantity is used as it is, so one missing quantity makes the whole
   * total not a number (`None`).
   */
  function PaymentTotal(items: seq<CartPage.CartLine>): Option<int> {
    if items == [] then Some(0)
    else
      var last := items[|items| - 1];
      match PaymentTotal(items[..|items| - 1])
      case None => None
      case Some(t) =>
        if last.quantity.None? then None else Some(t + CartPage.PriceOrZero(last) * last.quantity.value)
  }

  /** The payable total agrees with the cart page's total when every quantity is present, and is not a number otherwise. */
  lemma {:induction false} PaymentTotalAgrees(items: seq<CartPage.CartLine>)
    ensures PaymentTotal(items).Some? <==> forall i :: 0 <= i < |items| ==> items[i].quantity.Some?
    ensures PaymentTotal(items).Some? ==> PaymentTotal(items).value == CartPage.CartTotal(items)
  {
    if items != [] {
      var init := items[..|items| - 1];
      PaymentTotalAgrees(init);
      assert forall i :: 0 <= i < |init| ==> init[i] == items[i];
    }
  }

  /** The body posted to `/checkout/`. */
  datatype CheckoutRequest = CheckoutRequest(
    paymentMethod: string, cardDetails: CardDetails, shippingDetails: ShippingDetails,
    cartItems: seq<CartPage.CartLine>)

  const LoginMessage := "Please login to make payment."
  const LoadFailedMessage := "Failed to load cart items."
  const PaidMessage := "Payment successful! Your order has been placed."
  const PaymentFailedMessage := "Payment failed. Please try again."

  /** What the page shows: the confirmation, the empty-cart notice or the form with its total. */
  datatype View = Confirmation | EmptyCart | Form(total: Option<int>)

  class Payment {
    var cartItems: seq<CartPage.CartLine>
    var card: CardDetails
    var shipping: ShippingDetails
    var isSubmitting: bool
    var paymentSuccess: bool

    constructor ()
      ensures cartItems == [] && card == EmptyCard && shipping == EmptyShipping
      ensures !isSubmitting && !paymentSuccess
    {
      cartItems, card, shipping := [], EmptyCard, EmptyShipping;
      isSubmitting, paymentSuccess := false, false;
    }

    /** `fetchCart`, given the reply to `GET /carts/`. */
    method Load(reply: Reply<CartPage.CartReply>) returns (toasts: seq<Toast>)
      modifies this`cartItems
      ensures reply.Ok? ==> cartItems == reply.data.items.GetOr([]) && toasts == []
      ensures reply.Err? ==> cartItems == old(cartItems)
      ensures reply.Err? ==> toasts == [LoadErrorToast(reply.failure, LoginMessage, LoadFailedMessage)]
    {
      match reply {
        case Ok(data) =>
          cartItems := data.items.GetOr([]);
          toasts := [];
        case Err(f) =>
          toasts := [LoadErrorToast(f, LoginMessage, LoadFailedMessage)];
      }
    }

    method SetShipping(f: ShippingField, v: string)
      modifies this`shipping
      ensures shipping == WithShipping(old(shipping), f, v)
    {
      shipping := WithShipping(shipping, f, v);
    }

    method SetCard(f: CardField, v: string)
      modifies this`card
      ensures card == WithCard(old(card), f, v)
    {
      card := WithCard(card, f, v);
    }

    /**
     * `handlePayment`, given the reply the checkout request would get.
     * `request` is the body sent, if one is sent at all.
     */
    method HandlePayment(reply: Reply<()>) returns (request: Option<CheckoutRequest>, toasts: seq<Toast>)
      modifies this`cartItems, this`isSubmitting, this`paymentSuccess
      ensures FormError(shipping, card).Some? ==>
                request.None? && toasts == [ErrorToast(FormError(shipping, card).value)]
                && cartItems == old(cartItems) && isSubmitting == old(isSubmitting)
                && paymentSuccess == old(paymentSuccess)
      ensures FormError(shipping, card).None? ==>
                request == Some(CheckoutRequest("card", card, shipping, old(cartItems))) && !isSubmitting
      ensures FormError(shipping, card).None? && reply.Ok? ==>
                cartItems == [] && paymentSuccess && toasts == [SuccessToast(PaidMessage)]
      ensures FormError(shipping, card).None? && reply.Err? ==>
                cartItems == old(cartItems) && paymentSuccess == old(paymentSuccess)
                && toasts == [ErrorToast(PaymentFailedMessage)]
    {
      var error := CheckForm(shipping, card);
      if error.Some? {
        return None, [ErrorToast(error.value)];
      }
      isSubmitting := true;
      request := Some(CheckoutRequest("card", card, shipping, cartItems));
      if reply.Ok? {
        toasts := [SuccessToast(PaidMessage)];
        paymentSuccess := true;
        cartItems := [];
      } else {
        toasts := [ErrorToast(PaymentFailedMessage)];
      }
      isSubmitting := false;
    }

    function Render(): (v: View)
      reads this
      ensures v == Confirmation <==> paymentSuccess
      ensures v == EmptyCart <==> !paymentSuccess && cartItems == []
    {
      if paymentSuccess then Confirmation
      else if cartItems == [] then EmptyCart
      else Form(PaymentTotal(cartItems))
    }
  }
}
