/** The storefront's single-product page. */
module ProductDetail {
  import opened Wrappers
  import opened Http
  import opened ProductControls

  datatype Product = Product(id: int, name: string, description: string, price: int, image: string)

  const MissingMessage := "No such product exist"
  const LoadFailedMessage := "Failed to load product details."
  const ProductsPath := "/products"

  /**
   * The reaction to a failed `GET /product/{id}`: a 404 names the missing
   * product and leaves for the list; anything else only shows a generic error.
   */
  function LoadFailure(f: Failure): (out: (seq<Toast>, seq<string>))
    ensures out.0 == [ErrorToast(if IsStatus(f, NotFound) then MissingMessage else LoadFailedMessage)]
    ensures out.1 == [ProductsPath] <==> IsStatus(f, NotFound)
    ensures out.1 == [] <==> !IsStatus(f, NotFound)
  {
    if IsStatus(f, NotFound) then ([ErrorToast(MissingMessage)], [ProductsPath])
    else ([ErrorToast(LoadFailedMessage)], [])
  }

  class ProductDetailPage {
    var product: Option<Product>
    var quantities: map<int, int>

    ghost predicate Valid()
      reads this
    {
      AllAtLeastOne(quantities)
    }

    constructor ()
      ensures Valid() && product.None? && quantities == map[]
    {
      product, quantities := None, map[];
    }

    /** `fetchProduct`, given the reply to `GET /product/{id}`. */
    method Load(reply: Reply<Product>) returns (toasts: seq<Toast>, navigations: seq<string>)
      modifies this`product
      ensures reply.Ok? ==> product == Some(reply.data) && toasts == [] && navigations == []
      ensures reply.Err? ==> product == old(product) && (toasts, navigations) == LoadFailure(reply.failure)
    {
      match reply {
        case Ok(data) =>
          product := Some(data);
          toasts, navigations := [], [];
        case Err(f) =>
          var out := LoadFailure(f);
          toasts, navigations := out.0, out.1;
      }
    }

    method Increment(productId: int)
      requires Valid()
      modifies this`quantities
      ensures Valid()
      ensures quantities == ProductControls.Increment(old(quantities), productId)
    {
      CountersStayAtLeastOne(quantities, productId);
      quantities := ProductControls.Increment(quantities, productId);
    }

    method Decrement(productId: int)
      requires Valid()
      modifies this`quantities
      ensures Valid()
      ensures quantities == ProductControls.Decrement(old(quantities), productId)
    {
      CountersStayAtLeastOne(quantities, productId);
      quantities := ProductControls.Decrement(quantities, productId);
    }

    method AddToCart(productId: int, reply: Reply<AddItemReply>)
      returns (request: AddItemRequest, toasts: seq<Toast>, navigations: seq<string>)
      ensures request == AddToCartRequest(quantities, productId)
      ensures (toasts, navigations) == AddToCartOutcome(reply)
    {
      request := AddToCartRequest(quantities, productId);
      var out := AddToCartOutcome(reply);
      toasts, navigations := out.0, out.1;
    }
  }
}
