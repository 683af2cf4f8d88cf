/** The storefront's product list: search, per-product counters and add-to-cart. */
module ProductList {
  import opened Wrappers
  import opened Text
  import opened Seqs
  import opened Http
  import opened ProductControls

  /** A catalogue entry as the page reads it. */
  datatype Product = Product(id: int, name: string, price: int)

  const LoadFailedMessage := "Failed to load products."
  const NoMatchMessage := "No products matched your search."

  /** `p.name.toLowerCase().includes(query.toLowerCase())`. */
  function Matches(query: string): Product -> bool {
    (p: Product) => Contains(ToLower(p.name), ToLower(query))
  }

  /** The products the search keeps, in catalogue order. */
  function Search(products: seq<Product>, query: string): seq<Product> {
    Filter(products, Matches(query))
  }

  /**
   * The search keeps exactly the products whose lower-cased name contains
   * the lower-cased query (every copy of each), never reorders them, and comes
   * back empty exactly when no product matches.
   */
  lemma SearchKeepsExactlyMatches(products: seq<Product>, query: string)
    ensures forall p :: p in Search(products, query) <==> p in products && Contains(ToLower(p.name), ToLower(query))
    ensures forall p :: multiset(Search(products, query))[p]
                     == if Contains(ToLower(p.name), ToLower(query)) then multiset(products)[p] else 0
    ensures IsSubsequence(Search(products, query), products)
    ensures Search(products, query) == []
        <==> forall i :: 0 <= i < |products| ==> !Contains(ToLower(products[i].name), ToLower(query))
  {
    forall p ensures p in Search(products, query) <==> p in products && Contains(ToLower(p.name), ToLower(query)) {
      FilterMembers(products, Matches(query), p);
    }
    forall p ensures multiset(Search(products, query))[p]
                  == if Contains(ToLower(p.name), ToLower(query)) then multiset(products)[p] else 0 {
      FilterCounts(products, Matches(query), p);
    }
    FilterIsSubsequence(products, Matches(query));
    FilterEmpty(products, Matches(query));
  }

  /** An empty query matches every product. */
  lemma SearchEmptyQuery(products: seq<Product>)
    ensures Search(products, "") == products
  {
    forall i | 0 <= i < |products|
      ensures Matches("")(products[i])
    {
      ContainsEmpty(ToLower(products[i].name));
    }
    FilterKeepsAll(products, Matches(""));
  }

  /** The `forEach` that gives every loaded product a counter of 1. */
  method InitialQuantities(products: seq<Product>) returns (quantities: map<int, int>)
    ensures quantities.Keys == set p | p in products :: p.id
    ensures forall k :: k in quantities ==> quantities[k] == 1
  {
    quantities := map[];
    var i := 0;
    while i < |products|
      invariant 0 <= i <= |products|
      invariant quantities.Keys == set p | p in products[..i] :: p.id
      invariant forall k :: k in quantities ==> quantities[k] == 1
    {
      assert products[..i + 1] == products[..i] + [products[i]];
      quantities := quantities[products[i].id := 1];
      i := i + 1;
    }
    assert products[..i] == products;
  }

  class ProductListPage {
    var products: seq<Product>
    var isLoading: bool
    var error: Option<string>
    var quantities: map<int, int>
    var filterProduct: string
    var filteredProducts: seq<Product>
    var isSearchSubmitted: bool

    ghost predicate Valid()
      reads this
    {
      AllAtLeastOne(quantities)
    }

    constructor ()
      ensures Valid()
      ensures products == [] && filteredProducts == [] && quantities == map[]
      ensures isLoading && error.None? && filterProduct == "" && !isSearchSubmitted
    {
      products, filteredProducts, quantities := [], [], map[];
      isLoading, error, filterProduct, isSearchSubmitted := true, None, "", false;
    }

    /** `fetchProducts`, given the reply to `GET /product/`. */
    method Load(reply: Reply<seq<Product>>) returns (toasts: seq<Toast>)
      requires Valid()
      modifies this
      ensures Valid()
      ensures !isLoading
      ensures reply.Ok? ==> products == reply.data && filteredProducts == reply.data && toasts == []
      ensures reply.Ok? ==> quantities.Keys == (set p | p in reply.data :: p.id)
                            && forall k :: k in quantities ==> quantities[k] == 1
      ensures reply.Err? ==> error == Some(LoadFailedMessage) && toasts == [ErrorToast(LoadFailedMessage)]
      ensures reply.Err? ==> products == old(products) && quantities == old(quantities)
                             && filteredProducts == old(filteredProducts)
      ensures reply.Ok? ==> error == old(error)
      ensures filterProduct == old(filterProduct) && isSearchSubmitted == old(isSearchSubmitted)
    {
      match reply {
        case Ok(data) =>
          products := data;
          filteredProducts := data;
          quantities := InitialQuantities(data);
          toasts := [];
        case Err(_) =>
          error := Some(LoadFailedMessage);
          toasts := [ErrorToast(LoadFailedMessage)];
      }
      isLoading := false;
    }

    /** Typing into the search box. */
    method SetFilter(text: string)
      modifies this`filterProduct
      ensures filterProduct == text
    {
      filterProduct := text;
    }

    /** `handleSubmit`: show the matches, with a notice when there are none. */
    method HandleSubmit() returns (toasts: seq<Toast>)
      modifies this`filteredProducts, this`isSearchSubmitted
      ensures filteredProducts == Search(products, filterProduct)
      ensures isSearchSubmitted
      ensures toasts == (if filteredProducts == [] then [InfoToast(NoMatchMessage)] else [])
    {
      filteredProducts := Search(products, filterProduct);
      isSearchSubmitted := true;
      toasts := if filteredProducts == [] then [InfoToast(NoMatchMessage)] else [];
    }

    /** `handleClear`: empty query, full list. */
    method HandleClear()
      modifies this`filterProduct, this`filteredProducts, this`isSearchSubmitted
      ensures filterProduct == "" && filteredProducts == products && !isSearchSubmitted
      ensures filteredProducts == Search(products, filterProduct)
    {
      filterProduct := "";
      filteredProducts := products;
      isSearchSubmitted := false;
      SearchEmptyQuery(products);
    }

    method Increment(productId: int)
      requires Valid()
      modifies this`quantities
      ensures Valid()
      ensures quantities == ProductControls.Increment(old(quantities), productId)
    {
      CountersStayAtLeastOne(quantities, productId);
      quantities := ProductControls.Increment(quantities, productId);
    }

    method Decrement(productId: int)
      requires Valid()
      modifies this`quantities
      ensures Valid()
      ensures quantities == ProductControls.Decrement(old(quantities), productId)
    {
      CountersStayAtLeastOne(quantities, productId);
      quantities := ProductControls.Decrement(quantities, productId);
    }

    /** `addToCart`: the request it sends and, given the reply, what it shows and where it goes. */
    method AddToCart(productId: int, reply: Reply<AddItemReply>)
      returns (request: AddItemRequest, toasts: seq<Toast>, navigations: seq<string>)
      ensures request == AddToCartRequest(quantities, productId)
      ensures (toasts, navigations) == AddToCartOutcome(reply)
    {
      request := AddToCartRequest(quantities, productId);
      var out := AddToCartOutcome(reply);
      toasts, navigations := out.0, out.1;
    }
  }
}
