/** The admin's product page: an add-or-edit form over the product list. */
module AdminProducts {
  import opened Wrappers
  import opened Http

  /**
   * The category of a product row: the server sends its primary key, but
   * the edit handler also accepts a row whose category is an object.
   */
  datatype CategoryRef = CategoryKey(key: int) | CategoryObject(id: int)

  datatype Product = Product(
    id: int, name: string, description: string, price: int, image: string, category: CategoryRef)

  /** A form value: the text typed or chosen, or a value copied from a row. */
  datatype FieldValue = Text(text: string) | Number(n: int) | Object(ref: CategoryRef)

  datatype ProductForm = ProductForm(
    name: FieldValue, description: FieldValue, price: FieldValue, image: FieldValue, category: FieldValue)

  datatype FormField = NameField | DescriptionField | PriceField | ImageField | CategoryField

  const EmptyForm := ProductForm(Text(""), Text(""), Text(""), Text(""), Text(""))

  /** The requests the page sends. */
  datatype Request =
    | Create(form: ProductForm)
    | Update(id: int, form: ProductForm)
    | Delete(id: int)
    | FetchProducts
    | FetchCategories

  const LoginMessage := "Log in required to access this content."
  const ProductsFailedMessage := "Failed to fetch products."
  const CategoriesFailedMessage := "Failed to fetch categories."
  const UpdatedMessage := "Product updated"
  const AddedMessage := "Product added"
  const FailedMessage := "Operation failed"
  const DeletedMessage := "Product deleted"
  const DeleteFailedMessage := "Delete failed"

  /** `handleChange`: the named field takes the input's text. */
  function WithField(form: ProductForm, f: FormField, v: string): (r: ProductForm)
    ensures f == NameField ==> r == form.(name := Text(v))
    ensures f == DescriptionField ==> r == form.(description := Text(v))
    ensures f == PriceField ==> r == form.(price := Text(v))
    ensures f == ImageField ==> r == form.(image := Text(v))
    ensures f == CategoryField ==> r == form.(category := Text(v))
  {
    match f
    case NameField => form.(name := Text(v))
    case DescriptionField => form.(description := Text(v))
    case PriceField => form.(price := Text(v))
    case ImageField => form.(image := Text(v))
    case CategoryField => form.(category := Text(v))
  }

  /** `product.category?.id || product.category`: the object's id when it is a non-zero one, otherwise the value as it is. */
  function CategoryValue(c: CategoryRef): (v: FieldValue)
    ensures c.CategoryKey? ==> v == Number(c.key)
    ensures c.CategoryObject? && c.id != 0 ==> v == Number(c.id)
  {
    match c
    case CategoryKey(k) => Number(k)
    case CategoryObject(id) => if id != 0 then Number(id) else Object(c)
  }

  /** The form `handleEdit` fills in from a row. */
  function EditForm(p: Product): (form: ProductForm)
    ensures form.name == Text(p.name) && form.description == Text(p.description)
    ensures form.price == Number(p.price) && form.image == Text(p.image)
    ensures p.category.CategoryKey? ==> form.category == Number(p.category.key)
    ensures p.category.CategoryObject? && p.category.id != 0 ==> form.category == Number(p.category.id)
  {
    ProductForm(Text(p.name), Text(p.description), Number(p.price), Text(p.image), CategoryValue(p.category))
  }

  class Products {
    var products: seq<Product>
    var categories: seq<(int, string)>
    var isEditing: bool
    var editingProduct: Option<Product>
    var form: ProductForm

    /** The page is editing exactly when a product is selected. */
    ghost predicate Valid()
      reads this
    {
      isEditing <==> editingProduct.Some?
    }

    constructor ()
      ensures Valid()
      ensures products == [] && categories == [] && !isEditing && editingProduct.None? && form == EmptyForm
    {
      products, categories := [], [];
      isEditing, editingProduct, form := false, None, EmptyForm;
    }

    /** `fetchProducts`, given the reply to `GET products/`. */
    method LoadProducts(reply: Reply<seq<Product>>) returns (toasts: seq<Toast>)
      modifies this`products
      ensures reply.Ok? ==> products == reply.data && toasts == []
      ensures reply.Err? ==> products == old(products)
      ensures reply.Err? ==> toasts == [LoadErrorToast(reply.failure, LoginMessage, ProductsFailedMessage)]
    {
      match reply {
        case Ok(data) =>
          products := data;
          toasts := [];
        case Err(f) =>
          toasts := [LoadErrorToast(f, LoginMessage, ProductsFailedMessage)];
      }
    }

    /** `fetchCategories`, given the reply to `GET categories/`: (id, name) pairs. */
    method LoadCategories(reply: Reply<seq<(int, string)>>) returns (toasts: seq<Toast>)
      modifies this`categories
      ensures reply.Ok? ==> categories == reply.data && toasts == []
      ensures reply.Err? ==> categories == old(categories)
      ensures reply.Err? ==> toasts == [LoadErrorToast(reply.failure, LoginMessage, CategoriesFailedMessage)]
    {
      match reply {
        case Ok(data) =>
          categories := data;
          toasts := [];
        case Err(f) =>
          toasts := [LoadErrorToast(f, LoginMessage, CategoriesFailedMessage)];
      }
    }

    method HandleChange(f: FormField, v: string)
      modifies this`form
      ensures form == WithField(old(form), f, v)
    {
      form := WithField(form, f, v);
    }

    /**
     * `handleSubmit`, given the reply the create or update request would
     * get. The handler itself checks nothing and sends the form as it is;
     * the inputs' `required` attributes, which keep the browser from
     * submitting an empty field, are not modelled. A success also starts a
     * reload of the product list.
     */
    method HandleSubmit(reply: Reply<()>) returns (requests: seq<Request>, toasts: seq<Toast>)
      requires Valid()
      modifies this`form, this`isEditing, this`editingProduct
      ensures Valid()
      ensures |requests| >= 1
      ensures requests[0] == if old(isEditing) then Update(old(editingProduct).value.id, old(form)) else Create(old(form))
      ensures reply.Ok? ==>
                requests == [requests[0], FetchProducts]
                && toasts == [SuccessToast(if old(isEditing) then UpdatedMessage else AddedMessage)]
                && form == EmptyForm && !isEditing && editingProduct.None?
      ensures reply.Err? ==>
                |requests| == 1 && toasts == [ErrorToast(FailedMessage)]
                && form == old(form) && isEditing == old(isEditing) && editingProduct == old(editingProduct)
    {
      var request, message;
      if isEditing && editingProduct.Some? {
        request, message := Update(editingProduct.value.id, form), UpdatedMessage;
      } else {
        request, message := Create(form), AddedMessage;
      }
      requests := [request];
      if reply.Ok? {
        toasts := [SuccessToast(message)];
        form, isEditing, editingProduct := EmptyForm, false, None;
        requests := requests + [FetchProducts];
      } else {
        toasts := [ErrorToast(FailedMessage)];
      }
    }

    /** `handleEdit`: copy the row into the form and select it. */
    method HandleEdit(p: Product)
      modifies this`form, this`isEditing, this`editingProduct
      ensures Valid()
      ensures form == EditForm(p) && editingProduct == Some(p) && isEditing
    {
      form := EditForm(p);
      editingProduct, isEditing := Some(p), true;
    }

    /** `handleDelete`; `confirmed` is the answer to the confirmation dialog. */
    method HandleDelete(id: int, confirmed: bool, reply: Reply<()>) returns (requests: seq<Request>, toasts: seq<Toast>)
      ensures !confirmed ==> requests == [] && toasts == []
      ensures confirmed && reply.Ok? ==> requests == [Delete(id), FetchProducts] && toasts == [SuccessToast(DeletedMessage)]
      ensures confirmed && reply.Err? ==> requests == [Delete(id)] && toasts == [ErrorToast(DeleteFailedMessage)]
    {
      if !confirmed {
        return [], [];
      }
      if reply.Ok? {
        requests, toasts := [Delete(id), FetchProducts], [SuccessToast(DeletedMessage)];
      } else {
        requests, toasts := [Delete(id)], [ErrorToast(DeleteFailedMessage)];
      }
    }
  }

  /** Editing a row and saving it successfully sends that row's id with its copied fields. */
  method EditThenSubmit(page: Products, p: Product, reply: Reply<()>) returns (requests: seq<Request>, toasts: seq<Toast>)
    modifies page
    ensures page.Valid()
    ensures |requests| >= 1 && requests[0] == Update(p.id, EditForm(p))
    ensures reply.Ok? ==> page.form == EmptyForm && !page.isEditing
  {
    page.HandleEdit(p);
    requests, toasts := page.HandleSubmit(reply);
  }
}
