/** The admin's category page: an add-or-edit form over the category list. */
module AdminCategories {
  import opened Wrappers
  import opened Http

  datatype Category = Category(id: int, name: string)

  /** The requests the page sends. */
  datatype Request = Create(name: string) | Update(id: int, name: string) | Delete(id: int) | FetchAll

  const LoginMessage := "Log in required to access this content."
  const LoadFailedMessage := "Failed to load categories."
  const EmptyNameMessage := "Category name cannot be empty"
  const UpdatedMessage := "Category updated"
  const AddedMessage := "Category added"
  const FailedMessage := "Operation failed"
  const DeletedMessage := "Category deleted"
  const DeleteFailedMessage := "Delete failed"

  class Categories {
    var categories: seq<Category>
    var newCategory: string
    var isEditing: bool
    var editingCategory: Option<Category>

    /** The page is editing exactly when a category is selected. */
    ghost predicate Valid()
      reads this
    {
      isEditing <==> editingCategory.Some?
    }

    constructor ()
      ensures Valid()
      ensures categories == [] && newCategory == "" && !isEditing && editingCategory.None?
    {
      categories, newCategory, isEditing, editingCategory := [], "", false, None;
    }

    /** `fetchCategories`, given the reply to `GET categories/`. */
    method Load(reply: Reply<seq<Category>>) returns (toasts: seq<Toast>)
      modifies this`categories
      ensures reply.Ok? ==> categories == reply.data && toasts == []
      ensures reply.Err? ==> categories == old(categories)
      ensures reply.Err? ==> toasts == [LoadErrorToast(reply.failure, LoginMessage, LoadFailedMessage)]
    {
      match reply {
        case Ok(data) =>
          categories := data;
          toasts := [];
        case Err(f) =>
          toasts := [LoadErrorToast(f, LoginMessage, LoadFailedMessage)];
      }
    }

    /**
     * `addOrUpdateCategory`, given the reply the create or update request
     * would get. A success also starts a reload of the list (`FetchAll`).
     */
    method AddOrUpdate(reply: Reply<()>) returns (requests: seq<Request>, toasts: seq<Toast>)
      requires Valid()
      modifies this`newCategory, this`isEditing, this`editingCategory
      ensures Valid()
      ensures old(newCategory) == "" ==>
                requests == [] && toasts == [ErrorToast(EmptyNameMessage)]
                && newCategory == old(newCategory) && isEditing == old(isEditing)
                && editingCategory == old(editingCategory)
      ensures old(newCategory) != "" ==>
                |requests| >= 1
                && requests[0] == (if old(isEditing) then Update(old(editingCategory).value.id, old(newCategory))
                                   else Create(old(newCategory)))
      ensures old(newCategory) != "" && reply.Ok? ==>
                requests == [requests[0], FetchAll]
                && toasts == [SuccessToast(if old(isEditing) then UpdatedMessage else AddedMessage)]
                && newCategory == "" && !isEditing && editingCategory.None?
      ensures old(newCategory) != "" && reply.Err? ==>
                |requests| == 1 && toasts == [ErrorToast(FailedMessage)]
                && newCategory == old(newCategory) && isEditing == old(isEditing)
                && editingCategory == old(editingCategory)
    {
      if newCategory == "" {
        return [], [ErrorToast(EmptyNameMessage)];
      }
      var request, message;
      if isEditing && editingCategory.Some? {
        request, message := Update(editingCategory.value.id, newCategory), UpdatedMessage;
      } else {
        request, message := Create(newCategory), AddedMessage;
      }
      requests := [request];
      if reply.Ok? {
        toasts := [SuccessToast(message)];
        newCategory, isEditing, editingCategory := "", false, None;
        requests := requests + [FetchAll];
      } else {
        toasts := [ErrorToast(FailedMessage)];
      }
    }

    method StartEdit(category: Category)
      modifies this`newCategory, this`isEditing, this`editingCategory
      ensures Valid()
      ensures newCategory == category.name && editingCategory == Some(category) && isEditing
    {
      newCategory, editingCategory, isEditing := category.name, Some(category), true;
    }

    method CancelEdit()
      modifies this`newCategory, this`isEditing, this`editingCategory
      ensures Valid()
      ensures newCategory == "" && editingCategory.None? && !isEditing
    {
      newCategory, editingCategory, isEditing := "", None, false;
    }

    /** `deleteCategory`; `confirmed` is the answer to the confirmation dialog. */
    method DeleteCategory(id: int, confirmed: bool, reply: Reply<()>) returns (requests: seq<Request>, toasts: seq<Toast>)
      ensures !confirmed ==> requests == [] && toasts == []
      ensures confirmed && reply.Ok? ==> requests == [Delete(id), FetchAll] && toasts == [SuccessToast(DeletedMessage)]
      ensures confirmed && reply.Err? ==> requests == [Delete(id)] && toasts == [ErrorToast(DeleteFailedMessage)]
    {
      if !confirmed {
        return [], [];
      }
      if reply.Ok? {
        requests, toasts := [Delete(id), FetchAll], [SuccessToast(DeletedMessage)];
      } else {
        requests, toasts := [Delete(id)], [ErrorToast(DeleteFailedMessage)];
      }
    }
  }

  /**
   * Editing, then submitting successfully, sends the update for the
   * category that was picked and leaves the form as after a cancel.
   */
  method EditThenSubmit(page: Categories, category: Category, reply: Reply<()>)
    returns (requests: seq<Request>, toasts: seq<Toast>)
    requires category.name != ""
    modifies page
    ensures page.Valid()
    ensures |requests| >= 1 && requests[0] == Update(category.id, category.name)
    ensures reply.Ok? ==> !page.isEditing && page.newCategory == "" && page.editingCategory.None?
    ensures reply.Err? ==> page.isEditing && page.editingCategory == Some(category) && page.newCategory == category.name
  {
    page.StartEdit(category);
    requests, toasts := page.AddOrUpdate(reply);
  }
}
