/** The admin's user list: search, adding a user, and deleting one that is not staff. */
module AdminUsers {
  import opened Wrappers
  import opened Text
  import opened Seqs
  import opened Http

  /**
   * A row of the list. Rows from the server carry an id and the staff flag;
   * a row appended after a local add has neither (`id` None, the flag falsy).
   */
  datatype UserRow = UserRow(id: Option<int>, username: string, email: string, isStaff: bool)

  /** The add-user form, which is also the body posted to the register endpoint. */
  datatype NewUser = NewUser(username: string, email: string, password: string)

  const EmptyForm := NewUser("", "", "")

  const LoginMessage := "Log in required to access this content."
  const LoadFailedMessage := "Failed to load users."
  const StaffMessage := "Cannot delete admin user."
  const DeletedMessage := "User deleted"
  const DeleteFailedMessage := "Failed to delete user."
  const MissingMessage := "All fields are required"
  const AddedMessage := "User added"
  const AddFailedMessage := "Failed to add user."

  /** The search test of `filteredUsers`: the lower-cased username or email contains the lower-cased search. */
  function UserMatches(search: string): UserRow -> bool {
    (u: UserRow) => Contains(ToLower(u.username), ToLower(search)) || Contains(ToLower(u.email), ToLower(search))
  }

  function FilteredUsers(users: seq<UserRow>, search: string): seq<UserRow> {
    Filter(users, UserMatches(search))
  }

  /** The shown list holds exactly the matching rows, each as often as before, in their order. */
  lemma FilteredUsersExact(users: seq<UserRow>, search: string)
    ensures forall u :: u in FilteredUsers(users, search) <==> u in users && UserMatches(search)(u)
    ensures forall u :: multiset(FilteredUsers(users, search))[u]
                     == if UserMatches(search)(u) then multiset(users)[u] else 0
    ensures IsSubsequence(FilteredUsers(users, search), users)
  {
    forall u ensures u in FilteredUsers(users, search) <==> u in users && UserMatches(search)(u) {
      FilterMembers(users, UserMatches(search), u);
    }
    forall u ensures multiset(FilteredUsers(users, search))[u]
                  == if UserMatches(search)(u) then multiset(users)[u] else 0 {
      FilterCounts(users, UserMatches(search), u);
    }
    FilterIsSubsequence(users, UserMatches(search));
  }

  /** An empty search shows every row. */
  lemma EmptySearchShowsAll(users: seq<UserRow>)
    ensures FilteredUsers(users, "") == users
  {
    forall i | 0 <= i < |users| ensures UserMatches("")(users[i]) {
      ContainsEmpty(ToLower(users[i].username));
    }
    FilterKeepsAll(users, UserMatches(""));
  }

  function OtherThan(id: int): UserRow -> bool {
    (u: UserRow) => u.id != Some(id)
  }

  /** `users.filter((u) => u.id !== id)`. */
  function RemoveUser(users: seq<UserRow>, id: int): seq<UserRow> {
    Filter(users, OtherThan(id))
  }

  /** Removal drops exactly the rows with that id and keeps the rest in order. */
  lemma RemoveUserExact(users: seq<UserRow>, id: int)
    ensures forall u :: u in RemoveUser(users, id) <==> u in users && u.id != Some(id)
    ensures IsSubsequence(RemoveUser(users, id), users)
  {
    forall u ensures u in RemoveUser(users, id) <==> u in users && u.id != Some(id) {
      FilterMembers(users, OtherThan(id), u);
    }
    FilterIsSubsequence(users, OtherThan(id));
  }

  predicate FormComplete(form: NewUser) {
    form.username != "" && form.email != "" && form.password != ""
  }

  class Users {
    var users: seq<UserRow>
    var search: string
    var newUser: NewUser
    var loading: bool
    var submitting: bool
    var loadComponent: bool

    constructor ()
      ensures users == [] && search == "" && newUser == EmptyForm
      ensures loading && !submitting && !loadComponent
    {
      users, search, newUser := [], "", EmptyForm;
      loading, submitting, loadComponent := true, false, false;
    }

    /** `fetchUsers`, given the reply to `GET users/`. */
    method Load(reply: Reply<seq<UserRow>>) returns (toasts: seq<Toast>)
      modifies this`users, this`loading
      ensures !loading
      ensures reply.Ok? ==> users == reply.data && toasts == []
      ensures reply.Err? ==> users == old(users)
      ensures reply.Err? ==> toasts == [LoadErrorToast(reply.failure, LoginMessage, LoadFailedMessage)]
    {
      loading := true;
      match reply {
        case Ok(data) =>
          users := data;
          toasts := [];
        case Err(f) =>
          toasts := [LoadErrorToast(f, LoginMessage, LoadFailedMessage)];
      }
      loading := false;
    }

    /**
     * `handleDelete`; `confirmed` is the answer to the confirmation dialog
     * and `reply` the reply the delete request would get. `request` is the
     * id sent for deletion, if a request is sent.
     */
    method HandleDelete(id: int, isStaff: bool, confirmed: bool, reply: Reply<()>)
      returns (request: Option<int>, toasts: seq<Toast>)
      modifies this`users
      ensures isStaff ==> request.None? && toasts == [ErrorToast(StaffMessage)] && users == old(users)
      ensures !isStaff && !confirmed ==> request.None? && toasts == [] && users == old(users)
      ensures !isStaff && confirmed ==> request == Some(id)
      ensures !isStaff && confirmed && reply.Ok? ==>
                users == RemoveUser(old(users), id) && toasts == [SuccessToast(DeletedMessage)]
      ensures !isStaff && confirmed && reply.Err? ==>
                users == old(users) && toasts == [ErrorToast(DeleteFailedMessage)]
    {
      if isStaff {
        return None, [ErrorToast(StaffMessage)];
      }
      if !confirmed {
        return None, [];
      }
      request := Some(id);
      if reply.Ok? {
        toasts := [SuccessToast(DeletedMessage)];
        users := RemoveUser(users, id);
      } else {
        toasts := [ErrorToast(DeleteFailedMessage)];
      }
    }

    /**
     * `handleAddUser`, given the reply the register request would get.
     * `request` is the body sent, if any.
     */
    method HandleAddUser(reply: Reply<()>) returns (request: Option<NewUser>, toasts: seq<Toast>)
      modifies this`users, this`newUser, this`submitting, this`loadComponent
      ensures !FormComplete(old(newUser)) ==>
                request.None? && toasts == [ErrorToast(MissingMessage)]
                && users == old(users) && newUser == old(newUser)
                && submitting == old(submitting) && loadComponent == old(loadComponent)
      ensures FormComplete(old(newUser)) ==> request == Some(old(newUser)) && !submitting
      ensures FormComplete(old(newUser)) && reply.Ok? ==>
                toasts == [SuccessToast(AddedMessage)] && newUser == EmptyForm
                && users == old(users) + [UserRow(None, old(newUser).username, old(newUser).email, false)]
                && loadComponent == !old(loadComponent)
      ensures FormComplete(old(newUser)) && reply.Err? ==>
                users == old(users) && newUser == old(newUser) && loadComponent == old(loadComponent)
      ensures FormComplete(old(newUser)) && reply.Err? && reply.failure.details.Some? ==>
                toasts == ErrorsOf(Messages(reply.failure.details.value))
      ensures FormComplete(old(newUser)) && reply.Err? && reply.failure.details.None? ==>
                toasts == [ErrorToast(AddFailedMessage)]
    {
      if newUser.username == "" || newUser.email == "" || newUser.password == "" {
        return None, [ErrorToast(MissingMessage)];
      }
      submitting := true;
      var submitted := newUser;
      request := Some(submitted);
      match reply {
        case Ok(_) =>
          toasts := [SuccessToast(AddedMessage)];
          newUser := EmptyForm;
          users := users + [UserRow(None, submitted.username, submitted.email, false)];
          loadComponent := !loadComponent;
        case Err(f) =>
          toasts := RejectionToasts(f, AddFailedMessage);
      }
      submitting := false;
    }

    function Shown(): seq<UserRow>
      reads this
    {
      FilteredUsers(users, search)
    }
  }
}
