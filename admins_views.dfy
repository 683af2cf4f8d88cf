/** The admin API: its permission rule, its login, the order status update and the order listing. */
module AdminsViews {
  import opened Wrappers
  import opened Seqs
  import opened Models
  import UsersSerializers
  import ProductsViews

  /** Who sends a request: nobody logged in, or an account. */
  datatype Requester = Anonymous | SignedIn(account: UsersSerializers.Account)

  /** `AdminPermission.has_permission`: `request.user.is_staff` (false for an anonymous user). */
  function HasPermission(requester: Requester): (allowed: bool)
    ensures allowed <==> requester.SignedIn? && requester.account.isStaff
  {
    match requester
    case Anonymous => false
    case SignedIn(account) => account.isStaff
  }

  /** The admin login's replies: a token, the fields that failed validation (400), or a refusal (401). */
  datatype AdminLoginReply = Access(access: string) | FieldErrors(fields: seq<string>) | Unauthorized(detail: string)

  const NotAdminMessage := "Invalid credentials or not admin"

  predicate Given(v: Option<string>) {
    v.Some? && v.value != ""
  }

  /**
   * `AdminLoginView.post`. `authenticate` is Django's credential check and
   * `mint` the access token issued for an account; both are parameters.
   */
  function AdminLogin(
    username: Option<string>, password: Option<string>,
    authenticate: (string, string) -> Option<UsersSerializers.Account>,
    mint: UsersSerializers.Account -> string): (r: AdminLoginReply)
    ensures !Given(username) || !Given(password) <==> r.FieldErrors?
    ensures r.FieldErrors? ==> ("username" in r.fields <==> !Given(username)) && ("password" in r.fields <==> !Given(password))
    ensures r.Access? <==>
              Given(username) && Given(password)
              && authenticate(username.value, password.value).Some?
              && authenticate(username.value, password.value).value.isStaff
    ensures r.Access? ==> r.access == mint(authenticate(username.value, password.value).value)
    ensures r.Unauthorized? ==> r.detail == NotAdminMessage
  {
    if !Given(username) || !Given(password) then
      FieldErrors((if Given(username) then [] else ["username"]) + (if Given(password) then [] else ["password"]))
    else
      match authenticate(username.value, password.value)
      case Some(user) => if user.isStaff then Access(mint(user)) else Unauthorized(NotAdminMessage)
      case None => Unauthorized(NotAdminMessage)
  }

  /**
   * The admin login and the admin permission agree: with both fields given,
   * a token is issued exactly when the authenticated account would pass
   * the permission check.
   */
  lemma TokenExactlyForPermittedAccounts(
    username: string, password: string,
    authenticate: (string, string) -> Option<UsersSerializers.Account>,
    mint: UsersSerializers.Account -> string)
    requires username != "" && password != ""
    ensures AdminLogin(Some(username), Some(password), authenticate, mint).Access?
        <==> authenticate(username, password).Some? && HasPermission(SignedIn(authenticate(username, password).value))
  {
  }

  /** A correct password of a non-staff account is refused exactly as a wrong password is. */
  lemma NonStaffLooksLikeBadPassword(
    username: string, password: string, wrong: string,
    authenticate: (string, string) -> Option<UsersSerializers.Account>,
    mint: UsersSerializers.Account -> string)
    requires username != "" && password != "" && wrong != ""
    requires authenticate(username, password).Some? && !authenticate(username, password).value.isStaff
    requires authenticate(username, wrong).None?
    ensures AdminLogin(Some(username), Some(password), authenticate, mint)
         == AdminLogin(Some(username), Some(wrong), authenticate, mint)
         == Unauthorized(NotAdminMessage)
  {
  }

  /** The writable columns of the shipping serializer with their `max_length`, in its field order. */
  datatype Column = Column(name: string, maxLength: nat)

  const ShippingColumns: seq<Column> := [
    Column("full_name", 100), Column("address", 255), Column("city", 100), Column("state", 100),
    Column("postal_code", 20), Column("country", 50), Column("phone", 20),
    Column("payment_status", 30), Column("order_status", 30)]

  /** A column absent from the patch is fine; a present one must be non-blank and within its length. */
  predicate ColumnOk(patch: map<string, string>, column: Column) {
    column.name !in patch || (patch[column.name] != "" && |patch[column.name]| <= column.maxLength)
  }

  function ColumnFails(patch: map<string, string>): Column -> bool {
    (c: Column) => !ColumnOk(patch, c)
  }

  /** The columns a partial update refuses, in field order. */
  function InvalidColumns(patch: map<string, string>): seq<Column> {
    Filter(ShippingColumns, ColumnFails(patch))
  }

  function Patched(patch: map<string, string>, key: string, current: string): string {
    if key in patch then patch[key] else current
  }

  /** `partial=True`: every column named in the patch takes its value, every other keeps its own. */
  function ApplyPatch(s: ShippingAddress, patch: map<string, string>): (r: ShippingAddress)
    ensures r.order == s.order
    ensures "full_name" in patch ==> r.fullName == patch["full_name"]
    ensures "full_name" !in patch ==> r.fullName == s.fullName
    ensures "address" in patch ==> r.address == patch["address"]
    ensures "address" !in patch ==> r.address == s.address
    ensures "city" in patch ==> r.city == patch["city"]
    ensures "city" !in patch ==> r.city == s.city
    ensures "state" in patch ==> r.state == patch["state"]
    ensures "state" !in patch ==> r.state == s.state
    ensures "postal_code" in patch ==> r.postalCode == patch["postal_code"]
    ensures "postal_code" !in patch ==> r.postalCode == s.postalCode
    ensures "country" in patch ==> r.country == patch["country"]
    ensures "country" !in patch ==> r.country == s.country
    ensures "phone" in patch ==> r.phone == patch["phone"]
    ensures "phone" !in patch ==> r.phone == s.phone
    ensures "payment_status" in patch ==> r.paymentStatus == patch["payment_status"]
    ensures "payment_status" !in patch ==> r.paymentStatus == s.paymentStatus
    ensures "order_status" in patch ==> r.orderStatus == patch["order_status"]
    ensures "order_status" !in patch ==> r.orderStatus == s.orderStatus
  {
    s.(fullName := Patched(patch, "full_name", s.fullName),
       address := Patched(patch, "address", s.address),
       city := Patched(patch, "city", s.city),
       state := Patched(patch, "state", s.state),
       postalCode := Patched(patch, "postal_code", s.postalCode),
       country := Patched(patch, "country", s.country),
       phone := Patched(patch, "phone", s.phone),
       paymentStatus := Patched(patch, "payment_status", s.paymentStatus),
       orderStatus := Patched(patch, "order_status", s.orderStatus))
  }

  /** The client's `{order_status}` patch changes the order status and nothing else. */
  lemma StatusPatchChangesOnlyStatus(s: ShippingAddress, status: string)
    ensures ApplyPatch(s, map["order_status" := status]) == s.(orderStatus := status)
  {
  }

  /** Sending the same patch twice changes nothing more, and an empty patch changes nothing. */
  lemma PatchIdempotent(s: ShippingAddress, patch: map<string, string>)
    ensures ApplyPatch(ApplyPatch(s, patch), patch) == ApplyPatch(s, patch)
    ensures ApplyPatch(s, map[]) == s
  {
  }

  /** A patch is accepted exactly when every column it names is non-blank and short enough. */
  lemma InvalidColumnsEmptyIff(patch: map<string, string>)
    ensures InvalidColumns(patch) == [] <==> forall i :: 0 <= i < |ShippingColumns| ==> ColumnOk(patch, ShippingColumns[i])
  {
    FilterEmpty(ShippingColumns, ColumnFails(patch));
  }

  /** An accepted patch keeps a record within its column lengths. */
  lemma AcceptedPatchKeepsLengths(s: ShippingAddress, patch: map<string, string>)
    requires ValidShipping(s)
    requires InvalidColumns(patch) == []
    ensures ValidShipping(ApplyPatch(s, patch))
  {
    InvalidColumnsEmptyIff(patch);
    assert ColumnOk(patch, ShippingColumns[0]) && ColumnOk(patch, ShippingColumns[1]);
    assert ColumnOk(patch, ShippingColumns[2]) && ColumnOk(patch, ShippingColumns[3]);
    assert ColumnOk(patch, ShippingColumns[4]) && ColumnOk(patch, ShippingColumns[5]);
    assert ColumnOk(patch, ShippingColumns[6]) && ColumnOk(patch, ShippingColumns[7]);
    assert ColumnOk(patch, ShippingColumns[8]);
  }

  /** Why a status update is refused. */
  datatype UpdateError = OrderMissing | NoShipping(message: string) | InvalidFields(columns: seq<Column>)

  const NoShippingMessage := "No shipping address found"

  /**
   * `AdminOrderViewSet.update_status`: a partial update of the order's
   * shipping record. An unknown order id is a 404 of the object lookup.
   */
  method UpdateStatus(store: ProductsViews.Store, orderId: OrderId, patch: map<string, string>)
    returns (r: Result<ShippingAddress, UpdateError>)
    requires store.Valid()
    modifies store`shipping
    ensures store.Valid()
    ensures !(0 <= orderId < |store.orders|) ==> r == Failure(OrderMissing)
    ensures 0 <= orderId < |store.orders| && orderId !in old(store.shipping) ==> r == Failure(NoShipping(NoShippingMessage))
    ensures 0 <= orderId < |store.orders| && orderId in old(store.shipping) && InvalidColumns(patch) != [] ==>
              r == Failure(InvalidFields(InvalidColumns(patch)))
    ensures r.Failure? ==> store.shipping == old(store.shipping)
    ensures r.Success? ==>
              && orderId in old(store.shipping) && InvalidColumns(patch) == []
              && r.value == ApplyPatch(old(store.shipping)[orderId], patch)
              && store.shipping == old(store.shipping)[orderId := r.value]
  {
    if !(0 <= orderId < |store.orders|) {
      return Failure(OrderMissing);
    }
    if orderId !in store.shipping {
      return Failure(NoShipping(NoShippingMessage));
    }
    var invalid := InvalidColumns(patch);
    if invalid != [] {
      return Failure(InvalidFields(invalid));
    }
    var updated := ApplyPatch(store.shipping[orderId], patch);
    store.SaveShipping(orderId, updated);
    return Success(updated);
  }

  /** Newest first: `created_at` never increases along the list. */
  ghost predicate NewestFirst(orders: seq<Order>) {
    forall i, j :: 0 <= i < j < |orders| ==> orders[i].createdAt >= orders[j].createdAt
  }

  /** Put one order into a newest-first list. */
  function Insert(o: Order, sorted: seq<Order>): (r: seq<Order>)
    ensures multiset(r) == multiset(sorted) + multiset{o}
    ensures |r| == |sorted| + 1
  {
    if sorted == [] then [o]
    else if o.createdAt >= sorted[0].createdAt then [o] + sorted
    else
      assert sorted == [sorted[0]] + sorted[1..];
      [sorted[0]] + Insert(o, sorted[1..])
  }

  /** `order_by("-created_at")`. */
  function ByNewest(orders: seq<Order>): (r: seq<Order>)
    ensures multiset(r) == multiset(orders)
  {
    if orders == [] then []
    else
      assert orders == [orders[0]] + orders[1..];
      Insert(orders[0], ByNewest(orders[1..]))
  }

  lemma ConsNewestFirst(a: Order, s: seq<Order>)
    requires NewestFirst(s)
    requires forall x :: x in s ==> x.createdAt <= a.createdAt
    ensures NewestFirst([a] + s)
  {
    var r := [a] + s;
    forall i, j | 0 <= i < j < |r| ensures r[i].createdAt >= r[j].createdAt {
      assert r[j] == s[j - 1];
      if i == 0 {
        assert s[j - 1] in s;
      } else {
        assert r[i] == s[i - 1];
      }
    }
  }

  lemma TailNewestFirst(s: seq<Order>)
    requires NewestFirst(s) && s != []
    ensures NewestFirst(s[1..])
    ensures forall x :: x in s ==> x.createdAt <= s[0].createdAt
  {
    var t := s[1..];
    forall i, j | 0 <= i < j < |t| ensures t[i].createdAt >= t[j].createdAt {
      assert t[i] == s[i + 1] && t[j] == s[j + 1];
    }
    forall x | x in s ensures x.createdAt <= s[0].createdAt {
      var k :| 0 <= k < |s| && s[k] == x;
    }
  }

  lemma {:induction false} InsertKeepsOrder(o: Order, sorted: seq<Order>)
    requires NewestFirst(sorted)
    ensures NewestFirst(Insert(o, sorted))
  {
    if sorted == [] {
    } else if o.createdAt >= sorted[0].createdAt {
      TailNewestFirst(sorted);
      ConsNewestFirst(o, sorted);
    } else {
      TailNewestFirst(sorted);
      var tail := sorted[1..];
      InsertKeepsOrder(o, tail);
      var rest := Insert(o, tail);
      forall x | x in rest ensures x.createdAt <= sorted[0].createdAt {
        assert x in multiset(rest);
        assert x in multiset(tail) || x == o;
        if x != o {
          assert x in tail;
          assert x in sorted;
        }
      }
      ConsNewestFirst(sorted[0], rest);
    }
  }

  /** The listing is newest first and holds every order exactly as often as the table does. */
  lemma {:induction false} ByNewestIsSortedPermutation(orders: seq<Order>)
    ensures NewestFirst(ByNewest(orders))
    ensures multiset(ByNewest(orders)) == multiset(orders)
  {
    if orders != [] {
      ByNewestIsSortedPermutation(orders[1..]);
      InsertKeepsOrder(orders[0], ByNewest(orders[1..]));
    }
  }
}
