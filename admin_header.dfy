/** The admin console header: shown only to a signed-in operator. */
module AdminHeader {
  import opened Wrappers
  import opened Storage

  const LoginPath := "/admin/login"

  datatype NavLink = NavLink(name: string, to: string)

  const Links: seq<NavLink> := [
    NavLink("Dashboard", "/admin/dashboard"),
    NavLink("Products", "/admin/products"),
    NavLink("Categories", "/admin/categories"),
    NavLink("Orders", "/admin/orders"),
    NavLink("Users", "/admin/users")
  ]

  /** What the header renders: nothing without an admin token, otherwise its five links. */
  function Render(items: map<string, string>): (menu: Option<seq<NavLink>>)
    ensures menu.None? <==> !HasValue(items, AdminTokenKey)
    ensures menu.Some? ==> |menu.value| == 5
    ensures menu.Some? ==> forall i :: 0 <= i < 5 ==> menu.value[i].to == Links[i].to
  {
    if HasValue(items, AdminTokenKey) then Some(Links) else None
  }

  lemma LinkOrder()
    ensures [Links[0].name, Links[1].name, Links[2].name, Links[3].name, Links[4].name]
         == ["Dashboard", "Products", "Categories", "Orders", "Users"]
  {
  }

  /** `handleLogout`: removes only the admin token, then goes to the admin login page. */
  method HandleLogout(ls: LocalStorage) returns (navigations: seq<string>)
    modifies ls
    ensures ls.items == old(ls.items) - {AdminTokenKey}
    ensures Render(ls.items).None?
    ensures forall k :: k != AdminTokenKey ==> Get(ls.items, k) == Get(old(ls.items), k)
    ensures navigations == [LoginPath]
  {
    ls.RemoveItem(AdminTokenKey);
    navigations := [LoginPath];
  }
}
