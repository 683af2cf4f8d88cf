/** The storefront header: its token-dependent links and the logout button. */
module UserHeader {
  import opened Storage

  const LoginPath := "/login"
  const RegisterPath := "/register"

  /** The links every visitor sees, in both the desktop and the mobile menu. */
  const FixedLinks: seq<string> := ["/", "/products", "/about", "/contact"]

  /** The desktop menu: the fixed links, then Login and Register for a visitor without a token. */
  function DesktopLinks(items: map<string, string>): seq<string> {
    FixedLinks + (if HasValue(items, UserTokenKey) then [] else [LoginPath, RegisterPath])
  }

  /** The mobile menu: nothing while closed, otherwise the same links as the desktop menu. */
  function MobileLinks(items: map<string, string>, isOpen: bool): seq<string> {
    if isOpen then FixedLinks + (if HasValue(items, UserTokenKey) then [] else [LoginPath, RegisterPath]) else []
  }

  function LogoutVisible(items: map<string, string>): bool {
    HasValue(items, UserTokenKey)
  }

  /** The name popup needs both the show flag and a stored, non-empty username. */
  function UsernamePopup(items: map<string, string>, showUsername: bool): (shown: bool)
    ensures shown <==> showUsername && HasValue(items, UsernameKey)
  {
    showUsername && HasValue(items, UsernameKey)
  }

  /** Login and Register are offered, in both menus, exactly when no user token is stored; logout exactly when one is. */
  lemma {:induction false} VisibilityByToken(items: map<string, string>)
    ensures LoginPath in DesktopLinks(items) <==> !HasValue(items, UserTokenKey)
    ensures RegisterPath in DesktopLinks(items) <==> !HasValue(items, UserTokenKey)
    ensures LoginPath in MobileLinks(items, true) <==> !HasValue(items, UserTokenKey)
    ensures RegisterPath in MobileLinks(items, true) <==> !HasValue(items, UserTokenKey)
    ensures MobileLinks(items, true) == DesktopLinks(items)
    ensures LogoutVisible(items) <==> LoginPath !in DesktopLinks(items)
  {
    assert LoginPath !in FixedLinks && RegisterPath !in FixedLinks;
  }

  /**
   * `logoutHandler`: removes the user token and the name, leaves every other
   * key (the admin token included) as it was, and goes to the login page.
   */
  method LogoutHandler(ls: LocalStorage) returns (navigations: seq<string>)
    modifies ls
    ensures ls.items == old(ls.items) - {UserTokenKey, UsernameKey}
    ensures !HasValue(ls.items, UserTokenKey) && Get(ls.items, UsernameKey).None?
    ensures Get(ls.items, AdminTokenKey) == Get(old(ls.items), AdminTokenKey)
    ensures navigations == [LoginPath]
  {
    ls.RemoveItem(UserTokenKey);
    ls.RemoveItem(UsernameKey);
    navigations := [LoginPath];
  }
}
