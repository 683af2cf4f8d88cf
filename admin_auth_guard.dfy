/** The admin console's route guard, run once when a protected page mounts. */
module AdminAuthGuard {
  import opened Storage

  const LoginPath := "/admin/login"

  /**
   * Reads only `admin_access_token`; navigates to the login page once when it
   * is missing or empty, and does nothing otherwise. It writes nothing.
   */
  method UseAuthGuard(ls: LocalStorage) returns (navigations: seq<string>)
    ensures navigations == RedirectIfMissing(ls.items, AdminTokenKey, LoginPath)
    ensures navigations == [LoginPath] <==> !HasValue(ls.items, AdminTokenKey)
    ensures navigations == [] <==> HasValue(ls.items, AdminTokenKey)
  {
    var accessToken := ls.GetItem(AdminTokenKey);
    if accessToken.None? || accessToken.value == "" {
      navigations := [LoginPath];
    } else {
      navigations := [];
    }
  }

  /** A user token neither satisfies nor disturbs the admin guard. */
  lemma GuardIgnoresUserToken(items: map<string, string>, token: string)
    ensures RedirectIfMissing(items[UserTokenKey := token], AdminTokenKey, LoginPath)
         == RedirectIfMissing(items, AdminTokenKey, LoginPath)
    ensures RedirectIfMissing(map[UserTokenKey := token], AdminTokenKey, LoginPath) == [LoginPath]
  {
  }

  /** An empty-string token counts as absent. */
  lemma EmptyTokenRedirects(items: map<string, string>)
    ensures RedirectIfMissing(items[AdminTokenKey := ""], AdminTokenKey, LoginPath) == [LoginPath]
  {
  }
}
