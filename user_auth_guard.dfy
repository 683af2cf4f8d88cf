/** The storefront's route guard, run once when a protected page mounts. */
module UserAuthGuard {
  import opened Storage

  const LoginPath := "/login"

  /**
   * Reads only `user_access_token`; navigates to the login page once when it
   * is missing or empty, and does nothing otherwise. It writes nothing.
   */
  method UseAuthGuard(ls: LocalStorage) returns (navigations: seq<string>)
    ensures navigations == RedirectIfMissing(ls.items, UserTokenKey, LoginPath)
    ensures navigations == [LoginPath] <==> !HasValue(ls.items, UserTokenKey)
    ensures navigations == [] <==> HasValue(ls.items, UserTokenKey)
  {
    var accessToken := ls.GetItem(UserTokenKey);
    if accessToken.None? || accessToken.value == "" {
      navigations := [LoginPath];
    } else {
      navigations := [];
    }
  }

  /** An admin token neither satisfies nor disturbs the user guard. */
  lemma GuardIgnoresAdminToken(items: map<string, string>, token: string)
    ensures RedirectIfMissing(items[AdminTokenKey := token], UserTokenKey, LoginPath)
         == RedirectIfMissing(items, UserTokenKey, LoginPath)
    ensures RedirectIfMissing(map[AdminTokenKey := token], UserTokenKey, LoginPath) == [LoginPath]
  {
  }

  /** An empty-string token counts as absent. */
  lemma EmptyTokenRedirects(items: map<string, string>)
    ensures RedirectIfMissing(items[UserTokenKey := ""], UserTokenKey, LoginPath) == [LoginPath]
  {
  }
}
