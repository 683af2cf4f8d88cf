/** The storefront login page. */
module UserLogin {
  import opened Wrappers
  import opened Http
  import opened Storage

  const HomePath := "/"
  const SuccessMessage := "Login successful!"
  const FailureMessage := "Login failed. Please check your credentials."

  /** The body of a successful `POST /auth/login/` reply, as far as the page reads it. */
  datatype LoginReply = LoginReply(accessToken: Option<string>, username: Option<string>)

  /** On mount, a user who already holds a token is sent home. */
  method Mount(ls: LocalStorage) returns (navigations: seq<string>)
    ensures navigations == RedirectIfPresent(ls.items, UserTokenKey, HomePath)
  {
    var accessToken := ls.GetItem(UserTokenKey);
    navigations := if accessToken.Some? && accessToken.value != "" then [HomePath] else [];
  }

  /**
   * `handleSubmit`, given the server's reply to the login request. Success
   * stores the token and the name (as `setItem` stringifies them) and goes
   * home; failure writes nothing and shows one error. The admin key is never
   * written.
   */
  method HandleSubmit(ls: LocalStorage, reply: Reply<LoginReply>) returns (toasts: seq<Toast>, navigations: seq<string>)
    modifies ls
    ensures reply.Ok? ==> ls.items == old(ls.items)[UserTokenKey := Stored(reply.data.accessToken)]
                                                   [UsernameKey := Stored(reply.data.username)]
    ensures reply.Ok? ==> toasts == [SuccessToast(SuccessMessage)] && navigations == [HomePath]
    ensures reply.Err? ==> ls.items == old(ls.items)
    ensures reply.Err? ==> toasts == [ErrorToast(FailureMessage)] && navigations == []
    ensures Get(ls.items, AdminTokenKey) == Get(old(ls.items), AdminTokenKey)
  {
    match reply
    case Ok(data) =>
      ls.SetItem(UserTokenKey, Stored(data.accessToken));
      ls.SetItem(UsernameKey, Stored(data.username));
      toasts := [SuccessToast(SuccessMessage)];
      navigations := [HomePath];
    case Err(_) =>
      toasts := [ErrorToast(FailureMessage)];
      navigations := [];
  }
}
