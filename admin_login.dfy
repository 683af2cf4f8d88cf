/** The admin console login page. */
module AdminLogin {
  import opened Wrappers
  import opened Http
  import opened Storage

  const DashboardPath := "/admin/dashboard"
  const SuccessMessage := "Login successful"
  const FallbackMessage := "Login failed"

  /** The body of a successful `POST login/` reply: the access token under `access`. */
  datatype LoginReply = LoginReply(access: Option<string>)

  /** On mount, an operator who already holds an admin token goes to the dashboard. */
  method Mount(ls: LocalStorage) returns (navigations: seq<string>)
    ensures navigations == RedirectIfPresent(ls.items, AdminTokenKey, DashboardPath)
  {
    var accessToken := ls.GetItem(AdminTokenKey);
    navigations := if accessToken.Some? && accessToken.value != "" then [DashboardPath] else [];
  }

  /** `err.response?.data.detail || "Login failed"`. */
  function FailureText(f: Failure): (text: string)
    ensures text == FallbackMessage || (f.detail.Some? && text == f.detail.value)
    ensures f.status.Some? && f.detail.Some? && f.detail.value != "" ==> text == f.detail.value
    ensures f.status.None? || f.detail.None? ==> text == FallbackMessage
  {
    if f.status.Some? && f.detail.Some? && f.detail.value != "" then f.detail.value else FallbackMessage
  }

  /**
   * `handleLogin`, given the server's reply. Success stores `access` under
   * the admin key only and opens the dashboard; failure writes nothing.
   */
  method HandleLogin(ls: LocalStorage, reply: Reply<LoginReply>) returns (toasts: seq<Toast>, navigations: seq<string>)
    modifies ls
    ensures reply.Ok? ==> ls.items == old(ls.items)[AdminTokenKey := Stored(reply.data.access)]
    ensures reply.Ok? ==> toasts == [SuccessToast(SuccessMessage)] && navigations == [DashboardPath]
    ensures reply.Err? ==> ls.items == old(ls.items)
    ensures reply.Err? ==> toasts == [ErrorToast(FailureText(reply.failure))] && navigations == []
    ensures Get(ls.items, UserTokenKey) == Get(old(ls.items), UserTokenKey)
    ensures Get(ls.items, UsernameKey) == Get(old(ls.items), UsernameKey)
  {
    match reply
    case Ok(data) =>
      ls.SetItem(AdminTokenKey, Stored(data.access));
      toasts := [SuccessToast(SuccessMessage)];
      navigations := [DashboardPath];
    case Err(f) =>
      toasts := [ErrorToast(FailureText(f))];
      navigations := [];
  }
}
