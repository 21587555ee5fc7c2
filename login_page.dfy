/** The login form's submit handler: store the session, then route by role. */
module LoginPage {
  import opened Wrappers
  import opened Browser

  /** Roles as the client receives them, as text. */
  function RouteFor(role: string): (path: string)
    ensures path == "/admin" <==> role == "ADMIN" || role == "EDITOR"
    ensures path == "/super-admin" <==> role == "SUPER_ADMIN"
    ensures path == "/dashboard" <==> role != "ADMIN" && role != "EDITOR" && role != "SUPER_ADMIN"
  {
    if role == "ADMIN" || role == "EDITOR" then "/admin"
    else if role == "SUPER_ADMIN" then "/super-admin"
    else "/dashboard"
  }

  /**
   * The reply to `POST /auth/login`: the token, the serialised user and its
   * role, or a failure with the body's `error` field if there is one.
   */
  datatype LoginResult =
    | Succeeded(token: string, userJson: string, role: string)
    | Failed(serverError: Option<string>)

  /** `err.response?.data?.error || "Login failed"`. */
  function ErrorText(serverError: Option<string>): (e: string)
    ensures e != ""
    ensures TruthyStr(serverError) ==> e == serverError.value
  {
    OrStr(serverError, "Login failed")
  }

  class LoginForm {
    var loading: bool
    var error: string
    const window: Window

    constructor (w: Window)
      ensures window == w && !loading && error == ""
    {
      window := w;
      loading, error := false, "";
    }

    /**
     * `handleSubmit` once the request has settled: the request goes out,
     * then on success the token and the user are stored and only then the
     * browser is routed by role; on failure the error is shown. Either way
     * `loading` ends false and no stale error is left.
     */
    method HandleSubmit(result: LoginResult)
      modifies this, window
      ensures !loading
      ensures result.Succeeded? ==>
                && error == ""
                && window.storage == old(window.storage)["token" := result.token]["user" := result.userJson]
                && window.trace == old(window.trace) + [Request("POST", "/auth/login"),
                                                         SetItem("token", result.token),
                                                         SetItem("user", result.userJson),
                                                         Navigate(RouteFor(result.role))]
      ensures result.Failed? ==>
                && error == ErrorText(result.serverError)
                && window.storage == old(window.storage)
                && window.trace == old(window.trace) + [Request("POST", "/auth/login")]
    {
      loading := true;
      error := "";
      window.Request("POST", "/auth/login");
      match result {
        case Succeeded(token, userJson, role) =>
          window.SetItem("token", token);
          window.SetItem("user", userJson);
          window.Navigate(RouteFor(role));
        case Failed(serverError) =>
          error := ErrorText(serverError);
      }
      loading := false;
    }
  }
}
