/**
 * The OAuth callback page: it reads the `error` and `access_token` query
 * parameters once, stores the token when there is one, shows one
 * notification and navigates.
 */
module AuthCallback {
  import opened Wrappers
  import opened ToastContext
  import opened Browser
  import RouteGuard

  /** The query string of the callback URL, one value per parameter name. */
  type SearchParams = map<string, string>

  /** `searchParams.get(name)`: the value, or `null` when the parameter is absent. */
  function Get(params: SearchParams, name: string): Option<string>
  {
    if name in params then Some(params[name]) else None
  }

  /** JavaScript truthiness of a `string | null`: present and not empty. */
  predicate Truthy(v: Option<string>)
  {
    v.Some? && v.value != ""
  }

  const FailedTitle := "Authentication failed"
  const InvalidResponseMessage := "Invalid response from server"
  const WelcomeToast := ToastProps(Success, "Successfully authenticated", Some("Welcome to tagform!"), None)

  /**
   * What one run of the callback does for the given query parameters. Every
   * run removes nothing and navigates to one of the two areas; only the
   * dashboard path writes, and what it writes is a non-empty "access_token"
   * under a success toast.
   */
  function CallbackEffect(params: SearchParams): (e: Effect)
    ensures e.removals == {} && e.writes.Keys <= {"access_token"}
    ensures e.navigation == Some(RouteGuard.DashboardPrefix) || e.navigation == Some(RouteGuard.SignInPath)
    ensures e.navigation == Some(RouteGuard.DashboardPrefix) <==> "access_token" in e.writes
    ensures e.toast.kind == Success <==> "access_token" in e.writes
    ensures "access_token" in e.writes ==> e.writes["access_token"] != "" && Get(params, "access_token") == Some(e.writes["access_token"])
  {
    var error := Get(params, "error");
    var token := Get(params, "access_token");
    if Truthy(error) then
      Effect({}, map[], ToastProps(Error, FailedTitle, Some(error.value), None), Some(RouteGuard.SignInPath))
    else if Truthy(token) then
      Effect({}, map["access_token" := token.value], WelcomeToast, Some(RouteGuard.DashboardPrefix))
    else
      Effect({}, map[], ToastProps(Error, FailedTitle, Some(InvalidResponseMessage), None), Some(RouteGuard.SignInPath))
  }

  /** The effect hook's `handleCallback`, in the order the page runs it. */
  method HandleCallback(params: SearchParams, storage: LocalStorage, router: Router, toaster: ToastProvider, toastId: string)
    modifies storage, router, toaster
    ensures storage.items == Apply(old(storage.items), CallbackEffect(params))
    ensures toaster.toasts == old(toaster.toasts) + [Toast(toastId, CallbackEffect(params).toast)]
    ensures router.history == old(router.history) + Pushed(CallbackEffect(params))
  {
    var error := Get(params, "error");
    var accessToken := Get(params, "access_token");

    if Truthy(error) {
      toaster.ShowToast(ToastProps(Error, FailedTitle, Some(error.value), None), toastId);
      router.Push(RouteGuard.SignInPath);
      return;
    }

    if Truthy(accessToken) {
      storage.SetItem("access_token", accessToken.value);
      toaster.ShowToast(WelcomeToast, toastId);
      router.Push(RouteGuard.DashboardPrefix);
    } else {
      toaster.ShowToast(ToastProps(Error, FailedTitle, Some(InvalidResponseMessage), None), toastId);
      router.Push(RouteGuard.SignInPath);
    }
  }

  /** A non-empty `error` wins over any token: nothing is stored, the error is shown verbatim. */
  lemma ErrorTakesPrecedence(params: SearchParams, items: Storage)
    requires "error" in params && params["error"] != ""
    ensures Apply(items, CallbackEffect(params)) == items
    ensures CallbackEffect(params).toast == ToastProps(Error, "Authentication failed", Some(params["error"]), None)
    ensures CallbackEffect(params).navigation == Some("/auth/signin")
  {
  }

  /** Without an error, a non-empty token is stored under "access_token" and the dashboard opens. */
  lemma TokenIsStored(params: SearchParams, items: Storage)
    requires !Truthy(Get(params, "error"))
    requires "access_token" in params && params["access_token"] != ""
    ensures Apply(items, CallbackEffect(params)) == items["access_token" := params["access_token"]]
    ensures CallbackEffect(params).toast.kind == Success
    ensures CallbackEffect(params).navigation == Some("/dashboard")
  {
  }

  /** With neither parameter, the response is reported as invalid and nothing is stored. */
  lemma NeitherParameter(params: SearchParams, items: Storage)
    requires !Truthy(Get(params, "error")) && !Truthy(Get(params, "access_token"))
    ensures Apply(items, CallbackEffect(params)) == items
    ensures CallbackEffect(params).toast == ToastProps(Error, "Authentication failed", Some("Invalid response from server"), None)
    ensures CallbackEffect(params).navigation == Some("/auth/signin")
  {
  }

  /** A parameter given as the empty string acts exactly as if it were absent. */
  lemma EmptyParameterIsAbsent(params: SearchParams, name: string)
    requires name in params && params[name] == ""
    ensures CallbackEffect(params) == CallbackEffect(params - {name})
  {
  }

  /**
   * Every run navigates exactly once and removes nothing; the only key it can
   * write is "access_token", and it writes it exactly when it opens the dashboard.
   */
  lemma OnlyTokenIsWritten(params: SearchParams, items: Storage)
    ensures CallbackEffect(params).navigation.Some?
    ensures CallbackEffect(params).removals == {}
    ensures CallbackEffect(params).writes.Keys <= {"access_token"}
    ensures forall k :: k != "access_token" ==>
      (k in Apply(items, CallbackEffect(params)) <==> k in items)
    ensures forall k :: k != "access_token" && k in items ==> Apply(items, CallbackEffect(params))[k] == items[k]
    ensures CallbackEffect(params).navigation == Some("/dashboard") <==> "access_token" in CallbackEffect(params).writes
  {
  }
}
