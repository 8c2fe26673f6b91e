/**
 * The sign-up form: three input fields, and the submit handler that checks
 * them, registers the account, caches the returned session and reports the
 * outcome.
 */
module SignUp {
  import opened Wrappers
  import opened Api
  import opened ToastContext
  import opened Browser
  import RouteGuard

  datatype Session = Session(accessToken: string, refreshToken: string)

  /**
   * `response.data` of a successful registration: the user, already in the
   * form `JSON.stringify` gives it, and the session, which the server may omit.
   */
  datatype Registration = Registration(user: string, session: Option<Session>)

  /** The body sent to `auth.register`. */
  datatype RegisterRequest = RegisterRequest(email: string, password: string, fullName: string)

  const MissingFieldsMessage := "Please fill in all fields"
  const UnauthorizedMessage := "Authentication failed"
  const DefaultFailureMessage := "Failed to create account"
  const CreatedToast := ToastProps(Success, "Success", Some("Account created successfully!"), None)

  function ErrorToast(message: string): ToastProps
  {
    ToastProps(Error, "Error", Some(message), None)
  }

  /**
   * The message of the catch block: a 401 is reported as an authentication
   * failure, anything else with the server's message or a generic one.
   */
  function FailureMessage(response: Option<ErrorResponse>): (m: string)
    ensures m != ""
  {
    if response.Some? && response.value.status == 401 then UnauthorizedMessage
    else if response.Some? && response.value.message.Some? && response.value.message.value != "" then response.value.message.value
    else DefaultFailureMessage
  }

  /** The guard of the handler: every field is non-empty. */
  predicate FieldsFilled(fullName: string, email: string, password: string)
  {
    fullName != "" && email != "" && password != ""
  }

  /**
   * What one submission does, given the fields and how `auth.register` ended.
   * It removes nothing and writes only the three session keys, and only once
   * the fields are filled and the call succeeded; the only place it navigates
   * to is the dashboard, and it reports success exactly when it does.
   */
  function SignUpEffect(fullName: string, email: string, password: string, register: Outcome<Registration>): (e: Effect)
    ensures e.removals == {} && e.writes.Keys <= {"user", "access_token", "refresh_token"}
    ensures e.writes != map[] ==> FieldsFilled(fullName, email, password) && register.Succeeded?
    ensures e.navigation.Some? ==> e.navigation == Some(RouteGuard.DashboardPrefix)
    ensures e.toast.kind == Success <==> e.navigation.Some?
  {
    if !FieldsFilled(fullName, email, password) then
      Effect({}, map[], ErrorToast(MissingFieldsMessage), None)
    else if register.Failed? then
      Effect({}, map[], ErrorToast(FailureMessage(register.response)), None)
    else if register.data.session.None? then
      // Reading the missing session throws after "user" is written; the catch block reports it.
      Effect({}, map["user" := register.data.user], ErrorToast(FailureMessage(None)), None)
    else
      var session := register.data.session.value;
      Effect({}, map["user" := register.data.user, "access_token" := session.accessToken, "refresh_token" := session.refreshToken],
             CreatedToast, Some(RouteGuard.DashboardPrefix))
  }

  /** An empty field is reported, and nothing is sent, stored or navigated to. */
  lemma MissingFieldRejected(fullName: string, email: string, password: string, register: Outcome<Registration>, items: Storage)
    requires fullName == "" || email == "" || password == ""
    ensures Apply(items, SignUpEffect(fullName, email, password, register)) == items
    ensures SignUpEffect(fullName, email, password, register).toast.message == Some("Please fill in all fields")
    ensures SignUpEffect(fullName, email, password, register).navigation == None
  {
  }

  /** A registration with a session caches exactly the user and both tokens, then opens the dashboard. */
  lemma RegistrationStoresSession(fullName: string, email: string, password: string, user: string, session: Session, items: Storage)
    requires FieldsFilled(fullName, email, password)
    ensures var e := SignUpEffect(fullName, email, password, Succeeded(Registration(user, Some(session))));
      && e.writes.Keys == {"user", "access_token", "refresh_token"}
      && Apply(items, e) == items["user" := user]["access_token" := session.accessToken]["refresh_token" := session.refreshToken]
      && e.toast.kind == Success
      && e.navigation == Some("/dashboard")
  {
  }

  /** A 401 is reported as "Authentication failed", whatever the server said. */
  lemma UnauthorizedIgnoresServerMessage(message: Option<string>)
    ensures FailureMessage(Some(ErrorResponse(401, message))) == "Authentication failed"
  {
  }

  /** Any other rejection shows the server's non-empty message, or else the generic one. */
  lemma OtherFailureMessage(response: Option<ErrorResponse>)
    requires response.None? || response.value.status != 401
    ensures response.Some? && response.value.message.Some? && response.value.message.value != "" ==>
      FailureMessage(response) == response.value.message.value
    ensures response.None? || response.value.message.None? || response.value.message == Some("") ==>
      FailureMessage(response) == "Failed to create account"
  {
  }

  /** A rejected registration writes nothing, does not navigate and shows an error. */
  lemma FailedRegistrationChangesNothing(fullName: string, email: string, password: string, response: Option<ErrorResponse>, items: Storage)
    ensures Apply(items, SignUpEffect(fullName, email, password, Failed(response))) == items
    ensures SignUpEffect(fullName, email, password, Failed(response)).navigation == None
    ensures SignUpEffect(fullName, email, password, Failed(response)).toast.kind == Error
  {
  }

  /**
   * A registration answered without a session leaves the cached user behind
   * and reports the generic failure.
   */
  lemma MissingSessionStoresOnlyUser(fullName: string, email: string, password: string, user: string, items: Storage)
    requires FieldsFilled(fullName, email, password)
    ensures Apply(items, SignUpEffect(fullName, email, password, Succeeded(Registration(user, None)))) == items["user" := user]
    ensures SignUpEffect(fullName, email, password, Succeeded(Registration(user, None))).toast == ErrorToast("Failed to create account")
    ensures SignUpEffect(fullName, email, password, Succeeded(Registration(user, None))).navigation == None
  {
  }

  /** The handler navigates, always to the dashboard, exactly when a full session came back. */
  lemma NavigatesOnlyOnSuccess(fullName: string, email: string, password: string, register: Outcome<Registration>)
    ensures SignUpEffect(fullName, email, password, register).navigation.Some? <==>
      FieldsFilled(fullName, email, password) && register.Succeeded? && register.data.session.Some?
    ensures SignUpEffect(fullName, email, password, register).navigation.Some? ==>
      SignUpEffect(fullName, email, password, register).navigation == Some("/dashboard")
    ensures SignUpEffect(fullName, email, password, register).removals == {}
  {
  }

  /** The page's state and the services it uses. */
  class SignUpPage {
    var isLoading: bool
    var fullName: string
    var email: string
    var password: string
    const storage: LocalStorage
    const router: Router
    const toaster: ToastProvider

    constructor (storage: LocalStorage, router: Router, toaster: ToastProvider)
      ensures !isLoading && fullName == "" && email == "" && password == ""
      ensures this.storage == storage && this.router == router && this.toaster == toaster
    {
      isLoading := false;
      fullName, email, password := "", "", "";
      this.storage := storage;
      this.router := router;
      this.toaster := toaster;
    }

    method SetFullName(value: string)
      modifies this`fullName
      ensures fullName == value
    {
      fullName := value;
    }

    method SetEmail(value: string)
      modifies this`email
      ensures email == value
    {
      email := value;
    }

    method SetPassword(value: string)
      modifies this`password
      ensures password == value
    {
      password := value;
    }

    /**
     * The form's submit handler. `register` is how `auth.register` ends if it
     * is called; the request it is called with is returned, `None` if it is not.
     */
    method HandleSignUp(register: Outcome<Registration>, toastId: string) returns (request: Option<RegisterRequest>)
      modifies this`isLoading, storage, router, toaster
      ensures request == if FieldsFilled(fullName, email, password) then Some(RegisterRequest(email, password, fullName)) else None
      ensures isLoading == if request.None? then old(isLoading) else false
      ensures storage.items == Apply(old(storage.items), SignUpEffect(fullName, email, password, register))
      ensures toaster.toasts == old(toaster.toasts) + [Toast(toastId, SignUpEffect(fullName, email, password, register).toast)]
      ensures router.history == old(router.history) + Pushed(SignUpEffect(fullName, email, password, register))
    {
      if fullName == "" || email == "" || password == "" {
        toaster.ShowToast(ErrorToast(MissingFieldsMessage), toastId);
        return None;
      }

      ghost var before := storage.items;
      ghost var e := SignUpEffect(fullName, email, password, register);
      isLoading := true;
      request := Some(RegisterRequest(email, password, fullName));
      match register {
        case Succeeded(registration) =>
          storage.SetItem("user", registration.user);
          match registration.session {
            case Some(session) =>
              storage.SetItem("access_token", session.accessToken);
              storage.SetItem("refresh_token", session.refreshToken);
              RegistrationStoresSession(fullName, email, password, registration.user, session, before);
              toaster.ShowToast(CreatedToast, toastId);
              router.Push(RouteGuard.DashboardPrefix);
            case None =>
              assert e.writes == map["user" := registration.user] && e.removals == {};
              toaster.ShowToast(ErrorToast(FailureMessage(None)), toastId);
          }
        case Failed(response) =>
          assert e.writes == map[] && e.removals == {};
          toaster.ShowToast(ErrorToast(FailureMessage(response)), toastId);
      }
      isLoading := false;
    }
  }
}
