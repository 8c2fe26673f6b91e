/**
 * How the handlers' storage effects combine over the life of a cached
 * session: sign-up and the OAuth callback only ever write session keys, and
 * logout removes all of them, so logging out undoes either one.
 */
module SessionLifecycle {
  import opened Api
  import opened Browser
  import SignUp
  import AuthCallback
  import UserProfileDropdown

  /** Logging out after any effect that touches only session keys leaves the rest of storage as it was. */
  lemma LogoutClearsWhatSessionWrote(items: Storage, e: Effect)
    requires e.writes.Keys <= UserProfileDropdown.SessionKeys
    requires e.removals <= UserProfileDropdown.SessionKeys
    ensures Apply(Apply(items, e), UserProfileDropdown.LogoutEffect(Succeeded(()))) == items - UserProfileDropdown.SessionKeys
  {
  }

  /** Whatever a sign-up submission stored, a successful logout removes it again. */
  lemma LogoutUndoesSignUp(items: Storage, fullName: string, email: string, password: string,
                           register: Outcome<SignUp.Registration>)
    ensures Apply(Apply(items, SignUp.SignUpEffect(fullName, email, password, register)),
                  UserProfileDropdown.LogoutEffect(Succeeded(())))
      == items - UserProfileDropdown.SessionKeys
  {
  }

  /** Whatever the OAuth callback stored, a successful logout removes it again. */
  lemma LogoutUndoesCallback(items: Storage, params: AuthCallback.SearchParams)
    ensures Apply(Apply(items, AuthCallback.CallbackEffect(params)), UserProfileDropdown.LogoutEffect(Succeeded(())))
      == items - UserProfileDropdown.SessionKeys
  {
  }
}
