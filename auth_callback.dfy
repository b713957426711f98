/**
 * The OAuth landing page (app/auth/callback/page.tsx): the token pair handed
 * back in the query string is stored and the app reloaded at `/`.
 */
module AuthCallback {
  import opened Wrappers
  import opened Platform

  /**
   * The mount effect, given the `accessToken` and `refreshToken` query
   * parameters. Both must be non-empty; the stored user is never written.
   */
  method HandleCallback(browser: Browser, accessToken: Option<string>, refreshToken: Option<string>)
    modifies browser
    ensures Truthy(accessToken) && Truthy(refreshToken) ==>
              && browser.storage == old(browser.storage)[AccessTokenKey := accessToken.value][RefreshTokenKey := refreshToken.value]
              && browser.events == old(browser.events) + [Redirect("/")]
    ensures !(Truthy(accessToken) && Truthy(refreshToken)) ==>
              && browser.storage == old(browser.storage)
              && browser.events == old(browser.events) + [Notify(Error, "Failed to login with Google", None), Navigate("/login")]
    ensures UserKey in browser.storage <==> UserKey in old(browser.storage)
    ensures UserKey in browser.storage ==> browser.storage[UserKey] == old(browser.storage)[UserKey]
  {
    if Truthy(accessToken) && Truthy(refreshToken) {
      browser.SetItem(AccessTokenKey, accessToken.value);
      browser.SetItem(RefreshTokenKey, refreshToken.value);
      browser.Emit(Redirect("/"));
    } else {
      browser.Emit(Notify(Error, "Failed to login with Google", None));
      browser.Emit(Navigate("/login"));
    }
  }
}
