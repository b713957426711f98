/**
 * The shell around every signed-in page (components/layout/DashboardLayout.tsx):
 * the sidebar with its highlighted entry, the avatar initials, and the
 * sign-out button.
 */
module DashboardLayout {
  import opened Wrappers
  import opened Platform
  import opened Text
  import opened Auth

  datatype NavItem = NavItem(name: string, href: string)

  const NavigationItems := [
    NavItem("Dashboard", "/"),
    NavItem("Profile", "/profile"),
    NavItem("Assessment", "/assessment"),
    NavItem("Family Members", "/profile/family"),
    NavItem("Documents", "/profile/documents"),
    NavItem("Applications", "/applications"),
    NavItem("Settings", "/settings")]

  /** An entry is highlighted on its own path and, except for `/`, on any path its href string-prefixes. */
  predicate IsActive(pathname: string, href: string) {
    pathname == href || (href != "/" && StartsWith(pathname, href))
  }

  /** `/` is highlighted only on `/` itself. */
  lemma RootOnlyExact(pathname: string)
    ensures IsActive(pathname, "/") <==> pathname == "/"
  {
  }

  /** Every other entry is highlighted on the paths below it. */
  lemma ActiveBelow(href: string, rest: string)
    requires href != "/"
    ensures IsActive(href + rest, href)
  {
    assert (href + rest)[..|href|] == href;
  }

  /** The Profile entry stays highlighted on the family and documents pages, beside their own entries. */
  lemma ProfileActiveOnSubpages()
    ensures IsActive("/profile/family", "/profile") && IsActive("/profile/family", "/profile/family")
    ensures IsActive("/profile/documents", "/profile") && IsActive("/profile/documents", "/profile/documents")
  {
    ActiveBelow("/profile", "/family");
    ActiveBelow("/profile", "/documents");
  }

  /** The test is on characters, not path segments: `/profiles` highlights Profile too. */
  lemma PrefixNotSegmentAware()
    ensures IsActive("/profiles", "/profile")
  {
    ActiveBelow("/profile", "s");
  }

  /** The avatar: the first letter of the first name followed by the first letter of the last name. */
  function Initials(user: Option<User>): (r: string)
    ensures user.None? ==> r == ""
    ensures user.Some? ==> r == FirstChar(user.value.firstName) + FirstChar(user.value.lastName)
    ensures |r| <= 2
    ensures user.Some? && user.value.firstName != "" && user.value.lastName != "" ==>
              r == [user.value.firstName[0], user.value.lastName[0]]
  {
    if user.None? then "" else FirstChar(user.value.firstName) + FirstChar(user.value.lastName)
  }

  class Layout {
    var sidebarOpen: bool
    var isLoggingOut: bool
    const auth: AuthProvider
    const browser: Browser

    predicate Valid() {
      auth.browser == browser
    }

    constructor (auth: AuthProvider)
      ensures Valid() && this.auth == auth && !sidebarOpen && !isLoggingOut
    {
      this.auth := auth;
      browser := auth.browser;
      sidebarOpen := false;
      isLoggingOut := false;
    }

    /** The menu button. */
    method OpenSidebar()
      modifies this
      ensures sidebarOpen && isLoggingOut == old(isLoggingOut)
    {
      sidebarOpen := true;
    }

    /** The backdrop and the close button. */
    method CloseSidebar()
      modifies this
      ensures !sidebarOpen && isLoggingOut == old(isLoggingOut)
    {
      sidebarOpen := false;
    }

    /** A click on any navigation entry follows it and closes the sidebar. */
    method ClickNav(item: NavItem)
      requires item in NavigationItems
      modifies this, browser
      ensures !sidebarOpen && isLoggingOut == old(isLoggingOut)
      ensures browser.events == old(browser.events) + [Navigate(item.href)]
      ensures browser.storage == old(browser.storage)
    {
      sidebarOpen := false;
      browser.Emit(Navigate(item.href));
    }

    /** `handleLogout` up to its `await`: the flag is raised and `logout` starts. */
    method BeginLogout()
      requires Valid()
      modifies this, browser
      ensures isLoggingOut && sidebarOpen == old(sidebarOpen)
      ensures browser.storage == old(browser.storage)
      ensures browser.events == old(browser.events) + [Call(Post, "/auth/logout")]
    {
      isLoggingOut := true;
      auth.BeginLogout();
    }

    /**
     * The rest of `handleLogout`: `logout` always resolves, so the push to
     * `/login` always follows its own, and the flag is lowered.
     */
    method FinishLogout()
      requires Valid()
      modifies this, auth, browser
      ensures !isLoggingOut && sidebarOpen == old(sidebarOpen)
      ensures auth.user == None && auth.loading == old(auth.loading)
      ensures browser.storage == old(browser.storage) - SessionKeys
      ensures browser.events == old(browser.events) + [Navigate(LoginPage),
                Notify(Success, "Logged out successfully", None), Navigate("/login")]
    {
      auth.FinishLogout();
      browser.Emit(Navigate("/login"));
      isLoggingOut := false;
    }
  }
}
