/**
 * The route table and its two guards: protected pages need a signed-in user,
 * the login and register pages send a signed-in user home, and any other path
 * goes home.
 */
module Routes {
  import opened Api

  datatype Page = LoginView | RegisterView | HomeView | DetailsView

  /** What the router does for a path: render a page, or redirect (with replace). */
  datatype Outcome = Render(page: Page) | Redirect(to: string)

  /** A stored user counts as signed in when it is truthy: present and not the empty string. */
  predicate SignedIn(user: Option<string>) {
    user.Some? && user.value != ""
  }

  /** The guard around the home and detail pages. */
  function Protected(page: Page, user: Option<string>): Outcome {
    if SignedIn(user) then Render(page) else Redirect("/login")
  }

  /** The guard around the login and register pages. */
  function Public(page: Page, user: Option<string>): Outcome {
    if SignedIn(user) then Redirect("/") else Render(page)
  }

  function PathOf(page: Page): string {
    match page
    case LoginView => "/login"
    case RegisterView => "/register"
    case HomeView => "/"
    case DetailsView => "/details"
  }

  /**
   * The route table. `/` and `/details` render iff the user is signed in and
   * otherwise go to `/login`; `/login` and `/register` go to `/` iff the user
   * is signed in and otherwise render; every other path goes to `/`. A page
   * rendered is always the one its path names.
   */
  function Route(path: string, user: Option<string>): (o: Outcome)
    ensures path == "/" || path == "/details" ==>
      (o.Render? <==> SignedIn(user)) && (o.Redirect? ==> o.to == "/login")
    ensures path == "/login" || path == "/register" ==>
      (o.Redirect? <==> SignedIn(user)) && (o.Redirect? ==> o.to == "/")
    ensures path !in {"/", "/details", "/login", "/register"} ==> o == Redirect("/")
    ensures o.Render? ==> PathOf(o.page) == path
  {
    if path == "/login" then Public(LoginView, user)
    else if path == "/register" then Public(RegisterView, user)
    else if path == "/" then Protected(HomeView, user)
    else if path == "/details" then Protected(DetailsView, user)
    else Redirect("/")
  }

  /** An empty stored user is routed exactly like no user at all. */
  lemma EmptyUserIsSignedOut(path: string)
    ensures Route(path, Some("")) == Route(path, None)
  {
  }

  /** The page reached from `path` by following at most `hops` redirects, if any. */
  function Settle(path: string, user: Option<string>, hops: nat): Option<Page>
    decreases hops
  {
    match Route(path, user)
    case Render(page) => Some(page)
    case Redirect(to) => if hops == 0 then None else Settle(to, user, hops - 1)
  }

  /**
   * Redirects never loop: from any path at most two redirects reach a page. A
   * signed-in user lands on the details page from `/details` and on the home
   * page from everywhere else; a signed-out user lands on the register page
   * from `/register` and on the login page from everywhere else.
   */
  lemma SettlesWithinTwoRedirects(path: string, user: Option<string>)
    ensures Settle(path, user, 2) == Some(
      if SignedIn(user) then (if path == "/details" then DetailsView else HomeView)
      else (if path == "/register" then RegisterView else LoginView))
  {
    var o := Route(path, user);
    if o.Redirect? {
      var o' := Route(o.to, user);
      if o'.Redirect? {
        assert Route(o'.to, user).Render?;
      }
    }
  }

  /** Where the register page's success navigation to `/` ends for a visitor with no session. */
  lemma RegisteredVisitorLandsOnLogin(user: Option<string>)
    requires !SignedIn(user)
    ensures Route("/", user) == Redirect("/login")
    ensures Settle("/", user, 1) == Some(LoginView)
  {
    assert Route("/login", user) == Render(LoginView);
  }
}
