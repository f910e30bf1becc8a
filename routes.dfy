/** The route table and the authentication guard (`App.tsx`). `/auth` and
    `/auth/callback` are public; every other path, including unknown ones, is
    rendered through the guard, which shows a placeholder while the session
    probe runs and sends unauthenticated visitors to `/auth`. */
module App {
  import Text
  import Gateway

  /** What `PrivateRoutes` renders. */
  datatype GuardView = Placeholder | Protected | RedirectToAuth

  /** `PrivateRoutes`: loading wins, then the authentication flag decides. */
  function PrivateRoutes(loading: bool, isAuthenticated: bool): (v: GuardView)
    ensures loading <==> v == Placeholder
    ensures !loading && isAuthenticated ==> v == Protected
    ensures !loading && !isAuthenticated ==> v == RedirectToAuth
  {
    if loading then Placeholder
    else if isAuthenticated then Protected
    else RedirectToAuth
  }

  datatype Page =
    | AuthPage | AuthCallbackPage
    | IndexPage | TasksPage | TaskPage(id: string) | SearchPage | SettingsPage
    | NotFoundPage

  /** The page a path selects, and whether it sits under the guard. */
  datatype Route = Route(page: Page, guarded: bool)

  /** The path with every trailing '/' removed: the router accepts any number of them. */
  function StripTrailingSlashes(p: string): (r: string)
    ensures |r| <= |p| && r == p[..|r|]
    ensures r == [] || r[|r| - 1] != '/'
  {
    if p != [] && p[|p| - 1] == '/' then StripTrailingSlashes(p[..|p| - 1]) else p
  }

  /** A `:id` segment: non-empty and without '/'. */
  predicate IsSegment(s: string) {
    s != [] && '/' !in s
  }

  /** The route the table selects for a pathname, matched without regard to ASCII
      case and trailing slashes. Static routes outrank `/task/:id`, which
      outranks the catch-all; of the two catch-alls the guarded one comes first. */
  function Match(pathname: string): (r: Route)
    ensures r.guarded <==> r.page != AuthPage && r.page != AuthCallbackPage
    ensures r.page.TaskPage? ==> IsSegment(r.page.id)
  {
    var p := StripTrailingSlashes(pathname);
    var key := Text.Lower(p);
    if key == "/auth" then Route(AuthPage, false)
    else if key == "/auth/callback" then Route(AuthCallbackPage, false)
    else if key == "" then Route(IndexPage, true)
    else if key == "/tasks" then Route(TasksPage, true)
    else if key == "/search" then Route(SearchPage, true)
    else if key == "/settings" then Route(SettingsPage, true)
    else if |p| > 6 && key[..6] == "/task/" && IsSegment(p[6..]) then Route(TaskPage(p[6..]), true)
    else Route(NotFoundPage, true)
  }

  /** What the browser shows for a path in a given authentication state. */
  datatype Screen = Show(page: Page) | Loading | Redirect(to: string)

  function Resolve(pathname: string, loading: bool, isAuthenticated: bool): (s: Screen)
    ensures !Match(pathname).guarded ==> s == Show(Match(pathname).page)
    ensures Match(pathname).guarded ==>
      s == (match PrivateRoutes(loading, isAuthenticated)
            case Placeholder => Loading
            case Protected => Show(Match(pathname).page)
            case RedirectToAuth => Redirect("/auth"))
  {
    var r := Match(pathname);
    if !r.guarded then Show(r.page)
    else match PrivateRoutes(loading, isAuthenticated)
      case Placeholder => Loading
      case Protected => Show(r.page)
      case RedirectToAuth => Redirect("/auth")
  }

  /** Every protected page, known or not, is reachable only when authenticated,
      and the guard's redirect target is itself public, so a redirect is never
      followed by another. */
  lemma GuardProtectsEverything(pathname: string, loading: bool, isAuthenticated: bool)
    ensures (Resolve(pathname, loading, isAuthenticated).Show? && Match(pathname).guarded) ==>
              !loading && isAuthenticated
    ensures Resolve(pathname, loading, isAuthenticated).Redirect? ==>
            Resolve(Resolve(pathname, loading, isAuthenticated).to, loading, isAuthenticated) == Show(AuthPage)
  {
    assert Text.Lower("/auth") == "/auth";
  }

  /** The path the provider's OAuth redirect lands on is the public callback page,
      whatever the authentication state. */
  lemma CallbackIsPublic(provider: string, origin: string, loading: bool, isAuthenticated: bool)
    ensures var target := Gateway.OAuthRequestFor(provider, origin).redirectTo;
      Resolve(target[|origin|..], loading, isAuthenticated) == Show(AuthCallbackPage)
  {
    assert Text.Lower(Gateway.CallbackPath) == "/auth/callback";
  }
}
