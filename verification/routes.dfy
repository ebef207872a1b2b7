/**
  `AppRoutes`: what the application shows for the session store's state and the current
  pathname. It is the only gate in front of the protected pages.
 */
module Routes {
  import opened Wrappers
  import Session

  /** The page components. `AIInsightsHub` is the full insights page module, which no route
      mounts; the `insights` route mounts the placeholder declared next to the routes. */
  datatype Page =
    | Dashboard | Watchlist | MarketNews | InsightsPlaceholder | Analytics | AIChat | Settings
    | AIInsightsHub

  datatype Outcome = Spinner | Landing | Show(page: Page) | Redirect(to: string)

  /** The routes nested under the `/` layout, keyed by full pathname. */
  const RouteTable: map<string, Page> := map[
    "/" := Dashboard,
    "/watchlist" := Watchlist,
    "/news" := MarketNews,
    "/insights" := InsightsPlaceholder,
    "/analytics" := Analytics,
    "/chat" := AIChat,
    "/settings" := Settings
  ]

  /** Where the catch-all `*` route navigates. */
  const FallbackPath: string := "/"

  /** The sidebar's navigation targets, in display order. */
  const SidebarHrefs: seq<string> :=
    ["/", "/watchlist", "/news", "/insights", "/analytics", "/chat", "/settings"]

  /** The decision `AppRoutes` makes. */
  function Guard(isLoading: bool, user: Option<Session.User>, path: string): (r: Outcome)
    ensures r == Spinner <==> isLoading
    ensures r == Landing <==> !isLoading && user.None?
    ensures r.Show? <==> !isLoading && user.Some? && path in RouteTable
    ensures r.Show? ==> r.page == RouteTable[path]
    ensures r.Redirect? <==> !isLoading && user.Some? && path !in RouteTable
    ensures r.Redirect? ==> r.to == FallbackPath
  {
    if isLoading then Spinner
    else if user.None? then Landing
    else if path in RouteTable then Show(RouteTable[path])
    else Redirect(FallbackPath)
  }

  function Render(s: Session.State, path: string): Outcome {
    Guard(s.isLoading, s.user, path)
  }

  /** A protected page is shown only to a signed-in user once loading is over. */
  lemma ProtectedNeedsUser(isLoading: bool, user: Option<Session.User>, path: string)
    ensures Guard(isLoading, user, path).Show? ==> !isLoading && user.Some?
    ensures Guard(isLoading, user, path).Redirect? ==> !isLoading && user.Some?
  {
  }

  /** Each route names a different page, so a page is reached by exactly one path. */
  lemma RoutesAreInjective(p: string, q: string)
    requires p in RouteTable && q in RouteTable && RouteTable[p] == RouteTable[q]
    ensures p == q
  {
  }

  /** The full insights page is unreachable: no state and no path mounts it. */
  lemma InsightsHubUnreachable(isLoading: bool, user: Option<Session.User>, path: string)
    ensures Guard(isLoading, user, path) != Show(AIInsightsHub)
    ensures Guard(false, Some(Session.User("1", "n", "e")), "/insights") == Show(InsightsPlaceholder)
  {
  }

  /** Every sidebar link lands on a page, never on the fallback redirect. */
  lemma SidebarLinksResolve(u: Session.User, k: int)
    requires 0 <= k < |SidebarHrefs|
    ensures Guard(false, Some(u), SidebarHrefs[k]).Show?
  {
  }

  /** The sidebar links and the route table cover the same pages, one link per route. */
  lemma SidebarCoversRoutes()
    ensures forall path :: path in RouteTable <==> path in SidebarHrefs
  {
  }

  /** The redirect lands on the dashboard in one step, so it cannot loop. */
  lemma RedirectReachesDashboard(u: Session.User, path: string)
    requires path !in RouteTable
    ensures Guard(false, Some(u), path) == Redirect(FallbackPath)
    ensures Guard(false, Some(u), Guard(false, Some(u), path).to) == Show(Dashboard)
  {
  }

  /** On the first render the start-up check has not run, so every path shows the spinner. */
  lemma MountShowsSpinner(stored: Option<Session.Record>, path: string)
    ensures Render(Session.Initial(stored), path) == Spinner
  {
  }

  /** A corrupt slot keeps the spinner up on every path, for good. */
  lemma CorruptSlotShowsSpinner(text: string, path: string)
    requires text != ""
    ensures Render(Session.Run(Some(Session.Unparseable(text)), []), path) == Spinner
  {
  }

  /** Signing out of a settled session brings back the landing page wherever the user is. */
  lemma SignOutShowsLanding(s: Session.State, path: string)
    requires !s.isLoading
    ensures Render(Session.SignOut(s), path) == Landing
  {
  }

  /** After the start-up check a session is either on the landing page or inside the protected
      tree, and which one is decided by the slot alone. */
  lemma StartupDecidedBySlot(stored: Option<Session.Record>, path: string)
    requires !Session.Corrupt(stored)
    ensures Render(Session.Run(stored, []), path) == Landing
        <==> !(stored.Some? && stored.value.Saved?)
  {
  }
}
