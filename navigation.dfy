/** How the framework's routing middleware acts on the policy's decision,
    request after request: an allowed request is served, a redirect is
    followed to its target, and a refused request is sent to the configured
    sign-in page (unless it already asked for that page, which this policy
    never refuses). This is the loop in which a redirect cycle would show. */
module Navigation {
  import opened AuthConfig

  /** Where a browser ends up: the page served and the number of redirects
      followed to reach it, or no page within the allowed number of hops. */
  datatype Landing = Landed(page: string, hops: nat) | TooManyRedirects

  function AddHop(l: Landing): (r: Landing)
  {
    match l
    case Landed(page, hops) => Landed(page, hops + 1)
    case TooManyRedirects => TooManyRedirects
  }

  /** Requests `pathname` and follows at most `budget` redirects. A refusal
      is followed to the sign-in page. The framework serves a refused request
      for the sign-in page itself instead of redirecting it; under this policy
      that case never arises, because the sign-in page is never refused
      (`SignInPageRule`). Whatever page is reached is one the policy serves
      to this session, and a page reached without a redirect is the one
      requested. */
  function Navigate(auth: Option<Session>, pathname: string, budget: nat): (l: Landing)
    ensures l.Landed? ==> Authorized(auth, l.page) == Allow && l.hops <= budget
    ensures l.Landed? && l.hops == 0 ==> l.page == pathname
    ensures Authorized(auth, pathname) == Allow <==> l == Landed(pathname, 0)
    decreases budget
  {
    match Authorized(auth, pathname)
    case Allow => Landed(pathname, 0)
    case Redirect(target) =>
      if budget == 0 then TooManyRedirects else AddHop(Navigate(auth, target, budget - 1))
    case Deny =>
      if budget == 0 then TooManyRedirects else AddHop(Navigate(auth, SignInPage, budget - 1))
  }

  /** Every request settles within two redirects, for every session and
      every pathname; an anonymous visitor needs at most one, and a
      logged-in user who is turned away ends on the dashboard. */
  lemma {:induction false} NavigationSettles(auth: Option<Session>, pathname: string)
    ensures Navigate(auth, pathname, 2).Landed?
    ensures !IsLoggedIn(auth) ==> Navigate(auth, pathname, 1).Landed?
    ensures IsLoggedIn(auth) && Authorized(auth, pathname) != Allow ==>
      Navigate(auth, pathname, 2).page == DashboardHome
  {
  }

  /** Two redirects are sometimes needed: a logged-in user without the admin
      address is refused on `/admin`, sent to the sign-in page, and from
      there redirected to the dashboard. */
  lemma {:induction false} TwoHopsNeeded(user: User, expires: string)
    requires user.email != Some(AdminEmail)
    ensures Navigate(Some(Session(Some(user), expires)), AdminPrefix, 1) == TooManyRedirects
    ensures Navigate(Some(Session(Some(user), expires)), AdminPrefix, 2) == Landed(DashboardHome, 2)
  {
  }
}
