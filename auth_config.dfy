/** The route-authorization policy of the dashboard application: the
    `authorized` callback of the NextAuth configuration, which decides for
    every requested pathname whether the request is served, refused, or
    sent on to the dashboard. */
module AuthConfig {
  import opened JsString

  datatype Option<+T> = None | Some(value: T)

  /** The user record NextAuth keeps in a session; every field may be absent. */
  datatype User = User(id: Option<string>, name: Option<string>, email: Option<string>, image: Option<string>)

  /** The `auth` argument of the callback when a session exists; its `user`
      may still be absent. The callback receives `Option<Session>`. */
  datatype Session = Session(user: Option<User>, expires: string)

  /** What the callback returns: `true`, `false`, or a redirect response.
      A redirect is modelled by the pathname it points to. */
  datatype Decision = Allow | Deny | Redirect(target: string)

  /** The configured sign-in page; the framework sends refused requests here. */
  const SignInPage: string := "/login"
  const AdminPrefix: string := "/admin"
  const DashboardPrefix: string := "/dashboard"
  /** The pathname of the redirect issued to logged-in users on public pages. */
  const DashboardHome: string := "/dashboard"
  /** The single address that may enter the admin area. */
  const AdminEmail: string := "admin@admin.com"

  /** `!!auth?.user`: a session exists and carries a user object. Any user
      object is truthy, so its fields play no part. */
  function IsLoggedIn(auth: Option<Session>): (b: bool)
    ensures auth.None? ==> !b
    ensures auth.Some? && auth.value.user.None? ==> !b
    ensures forall u :: auth.Some? && auth.value.user == Some(u) ==> b
  {
    auth.Some? && auth.value.user.Some?
  }

  /** `auth?.user?.email`: absent as soon as any link of the chain is. */
  function EmailOf(auth: Option<Session>): (e: Option<string>)
    ensures e.Some? ==> IsLoggedIn(auth)
    ensures IsLoggedIn(auth) ==> e == auth.value.user.value.email
  {
    match auth
    case None => None
    case Some(session) =>
      match session.user
      case None => None
      case Some(user) => user.email
  }

  /** The admin test of the callback, `isLoggedIn && email === AdminEmail`.
      Its first conjunct is implied by the second: only the email decides. */
  function IsAdmin(auth: Option<Session>): (b: bool)
    ensures b <==> EmailOf(auth) == Some(AdminEmail)
    ensures b ==> IsLoggedIn(auth)
  {
    IsLoggedIn(auth) && EmailOf(auth) == Some(AdminEmail)
  }

  /** The `authorized` callback. The admin rule is checked first, then the
      dashboard rule; every other page turns logged-in users away to the
      dashboard and lets anonymous visitors in. */
  function Authorized(auth: Option<Session>, pathname: string): (d: Decision)
    // admin area: served exactly to the admin address, refused otherwise
    ensures AdminPrefix <= pathname ==> (d == Allow <==> IsAdmin(auth)) && !d.Redirect?
    // dashboard area (outside the admin area): served exactly to logged-in users
    ensures !(AdminPrefix <= pathname) && DashboardPrefix <= pathname ==>
      (d == Allow <==> IsLoggedIn(auth)) && !d.Redirect?
    // a redirect happens exactly for logged-in users outside both areas
    ensures d.Redirect? <==> IsLoggedIn(auth) && !(AdminPrefix <= pathname) && !(DashboardPrefix <= pathname)
    ensures d.Redirect? ==> d.target == DashboardHome
    // a refusal needs a protected pathname and missing credentials
    ensures d == Deny ==>
      (AdminPrefix <= pathname && !IsAdmin(auth)) || (DashboardPrefix <= pathname && !IsLoggedIn(auth))
  {
    var isLoggedIn := IsLoggedIn(auth);
    var isOnAdmin := StartsWith(pathname, AdminPrefix);
    var isOnDashboard := StartsWith(pathname, DashboardPrefix);
    if isOnAdmin then
      if isLoggedIn && EmailOf(auth) == Some(AdminEmail) then Allow else Deny
    else if isOnDashboard then
      if isLoggedIn then Allow else Deny
    else if isLoggedIn then
      Redirect(DashboardHome)
    else
      Allow
  }

  /** The two protected prefixes differ at their second character, so no
      pathname lies under both. */
  lemma {:induction false} AreasDisjoint(pathname: string)
    ensures !(AdminPrefix <= pathname && DashboardPrefix <= pathname)
  {
    StartsWithExclusive(pathname, AdminPrefix, DashboardPrefix, 1);
  }

  /** Any pathname that begins with `/admin` is decided by the admin rule
      alone: it is served to the admin address and refused to everyone else,
      and it is never redirected. */
  lemma {:induction false} AdminRule(auth: Option<Session>, rest: string)
    ensures Authorized(auth, AdminPrefix + rest) == (if IsAdmin(auth) then Allow else Deny)
  {
  }

  /** A user record without the admin address, whatever its other fields
      and whatever the session's expiry, is refused on every admin pathname:
      a logged-in user is not enough, and the redirect that the same user
      would get on a public page never happens here. */
  lemma {:induction false} NonAdminUserRefused(user: User, expires: string, rest: string)
    requires user.email != Some(AdminEmail)
    ensures Authorized(Some(Session(Some(user), expires)), AdminPrefix + rest) == Deny
  {
  }

  /** Any pathname that begins with `/dashboard` is served exactly to
      logged-in users and refused to anonymous ones. */
  lemma {:induction false} DashboardRule(auth: Option<Session>, rest: string)
    ensures Authorized(auth, DashboardPrefix + rest) == (if IsLoggedIn(auth) then Allow else Deny)
  {
    StartsWithAppend(DashboardPrefix, rest);
    AreasDisjoint(DashboardPrefix + rest);
  }

  /** Outside both protected areas, logged-in users are sent to the
      dashboard and anonymous visitors are served. */
  lemma {:induction false} PublicRule(auth: Option<Session>, pathname: string)
    requires !StartsWith(pathname, AdminPrefix) && !StartsWith(pathname, DashboardPrefix)
    ensures Authorized(auth, pathname) == (if IsLoggedIn(auth) then Redirect(DashboardHome) else Allow)
  {
  }

  /** The sign-in page lies outside both protected areas: anonymous visitors
      reach it, logged-in users are sent on to the dashboard. */
  lemma {:induction false} SignInPageRule(auth: Option<Session>)
    ensures Authorized(auth, SignInPage) == (if IsLoggedIn(auth) then Redirect(DashboardHome) else Allow)
  {
  }

  /** An anonymous visitor is never redirected: every pathname is either
      served or, in a protected area, refused. */
  lemma {:induction false} AnonymousNeverRedirected(auth: Option<Session>, pathname: string)
    requires !IsLoggedIn(auth)
    ensures !Authorized(auth, pathname).Redirect?
    ensures Authorized(auth, pathname) == Deny <==> AdminPrefix <= pathname || DashboardPrefix <= pathname
  {
  }

  /** The redirect target is itself a dashboard pathname, so the user it is
      issued to is served there: one redirect never leads to another. */
  lemma {:induction false} RedirectTargetServed(auth: Option<Session>, pathname: string)
    ensures Authorized(auth, pathname).Redirect? ==>
      Authorized(auth, Authorized(auth, pathname).target) == Allow
  {
  }

  /** Matching is a plain character prefix with no segment boundary:
      `/administrator` falls under the admin rule and `/dashboardx` under the
      dashboard rule. */
  lemma {:induction false} NoSegmentBoundary(auth: Option<Session>)
    ensures Authorized(auth, "/administrator") == (if IsAdmin(auth) then Allow else Deny)
    ensures Authorized(auth, "/dashboardx") == (if IsLoggedIn(auth) then Allow else Deny)
  {
  }
}
