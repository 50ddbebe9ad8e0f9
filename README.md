# Route authorization of the dashboard application

This project models, in Dafny, the route-authorization policy of a small
Next.js business dashboard: the `authorized` callback of its NextAuth
configuration (`auth.config.ts`). For every request the callback receives
the session (which may be missing, or may lack a user) and the requested
pathname, and answers one of three ways: serve the page (`true`), refuse it
(`false`), or redirect to `/dashboard`. The rules are ordered:

1. a pathname beginning with `/admin` is served only to a logged-in user
   whose email is exactly `admin@admin.com`;
2. a pathname beginning with `/dashboard` is served only to a logged-in user;
3. any other pathname redirects logged-in users to `/dashboard` and is
   served to anonymous visitors.

Files:

- `js_string.dfy` (module `JsString`): JavaScript's `startsWith`, as a
  character-by-character recursion, proved equal to Dafny's sequence-prefix
  relation `<=`.
- `auth_config.dfy` (module `AuthConfig`): the session shape (`Session`,
  `User`), the `Decision` datatype, the configured constants (sign-in page
  `/login`, the two prefixes, the redirect target, the admin address), the
  callback `Authorized`, and lemmas for each rule and for rule precedence.
- `navigation.dfy` (module `Navigation`): how the framework acts on the
  decision, request after request: a redirect is followed to its target, and
  a refusal sends the browser to the configured sign-in page. (The framework
  serves a refused request for the sign-in page itself instead; this policy
  never refuses the sign-in page, so that case does not arise.) This is where
  the absence of redirect loops is proved: every request settles within two
  hops.

The callback's redirect is `Response.redirect(new URL('/dashboard', nextUrl))`;
the model keeps only the target pathname `/dashboard`. The framework's reaction
to a refusal (going to the sign-in page configured at `auth.config.ts:5`) is
NextAuth behaviour, not code of this repository. It is modelled in
`Navigation.Navigate` only so that the loop-freedom property can be stated.

## Model

| member | source | states |
|---|---|---|
| `JsString.StartsWith` | auth.config.ts:10-11 | `startsWith` holds exactly when the prefix is a sequence prefix of the pathname, i.e. the pathname's first characters equal the prefix |
| `AuthConfig.IsLoggedIn` | auth.config.ts:9 | `!!auth?.user` is true exactly when a session exists and carries a user object: a missing session or a session with no user is anonymous, and any user object, even one with every field absent, counts as logged in (a JavaScript object is always truthy) |
| `AuthConfig.EmailOf` | auth.config.ts:13 | `auth?.user?.email` is present only for a logged-in session, and then it is the user's own email field |
| `AuthConfig.IsAdmin` | auth.config.ts:13 | the admin test holds exactly when the session's email is `admin@admin.com`; it implies being logged in, so the `isLoggedIn &&` conjunct adds nothing |
| `AuthConfig.Authorized` | auth.config.ts:8-21 | on `/admin…` the result is Allow iff the user is the admin, and never a redirect; on `/dashboard…` outside `/admin` it is Allow iff logged in, never a redirect; a redirect happens exactly for logged-in users outside both areas and always targets `/dashboard`; a refusal needs a protected pathname without the required credentials |
| `AuthConfig.AreasDisjoint` | auth.config.ts:10-11 | no pathname begins with both `/admin` and `/dashboard`: the two protected areas are disjoint |
| `AuthConfig.AdminRule` | auth.config.ts:12-14 | for every suffix, `/admin` + suffix yields Allow for the admin address and Deny for every other session |
| `AuthConfig.NonAdminUserRefused` | auth.config.ts:13 | a user record whose email is missing or differs from `admin@admin.com` is refused on every admin pathname, whatever its id, name, image and the session's expiry; stated on the user record itself, it shows that being logged in is not enough and that such a user is refused rather than redirected (the admin rule comes before the redirect rule) |
| `AuthConfig.DashboardRule` | auth.config.ts:11-16 | for every suffix, `/dashboard` + suffix yields Allow iff a user is logged in, otherwise Deny |
| `AuthConfig.PublicRule` | auth.config.ts:17-20 | on a pathname outside both prefixes a logged-in user is redirected to `/dashboard` and an anonymous visitor is served |
| `AuthConfig.SignInPageRule` | auth.config.ts:5-20 | the sign-in page `/login` is public: anonymous visitors are served, logged-in users redirected to `/dashboard` |
| `AuthConfig.AnonymousNeverRedirected` | auth.config.ts:9-20 | an anonymous request is never redirected (to any target), and it is refused exactly on pathnames under `/admin` or `/dashboard` |
| `AuthConfig.RedirectTargetServed` | auth.config.ts:15-18 | whenever the callback redirects, the same session is served at the redirect target, so a redirect never leads to another |
| `AuthConfig.NoSegmentBoundary` | auth.config.ts:10-11 | prefix matching ignores path segments: `/administrator` is judged by the admin rule and `/dashboardx` by the dashboard rule |
| `Navigation.Navigate` | auth.config.ts:5-21 | following decisions (redirect to its target, refusal to the sign-in page) only ever lands on a page the policy serves to that session, within the hop budget; it lands on the requested page with no hop exactly when that page is allowed |
| `Navigation.NavigationSettles` | auth.config.ts:5-21 | every session and pathname settles within two hops; anonymous visitors within one; a logged-in user turned away ends on `/dashboard` |
| `Navigation.TwoHopsNeeded` | auth.config.ts:5-18 | the two-hop bound is reached: a logged-in non-admin user asking for `/admin` is refused, sent to `/login`, then redirected to `/dashboard` |

## Left out

- `app/seed/route.ts` (database schema creation and seeding): SQL sent through a managed database client, password hashing and a transaction; there is no in-process logic to verify. Its defects (a stray `;` in the stocks DDL, currencies inserted into `stocks`, stocks seeded before currencies, invoice inserts without `id` so the conflict clause never fires, a MySQL-only `ON UPDATE` clause) are therefore not modelled.
- `app/ui/signup-form.tsx`, `app/ui/error-text.tsx`, `app/dashboard/customers/page.tsx`: rendering only; the form's `required` and `minLength` checks are enforced by the browser, not by code of the repository.
- The URL construction of the redirect response and the `callbackUrl` query parameter that the framework attaches when it sends a refused request to the sign-in page: decisions carry only the target pathname.
- Session and cookie mechanics of NextAuth and how `auth` is obtained: the session is an input to the callback.
- Character units: JavaScript compares UTF-16 code units, the model compares Dafny characters; all prefixes in the policy are ASCII, so the two comparisons agree.
